/** internal/ratelimit/circuit.go: the per-workload circuit breaker. */
module CircuitBreakers {
  import opened Prelude
  import opened Text

  /** The breaker's state as a value. */
  datatype Breaker = Breaker(
    threshold: int,
    window: int,
    actions: map<string, seq<int>>,
    tripped: map<string, int>)

  /** One call that RecordAndCheck let through, at the clock it read. */
  datatype Pass = Pass(key: string, at: int)

  function Key(ns: string, workload: string): string {
    ns + "/" + workload
  }

  /** No namespace holds a slash, so each workload of each namespace has a key of its own. */
  lemma {:induction false} KeyExact(ns: string, workload: string, ns': string, workload': string)
    requires '/' !in ns && '/' !in ns'
    ensures Key(ns, workload) == Key(ns', workload') <==> ns == ns' && workload == workload'
  {
    assert Key(ns, workload) == ns + ['/'] + workload && Key(ns', workload') == ns' + ['/'] + workload';
    if Key(ns, workload) == Key(ns', workload') {
      CutUnique(ns, workload, ns', workload', '/');
    }
  }

  function ActionsOf(b: Breaker, key: string): seq<int> {
    if key in b.actions then b.actions[key] else []
  }

  function Forget(b: Breaker, key: string): Breaker {
    b.(actions := b.actions - {key}, tripped := b.tripped - {key})
  }

  predicate Blocking(b: Breaker, key: string, now: int) {
    key in b.tripped && now - b.tripped[key] < b.window
  }

  /** RecordAndCheck as a function: the new state and whether the action may go on. */
  function AfterRecord(b: Breaker, key: string, now: int): (Breaker, bool) {
    if Blocking(b, key, now) then (b, false)
    else
      var base := if key in b.tripped then Forget(b, key) else b;
      var kept := After(ActionsOf(base, key), now - b.window) + [now];
      var counted := base.(actions := base.actions[key := kept]);
      if |kept| >= b.threshold
      then (counted.(tripped := counted.tripped[key := now]), false)
      else (counted, true)
  }

  /** IsTripped as a function: it forgets an expired trip as it answers. */
  function AfterQuery(b: Breaker, key: string, now: int): (Breaker, bool) {
    if key !in b.tripped then (b, false)
    else if now - b.tripped[key] >= b.window then (Forget(b, key), false)
    else (b, true)
  }

  class CircuitBreaker {
    const threshold: int
    const window: int
    var actions: map<string, seq<int>>
    var tripped: map<string, int>

    function Model(): Breaker
      reads this
    {
      Breaker(threshold, window, actions, tripped)
    }

    constructor (threshold: int, window: int)
      ensures Model() == Breaker(if threshold <= 0 then 5 else threshold,
                                 if window <= 0 then HOUR else window, map[], map[])
    {
      this.threshold := if threshold <= 0 then 5 else threshold;
      this.window := if window <= 0 then HOUR else window;
      this.actions := map[];
      this.tripped := map[];
    }

    method RecordAndCheck(ns: string, workload: string, now: int) returns (ok: bool)
      modifies this
      ensures (Model(), ok) == AfterRecord(old(Model()), Key(ns, workload), now)
    {
      var key := Key(ns, workload);
      if key in tripped {
        if now - tripped[key] < window {
          return false;
        }
        tripped := tripped - {key};
        actions := actions - {key};
      }
      var cutoff := now - window;
      var existing := if key in actions then actions[key] else [];
      var pruned: seq<int> := [];
      for i := 0 to |existing|
        invariant pruned == After(existing[..i], cutoff)
      {
        assert existing[..i + 1][..i] == existing[..i];
        if existing[i] > cutoff {
          pruned := pruned + [existing[i]];
        }
      }
      assert existing[..|existing|] == existing;
      pruned := pruned + [now];
      actions := actions[key := pruned];
      if |pruned| >= threshold {
        tripped := tripped[key := now];
        return false;
      }
      return true;
    }

    method IsTripped(ns: string, workload: string, now: int) returns (yes: bool)
      modifies this
      ensures (Model(), yes) == AfterQuery(old(Model()), Key(ns, workload), now)
    {
      var key := Key(ns, workload);
      if key !in tripped {
        return false;
      }
      if now - tripped[key] >= window {
        tripped := tripped - {key};
        actions := actions - {key};
        return false;
      }
      return true;
    }

    /** Lists the blocked workloads and changes nothing. */
    method TrippedWorkloads(now: int) returns (out: set<string>)
      ensures out == set key | key in tripped && Blocking(Model(), key, now)
    {
      out := {};
      var left := tripped.Keys;
      while left != {}
        invariant left <= tripped.Keys
        invariant out == set key | key in tripped.Keys - left && Blocking(Model(), key, now)
        decreases left
      {
        var key :| key in left;
        if now - tripped[key] < window {
          out := out + {key};
        }
        left := left - {key};
      }
    }
  }

  // ---- What the breaker promises over a run of calls ----

  /** The times at which key was let through. */
  function TimesOf(log: seq<Pass>, key: string): seq<int> {
    if log == [] then []
    else
      var rest := TimesOf(log[..|log| - 1], key);
      if log[|log| - 1].key == key then rest + [log[|log| - 1].at] else rest
  }

  lemma {:induction false} TimesPush(log: seq<Pass>, p: Pass, key: string)
    ensures TimesOf(log + [p], key) == TimesOf(log, key) + if p.key == key then [p.at] else []
  {
  }

  /** What the breaker remembers of one workload agrees with what it let through. */
  ghost predicate KeySound(b: Breaker, passes: seq<int>, key: string, now: int) {
    && AllAtMost(passes, now)
    && (key in b.tripped ==> b.tripped[key] <= now && AllAtMost(passes, b.tripped[key]))
    && (key !in b.tripped ==> After(ActionsOf(b, key), now - b.window) == After(passes, now - b.window))
  }

  /** In every half-open interval one window long, fewer than threshold passes. */
  ghost predicate Bounded(b: Breaker, passes: seq<int>) {
    forall lo :: CountFrom(passes, lo, b.window) <= b.threshold - 1
  }

  ghost predicate Sound(b: Breaker, log: seq<Pass>, now: int) {
    && b.threshold >= 1
    && (forall key :: KeySound(b, TimesOf(log, key), key, now))
    && (forall key :: Bounded(b, TimesOf(log, key)))
  }

  lemma {:induction false} KeyLater(b: Breaker, passes: seq<int>, key: string, now: int, later: int)
    requires KeySound(b, passes, key, now) && now <= later
    ensures KeySound(b, passes, key, later)
  {
    if key !in b.tripped {
      AfterAfter(ActionsOf(b, key), now - b.window, later - b.window);
      AfterAfter(passes, now - b.window, later - b.window);
    }
  }

  /** After a trip has expired, nothing let through before it is still in the window. */
  lemma {:induction false} ExpiredTrip(b: Breaker, passes: seq<int>, key: string, now: int)
    requires KeySound(b, passes, key, now) && key in b.tripped && !Blocking(b, key, now)
    ensures After(passes, now - b.window) == []
  {
    AfterNone(passes, now - b.window);
  }

  lemma {:induction false} BoundedPush(b: Breaker, passes: seq<int>, now: int)
    requires Bounded(b, passes)
    requires |After(passes, now - b.window)| + 1 <= b.threshold - 1
    ensures Bounded(b, passes + [now])
  {
    forall lo ensures CountFrom(passes + [now], lo, b.window) <= b.threshold - 1 {
      assert CountFrom(passes, lo, b.window) <= b.threshold - 1;
      CountPush(passes, now, lo, lo + b.window);
      if lo <= now < lo + b.window {
        CountAtMostAfter(passes, lo, lo + b.window, now - b.window);
      }
    }
  }

  function Extend(log: seq<Pass>, key: string, at: int, ok: bool): seq<Pass> {
    if ok then log + [Pass(key, at)] else log
  }

  /** One more pass, when the breaker's own list leaves room for it. */
  lemma {:induction false} PassSound(b: Breaker, kept: seq<int>, passes: seq<int>, key: string, now: int)
    requires Bounded(b, passes) && AllAtMost(passes, now)
    requires kept == After(passes, now - b.window) && |kept| + 1 < b.threshold
    requires key !in b.tripped && key in b.actions && b.actions[key] == kept + [now]
    ensures KeySound(b, passes + [now], key, now) && Bounded(b, passes + [now])
  {
    BoundedPush(b, passes, now);
    var cutoff := now - b.window;
    assert After(kept + [now], cutoff) == After(passes + [now], cutoff) by {
      AfterAfter(passes, cutoff, cutoff);
      AfterPush(kept, now, cutoff);
      AfterPush(passes, now, cutoff);
    }
    assert ActionsOf(b, key) == kept + [now];
  }

  /** The workload a call is about. */
  lemma {:induction false} RecordSoundHere(b: Breaker, passes: seq<int>, key: string, now: int)
    requires b.threshold >= 1 && KeySound(b, passes, key, now) && Bounded(b, passes)
    ensures var (b', ok) := AfterRecord(b, key, now);
            var passes' := if ok then passes + [now] else passes;
            KeySound(b', passes', key, now) && Bounded(b', passes')
  {
    if Blocking(b, key, now) {
      return;
    }
    var base := if key in b.tripped then Forget(b, key) else b;
    var kept := After(ActionsOf(base, key), now - b.window);
    assert kept == After(passes, now - b.window) by {
      if key in b.tripped { ExpiredTrip(b, passes, key, now); }
    }
    var (b', ok) := AfterRecord(b, key, now);
    assert b'.window == b.window && b'.threshold == b.threshold;
    if ok {
      PassSound(b', kept, passes, key, now);
    } else {
      assert Bounded(b', passes) by {
        forall lo ensures CountFrom(passes, lo, b'.window) <= b'.threshold - 1 {
          assert CountFrom(passes, lo, b.window) <= b.threshold - 1;
        }
      }
    }
  }

  /** Any other. */
  lemma {:induction false} RecordSoundElsewhere(b: Breaker, passes: seq<int>, key: string, now: int, other: string)
    requires KeySound(b, passes, other, now) && Bounded(b, passes) && other != key
    ensures var b' := AfterRecord(b, key, now).0; KeySound(b', passes, other, now) && Bounded(b', passes)
  {
    var b' := AfterRecord(b, key, now).0;
    assert ActionsOf(b', other) == ActionsOf(b, other) && (other in b'.tripped <==> other in b.tripped);
    forall lo ensures CountFrom(passes, lo, b'.window) <= b'.threshold - 1 {
      assert CountFrom(passes, lo, b.window) <= b.threshold - 1;
    }
  }

  lemma {:induction false} RecordSoundKey(b: Breaker, log: seq<Pass>, before: int, key: string, now: int, other: string)
    requires b.threshold >= 1 && before <= now
    requires KeySound(b, TimesOf(log, other), other, before) && Bounded(b, TimesOf(log, other))
    ensures var (b', ok) := AfterRecord(b, key, now);
            var times := TimesOf(Extend(log, key, now, ok), other);
            KeySound(b', times, other, now) && Bounded(b', times)
  {
    KeyLater(b, TimesOf(log, other), other, before, now);
    TimesPush(log, Pass(key, now), other);
    if other == key {
      RecordSoundHere(b, TimesOf(log, key), key, now);
    } else {
      RecordSoundElsewhere(b, TimesOf(log, other), key, now, other);
    }
  }

  lemma {:induction false} RecordKeepsThreshold(b: Breaker, key: string, now: int)
    ensures AfterRecord(b, key, now).0.threshold == b.threshold
  {
  }

  lemma {:induction false} RecordSound(b: Breaker, log: seq<Pass>, before: int, key: string, now: int)
    requires Sound(b, log, before) && before <= now
    ensures var (b', ok) := AfterRecord(b, key, now); Sound(b', Extend(log, key, now, ok), now)
  {
    var (b', ok) := AfterRecord(b, key, now);
    var log' := Extend(log, key, now, ok);
    RecordKeepsThreshold(b, key, now);
    forall other ensures KeySound(b', TimesOf(log', other), other, now) && Bounded(b', TimesOf(log', other)) {
      assert KeySound(b, TimesOf(log, other), other, before) && Bounded(b, TimesOf(log, other));
      RecordSoundKey(b, log, before, key, now, other);
    }
  }

  lemma {:induction false} QuerySound(b: Breaker, log: seq<Pass>, before: int, key: string, now: int)
    requires Sound(b, log, before) && before <= now
    ensures Sound(AfterQuery(b, key, now).0, log, now)
  {
    var b' := AfterQuery(b, key, now).0;
    forall other ensures KeySound(b', TimesOf(log, other), other, now) && Bounded(b', TimesOf(log, other)) {
      assert KeySound(b, TimesOf(log, other), other, before) && Bounded(b, TimesOf(log, other));
      KeyLater(b, TimesOf(log, other), other, before, now);
      if other == key && key in b.tripped && !Blocking(b, key, now) {
        ExpiredTrip(b, TimesOf(log, key), key, now);
      }
      assert other != key ==> ActionsOf(b', other) == ActionsOf(b, other);
    }
  }

  // ---- Any interleaving of calls, under one clock that never goes back ----

  datatype Call = Record(key: string, at: int) | Query(key: string, at: int)

  predicate Monotone(calls: seq<Call>, start: int) {
    forall i :: 0 <= i < |calls| ==> start <= calls[i].at && (i > 0 ==> calls[i - 1].at <= calls[i].at)
  }

  function Run(b: Breaker, calls: seq<Call>): (Breaker, seq<Pass>) {
    if calls == [] then (b, [])
    else
      var (b1, log) := Run(b, calls[..|calls| - 1]);
      match calls[|calls| - 1]
      case Record(key, at) =>
        var (b2, ok) := AfterRecord(b1, key, at);
        (b2, Extend(log, key, at, ok))
      case Query(key, at) => (AfterQuery(b1, key, at).0, log)
  }

  lemma {:induction false} RunSound(b: Breaker, calls: seq<Call>, start: int)
    requires b.threshold >= 1 && b.tripped == map[] && b.actions == map[]
    requires Monotone(calls, start)
    ensures var (b', log) := Run(b, calls);
            b'.threshold == b.threshold && b'.window == b.window
            && Sound(b', log, if calls == [] then start else calls[|calls| - 1].at)
  {
    if calls == [] {
      forall key ensures KeySound(b, TimesOf([], key), key, start) && Bounded(b, TimesOf([], key)) {
      }
    } else {
      var front := calls[..|calls| - 1];
      RunSound(b, front, start);
      var (b1, log) := Run(b, front);
      var before := if front == [] then start else front[|front| - 1].at;
      match calls[|calls| - 1] {
        case Record(key, at) => RecordSound(b1, log, before, key, at);
        case Query(key, at) => QuerySound(b1, log, before, key, at);
      }
    }
  }

  /** For every interleaving of RecordAndCheck and IsTripped, one workload is
      let through at most threshold - 1 times in any half-open interval as
      long as the window: the threshold-th action is the one that trips. */
  lemma {:induction false} BreakerBound(b: Breaker, calls: seq<Call>, start: int, key: string, lo: int)
    requires b.threshold >= 1 && b.tripped == map[] && b.actions == map[]
    requires Monotone(calls, start)
    ensures CountFrom(TimesOf(Run(b, calls).1, key), lo, b.window) <= b.threshold - 1
  {
    RunSound(b, calls, start);
    assert Bounded(Run(b, calls).0, TimesOf(Run(b, calls).1, key));
  }

  /** n actions at one instant have all been let through. */
  ghost predicate Filled(b: Breaker, b': Breaker, log: seq<Pass>, key: string, now: int, n: nat) {
    && log == Copies(Pass(key, now), n)
    && b'.threshold == b.threshold && b'.window == b.window && b'.tripped == map[]
    && ActionsOf(b', key) == Copies(now, n)
  }

  lemma {:induction false} FillAll(b: Breaker, key: string, now: int, n: nat)
    requires b.threshold >= 1 && b.window > 0 && b.tripped == map[] && b.actions == map[]
    requires n <= b.threshold - 1
    ensures Filled(b, Run(b, Copies(Record(key, now), n)).0, Run(b, Copies(Record(key, now), n)).1, key, now, n)
  {
    if n == 0 {
      assert Run(b, []) == (b, []);
    } else {
      var less := Copies(Record(key, now), n - 1);
      FillAll(b, key, now, n - 1);
      CopiesMore(Record(key, now), n - 1);
      RunPush(b, less, Record(key, now));
      FillOne(b, Run(b, less).0, Run(b, less).1, key, now, n - 1);
    }
  }

  /** The bound is met: while fewer than threshold - 1 actions have been let
      through at one instant the next one passes, and then one trips the breaker. */
  lemma {:induction false} BreakerBoundIsMet(b: Breaker, key: string, now: int, n: nat)
    requires b.threshold >= 1 && b.window > 0 && b.tripped == map[] && b.actions == map[]
    requires n <= b.threshold - 1
    ensures |Run(b, Copies(Record(key, now), n)).1| == n
    ensures AfterRecord(Run(b, Copies(Record(key, now), n)).0, key, now).1 <==> n < b.threshold - 1
  {
    FillAll(b, key, now, n);
    NextPasses(b, Run(b, Copies(Record(key, now), n)).0, Run(b, Copies(Record(key, now), n)).1, key, now, n);
  }

  lemma {:induction false} NextPasses(b: Breaker, b1: Breaker, log: seq<Pass>, key: string, now: int, n: nat)
    requires Filled(b, b1, log, key, now, n) && n <= b.threshold - 1 && b.window > 0
    ensures |log| == n && (AfterRecord(b1, key, now).1 <==> n < b.threshold - 1)
  {
    KeepsAll(n, now, now - b.window);
  }

  lemma {:induction false} FillOne(b: Breaker, b1: Breaker, log: seq<Pass>, key: string, now: int, n: nat)
    requires Filled(b, b1, log, key, now, n) && n + 1 < b.threshold && b.window > 0
    ensures var (b2, ok) := AfterRecord(b1, key, now);
            Filled(b, b2, Extend(log, key, now, ok), key, now, n + 1)
  {
    KeepsAll(n, now, now - b.window);
    CopiesMore(now, n);
    CopiesMore(Pass(key, now), n);
  }

  lemma {:induction false} RunPush(b: Breaker, calls: seq<Call>, c: Call)
    requires c.Record?
    ensures var (b1, log) := Run(b, calls);
            var (b2, ok) := AfterRecord(b1, c.key, c.at);
            Run(b, calls + [c]) == (b2, Extend(log, c.key, c.at, ok))
  {
  }

  lemma {:induction false} KeepsAll(n: nat, now: int, cutoff: int)
    requires cutoff < now
    ensures After(Copies(now, n), cutoff) == Copies(now, n)
  {
    if n > 0 {
      CopiesMore(now, n - 1);
      KeepsAll(n - 1, now, cutoff);
      AfterPush(Copies(now, n - 1), now, cutoff);
    }
  }

  // ---- What a caller can tell apart ----

  /** All that the rest of a run can learn about one workload. */
  datatype View = Active(since: int) | Counting(times: seq<int>)

  function ViewOf(b: Breaker, key: string, now: int): View {
    if key in b.tripped then if now - b.tripped[key] < b.window then Active(b.tripped[key]) else Counting([])
    else Counting(After(ActionsOf(b, key), now - b.window))
  }

  /** Two breakers no later call can tell apart, however they were pruned. */
  ghost predicate Same(b: Breaker, c: Breaker, now: int) {
    && b.threshold == c.threshold && b.window == c.window
    && forall key :: ViewOf(b, key, now) == ViewOf(c, key, now)
  }

  function Aged(v: View, window: int, now: int): View {
    match v
    case Active(since) => if now - since < window then v else Counting([])
    case Counting(times) => Counting(After(times, now - window))
  }

  lemma {:induction false} ViewAges(b: Breaker, key: string, now: int, later: int)
    requires now <= later
    ensures ViewOf(b, key, later) == Aged(ViewOf(b, key, now), b.window, later)
  {
    AfterAfter(ActionsOf(b, key), now - b.window, later - b.window);
  }

  lemma {:induction false} SameLater(b: Breaker, c: Breaker, now: int, later: int)
    requires Same(b, c, now) && now <= later
    ensures Same(b, c, later)
  {
    forall key ensures ViewOf(b, key, later) == ViewOf(c, key, later) {
      ViewAges(b, key, now, later);
      ViewAges(c, key, now, later);
      assert ViewOf(b, key, now) == ViewOf(c, key, now);
    }
  }

  /** What RecordAndCheck leaves to be seen of the workload it was asked about. */
  function Recorded(v: View, threshold: int, window: int, now: int): (View, bool) {
    match v
    case Active(_) => (v, false)
    case Counting(times) =>
      if |times| + 1 < threshold then (Counting(After(times + [now], now - window)), true)
      else (if window > 0 then Active(now) else Counting([]), false)
  }

  lemma {:induction false} ViewAfterRecord(b: Breaker, key: string, now: int)
    ensures (ViewOf(AfterRecord(b, key, now).0, key, now), AfterRecord(b, key, now).1)
            == Recorded(ViewOf(b, key, now), b.threshold, b.window, now)
  {
  }

  lemma {:induction false} ViewElsewhere(b: Breaker, key: string, other: string, now: int)
    requires key != other
    ensures ViewOf(AfterRecord(b, key, now).0, other, now) == ViewOf(b, other, now)
  {
  }

  lemma {:induction false} SameRecord(b: Breaker, c: Breaker, key: string, now: int)
    requires Same(b, c, now)
    ensures AfterRecord(b, key, now).1 == AfterRecord(c, key, now).1
    ensures Same(AfterRecord(b, key, now).0, AfterRecord(c, key, now).0, now)
  {
    var b', c' := AfterRecord(b, key, now).0, AfterRecord(c, key, now).0;
    assert ViewOf(b, key, now) == ViewOf(c, key, now);
    ViewAfterRecord(b, key, now);
    ViewAfterRecord(c, key, now);
    forall other ensures ViewOf(b', other, now) == ViewOf(c', other, now) {
      if other != key {
        ViewElsewhere(b, key, other, now);
        ViewElsewhere(c, key, other, now);
        assert ViewOf(b, other, now) == ViewOf(c, other, now);
      }
    }
  }

  /** Asking changes nothing anyone can see. */
  lemma {:induction false} SameQuery(b: Breaker, c: Breaker, key: string, now: int)
    requires Same(b, c, now)
    ensures Same(AfterQuery(b, key, now).0, c, now)
  {
  }
}
