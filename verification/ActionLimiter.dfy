/** internal/ratelimit/ratelimit.go: the sliding-window action limiter. */
module ActionLimiters {
  import opened Prelude

  datatype Limiter = Limiter(max: int, window: int, events: seq<int>)

  /** prune drops the leading events before the cutoff. */
  function Dropped(events: seq<int>, cutoff: int): seq<int> {
    if events != [] && events[0] < cutoff then Dropped(events[1..], cutoff) else events
  }

  function Pruned(l: Limiter, now: int): Limiter {
    l.(events := Dropped(l.events, now - l.window))
  }

  /** Allow as a function. It reads the clock twice: once to prune, and once
      more to stamp the action it grants. */
  function AfterAllow(l: Limiter, now: int, stamp: int): (Limiter, bool) {
    var p := Pruned(l, now);
    if |p.events| >= p.max then (p, false) else (p.(events := p.events + [stamp]), true)
  }

  class ActionLimiter {
    const max: int
    const window: int
    var events: seq<int>

    function Model(): Limiter
      reads this
    {
      Limiter(max, window, events)
    }

    constructor (max: int, window: int)
      ensures Model() == Limiter(max, window, [])
    {
      this.max := max;
      this.window := window;
      this.events := [];
    }

    method Prune(now: int)
      modifies this
      ensures Model() == Pruned(old(Model()), now)
    {
      var cutoff := now - window;
      var i := 0;
      while i < |events| && events[i] < cutoff
        invariant 0 <= i <= |events|
        invariant Dropped(events, cutoff) == Dropped(events[i..], cutoff)
      {
        i := i + 1;
      }
      events := events[i..];
    }

    method Allow(now: int, stamp: int) returns (ok: bool)
      modifies this
      ensures (Model(), ok) == AfterAllow(old(Model()), now, stamp)
    {
      Prune(now);
      if |events| >= max {
        return false;
      }
      events := events + [stamp];
      return true;
    }

    /** How many actions are left: it prunes as it answers. */
    method Remaining(now: int) returns (left: int)
      modifies this
      ensures Model() == Pruned(old(Model()), now)
      ensures left == if |Model().events| >= max then 0 else max - |Model().events|
      ensures left > 0 <==> AfterAllow(old(Model()), now, now).1
    {
      Prune(now);
      left := if max - |events| > 0 then max - |events| else 0;
    }
  }

  // ---- What the limiter promises over a run of calls ----

  /** The events kept are exactly the recent grants. */
  ghost predicate Sound(l: Limiter, grants: seq<int>, now: int) {
    Exact(l, grants, now) && Bounded(l, grants)
  }

  /** The events kept, from the window on, are the grants of that time. */
  ghost predicate Exact(l: Limiter, grants: seq<int>, now: int) {
    && Ascending(l.events) && AllAtMost(l.events, now) && AllAtMost(grants, now)
    && After(l.events, now - l.window - 1) == After(grants, now - l.window - 1)
  }

  /** In every closed interval one window long, at most max grants. */
  ghost predicate Bounded(l: Limiter, grants: seq<int>) {
    forall lo :: CountClosed(grants, lo, l.window) <= if l.max > 0 then l.max else 0
  }

  lemma {:induction false} DroppedIsAfter(events: seq<int>, cutoff: int)
    requires Ascending(events)
    ensures Dropped(events, cutoff) == After(events, cutoff - 1)
  {
    if events != [] && events[0] < cutoff {
      DroppedIsAfter(events[1..], cutoff);
      AfterHead(events, cutoff - 1);
    } else {
      AfterIsSuffix(events, cutoff - 1, 0);
    }
  }

  lemma {:induction false} AfterHead(ts: seq<int>, cutoff: int)
    requires ts != [] && ts[0] <= cutoff
    ensures After(ts, cutoff) == After(ts[1..], cutoff)
  {
    if |ts| > 1 {
      AfterHead(ts[..|ts| - 1], cutoff);
      assert ts[..|ts| - 1][1..] == ts[1..][..|ts| - 2];
    }
  }

  lemma {:induction false} AfterAscending(ts: seq<int>, cutoff: int, bound: int)
    requires Ascending(ts) && AllAtMost(ts, bound)
    ensures Ascending(After(ts, cutoff)) && AllAtMost(After(ts, cutoff), bound)
  {
    if ts != [] {
      var front := ts[..|ts| - 1];
      AfterAscending(front, cutoff, ts[|ts| - 1]);
    }
  }

  /** Two histories that agree after one cutoff agree after every later one. */
  lemma {:induction false} Agree(events: seq<int>, grants: seq<int>, c: int, d: int)
    requires After(events, c) == After(grants, c) && c <= d
    ensures After(events, d) == After(grants, d)
    ensures After(After(events, d), d) == After(grants, d)
  {
    AfterAfter(events, c, d);
    AfterAfter(grants, c, d);
    AfterAfter(events, d, d);
  }

  lemma {:induction false} PruneSound(l: Limiter, grants: seq<int>, before: int, now: int)
    requires Sound(l, grants, before) && before <= now
    ensures Sound(Pruned(l, now), grants, now)
    ensures Pruned(l, now).events == After(grants, now - l.window - 1)
  {
    PruneExact(l, grants, before, now);
    SameBound(l, Pruned(l, now), grants);
  }

  lemma {:induction false} PruneExact(l: Limiter, grants: seq<int>, before: int, now: int)
    requires Exact(l, grants, before) && before <= now
    ensures Exact(Pruned(l, now), grants, now)
    ensures Pruned(l, now).events == After(grants, now - l.window - 1)
  {
    PruneOrdered(l, now);
    Agree(l.events, grants, before - l.window - 1, now - l.window - 1);
    assert AllAtMost(grants, now);
  }

  /** Pruning keeps what is later than the cutoff, in order. */
  lemma {:induction false} PruneOrdered(l: Limiter, now: int)
    requires Ascending(l.events) && AllAtMost(l.events, now)
    ensures Pruned(l, now).events == After(l.events, now - l.window - 1)
    ensures Ascending(Pruned(l, now).events) && AllAtMost(Pruned(l, now).events, now)
  {
    DroppedIsAfter(l.events, now - l.window);
    AfterAscending(l.events, now - l.window - 1, now);
  }

  lemma {:induction false} SameBound(l: Limiter, l': Limiter, grants: seq<int>)
    requires Bounded(l, grants) && l'.window == l.window && l'.max == l.max
    ensures Bounded(l', grants)
  {
  }

  /** A grant made while fewer than max earlier ones are in reach. */
  lemma {:induction false} GrantBounded(l: Limiter, grants: seq<int>, cutoff: int, stamp: int)
    requires Bounded(l, grants) && cutoff <= stamp - l.window - 1
    requires |After(grants, cutoff)| < l.max
    ensures Bounded(l, grants + [stamp])
  {
    forall lo ensures CountClosed(grants + [stamp], lo, l.window) <= if l.max > 0 then l.max else 0 {
      assert CountClosed(grants, lo, l.window) <= if l.max > 0 then l.max else 0;
      CountPush(grants, stamp, lo, lo + l.window + 1);
      if lo <= stamp < lo + l.window + 1 {
        CountAtMostAfter(grants, lo, lo + l.window + 1, cutoff);
      }
    }
  }

  lemma {:induction false} Later(l: Limiter, grants: seq<int>, now: int, later: int)
    requires Sound(l, grants, now) && now <= later
    ensures Sound(l, grants, later)
  {
    ExactLater(l, grants, now, later);
  }

  lemma {:induction false} ExactLater(l: Limiter, grants: seq<int>, now: int, later: int)
    requires Exact(l, grants, now) && now <= later
    ensures Exact(l, grants, later)
  {
    AfterAfter(l.events, now - l.window - 1, later - l.window - 1);
    AfterAfter(grants, now - l.window - 1, later - l.window - 1);
  }

  lemma {:induction false} AllowSound(l: Limiter, grants: seq<int>, before: int, now: int, stamp: int)
    requires Sound(l, grants, before) && before <= now <= stamp
    ensures var (l', ok) := AfterAllow(l, now, stamp);
            Sound(l', if ok then grants + [stamp] else grants, stamp)
  {
    PruneSound(l, grants, before, now);
    var p := Pruned(l, now);
    if |p.events| < p.max {
      GrantSound(p, grants, now, stamp);
    } else {
      Later(p, grants, now, stamp);
    }
  }

  lemma {:induction false} GrantSound(p: Limiter, grants: seq<int>, now: int, stamp: int)
    requires Sound(p, grants, now) && now <= stamp && |p.events| < p.max
    requires p.events == After(grants, now - p.window - 1)
    ensures Sound(p.(events := p.events + [stamp]), grants + [stamp], stamp)
  {
    GrantExact(p, grants, now, stamp);
    GrantBounded(p, grants, now - p.window - 1, stamp);
    SameBound(p, p.(events := p.events + [stamp]), grants + [stamp]);
  }

  lemma {:induction false} GrantExact(p: Limiter, grants: seq<int>, now: int, stamp: int)
    requires Exact(p, grants, now) && now <= stamp
    ensures Exact(p.(events := p.events + [stamp]), grants + [stamp], stamp)
  {
    ExactLater(p, grants, now, stamp);
    AscendingPush(p.events, stamp);
    AtMostPush(grants, stamp);
    PushAgrees(p.events, grants, stamp, stamp - p.window - 1);
  }

  lemma {:induction false} PushAgrees(events: seq<int>, grants: seq<int>, x: int, cutoff: int)
    requires After(events, cutoff) == After(grants, cutoff)
    ensures After(events + [x], cutoff) == After(grants + [x], cutoff)
  {
  }

  // ---- Any interleaving of calls ----

  datatype Call = Allow(now: int, stamp: int) | Remaining(now: int)

  function EndOf(c: Call): int { if c.Allow? then c.stamp else c.now }

  predicate Monotone(calls: seq<Call>, start: int) {
    forall i :: 0 <= i < |calls| ==>
      && start <= calls[i].now <= EndOf(calls[i])
      && (i > 0 ==> EndOf(calls[i - 1]) <= calls[i].now)
  }

  function Run(l: Limiter, calls: seq<Call>): (Limiter, seq<int>) {
    if calls == [] then (l, [])
    else
      var (l1, grants) := Run(l, calls[..|calls| - 1]);
      match calls[|calls| - 1]
      case Allow(now, stamp) =>
        var (l2, ok) := AfterAllow(l1, now, stamp);
        (l2, if ok then grants + [stamp] else grants)
      case Remaining(now) => (Pruned(l1, now), grants)
  }

  lemma {:induction false} RunSound(l: Limiter, calls: seq<Call>, start: int)
    requires l.events == [] && Monotone(calls, start)
    ensures var (l', grants) := Run(l, calls);
            && l'.max == l.max && l'.window == l.window
            && Sound(l', grants, if calls == [] then start else EndOf(calls[|calls| - 1]))
  {
    if calls != [] {
      var front := calls[..|calls| - 1];
      RunSound(l, front, start);
      var (l1, grants) := Run(l, front);
      var before := if front == [] then start else EndOf(front[|front| - 1]);
      match calls[|calls| - 1] {
        case Allow(now, stamp) => AllowSound(l1, grants, before, now, stamp);
        case Remaining(now) => PruneSound(l1, grants, before, now);
      }
    } else {
      assert Bounded(l, []);
    }
  }

  /** For every interleaving of Allow and Remaining, at most max actions are
      granted in any closed interval as long as the window. */
  lemma {:induction false} LimiterBound(l: Limiter, calls: seq<Call>, start: int, lo: int)
    requires l.events == [] && Monotone(calls, start)
    ensures CountClosed(Run(l, calls).1, lo, l.window) <= if l.max > 0 then l.max else 0
  {
    RunSound(l, calls, start);
    assert Bounded(Run(l, calls).0, Run(l, calls).1);
  }

  // ---- What a caller can tell apart ----

  /** Two limiters no later call can tell apart, however they were pruned. */
  ghost predicate Same(l: Limiter, m: Limiter, now: int) {
    && l.max == m.max && l.window == m.window
    && Ascending(l.events) && AllAtMost(l.events, now)
    && Ascending(m.events) && AllAtMost(m.events, now)
    && After(l.events, now - l.window - 1) == After(m.events, now - l.window - 1)
  }

  lemma {:induction false} SameLater(l: Limiter, m: Limiter, now: int, later: int)
    requires Same(l, m, now) && now <= later
    ensures Same(l, m, later)
  {
    Agree(l.events, m.events, now - l.window - 1, later - l.window - 1);
  }

  /** Pruning changes nothing anyone can see. */
  lemma {:induction false} SamePrune(l: Limiter, m: Limiter, now: int)
    requires Same(l, m, now)
    ensures Same(Pruned(l, now), m, now)
    ensures Pruned(l, now).events == After(l.events, now - l.window - 1)
  {
    PruneOrdered(l, now);
    AfterAfter(l.events, now - l.window - 1, now - l.window - 1);
  }

  lemma {:induction false} SameAllow(l: Limiter, m: Limiter, now: int, stamp: int)
    requires Same(l, m, now) && now <= stamp
    ensures AfterAllow(l, now, stamp).1 == AfterAllow(m, now, stamp).1
    ensures Same(AfterAllow(l, now, stamp).0, AfterAllow(m, now, stamp).0, stamp)
  {
    SamePrune(l, m, now);
    SamePrune(m, l, now);
    var p, q := Pruned(l, now), Pruned(m, now);
    assert p.events == q.events && p == q;
    SameLater(p, q, now, stamp) by { assert Same(p, q, now); }
    assert Same(AfterAllow(l, now, stamp).0, AfterAllow(m, now, stamp).0, stamp) by {
      assert AfterAllow(l, now, stamp) == AfterAllow(m, now, stamp);
    }
  }
}
