/** The gate under concurrency: any number of calls whose atomic steps interleave,
    in the order in which their locks are released. There is one clock. Each tracker
    reads it under a lock of its own, so readings rise from one use of a tracker to
    the next, and a call reads it after its last step and so after every step done
    by then; steps on different trackers may overlap in time. */
module GateRuns {
  import opened Prelude
  import opened Gate
  import BlastRadii
  import CircuitBreakers
  import ActionLimiters
  import PolicyBudgets

  /** One atomic step of one call. */
  datatype Event = Event(call: nat, tick: Tick)

  /** A change sent to the API server: when the limiter granted it, and when it was sent. */
  datatype Attempt = Attempt(housekeeping: bool, granted: int, at: int)

  /** Everything the run has let through so far. */
  datatype Logs = Logs(
    blasts: BlastRadii.History,
    passes: seq<CircuitBreakers.Pass>,
    hits: seq<PolicyBudgets.Hit>,
    grants: seq<int>,
    cleanups: seq<int>,
    attempts: seq<Attempt>)

  /** Where a step does its work. */
  datatype Tracker = OnBlast | OnBreaker | OnLimiter | OnCleanup | OnBudget | OnNone

  /** The last clock reading made under the lock of each tracker. The policy's budget
      makes none: it is handed one made before its lock is taken. */
  datatype Clocks = Clocks(blast: int, breaker: int, limiter: int, cleanup: int)

  /** latest is the latest clock reading of any step, and read what it was when each
      call did its last one. */
  datatype System = System(t: Trackers, pcs: seq<Pc>, logs: Logs, clocks: Clocks, latest: int, read: seq<int>)

  function Touched(r: Request, pc: Pc): Tracker {
    match r
    case Preview(_, _) => (
      match pc
      case ViewBlast => OnBlast
      case ViewLimiter => OnLimiter
      case ViewBreaker => OnBreaker
      case _ => OnNone)
    case Change(_, _, _, _, _, _) =>
      match pc
      case AtBlast => if r.housekeeping then OnNone else OnBlast
      case AtBreaker => if r.housekeeping then OnNone else OnBreaker
      case AtLimiter => if r.housekeeping then OnCleanup else OnLimiter
      case AtPolicy => OnBudget
      case AtRecord => OnBudget
      case SimBlast => OnBlast
      case SimBreaker => OnBreaker
      case SimPolicy => OnBudget
      case _ => OnNone
  }

  function ReadOn(c: Clocks, x: Tracker, now: int): int {
    match x
    case OnBlast => c.blast
    case OnBreaker => c.breaker
    case OnLimiter => c.limiter
    case OnCleanup => c.cleanup
    case _ => now
  }

  function Advanced(c: Clocks, x: Tracker, again: int): Clocks {
    match x
    case OnBlast => c.(blast := again)
    case OnBreaker => c.(breaker := again)
    case OnLimiter => c.(limiter := again)
    case OnCleanup => c.(cleanup := again)
    case _ => c
  }

  function NoLogs(t: Trackers): Logs {
    Logs(BlastRadii.History([], 0, if t.blast.Some? then t.blast.value.lastReset else 0), [], [], [], [], [])
  }

  function Initial(t: Trackers, reqs: seq<Request>, start: int): System {
    System(t, seq(|reqs|, i requires 0 <= i < |reqs| => Start(reqs[i])), NoLogs(t),
           Clocks(start, start, start, start), start, seq(|reqs|, i requires 0 <= i < |reqs| => start))
  }

  /** A system of that many calls. */
  predicate Of(s: System, reqs: seq<Request>) {
    |s.pcs| == |reqs| == |s.read|
  }

  function StepLogs(g: Logs, t: Trackers, r: Request, pc: Pc, k: Tick): Logs {
    if r.Preview? then g
    else match pc
      case AtBlast =>
        if r.housekeeping || t.blast.None? then g
        else g.(blasts := BlastRadii.Note(g.blasts, t.blast.value, r.ns, k.now, k.again))
      case AtBreaker =>
        if r.housekeeping || t.breaker.None? then g
        else
          var key := CircuitBreakers.Key(r.ns, r.workload);
          var ok := CircuitBreakers.AfterRecord(t.breaker.value, key, k.now).1;
          g.(passes := CircuitBreakers.Extend(g.passes, key, k.now, ok))
      case AtLimiter =>
        if !Step(t, r, pc, k).1.AtApply? then g
        else if r.housekeeping then g.(cleanups := g.cleanups + [k.again])
        else g.(grants := g.grants + [k.again])
      case AtApply(granted) => g.(attempts := g.attempts + [Attempt(r.housekeeping, granted, k.now)])
      case AtRecord =>
        if Gate.Counted(r.crd) && t.budget.Some?
        then g.(hits := g.hits + [PolicyBudgets.Hit(r.crd.value.key, k.now)]) else g
      case _ => g
  }

  function StepSystem(s: System, reqs: seq<Request>, e: Event): (s': System)
    requires Of(s, reqs) && e.call < |reqs|
    ensures Of(s', reqs)
  {
    var r, pc := reqs[e.call], s.pcs[e.call];
    var (t, pc') := Step(s.t, r, pc, e.tick);
    var latest := PolicyBudgets.Latest(s.latest, e.tick.again);
    System(t, s.pcs[e.call := pc'], StepLogs(s.logs, s.t, r, pc, e.tick),
           Advanced(s.clocks, Touched(r, pc), e.tick.again), latest, s.read[e.call := latest])
  }

  /** Every step belongs to one of the n calls. */
  predicate Belong(evs: seq<Event>, n: nat) {
    forall i :: 0 <= i < |evs| ==> evs[i].call < n
  }

  function Exec(s: System, reqs: seq<Request>, evs: seq<Event>): (s': System)
    requires Of(s, reqs) && Belong(evs, |reqs|)
    ensures Of(s', reqs)
  {
    if evs == [] then s else StepSystem(Exec(s, reqs, evs[..|evs| - 1]), reqs, evs[|evs| - 1])
  }

  /** The step reads the clock no earlier than any step done when its call did its
      last one, nor than the last step on the same tracker. */
  predicate Timely(s: System, reqs: seq<Request>, e: Event)
    requires Of(s, reqs) && e.call < |reqs|
  {
    && s.read[e.call] <= e.tick.now <= e.tick.again
    && ReadOn(s.clocks, Touched(reqs[e.call], s.pcs[e.call]), e.tick.now) <= e.tick.now
  }

  predicate Ordered(s: System, reqs: seq<Request>, evs: seq<Event>)
    requires Of(s, reqs) && Belong(evs, |reqs|)
  {
    evs == [] || (Ordered(s, reqs, evs[..|evs| - 1]) && Timely(Exec(s, reqs, evs[..|evs| - 1]), reqs, evs[|evs| - 1]))
  }

  // ---- Every tracker stays sound in every reachable state ----

  ghost predicate BlastSound(t: Trackers, g: Logs, now: int) {
    t.blast.Some? ==> BlastRadii.Sound(t.blast.value, g.blasts, now) && t.blast.value.lastReset <= now
  }

  ghost predicate BreakerSound(t: Trackers, g: Logs, now: int) {
    t.breaker.Some? ==> CircuitBreakers.Sound(t.breaker.value, g.passes, now)
  }

  ghost predicate LimiterSound(l: Option<ActionLimiters.Limiter>, grants: seq<int>, now: int) {
    l.Some? ==> ActionLimiters.Sound(l.value, grants, now)
  }

  ghost predicate BudgetSound(t: Trackers, g: Logs, latest: int) {
    t.budget.Some? ==> PolicyBudgets.Sound(t.budget.value, g.hits, latest)
  }

  ghost predicate Sound(t: Trackers, g: Logs, c: Clocks) {
    && BlastSound(t, g, c.blast) && BreakerSound(t, g, c.breaker)
    && LimiterSound(t.limiter, g.grants, c.limiter) && LimiterSound(t.cleanup, g.cleanups, c.cleanup)
  }

  /** The settings no call changes. */
  predicate SameSettings(t: Trackers, u: Trackers) {
    && t.blast.Some? == u.blast.Some? && t.breaker.Some? == u.breaker.Some? && t.limiter.Some? == u.limiter.Some?
    && t.cleanup.Some? == u.cleanup.Some? && t.budget.Some? == u.budget.Some?
    && (t.blast.Some? ==>
         t.blast.value.maxNamespaces == u.blast.value.maxNamespaces
         && t.blast.value.window == u.blast.value.window)
    && (t.breaker.Some? ==>
         t.breaker.value.threshold == u.breaker.value.threshold
         && t.breaker.value.window == u.breaker.value.window)
    && (t.limiter.Some? ==>
         t.limiter.value.max == u.limiter.value.max
         && t.limiter.value.window == u.limiter.value.window)
    && (t.cleanup.Some? ==>
         t.cleanup.value.max == u.cleanup.value.max
         && t.cleanup.value.window == u.cleanup.value.window)
  }

  lemma {:induction false} StepSettings(t: Trackers, r: Request, pc: Pc, k: Tick)
    ensures SameSettings(t, Step(t, r, pc, k).0)
  {
  }

  lemma {:induction false} StepBlast(t: Trackers, g: Logs, r: Request, pc: Pc, k: Tick, before: int)
    requires BlastSound(t, g, before) && (Touched(r, pc).OnBlast? ==> before <= k.now <= k.again)
    ensures BlastSound(Step(t, r, pc, k).0, StepLogs(g, t, r, pc, k),
            if Touched(r, pc).OnBlast? then k.again else before)
  {
    if t.blast.Some? && Touched(r, pc).OnBlast? {
      if pc.AtBlast? {
        BlastRadii.ActionSound(t.blast.value, g.blasts, before, r.ns, k.now, k.again);
      } else {
        BlastRadii.Later(t.blast.value, g.blasts, before, k.again);
      }
    }
  }

  lemma {:induction false} StepBreaker(t: Trackers, g: Logs, r: Request, pc: Pc, k: Tick, before: int)
    requires BreakerSound(t, g, before) && (Touched(r, pc).OnBreaker? ==> before <= k.now <= k.again)
    ensures BreakerSound(Step(t, r, pc, k).0, StepLogs(g, t, r, pc, k),
            if Touched(r, pc).OnBreaker? then k.again else before)
  {
    if t.breaker.Some? && Touched(r, pc).OnBreaker? {
      var b := t.breaker.value;
      if pc.AtBreaker? {
        CircuitBreakers.RecordSound(b, g.passes, before, CircuitBreakers.Key(r.ns, r.workload), k.now);
        BreakerLater(Step(t, r, pc, k).0, StepLogs(g, t, r, pc, k), k.now, k.again);
      } else if pc.SimBreaker? {
        CircuitBreakers.QuerySound(b, g.passes, before, CircuitBreakers.Key(r.ns, r.workload), k.now);
        BreakerLater(Step(t, r, pc, k).0, StepLogs(g, t, r, pc, k), k.now, k.again);
      } else {
        BreakerLater(t, g, before, k.again);
      }
    }
  }

  lemma {:induction false} BreakerLater(t: Trackers, g: Logs, now: int, later: int)
    requires BreakerSound(t, g, now) && now <= later
    ensures BreakerSound(t, g, later)
  {
    if t.breaker.Some? {
      var b := t.breaker.value;
      forall key ensures CircuitBreakers.KeySound(b, CircuitBreakers.TimesOf(g.passes, key), key, later) {
        CircuitBreakers.KeyLater(b, CircuitBreakers.TimesOf(g.passes, key), key, now, later);
      }
    }
  }

  lemma {:induction false} StepLimiter(t: Trackers, g: Logs, r: Request, pc: Pc, k: Tick, before: int)
    requires LimiterSound(t.limiter, g.grants, before) && (Touched(r, pc).OnLimiter? ==> before <= k.now <= k.again)
    ensures LimiterSound(Step(t, r, pc, k).0.limiter, StepLogs(g, t, r, pc, k).grants,
                         if Touched(r, pc).OnLimiter? then k.again else before)
  {
    if t.limiter.Some? && Touched(r, pc).OnLimiter? {
      var l := t.limiter.value;
      if pc.AtLimiter? {
        ActionLimiters.AllowSound(l, g.grants, before, k.now, k.again);
      } else {
        ActionLimiters.PruneSound(l, g.grants, before, k.now);
        ActionLimiters.Later(ActionLimiters.Pruned(l, k.now), g.grants, k.now, k.again);
      }
    }
  }

  lemma {:induction false} StepCleanup(t: Trackers, g: Logs, r: Request, pc: Pc, k: Tick, before: int)
    requires LimiterSound(t.cleanup, g.cleanups, before) && (Touched(r, pc).OnCleanup? ==> before <= k.now <= k.again)
    ensures LimiterSound(Step(t, r, pc, k).0.cleanup, StepLogs(g, t, r, pc, k).cleanups,
                         if Touched(r, pc).OnCleanup? then k.again else before)
  {
    if t.cleanup.Some? && Touched(r, pc).OnCleanup? {
      ActionLimiters.AllowSound(t.cleanup.value, g.cleanups, before, k.now, k.again);
    }
  }

  lemma {:induction false} RefusalSound(
      b: PolicyBudgets.Budget, hits: seq<PolicyBudgets.Hit>, crd: Option<CrdPolicy>, action: string, now: int,
      latest: int)
    requires PolicyBudgets.Sound(b, hits, latest) && now <= latest
    ensures var after := PolicyRefusal(Some(b), crd, action, now).0;
            after.Some? && PolicyBudgets.Sound(after.value, hits, latest)
  {
    if Gate.Counted(crd) {
      PolicyBudgets.UsedSound(b, hits, latest, crd.value.key, now);
    }
  }

  lemma {:induction false} StepBudget(t: Trackers, g: Logs, r: Request, pc: Pc, k: Tick, before: int)
    requires BudgetSound(t, g, before) && k.now <= k.again
    ensures BudgetSound(Step(t, r, pc, k).0, StepLogs(g, t, r, pc, k), PolicyBudgets.Latest(before, k.again))
  {
    if t.budget.Some? {
      var latest := PolicyBudgets.Latest(before, k.again);
      PolicyBudgets.Later(t.budget.value, g.hits, before, latest);
      if Touched(r, pc).OnBudget? {
        if !pc.AtRecord? {
          RefusalSound(t.budget.value, g.hits, r.crd, r.actionType, k.now, latest);
        } else if Gate.Counted(r.crd) {
          PolicyBudgets.HitSound(t.budget.value, g.hits, latest, r.crd.value.key, k.now);
        }
      }
    }
  }

  lemma {:induction false} ExecSound(t: Trackers, s: System, reqs: seq<Request>, evs: seq<Event>)
    requires Of(s, reqs) && Belong(evs, |reqs|) && Ordered(s, reqs, evs)
    requires Sound(s.t, s.logs, s.clocks) && SameSettings(t, s.t)
    ensures var s' := Exec(s, reqs, evs); Sound(s'.t, s'.logs, s'.clocks) && SameSettings(t, s'.t)
  {
    if evs != [] {
      var front, e := evs[..|evs| - 1], evs[|evs| - 1];
      ExecSound(t, s, reqs, front);
      StepSound(t, Exec(s, reqs, front), reqs, e);
    }
  }

  lemma {:induction false} StepSound(t: Trackers, s: System, reqs: seq<Request>, e: Event)
    requires Of(s, reqs) && e.call < |reqs| && Timely(s, reqs, e)
    requires Sound(s.t, s.logs, s.clocks) && SameSettings(t, s.t)
    ensures var s' := StepSystem(s, reqs, e); Sound(s'.t, s'.logs, s'.clocks) && SameSettings(t, s'.t)
  {
    var r, pc := reqs[e.call], s.pcs[e.call];
    StepSettings(s.t, r, pc, e.tick);
    StepBlast(s.t, s.logs, r, pc, e.tick, s.clocks.blast);
    StepBreaker(s.t, s.logs, r, pc, e.tick, s.clocks.breaker);
    StepLimiter(s.t, s.logs, r, pc, e.tick, s.clocks.limiter);
    StepCleanup(s.t, s.logs, r, pc, e.tick, s.clocks.cleanup);
  }

  lemma {:induction false} ExecBudgetSound(s: System, reqs: seq<Request>, evs: seq<Event>)
    requires Of(s, reqs) && Belong(evs, |reqs|) && Ordered(s, reqs, evs)
    requires BudgetSound(s.t, s.logs, s.latest)
    ensures var s' := Exec(s, reqs, evs);
            BudgetSound(s'.t, s'.logs, s'.latest) && (s'.t.budget.Some? <==> s.t.budget.Some?)
  {
    if evs != [] {
      var front, e := evs[..|evs| - 1], evs[|evs| - 1];
      ExecBudgetSound(s, reqs, front);
      var m := Exec(s, reqs, front);
      StepBudget(m.t, m.logs, reqs[e.call], m.pcs[e.call], e.tick, m.latest);
      StepSettings(m.t, reqs[e.call], m.pcs[e.call], e.tick);
    }
  }

  // ---- The bounds, over every interleaving ----

  /** Trackers as run.go builds them. */
  predicate New(t: Trackers, start: int) {
    && (t.blast.Some? ==> t.blast.value.counts == map[] && t.blast.value.lastReset <= start)
    && (t.breaker.Some? ==>
         t.breaker.value.threshold >= 1 && t.breaker.value.actions == map[]
         && t.breaker.value.tripped == map[])
    && (t.limiter.Some? ==> t.limiter.value.events == [])
    && (t.cleanup.Some? ==> t.cleanup.value.events == [])
    && (t.budget.Some? ==> t.budget.value.hits == map[])
  }

  lemma {:induction false} NewIsSound(t: Trackers, start: int)
    requires New(t, start)
    ensures Sound(t, NoLogs(t), Clocks(start, start, start, start)) && BudgetSound(t, NoLogs(t), start)
  {
  }

  /** A run from new trackers. */
  ghost predicate RunOf(t: Trackers, reqs: seq<Request>, evs: seq<Event>, start: int) {
    New(t, start) && Belong(evs, |reqs|) && Ordered(Initial(t, reqs, start), reqs, evs)
  }

  function Reached(t: Trackers, reqs: seq<Request>, evs: seq<Event>, start: int): System
    requires Belong(evs, |reqs|)
  {
    Exec(Initial(t, reqs, start), reqs, evs)
  }

  /** Over any interleaving: distinct namespaces, actions on one workload, and
      grants of either limiter are bounded in every window, each attempt
      counted at the clock its own check read. */
  lemma {:induction false} GateBounds(
      t: Trackers, reqs: seq<Request>, evs: seq<Event>, start: int, lo: int, key: string)
    requires RunOf(t, reqs, evs, start)
    ensures var g := Reached(t, reqs, evs, start).logs;
            && (t.blast.Some? ==>
                  |BlastRadii.NsBetween(g.blasts.grants, lo, lo + t.blast.value.window)|
                    <= 2 * BlastRadii.Limit(t.blast.value))
            && (t.breaker.Some? ==>
                  CountFrom(CircuitBreakers.TimesOf(g.passes, key), lo, t.breaker.value.window)
                    <= t.breaker.value.threshold - 1)
            && (t.limiter.Some? ==> CountClosed(g.grants, lo, t.limiter.value.window) <= Cap(t.limiter.value))
            && (t.cleanup.Some? ==> CountClosed(g.cleanups, lo, t.cleanup.value.window) <= Cap(t.cleanup.value))
  {
    NewIsSound(t, start);
    ExecSound(t, Initial(t, reqs, start), reqs, evs);
    var s := Reached(t, reqs, evs, start);
    if t.blast.Some? {
      assert BlastRadii.Limit(t.blast.value) == BlastRadii.Limit(s.t.blast.value);
      BlastRadii.BoundFromSound(s.t.blast.value, s.logs.blasts.grants, lo);
    }
    if t.breaker.Some? {
      assert CircuitBreakers.Bounded(s.t.breaker.value, CircuitBreakers.TimesOf(s.logs.passes, key));
    }
    if t.limiter.Some? { assert ActionLimiters.Bounded(s.t.limiter.value, s.logs.grants); }
    if t.cleanup.Some? { assert ActionLimiters.Bounded(s.t.cleanup.value, s.logs.cleanups); }
  }

  function Cap(l: ActionLimiters.Limiter): nat {
    if l.max > 0 then l.max else 0
  }

  // ---- Counting the calls at a point ----

  function CountWhere(reqs: seq<Request>, pcs: seq<Pc>, f: (Request, Pc) -> bool): nat
    requires |reqs| == |pcs|
  {
    if pcs == [] then 0
    else CountWhere(reqs[..|pcs| - 1], pcs[..|pcs| - 1], f) + if f(reqs[|pcs| - 1], pcs[|pcs| - 1]) then 1 else 0
  }

  lemma {:induction false} CountUpdate(reqs: seq<Request>, pcs: seq<Pc>, f: (Request, Pc) -> bool, i: nat, pc: Pc)
    requires |reqs| == |pcs| && i < |pcs|
    ensures CountWhere(reqs, pcs[i := pc], f) + (if f(reqs[i], pcs[i]) then 1 else 0)
            == CountWhere(reqs, pcs, f) + if f(reqs[i], pc) then 1 else 0
  {
    var n := |pcs| - 1;
    if i == n {
      assert pcs[i := pc][..n] == pcs[..n];
    } else {
      assert pcs[i := pc][..n] == pcs[..n][i := pc];
      CountUpdate(reqs[..n], pcs[..n], f, i, pc);
    }
  }

  lemma {:induction false} CountNoneWhere(reqs: seq<Request>, pcs: seq<Pc>, f: (Request, Pc) -> bool)
    requires |reqs| == |pcs| && forall i :: 0 <= i < |pcs| ==> !f(reqs[i], pcs[i])
    ensures CountWhere(reqs, pcs, f) == 0
  {
    if pcs != [] { CountNoneWhere(reqs[..|pcs| - 1], pcs[..|pcs| - 1], f); }
  }

  // ---- Attempts against grants ----

  /** When the attempts of one kind were granted. */
  function GrantedAt(attempts: seq<Attempt>, housekeeping: bool): seq<int> {
    if attempts == [] then []
    else
      var rest := GrantedAt(attempts[..|attempts| - 1], housekeeping);
      var a := attempts[|attempts| - 1];
      if a.housekeeping == housekeeping then rest + [a.granted] else rest
  }

  lemma {:induction false} GrantedPush(attempts: seq<Attempt>, a: Attempt, housekeeping: bool)
    ensures GrantedAt(attempts + [a], housekeeping)
            == GrantedAt(attempts, housekeeping) + if a.housekeeping == housekeeping then [a.granted] else []
  {
  }

  function Holding(housekeeping: bool, lo: int, hi: int): (Request, Pc) -> bool {
    (r: Request, pc: Pc) => r.Change? && r.housekeeping == housekeeping && pc.AtApply? && lo <= pc.granted < hi
  }

  function GrantsOf(g: Logs, housekeeping: bool): seq<int> {
    if housekeeping then g.cleanups else g.grants
  }

  /** Each grant is used by at most one attempt: it is either used, or still held. */
  lemma {:induction false} GrantsAreUsedOnce(s: System, reqs: seq<Request>, evs: seq<Event>, hk: bool, lo: int, hi: int)
    requires Of(s, reqs) && Belong(evs, |reqs|)
    requires CountIn(GrantsOf(s.logs, hk), lo, hi)
             == CountIn(GrantedAt(s.logs.attempts, hk), lo, hi) + CountWhere(reqs, s.pcs, Holding(hk, lo, hi))
    ensures var s' := Exec(s, reqs, evs);
            CountIn(GrantsOf(s'.logs, hk), lo, hi)
            == CountIn(GrantedAt(s'.logs.attempts, hk), lo, hi) + CountWhere(reqs, s'.pcs, Holding(hk, lo, hi))
  {
    if evs != [] {
      var e := evs[|evs| - 1];
      GrantsAreUsedOnce(s, reqs, evs[..|evs| - 1], hk, lo, hi);
      var m := Exec(s, reqs, evs[..|evs| - 1]);
      var r, pc := reqs[e.call], m.pcs[e.call];
      var pc' := Step(m.t, r, pc, e.tick).1;
      CountUpdate(reqs, m.pcs, Holding(hk, lo, hi), e.call, pc');
      GrantStep(m.logs, m.t, r, pc, e.tick, hk, lo, hi);
    }
  }

  lemma {:induction false} GrantStep(g: Logs, t: Trackers, r: Request, pc: Pc, k: Tick, hk: bool, lo: int, hi: int)
    ensures var g' := StepLogs(g, t, r, pc, k);
            var pc' := Step(t, r, pc, k).1;
            CountIn(GrantsOf(g', hk), lo, hi) + CountIn(GrantedAt(g.attempts, hk), lo, hi)
            + (if Holding(hk, lo, hi)(r, pc) then 1 else 0)
            == CountIn(GrantsOf(g, hk), lo, hi) + CountIn(GrantedAt(g'.attempts, hk), lo, hi)
               + if Holding(hk, lo, hi)(r, pc') then 1 else 0
  {
    var g' := StepLogs(g, t, r, pc, k);
    var pc' := Step(t, r, pc, k).1;
    if r.Change? && pc.AtApply? {
      GrantedPush(g.attempts, Attempt(r.housekeeping, pc.granted, k.now), hk);
      CountPush(GrantedAt(g.attempts, hk), pc.granted, lo, hi);
      assert GrantsOf(g', hk) == GrantsOf(g, hk) && !pc'.AtApply?;
    } else {
      assert g'.attempts == g.attempts && !Holding(hk, lo, hi)(r, pc);
      GrantTaken(g, t, r, pc, k, hk);
      if pc'.AtApply? && r.Change? && r.housekeeping == hk {
        CountPush(GrantsOf(g, hk), pc'.granted, lo, hi);
      }
    }
  }

  /** A grant is logged when, and only when, the call comes to hold it. */
  lemma {:induction false} GrantTaken(g: Logs, t: Trackers, r: Request, pc: Pc, k: Tick, hk: bool)
    requires !pc.AtApply? || r.Preview?
    ensures var pc' := Step(t, r, pc, k).1;
            GrantsOf(StepLogs(g, t, r, pc, k), hk)
            == GrantsOf(g, hk) + if pc'.AtApply? && r.Change? && r.housekeeping == hk then [pc'.granted] else []
  {
  }

  /** Apply attempts in any closed interval as long as the window never exceed
      the limiter's maximum, each taken at the clock of its grant: fixes and
      housekeeping each against their own limiter. */
  lemma {:induction false} AttemptBound(t: Trackers, reqs: seq<Request>, evs: seq<Event>, start: int, lo: int, hk: bool)
    requires RunOf(t, reqs, evs, start) && (if hk then t.cleanup else t.limiter).Some?
    ensures var l := (if hk then t.cleanup else t.limiter).value;
            CountClosed(GrantedAt(Reached(t, reqs, evs, start).logs.attempts, hk), lo, l.window) <= Cap(l)
  {
    var l := (if hk then t.cleanup else t.limiter).value;
    var s := Initial(t, reqs, start);
    CountNoneWhere(reqs, s.pcs, Holding(hk, lo, lo + l.window + 1));
    GrantsAreUsedOnce(s, reqs, evs, hk, lo, lo + l.window + 1);
    GateBounds(t, reqs, evs, start, lo, "");
  }

  /** Attempts of one kind by when they were sent, and those of them granted earlier than lo. */
  function SentIn(attempts: seq<Attempt>, hk: bool, lo: int, hi: int): nat {
    if attempts == [] then 0
    else
      var a := attempts[|attempts| - 1];
      SentIn(attempts[..|attempts| - 1], hk, lo, hi) + if a.housekeeping == hk && lo <= a.at < hi then 1 else 0
  }

  function LateIn(attempts: seq<Attempt>, hk: bool, lo: int, hi: int): nat {
    if attempts == [] then 0
    else
      var a := attempts[|attempts| - 1];
      LateIn(attempts[..|attempts| - 1], hk, lo, hi)
      + if a.housekeeping == hk && lo <= a.at < hi && a.granted < lo then 1 else 0
  }

  predicate InOrder(attempts: seq<Attempt>) {
    forall i :: 0 <= i < |attempts| ==> attempts[i].granted <= attempts[i].at
  }

  lemma {:induction false} SentSplits(attempts: seq<Attempt>, hk: bool, lo: int, hi: int)
    requires InOrder(attempts)
    ensures SentIn(attempts, hk, lo, hi) <= CountIn(GrantedAt(attempts, hk), lo, hi) + LateIn(attempts, hk, lo, hi)
  {
    if attempts != [] {
      var front, a := attempts[..|attempts| - 1], attempts[|attempts| - 1];
      SentSplits(front, hk, lo, hi);
      assert front + [a] == attempts;
      OneMoreSent(front, a, hk, lo, hi);
    }
  }

  lemma {:induction false} OneMoreSent(front: seq<Attempt>, a: Attempt, hk: bool, lo: int, hi: int)
    requires a.granted <= a.at
    requires SentIn(front, hk, lo, hi) <= CountIn(GrantedAt(front, hk), lo, hi) + LateIn(front, hk, lo, hi)
    ensures SentIn(front + [a], hk, lo, hi) <= CountIn(GrantedAt(front + [a], hk), lo, hi)
            + LateIn(front + [a], hk, lo, hi)
  {
  }

  /** A grant is never later than the readings its call goes on to make. */
  predicate Grounded(s: System) {
    && |s.pcs| == |s.read| && InOrder(s.logs.attempts)
    && forall i :: 0 <= i < |s.pcs| && s.pcs[i].AtApply? ==> s.pcs[i].granted <= s.read[i]
  }

  lemma {:induction false} ExecGrounded(s: System, reqs: seq<Request>, evs: seq<Event>)
    requires Of(s, reqs) && Belong(evs, |reqs|) && Ordered(s, reqs, evs) && Grounded(s)
    ensures Grounded(Exec(s, reqs, evs))
  {
    if evs != [] {
      var front, e := evs[..|evs| - 1], evs[|evs| - 1];
      ExecGrounded(s, reqs, front);
      var m := Exec(s, reqs, front);
      StepGrounded(m.t, m.logs, reqs[e.call], m.pcs[e.call], e.tick, m.read[e.call]);
    }
  }

  lemma {:induction false} StepGrounded(t: Trackers, g: Logs, r: Request, pc: Pc, k: Tick, read: int)
    requires InOrder(g.attempts) && (pc.AtApply? ==> pc.granted <= read) && read <= k.now <= k.again
    ensures InOrder(StepLogs(g, t, r, pc, k).attempts)
    ensures Step(t, r, pc, k).1.AtApply? ==> Step(t, r, pc, k).1.granted <= k.again
  {
  }

  /** By the clock at which they are sent, attempts may exceed the maximum only
      by those whose handler was held up past the start of the interval. */
  lemma {:induction false} SentBound(t: Trackers, reqs: seq<Request>, evs: seq<Event>, start: int, lo: int, hk: bool)
    requires RunOf(t, reqs, evs, start) && (if hk then t.cleanup else t.limiter).Some?
    ensures var l := (if hk then t.cleanup else t.limiter).value;
            var attempts := Reached(t, reqs, evs, start).logs.attempts;
            SentIn(attempts, hk, lo, lo + l.window + 1) <= Cap(l) + LateIn(attempts, hk, lo, lo + l.window + 1)
  {
    var l := (if hk then t.cleanup else t.limiter).value;
    AttemptBound(t, reqs, evs, start, lo, hk);
    ExecGrounded(Initial(t, reqs, start), reqs, evs);
    SentSplits(Reached(t, reqs, evs, start).logs.attempts, hk, lo, lo + l.window + 1);
  }

  /** No attempt of the kind waits longer than d between its grant and its sending. */
  predicate HeldAtMost(attempts: seq<Attempt>, hk: bool, d: int) {
    forall i :: 0 <= i < |attempts| && attempts[i].housekeeping == hk ==> attempts[i].at - attempts[i].granted <= d
  }

  lemma {:induction false} SentWereGranted(attempts: seq<Attempt>, hk: bool, lo: int, hi: int, d: nat)
    requires InOrder(attempts) && HeldAtMost(attempts, hk, d)
    ensures SentIn(attempts, hk, lo, hi) <= CountIn(GrantedAt(attempts, hk), lo - d, hi)
  {
    if attempts != [] {
      var front, a := attempts[..|attempts| - 1], attempts[|attempts| - 1];
      SentWereGranted(front, hk, lo, hi, d);
      CountPush(GrantedAt(front, hk), a.granted, lo - d, hi);
    }
  }

  /** Where no handler is held up longer than d, the maximum holds by the clock of
      sending too, in every interval shorter than the window by d. */
  lemma {:induction false} SentWithinHoldUp(
      t: Trackers, reqs: seq<Request>, evs: seq<Event>, start: int, lo: int, hk: bool, d: nat)
    requires RunOf(t, reqs, evs, start) && (if hk then t.cleanup else t.limiter).Some?
    requires HeldAtMost(Reached(t, reqs, evs, start).logs.attempts, hk, d)
    ensures var l := (if hk then t.cleanup else t.limiter).value;
            SentIn(Reached(t, reqs, evs, start).logs.attempts, hk, lo, lo + l.window + 1 - d) <= Cap(l)
  {
    var l := (if hk then t.cleanup else t.limiter).value;
    AttemptBound(t, reqs, evs, start, lo - d, hk);
    ExecGrounded(Initial(t, reqs, start), reqs, evs);
    SentWereGranted(Reached(t, reqs, evs, start).logs.attempts, hk, lo, lo + l.window + 1 - d, d);
  }

  // ---- The hourly budget of a policy ----

  /** Calls that have been counted against key and have not yet been recorded. */
  function InFlight(key: string): (Request, Pc) -> bool {
    (r: Request, pc: Pc) =>
      r.Change? && Gate.Counted(r.crd) && r.crd.value.key == key
      && (pc.AtBreaker? || pc.AtLimiter? || pc.AtApply? || pc.AtRecord?)
  }

  /** The policy's limit, the same for every call it selects. */
  predicate Allows(reqs: seq<Request>, key: string, limit: int) {
    forall i :: 0 <= i < |reqs| ==>
      reqs[i].Change? && Gate.Counted(reqs[i].crd) && reqs[i].crd.value.key == key
      ==> reqs[i].crd.value.maxActionsPerHour == limit
  }

  /** After such a run at most k counted calls are in flight. */
  function FewFlying(s: System, reqs: seq<Request>, key: string, k: nat): seq<Event> -> bool
    requires Of(s, reqs)
  {
    (evs: seq<Event>) => Belong(evs, |reqs|) && CountWhere(reqs, Exec(s, reqs, evs).pcs, InFlight(key)) <= k
  }

  /** And so it is at every moment of the run. */
  ghost predicate AtMostInFlight(s: System, reqs: seq<Request>, evs: seq<Event>, key: string, k: nat)
    requires Of(s, reqs) && Belong(evs, |reqs|)
  {
    forall n :: 0 <= n <= |evs| ==> FewFlying(s, reqs, key, k)(evs[..n])
  }

  /** In flight, and still able to be recorded before hi. */
  predicate May(r: Request, pc: Pc, read: int, key: string, hi: int) {
    InFlight(key)(r, pc) && read < hi
  }

  function CountMay(reqs: seq<Request>, pcs: seq<Pc>, read: seq<int>, key: string, hi: int): nat
    requires |reqs| == |pcs| == |read|
  {
    if pcs == [] then 0
    else
      var n := |pcs| - 1;
      CountMay(reqs[..n], pcs[..n], read[..n], key, hi) + if May(reqs[n], pcs[n], read[n], key, hi) then 1 else 0
  }

  lemma {:induction false} MayUpdate(
      reqs: seq<Request>, pcs: seq<Pc>, read: seq<int>, key: string, hi: int, i: nat, pc: Pc, at: int)
    requires |reqs| == |pcs| == |read| && i < |pcs|
    ensures CountMay(reqs, pcs[i := pc], read[i := at], key, hi)
            + (if May(reqs[i], pcs[i], read[i], key, hi) then 1 else 0)
            == CountMay(reqs, pcs, read, key, hi) + if May(reqs[i], pc, at, key, hi) then 1 else 0
  {
    var n := |pcs| - 1;
    if i == n {
      assert pcs[i := pc][..n] == pcs[..n] && read[i := at][..n] == read[..n];
    } else {
      assert pcs[i := pc][..n] == pcs[..n][i := pc] && read[i := at][..n] == read[..n][i := at];
      MayUpdate(reqs[..n], pcs[..n], read[..n], key, hi, i, pc, at);
    }
  }

  lemma {:induction false} MayAreInFlight(reqs: seq<Request>, pcs: seq<Pc>, read: seq<int>, key: string, hi: int)
    requires |reqs| == |pcs| == |read|
    ensures CountMay(reqs, pcs, read, key, hi) <= CountWhere(reqs, pcs, InFlight(key))
  {
    if pcs != [] {
      var n := |pcs| - 1;
      MayAreInFlight(reqs[..n], pcs[..n], read[..n], key, hi);
    }
  }

  /** What an hour holds and what may still come into it share one bound. */
  ghost predicate Budgeted(s: System, reqs: seq<Request>, key: string, lo: int, bound: int)
    requires Of(s, reqs)
  {
    CountFrom(PolicyBudgets.TimesOf(s.logs.hits, key), lo, HOUR) + CountMay(reqs, s.pcs, s.read, key, lo + HOUR)
      <= bound
  }

  /** A counted call enters flight only by a check that found room. */
  lemma {:induction false} EntersFlight(t: Trackers, r: Request, pc: Pc, k: Tick, key: string)
    requires t.budget.Some?
    requires InFlight(key)(r, Step(t, r, pc, k).1) && !InFlight(key)(r, pc)
    ensures pc.AtPolicy? && PolicyBudgets.AfterUsed(t.budget.value, key, k.now).1 < r.crd.value.maxActionsPerHour
  {
  }

  /** The policy's actions are logged when, and only when, a call in flight is recorded. */
  lemma {:induction false} LeavesFlight(t: Trackers, g: Logs, r: Request, pc: Pc, k: Tick, key: string)
    requires t.budget.Some?
    ensures var recorded := pc.AtRecord? && InFlight(key)(r, pc);
            && PolicyBudgets.TimesOf(StepLogs(g, t, r, pc, k).hits, key)
               == PolicyBudgets.TimesOf(g.hits, key) + (if recorded then [k.now] else [])
            && (recorded ==> Touched(r, pc).OnBudget? && !InFlight(key)(r, Step(t, r, pc, k).1))
  {
    HitsLogged(t, g, r, pc, k);
    if r.Change? && pc.AtRecord? && Gate.Counted(r.crd) {
      PolicyBudgets.TimesPush(g.hits, PolicyBudgets.Hit(r.crd.value.key, k.now), key);
    }
  }

  lemma {:induction false} HitsLogged(t: Trackers, g: Logs, r: Request, pc: Pc, k: Tick)
    requires t.budget.Some?
    ensures StepLogs(g, t, r, pc, k).hits
            == if r.Change? && pc.AtRecord? && Gate.Counted(r.crd)
               then g.hits + [PolicyBudgets.Hit(r.crd.value.key, k.now)] else g.hits
  {
  }

  /** A call let into flight in time for an hour found that hour below its limit. */
  lemma {:induction false} FoundRoom(
      t: Trackers, g: Logs, r: Request, pc: Pc, k: Tick, before: int, key: string, lo: int)
    requires t.budget.Some? && BudgetSound(t, g, before) && k.now <= k.again
    requires InFlight(key)(r, Step(t, r, pc, k).1) && !InFlight(key)(r, pc)
    requires PolicyBudgets.Latest(before, k.again) < lo + HOUR
    ensures CountFrom(PolicyBudgets.TimesOf(g.hits, key), lo, HOUR) < r.crd.value.maxActionsPerHour
  {
    EntersFlight(t, r, pc, k, key);
    PolicyBudgets.UsedSound(t.budget.value, g.hits, before, key, k.now);
    CountAtMostAfter(PolicyBudgets.TimesOf(g.hits, key), lo, lo + HOUR, PolicyBudgets.Latest(before, k.now) - HOUR);
  }

  /** One step of a call, with the count of those that may still come before it and after. */
  lemma {:induction false} BudgetedStep(
      t: Trackers, g: Logs, r: Request, pc: Pc, k: Tick, before: int, read: int, key: string, lo: int, limit: int,
      room: nat, may: nat, may': nat)
    requires t.budget.Some? && BudgetSound(t, g, before) && limit >= 1 && read <= k.now <= k.again
    requires r.Change? && Gate.Counted(r.crd) && r.crd.value.key == key ==> r.crd.value.maxActionsPerHour == limit
    requires CountFrom(PolicyBudgets.TimesOf(g.hits, key), lo, HOUR) + may <= limit - 1 + room && may' <= room
    requires may' + (if May(r, pc, read, key, lo + HOUR) then 1 else 0)
             == may
                + if May(r, Step(t, r, pc, k).1, PolicyBudgets.Latest(before, k.again), key, lo + HOUR) then 1 else 0
    ensures CountFrom(PolicyBudgets.TimesOf(StepLogs(g, t, r, pc, k).hits, key), lo, HOUR) + may' <= limit - 1 + room
  {
    LeavesFlight(t, g, r, pc, k, key);
    CountPush(PolicyBudgets.TimesOf(g.hits, key), k.now, lo, lo + HOUR);
    if InFlight(key)(r, Step(t, r, pc, k).1) && !InFlight(key)(r, pc)
      && PolicyBudgets.Latest(before, k.again) < lo + HOUR
    {
      FoundRoom(t, g, r, pc, k, before, key, lo);
    }
  }

  lemma {:induction false} OneMoreBudgeted(
      s: System, reqs: seq<Request>, e: Event, key: string, lo: int, limit: int, k: nat)
    requires Of(s, reqs) && e.call < |reqs| && Timely(s, reqs, e)
    requires s.t.budget.Some? && BudgetSound(s.t, s.logs, s.latest) && Allows(reqs, key, limit) && limit >= 1
    requires Budgeted(s, reqs, key, lo, limit - 1 + k)
    requires CountWhere(reqs, StepSystem(s, reqs, e).pcs, InFlight(key)) <= k
    ensures Budgeted(StepSystem(s, reqs, e), reqs, key, lo, limit - 1 + k)
  {
    var r, pc, s' := reqs[e.call], s.pcs[e.call], StepSystem(s, reqs, e);
    MayUpdate(reqs, s.pcs, s.read, key, lo + HOUR, e.call, s'.pcs[e.call], s'.latest);
    MayAreInFlight(reqs, s'.pcs, s'.read, key, lo + HOUR);
    BudgetedStep(s.t, s.logs, r, pc, e.tick, s.latest, s.read[e.call], key, lo, limit, k,
                 CountMay(reqs, s.pcs, s.read, key, lo + HOUR), CountMay(reqs, s'.pcs, s'.read, key, lo + HOUR));
  }

  lemma {:induction false} FewInFlight(s: System, reqs: seq<Request>, evs: seq<Event>, key: string, k: nat)
    requires Of(s, reqs) && Belong(evs, |reqs|) && AtMostInFlight(s, reqs, evs, key, k) && evs != []
    ensures AtMostInFlight(s, reqs, evs[..|evs| - 1], key, k)
    ensures CountWhere(reqs, Exec(s, reqs, evs).pcs, InFlight(key)) <= k
  {
    var front, p := evs[..|evs| - 1], FewFlying(s, reqs, key, k);
    forall n | 0 <= n <= |front| ensures p(front[..n]) {
      assert front[..n] == evs[..n];
    }
    assert p(evs[..|evs|]) && evs[..|evs|] == evs;
  }

  lemma {:induction false} ExecBudgeted(
      t: Trackers, reqs: seq<Request>, evs: seq<Event>, start: int, key: string, lo: int, limit: int, k: nat)
    requires RunOf(t, reqs, evs, start) && t.budget.Some? && Allows(reqs, key, limit) && limit >= 1
    requires AtMostInFlight(Initial(t, reqs, start), reqs, evs, key, k)
    ensures Budgeted(Reached(t, reqs, evs, start), reqs, key, lo, limit - 1 + k)
  {
    var s := Initial(t, reqs, start);
    if evs == [] {
      CountNoneWhere(reqs, s.pcs, InFlight(key));
      MayAreInFlight(reqs, s.pcs, s.read, key, lo + HOUR);
    } else {
      var front, e := evs[..|evs| - 1], evs[|evs| - 1];
      FewInFlight(s, reqs, evs, key, k);
      ExecBudgeted(t, reqs, front, start, key, lo, limit, k);
      NewIsSound(t, start);
      ExecBudgetSound(s, reqs, front);
      OneMoreBudgeted(Reached(t, reqs, front, start), reqs, e, key, lo, limit, k);
    }
  }

  /** The budget is checked before a change is sent and recorded after it, so
      with at most k such calls at once an hour holds at most limit - 1 + k
      actions: the limit itself when calls do not overlap. It holds also where a
      reading was overtaken on its way to the budget's lock. */
  lemma {:induction false} PolicyBudgetBound(
      t: Trackers, reqs: seq<Request>, evs: seq<Event>, start: int, lo: int, key: string, limit: int, k: nat)
    requires RunOf(t, reqs, evs, start) && t.budget.Some? && Allows(reqs, key, limit) && limit >= 1
    requires AtMostInFlight(Initial(t, reqs, start), reqs, evs, key, k)
    ensures CountFrom(PolicyBudgets.TimesOf(Reached(t, reqs, evs, start).logs.hits, key), lo, HOUR) <= limit - 1 + k
  {
    ExecBudgeted(t, reqs, evs, start, key, lo, limit, k);
  }

  // ---- Non-interference ----

  predicate Acts(r: Request) {
    r.Change? && RouteOf(r.pol, r.ns).Act?
  }

  /** The calls to be left out of a run: those that only answer and, when
      cleanups is false, housekeeping too. */
  predicate Silent(r: Request, cleanups: bool) {
    !Acts(r) || (!cleanups && r.housekeeping)
  }

  function Erase(evs: seq<Event>, reqs: seq<Request>, cleanups: bool): (kept: seq<Event>)
    requires Belong(evs, |reqs|)
    ensures Belong(kept, |reqs|)
  {
    if evs == [] then []
    else
      var rest := Erase(evs[..|evs| - 1], reqs, cleanups);
      if Silent(reqs[evs[|evs| - 1].call], cleanups) then rest else rest + [evs[|evs| - 1]]
  }

  /** Trackers that the calls kept cannot tell apart, each as of its own clock, and
      the budget of each policy from its cut on. */
  ghost predicate Same(t: Trackers, u: Trackers, c: Clocks, cuts: PolicyBudgets.Cuts, cleanups: bool) {
    && t.blast == u.blast
    && SameBreaker(t.breaker, u.breaker, c.breaker) && SameLimiter(t.limiter, u.limiter, c.limiter)
    && SameBudget(t.budget, u.budget, cuts)
    && (cleanups ==> t.cleanup == u.cleanup)
  }

  ghost predicate SameBreaker(b: Option<CircuitBreakers.Breaker>, c: Option<CircuitBreakers.Breaker>, now: int) {
    b.Some? == c.Some? && (b.Some? ==> CircuitBreakers.Same(b.value, c.value, now))
  }

  ghost predicate SameLimiter(l: Option<ActionLimiters.Limiter>, m: Option<ActionLimiters.Limiter>, now: int) {
    l.Some? == m.Some? && (l.Some? ==> ActionLimiters.Same(l.value, m.value, now))
  }

  ghost predicate SameBudget(b: Option<PolicyBudgets.Budget>, c: Option<PolicyBudgets.Budget>, cuts: PolicyBudgets.Cuts)
  {
    b.Some? == c.Some? && (b.Some? ==> PolicyBudgets.Same(b.value, c.value, cuts))
  }

  /** A reading on a tracker moves its clock on; the trackers stay alike. */
  lemma {:induction false} SameAt(
      t: Trackers, u: Trackers, c: Clocks, cuts: PolicyBudgets.Cuts, x: Tracker, later: int, cleanups: bool)
    requires Same(t, u, c, cuts, cleanups) && ReadOn(c, x, later) <= later
    ensures Same(t, u, Advanced(c, x, later), cuts, cleanups)
  {
    match x {
      case OnBreaker =>
        if t.breaker.Some? { CircuitBreakers.SameLater(t.breaker.value, u.breaker.value, c.breaker, later); }
      case OnLimiter =>
        if t.limiter.Some? { ActionLimiters.SameLater(t.limiter.value, u.limiter.value, c.limiter, later); }
      case _ =>
    }
  }

  /** Points a call can reach by its route. */
  predicate Fits(r: Request, pc: Pc) {
    if Acts(r) then
      || pc.AtScope? || pc.AtQuiet? || pc.AtBlast? || pc.AtPolicy? || pc.AtBreaker? || pc.AtLimiter?
      || pc.AtApply? || pc.AtRecord? || pc.Done?
    else if r.Change? then
      pc.AtScope? || pc.SimQuiet? || pc.SimBlast? || pc.SimPolicy? || pc.SimBreaker? || pc.Done?
    else
      pc.ViewBlast? || pc.ViewLimiter? || pc.ViewBreaker? || pc.Done?
  }

  lemma {:induction false} StepFits(t: Trackers, r: Request, pc: Pc, k: Tick)
    requires Fits(r, pc)
    ensures Fits(r, Step(t, r, pc, k).1)
  {
  }

  /** The policy whose budget a step consults, if it consults one. */
  function Consulted(r: Request, pc: Pc): Option<string> {
    if r.Change? && (pc.AtPolicy? || pc.SimPolicy?) && Consults(r.crd, r.actionType) then
      Some(r.crd.value.key)
    else
      None
  }

  /** A call left out prunes the budget it consults. */
  function Cut(cuts: PolicyBudgets.Cuts, consulted: Option<string>, silent: bool, now: int): PolicyBudgets.Cuts {
    if silent && consulted.Some? then PolicyBudgets.AddCut(cuts, consulted.value, now) else cuts
  }

  lemma {:induction false} SimulatedStep(
      t: Trackers, u: Trackers, c: Clocks, cuts: PolicyBudgets.Cuts, r: Request, pc: Pc, k: Tick, cleanups: bool)
    requires Same(t, u, c, cuts, cleanups) && r.Change? && !Acts(r) && Fits(r, pc)
    requires ReadOn(c, Touched(r, pc), k.now) == k.now
    ensures Same(Step(t, r, pc, k).0, u, c, Cut(cuts, Consulted(r, pc), true, k.now), cleanups)
  {
    if Consulted(r, pc).Some? && t.budget.Some? {
      PolicyBudgets.SameUsed(t.budget.value, u.budget.value, cuts, r.crd.value.key, k.now);
    } else if pc.SimBreaker? && t.breaker.Some? {
      CircuitBreakers.SameQuery(t.breaker.value, u.breaker.value, CircuitBreakers.Key(r.ns, r.workload), k.now);
    }
  }

  lemma {:induction false} PreviewedStep(
      t: Trackers, u: Trackers, c: Clocks, cuts: PolicyBudgets.Cuts, r: Request, pc: Pc, k: Tick, cleanups: bool)
    requires Same(t, u, c, cuts, cleanups) && r.Preview? && Fits(r, pc)
    requires ReadOn(c, Touched(r, pc), k.now) == k.now
    ensures Same(Step(t, r, pc, k).0, u, c, cuts, cleanups)
  {
    if pc.ViewLimiter? && t.limiter.Some? {
      ActionLimiters.SamePrune(t.limiter.value, u.limiter.value, k.now);
    }
  }

  lemma {:induction false} CleanupStep(
      t: Trackers, u: Trackers, c: Clocks, cuts: PolicyBudgets.Cuts, r: Request, pc: Pc, k: Tick)
    requires Same(t, u, c, cuts, false) && Acts(r) && r.housekeeping && !Gate.Counted(r.crd) && Fits(r, pc)
    ensures Same(Step(t, r, pc, k).0, u, c, cuts, false)
  {
  }

  /** A silent call leaves nothing the kept calls could see, but for its cut. */
  lemma {:induction false} SilentStep(
      t: Trackers, u: Trackers, c: Clocks, cuts: PolicyBudgets.Cuts, r: Request, pc: Pc, k: Tick, cleanups: bool)
    requires Same(t, u, c, cuts, cleanups) && Silent(r, cleanups) && Fits(r, pc)
    requires Acts(r) ==> !Gate.Counted(r.crd)
    requires ReadOn(c, Touched(r, pc), k.now) == k.now
    ensures Same(Step(t, r, pc, k).0, u, c, Cut(cuts, Consulted(r, pc), true, k.now), cleanups)
  {
    if r.Preview? {
      PreviewedStep(t, u, c, cuts, r, pc, k, cleanups);
    } else if Acts(r) {
      CleanupStep(t, u, c, cuts, r, pc, k);
    } else {
      SimulatedStep(t, u, c, cuts, r, pc, k, cleanups);
    }
  }

  /** A kept step consults a budget with a reading that calls left out have overtaken
      by at most d. */
  predicate Behind(cuts: PolicyBudgets.Cuts, consulted: Option<string>, now: int, d: nat) {
    consulted.Some? && consulted.value in cuts ==> cuts[consulted.value] - now <= d
  }

  /** A kept call moves alike in both, and leaves them alike, unless it consults a
      budget with a reading that a silent call has overtaken. */
  lemma {:induction false} KeptStep(
      t: Trackers, u: Trackers, c: Clocks, cuts: PolicyBudgets.Cuts, r: Request, pc: Pc, k: Tick, cleanups: bool)
    requires Same(t, u, c, cuts, cleanups) && !Silent(r, cleanups) && Fits(r, pc) && k.now <= k.again
    requires ReadOn(c, Touched(r, pc), k.now) == k.now && Behind(cuts, Consulted(r, pc), k.now, 0)
    ensures Step(t, r, pc, k).1 == Step(u, r, pc, k).1
    ensures Same(Step(t, r, pc, k).0, Step(u, r, pc, k).0, Advanced(c, Touched(r, pc), k.again), cuts, cleanups)
  {
    SameAt(t, u, c, cuts, Touched(r, pc), k.again, cleanups);
    if pc.AtPolicy? {
      KeptPolicy(t, u, c, cuts, r, k, cleanups);
    } else if pc.AtBreaker? && !r.housekeeping && t.breaker.Some? {
      var key := CircuitBreakers.Key(r.ns, r.workload);
      CircuitBreakers.SameRecord(t.breaker.value, u.breaker.value, key, k.now);
      CircuitBreakers.SameLater(CircuitBreakers.AfterRecord(t.breaker.value, key, k.now).0,
                                CircuitBreakers.AfterRecord(u.breaker.value, key, k.now).0, k.now, k.again);
    } else if pc.AtLimiter? && !r.housekeeping && t.limiter.Some? {
      ActionLimiters.SameAllow(t.limiter.value, u.limiter.value, k.now, k.again);
    } else if pc.AtRecord? && Gate.Counted(r.crd) && t.budget.Some? {
      PolicyBudgets.SameHit(t.budget.value, u.budget.value, cuts, r.crd.value.key, k.now);
    }
  }

  lemma {:induction false} KeptPolicy(
      t: Trackers, u: Trackers, c: Clocks, cuts: PolicyBudgets.Cuts, r: Request, k: Tick, cleanups: bool)
    requires Same(t, u, c, cuts, cleanups) && r.Change? && Behind(cuts, Consulted(r, AtPolicy), k.now, 0)
    ensures Step(t, r, AtPolicy, k).1 == Step(u, r, AtPolicy, k).1
    ensures Same(Step(t, r, AtPolicy, k).0, Step(u, r, AtPolicy, k).0, c, cuts, cleanups)
  {
    if Consulted(r, AtPolicy).Some? && t.budget.Some? {
      PolicyBudgets.SameCount(t.budget.value, u.budget.value, cuts, r.crd.value.key, k.now);
    }
  }

  /** Two systems alike for the calls kept. */
  ghost predicate Alike(s: System, u: System, reqs: seq<Request>, cuts: PolicyBudgets.Cuts, cleanups: bool)
    requires Of(s, reqs) && Of(u, reqs)
  {
    && Same(s.t, u.t, s.clocks, cuts, cleanups)
    && (forall i :: 0 <= i < |reqs| ==> Fits(reqs[i], s.pcs[i]))
    && (forall i :: 0 <= i < |reqs| && !Silent(reqs[i], cleanups) ==> s.pcs[i] == u.pcs[i])
  }

  /** With no hourly policy over cleanup, or with cleanup kept. */
  predicate Quiet(reqs: seq<Request>, cleanups: bool) {
    !cleanups ==> forall i :: 0 <= i < |reqs| && Acts(reqs[i]) && reqs[i].housekeeping ==> !Gate.Counted(reqs[i].crd)
  }

  function ConsultedAt(s: System, reqs: seq<Request>, e: Event): Option<string>
    requires Of(s, reqs) && e.call < |reqs|
  {
    Consulted(reqs[e.call], s.pcs[e.call])
  }

  /** For each policy, the latest reading with which a call left out has consulted
      its budget. */
  function CutsAfter(s: System, reqs: seq<Request>, evs: seq<Event>, cleanups: bool): PolicyBudgets.Cuts
    requires Of(s, reqs) && Belong(evs, |reqs|)
  {
    if evs == [] then map[]
    else
      var front, e := evs[..|evs| - 1], evs[|evs| - 1];
      Cut(CutsAfter(s, reqs, front, cleanups), ConsultedAt(Exec(s, reqs, front), reqs, e),
          Silent(reqs[e.call], cleanups), e.tick.now)
  }

  /** No call left out hands the budget of a policy a reading later by more than d than
      one with which a kept call comes to the same budget after it. */
  predicate OvertakenAtMost(s: System, reqs: seq<Request>, evs: seq<Event>, cleanups: bool, d: nat)
    requires Of(s, reqs) && Belong(evs, |reqs|)
  {
    evs == []
    || (var front, e := evs[..|evs| - 1], evs[|evs| - 1];
        && OvertakenAtMost(s, reqs, front, cleanups, d)
        && (!Silent(reqs[e.call], cleanups) ==>
              Behind(CutsAfter(s, reqs, front, cleanups), ConsultedAt(Exec(s, reqs, front), reqs, e), e.tick.now, d)))
  }

  lemma {:induction false} StepAlike(
      m: System, u: System, reqs: seq<Request>, e: Event, cuts: PolicyBudgets.Cuts, cleanups: bool)
    requires Of(m, reqs) && Of(u, reqs) && e.call < |reqs| && Timely(m, reqs, e)
    requires !Silent(reqs[e.call], cleanups) ==> Behind(cuts, ConsultedAt(m, reqs, e), e.tick.now, 0)
    requires Alike(m, u, reqs, cuts, cleanups) && Quiet(reqs, cleanups)
    ensures var silent := Silent(reqs[e.call], cleanups);
            Alike(StepSystem(m, reqs, e), if silent then u else StepSystem(u, reqs, e), reqs,
                  Cut(cuts, ConsultedAt(m, reqs, e), silent, e.tick.now), cleanups)
  {
    var r, pc, k := reqs[e.call], m.pcs[e.call], e.tick;
    var x := Touched(r, pc);
    var c := Advanced(m.clocks, x, k.now);
    StepFits(m.t, r, pc, k);
    SameAt(m.t, u.t, m.clocks, cuts, x, k.now, cleanups);
    assert ReadOn(c, x, k.now) == k.now && Advanced(c, x, k.again) == Advanced(m.clocks, x, k.again);
    if Silent(r, cleanups) {
      SilentStep(m.t, u.t, c, cuts, r, pc, k, cleanups);
      SameAt(Step(m.t, r, pc, k).0, u.t, c, Cut(cuts, Consulted(r, pc), true, k.now), x, k.again, cleanups);
    } else {
      KeptStep(m.t, u.t, c, cuts, r, pc, k, cleanups);
    }
  }

  lemma {:induction false} ExecAlike(s: System, reqs: seq<Request>, evs: seq<Event>, cleanups: bool)
    requires Of(s, reqs) && Belong(evs, |reqs|) && Ordered(s, reqs, evs) && OvertakenAtMost(s, reqs, evs, cleanups, 0)
    requires Alike(s, s, reqs, map[], cleanups) && Quiet(reqs, cleanups)
    ensures Alike(Exec(s, reqs, evs), Exec(s, reqs, Erase(evs, reqs, cleanups)), reqs,
                  CutsAfter(s, reqs, evs, cleanups), cleanups)
  {
    if evs != [] {
      var front, e := evs[..|evs| - 1], evs[|evs| - 1];
      ExecAlike(s, reqs, front, cleanups);
      var kept := Erase(front, reqs, cleanups);
      StepAlike(Exec(s, reqs, front), Exec(s, reqs, kept), reqs, e, CutsAfter(s, reqs, front, cleanups), cleanups);
      assert (kept + [e])[..|kept|] == kept;
    }
  }

  lemma {:induction false} InitialAlike(t: Trackers, reqs: seq<Request>, start: int, cleanups: bool)
    requires New(t, start)
    ensures Alike(Initial(t, reqs, start), Initial(t, reqs, start), reqs, map[], cleanups)
  {
  }

  /** Dry-run simulations, gate previews and suggestions can be inserted
      anywhere in a run: every fix-mode call stands where it would without them,
      although they prune the trackers as they answer. None of them may overtake a
      fix on its way to the budget of the policy they both consult. */
  lemma {:induction false} NonInterference(t: Trackers, reqs: seq<Request>, evs: seq<Event>, start: int, c: nat)
    requires RunOf(t, reqs, evs, start) && c < |reqs| && Acts(reqs[c])
    requires OvertakenAtMost(Initial(t, reqs, start), reqs, evs, true, 0)
    ensures Reached(t, reqs, evs, start).pcs[c] == Reached(t, reqs, Erase(evs, reqs, true), start).pcs[c]
  {
    InitialAlike(t, reqs, start, true);
    ExecAlike(Initial(t, reqs, start), reqs, evs, true);
  }

  /** Housekeeping takes nothing away from fixes: with no hourly policy over it,
      any amount of housekeeping can be inserted too. */
  lemma {:induction false} HousekeepingIsolation(t: Trackers, reqs: seq<Request>, evs: seq<Event>, start: int, c: nat)
    requires RunOf(t, reqs, evs, start) && c < |reqs| && Acts(reqs[c]) && !reqs[c].housekeeping
    requires OvertakenAtMost(Initial(t, reqs, start), reqs, evs, false, 0) && Quiet(reqs, false)
    ensures Reached(t, reqs, evs, start).pcs[c] == Reached(t, reqs, Erase(evs, reqs, false), start).pcs[c]
  {
    InitialAlike(t, reqs, start, false);
    ExecAlike(Initial(t, reqs, start), reqs, evs, false);
  }

  /** No call left out is under the hourly policy of a call that is kept. */
  predicate NoneShared(reqs: seq<Request>, cleanups: bool) {
    forall i, j :: 0 <= i < |reqs| && 0 <= j < |reqs| && Silent(reqs[i], cleanups) && !Silent(reqs[j], cleanups)
      && reqs[i].Change? && Consults(reqs[i].crd, reqs[i].actionType) && Consults(reqs[j].crd, reqs[j].actionType)
      ==> reqs[i].crd.value.key != reqs[j].crd.value.key
  }

  lemma {:induction false} CutsAreSilent(s: System, reqs: seq<Request>, evs: seq<Event>, cleanups: bool, key: string)
    requires Of(s, reqs) && Belong(evs, |reqs|) && key in CutsAfter(s, reqs, evs, cleanups)
    ensures exists i :: 0 <= i < |reqs| && Silent(reqs[i], cleanups) && reqs[i].Change?
                        && Consults(reqs[i].crd, reqs[i].actionType) && reqs[i].crd.value.key == key
  {
    var front, e := evs[..|evs| - 1], evs[|evs| - 1];
    if key in CutsAfter(s, reqs, front, cleanups) {
      CutsAreSilent(s, reqs, front, cleanups, key);
    } else {
      assert Silent(reqs[e.call], cleanups);
    }
  }

  /** Then nothing is ever overtaken, whatever the schedule. */
  lemma {:induction false} NeverOvertaken(s: System, reqs: seq<Request>, evs: seq<Event>, cleanups: bool)
    requires Of(s, reqs) && Belong(evs, |reqs|) && NoneShared(reqs, cleanups)
    ensures OvertakenAtMost(s, reqs, evs, cleanups, 0)
  {
    if evs != [] {
      var front, e := evs[..|evs| - 1], evs[|evs| - 1];
      NeverOvertaken(s, reqs, front, cleanups);
      var consulted := ConsultedAt(Exec(s, reqs, front), reqs, e);
      if !Silent(reqs[e.call], cleanups) && consulted.Some? && consulted.value in CutsAfter(s, reqs, front, cleanups) {
        CutsAreSilent(s, reqs, front, cleanups, consulted.value);
        assert false;
      }
    }
  }

  /** Over every run at all: calls that answer, or with no hourly policy over it
      housekeeping too, change nothing for fixes of other policies or of none. */
  lemma {:induction false} NonInterferenceAcrossPolicies(
      t: Trackers, reqs: seq<Request>, evs: seq<Event>, start: int, c: nat, cleanups: bool)
    requires RunOf(t, reqs, evs, start) && NoneShared(reqs, cleanups) && Quiet(reqs, cleanups)
    requires c < |reqs| && !Silent(reqs[c], cleanups)
    ensures Reached(t, reqs, evs, start).pcs[c] == Reached(t, reqs, Erase(evs, reqs, cleanups), start).pcs[c]
  {
    InitialAlike(t, reqs, start, cleanups);
    NeverOvertaken(Initial(t, reqs, start), reqs, evs, cleanups);
    ExecAlike(Initial(t, reqs, start), reqs, evs, cleanups);
  }

  /** However many housekeeping changes run, the fix limiter, the blast radius
      and the breaker are left as they were. */
  lemma {:induction false} HousekeepingSpendsItsOwn(s: System, reqs: seq<Request>, evs: seq<Event>)
    requires Of(s, reqs) && Belong(evs, |reqs|)
    requires forall i :: 0 <= i < |reqs| ==> Fits(reqs[i], s.pcs[i])
    requires forall i :: 0 <= i < |evs| ==> Acts(reqs[evs[i].call]) && reqs[evs[i].call].housekeeping
    ensures var s' := Exec(s, reqs, evs);
            && s'.t.limiter == s.t.limiter && s'.t.blast == s.t.blast && s'.t.breaker == s.t.breaker
            && forall i :: 0 <= i < |reqs| ==> Fits(reqs[i], s'.pcs[i])
  {
    if evs != [] {
      var front, e := evs[..|evs| - 1], evs[|evs| - 1];
      HousekeepingSpendsItsOwn(s, reqs, front);
      var m := Exec(s, reqs, front);
      StepFits(m.t, reqs[e.call], m.pcs[e.call], e.tick);
    }
  }
}
