/** Exactly when calls that only answer leave fixes of the same hourly policy alone:
    when none of them overtakes a fix on its way to the policy's budget. The run that
    shows it is built for every limit. */
module GateOvertaking {
  import opened Prelude
  import opened Gate
  import opened GateRuns
  import opened GateLimits
  import PolicyScope
  import PolicyBudgets

  const DRYING := FIXING.(mode := PolicyScope.DryRun)

  function DryRunOf(crd: Option<CrdPolicy>): Request {
    Change(DRYING, "", "node-1", "cordon_node", false, crd)
  }

  /** As many fixes as the limit, one more, and a dry run of the same policy. */
  function Asked(limit: nat): seq<Request> {
    Fixes(limit + 1, Hourly(limit), false) + [DryRunOf(Hourly(limit))]
  }

  predicate AskedAre(reqs: seq<Request>, limit: nat) {
    && |reqs| == limit + 2 && reqs[limit + 1] == DryRunOf(Hourly(limit))
    && forall i :: 0 <= i <= limit ==> reqs[i] == PlainFix(Hourly(limit), false)
  }

  // ---- The limit is used up at 0 ----

  ghost predicate Filled(s0: System, reqs: seq<Request>, limit: nat, evs: seq<Event>, n: nat)
    requires Of(s0, reqs)
  {
    && Belong(evs, |reqs|) && Rising(evs, 0) && EndOf(evs, 0) <= 0
    && Shape(Exec(s0, reqs, evs), limit, 2, n, n) && forall i :: 0 <= i < |evs| ==> evs[i].call < n
  }

  ghost function Filling(s0: System, reqs: seq<Request>, limit: nat): (seq<Event>, nat) -> bool
    requires Of(s0, reqs)
  {
    (evs: seq<Event>, n: nat) => Filled(s0, reqs, limit, evs, n)
  }

  lemma {:induction false} FillNext(s0: System, reqs: seq<Request>, limit: nat, evs: seq<Event>, n: nat)
    requires Of(s0, reqs) && AskedAre(reqs, limit) && n < limit && Filled(s0, reqs, limit, evs, n)
    ensures Filled(s0, reqs, limit, Finishes(evs + Passes(n), n), n + 1)
  {
    var e, s := Event(n, At(0)), Exec(s0, reqs, evs);
    Then(s0, reqs, evs, e, 4);
    RisingOn(evs, 0, e, 4);
    PassOne(s, reqs, limit, 2, n, n);
    FillFinish(s0, reqs, limit, evs + Passes(n), n);
  }

  lemma {:induction false} FillFinish(s0: System, reqs: seq<Request>, limit: nat, evs: seq<Event>, n: nat)
    requires Of(s0, reqs) && AskedAre(reqs, limit) && n < limit
    requires Belong(evs, |reqs|) && Rising(evs, 0) && EndOf(evs, 0) <= 0
    requires Shape(Exec(s0, reqs, evs), limit, 2, n, n + 1) && forall i :: 0 <= i < |evs| ==> evs[i].call <= n
    ensures Filled(s0, reqs, limit, Finishes(evs, n), n + 1)
  {
    ThenTwo(s0, reqs, evs, Event(n, At(0)), 2, 2, 0);
    FinishOne(Exec(s0, reqs, evs), reqs, limit, 2, n, n + 1);
  }

  lemma {:induction false} FillTurns(p: (seq<Event>, nat) -> bool, limit: nat, n: nat)
    requires p([], 0) && n <= limit
    requires forall evs, m: nat :: m < limit && p(evs, m) ==> p(Finishes(evs + Passes(m), m), m + 1)
    ensures p(OneByOne(n), n)
  {
    if n > 0 { FillTurns(p, limit, n - 1); }
  }

  lemma {:induction false} AllFilled(s0: System, reqs: seq<Request>, limit: nat)
    requires Of(s0, reqs) && AskedAre(reqs, limit) && Shape(s0, limit, 2, 0, 0)
    ensures Filled(s0, reqs, limit, OneByOne(limit), limit)
  {
    var p := Filling(s0, reqs, limit);
    forall evs, m: nat | m < limit && p(evs, m) ensures p(Finishes(evs + Passes(m), m), m + 1) {
      FillNext(s0, reqs, limit, evs, m);
    }
    FillTurns(p, limit, limit);
  }

  lemma {:induction false} FirstShape(limit: nat)
    requires limit >= 1
    ensures AskedAre(Asked(limit), limit) && Shape(Initial(Counting(limit, 2), Asked(limit), 0), limit, 2, 0, 0)
  {
    assert Copies(0, 0) == [] && Copies(PolicyBudgets.Hit("p", 0), 0) == [];
  }

  // ---- The fix reads its clock, the dry run asks, the fix asks ----

  /** Scope, quiet hours and blast radius. */
  lemma {:induction false} ReachPolicy(s: System, reqs: seq<Request>, e: Event, crd: Option<CrdPolicy>)
    requires Of(s, reqs) && e.call < |reqs| && reqs[e.call] == PlainFix(crd, false)
    requires s.pcs[e.call] == AtScope && !e.tick.quiet && s.t.blast.None?
    ensures var s' := Steps(s, reqs, e, 3); s'.t == s.t && s'.pcs == s.pcs[e.call := AtPolicy]
  {
    var s1 := StepSystem(s, reqs, e);
    var s2 := StepSystem(s1, reqs, e);
    assert Steps(s, reqs, e, 3) == Steps(s1, reqs, e, 2) == Steps(s2, reqs, e, 1);
  }

  /** The dry run's scope, quiet hours, blast radius and policy. */
  lemma {:induction false} Simulates(s: System, reqs: seq<Request>, e: Event, crd: Option<CrdPolicy>)
    requires Of(s, reqs) && e.call < |reqs| && reqs[e.call] == DryRunOf(crd)
    requires s.pcs[e.call] == AtScope && !e.tick.quiet && s.t.blast.None?
    ensures var s' := Steps(s, reqs, e, 4);
            && s'.t == s.t.(budget := PolicyRefusal(s.t.budget, crd, "cordon_node", e.tick.now).0)
            && forall i :: 0 <= i < |s.pcs| && i != e.call ==> s'.pcs[i] == s.pcs[i] && s'.read[i] == s.read[i]
  {
    var s1 := StepSystem(s, reqs, e);
    var s2 := StepSystem(s1, reqs, e);
    var s3 := StepSystem(s2, reqs, e);
    assert s3.t == s.t && s3.pcs[e.call] == SimPolicy;
    assert Steps(s, reqs, e, 4) == Steps(s1, reqs, e, 3) == Steps(s2, reqs, e, 2) == Steps(s3, reqs, e, 1);
  }

  lemma {:induction false} NoneOfTheLastHour(n: nat)
    ensures After(Copies(0, n), HOUR - HOUR) == []
  {
    AfterNone(Copies(0, n), 0);
  }

  lemma {:induction false} AllOfTheLastHour(n: nat)
    ensures After(Copies(0, n), HOUR - 1 - HOUR) == Copies(0, n)
  {
    if n > 0 {
      CopiesMore(0, n - 1);
      AllOfTheLastHour(n - 1);
      AfterPush(Copies(0, n - 1), 0, -1);
    }
  }

  /** The fix asks at the last tick of the hour, after the dry run has asked one later. */
  lemma {:induction false} LetThrough(s: System, reqs: seq<Request>, limit: nat)
    requires Of(s, reqs) && AskedAre(reqs, limit) && limit >= 1 && Shape(s, limit, 2, limit, limit)
    ensures var e, d := Event(limit, At(HOUR - 1)), Event(limit + 1, At(HOUR));
            var s' := Steps(Steps(s, reqs, e, 3), reqs, d, 4);
            && StepSystem(s', reqs, e).pcs[limit] == AtBreaker
            && s'.pcs[limit] == AtPolicy && s'.read[limit] == Steps(s, reqs, e, 3).read[limit]
  {
    var e, d := Event(limit, At(HOUR - 1)), Event(limit + 1, At(HOUR));
    ReachPolicy(s, reqs, e, Hourly(limit));
    var s3 := Steps(s, reqs, e, 3);
    Simulates(s3, reqs, d, Hourly(limit));
    NoneOfTheLastHour(limit);
    var s7 := Steps(s3, reqs, d, 4);
    assert PolicyBudgets.HitsOf(s7.t.budget.value, "p") == [];
  }

  /** Without the dry run it finds the limit used up. */
  lemma {:induction false} Refused(s: System, reqs: seq<Request>, limit: nat)
    requires Of(s, reqs) && AskedAre(reqs, limit) && limit >= 1 && Shape(s, limit, 2, limit, limit)
    ensures var e := Event(limit, At(HOUR - 1));
            StepSystem(Steps(s, reqs, e, 3), reqs, e).pcs[limit] == Done(Blocked(BudgetSpent))
  {
    ReachPolicy(s, reqs, Event(limit, At(HOUR - 1)), Hourly(limit));
    AllOfTheLastHour(limit);
  }

  // ---- The two runs ----

  function Before(limit: nat): seq<Event> {
    OneByOne(limit) + Copies(Event(limit, At(HOUR - 1)), 3)
  }

  function Between(limit: nat): seq<Event> {
    Before(limit) + Copies(Event(limit + 1, At(HOUR)), 4)
  }

  function Overtaken(limit: nat): seq<Event> {
    Between(limit) + [Event(limit, At(HOUR - 1))]
  }

  lemma {:induction false} BeforeRuns(s0: System, reqs: seq<Request>, limit: nat)
    requires Of(s0, reqs) && AskedAre(reqs, limit) && Filled(s0, reqs, limit, OneByOne(limit), limit)
    ensures var e, evs := Event(limit, At(HOUR - 1)), Before(limit);
            && Belong(evs, |reqs|) && Rising(evs, 0) && EndOf(evs, 0) == HOUR - 1
            && Exec(s0, reqs, evs) == Steps(Exec(s0, reqs, OneByOne(limit)), reqs, e, 3)
            && forall i :: 0 <= i < |evs| ==> evs[i].call <= limit
  {
    var e := Event(limit, At(HOUR - 1));
    Then(s0, reqs, OneByOne(limit), e, 3);
    RisingOn(OneByOne(limit), 0, e, 3);
  }

  lemma {:induction false} BetweenRuns(s0: System, reqs: seq<Request>, limit: nat)
    requires Of(s0, reqs) && AskedAre(reqs, limit) && Filled(s0, reqs, limit, OneByOne(limit), limit)
    ensures var e, d, evs := Event(limit, At(HOUR - 1)), Event(limit + 1, At(HOUR)), Between(limit);
            && Belong(evs, |reqs|) && Rising(evs, 0)
            && Exec(s0, reqs, evs) == Steps(Steps(Exec(s0, reqs, OneByOne(limit)), reqs, e, 3), reqs, d, 4)
  {
    var d := Event(limit + 1, At(HOUR));
    BeforeRuns(s0, reqs, limit);
    Then(s0, reqs, Before(limit), d, 4);
    RisingOn(Before(limit), 0, d, 4);
  }

  lemma {:induction false} OrderedPush(s: System, reqs: seq<Request>, front: seq<Event>, e: Event)
    requires Of(s, reqs) && Belong(front, |reqs|) && e.call < |reqs| && Ordered(s, reqs, front)
    requires Timely(Exec(s, reqs, front), reqs, e)
    ensures Belong(front + [e], |reqs|) && Ordered(s, reqs, front + [e])
  {
    assert (front + [e])[..|front|] == front;
  }

  /** At the policy's budget a step has only its own call's last reading to follow. */
  lemma {:induction false} TimelyAtPolicy(s: System, reqs: seq<Request>, e: Event)
    requires Of(s, reqs) && e.call < |reqs| && reqs[e.call].Change? && s.pcs[e.call] == AtPolicy
    requires s.read[e.call] <= e.tick.now <= e.tick.again
    ensures Timely(s, reqs, e)
  {
  }

  /** With the dry run in it the fix goes on to the breaker. */
  lemma {:induction false} OvertakenOutcome(s0: System, reqs: seq<Request>, limit: nat)
    requires Of(s0, reqs) && AskedAre(reqs, limit) && limit >= 1 && Filled(s0, reqs, limit, OneByOne(limit), limit)
    ensures Belong(Between(limit), |reqs|) && Belong(Before(limit), |reqs|) && Belong(Overtaken(limit), |reqs|)
    ensures var m := Exec(s0, reqs, Between(limit));
            m.pcs[limit] == AtPolicy && m.read[limit] == Exec(s0, reqs, Before(limit)).read[limit]
    ensures Exec(s0, reqs, Overtaken(limit)).pcs[limit] == AtBreaker
  {
    BetweenRuns(s0, reqs, limit);
    BeforeRuns(s0, reqs, limit);
    LetThrough(Exec(s0, reqs, OneByOne(limit)), reqs, limit);
    ExecPush(s0, reqs, Between(limit), Event(limit, At(HOUR - 1)));
  }

  lemma {:induction false} OvertakenInOrder(t: Trackers, reqs: seq<Request>, limit: nat)
    requires AskedAre(reqs, limit) && limit >= 1 && Filled(Initial(t, reqs, 0), reqs, limit, OneByOne(limit), limit)
    ensures Belong(Overtaken(limit), |reqs|) && Ordered(Initial(t, reqs, 0), reqs, Overtaken(limit))
  {
    var s0, e := Initial(t, reqs, 0), Event(limit, At(HOUR - 1));
    BetweenRuns(s0, reqs, limit);
    BeforeRuns(s0, reqs, limit);
    OvertakenOutcome(s0, reqs, limit);
    RisingIsOrdered(t, reqs, Between(limit), 0);
    RisingIsOrdered(t, reqs, Before(limit), 0);
    TimelyAtPolicy(Exec(s0, reqs, Between(limit)), reqs, e);
    OrderedPush(s0, reqs, Between(limit), e);
  }

  // ---- What is erased ----

  predicate KeptCalls(evs: seq<Event>, reqs: seq<Request>, cleanups: bool)
    requires Belong(evs, |reqs|)
  {
    forall i :: 0 <= i < |evs| ==> !Silent(reqs[evs[i].call], cleanups)
  }

  lemma {:induction false} ErasePush(evs: seq<Event>, e: Event, reqs: seq<Request>, cleanups: bool)
    requires Belong(evs, |reqs|) && e.call < |reqs|
    ensures Belong(evs + [e], |reqs|)
    ensures Erase(evs + [e], reqs, cleanups)
            == if Silent(reqs[e.call], cleanups) then Erase(evs, reqs, cleanups) else Erase(evs, reqs, cleanups) + [e]
  {
    assert (evs + [e])[..|evs|] == evs;
  }

  lemma {:induction false} EraseKept(evs: seq<Event>, reqs: seq<Request>, cleanups: bool)
    requires Belong(evs, |reqs|) && KeptCalls(evs, reqs, cleanups)
    ensures Erase(evs, reqs, cleanups) == evs
  {
    if evs != [] {
      var front, last := evs[..|evs| - 1], evs[|evs| - 1];
      assert !Silent(reqs[last.call], cleanups);
      EraseKept(front, reqs, cleanups);
      assert front + [last] == evs;
    }
  }

  lemma {:induction false} EraseSilent(evs: seq<Event>, e: Event, n: nat, reqs: seq<Request>, cleanups: bool)
    requires Belong(evs, |reqs|) && e.call < |reqs| && Silent(reqs[e.call], cleanups)
    ensures Belong(evs + Copies(e, n), |reqs|)
    ensures Erase(evs + Copies(e, n), reqs, cleanups) == Erase(evs, reqs, cleanups)
  {
    if n == 0 {
      assert evs + Copies(e, 0) == evs;
    } else {
      EraseSilent(evs, e, n - 1, reqs, cleanups);
      CopiesMore(e, n - 1);
      ErasePush(evs + Copies(e, n - 1), e, reqs, cleanups);
      assert evs + Copies(e, n) == evs + Copies(e, n - 1) + [e];
    }
  }

  lemma {:induction false} EraseBetween(a: seq<Event>, d: Event, n: nat, e: Event, reqs: seq<Request>, cleanups: bool)
    requires Belong(a, |reqs|) && KeptCalls(a, reqs, cleanups) && d.call < |reqs| && e.call < |reqs|
    requires Silent(reqs[d.call], cleanups) && !Silent(reqs[e.call], cleanups)
    ensures Belong(a + Copies(d, n) + [e], |reqs|)
    ensures Erase(a + Copies(d, n) + [e], reqs, cleanups) == a + [e]
  {
    EraseKept(a, reqs, cleanups);
    EraseSilent(a, d, n, reqs, cleanups);
    ErasePush(a + Copies(d, n), e, reqs, cleanups);
  }

  lemma {:induction false} WhoActs(limit: nat, cleanups: bool)
    ensures Silent(DryRunOf(Hourly(limit)), cleanups) && !Silent(PlainFix(Hourly(limit), false), cleanups)
  {
  }

  lemma {:induction false} OvertakenErased(s0: System, reqs: seq<Request>, limit: nat, cleanups: bool)
    requires Of(s0, reqs) && AskedAre(reqs, limit) && Filled(s0, reqs, limit, OneByOne(limit), limit)
    ensures Belong(Overtaken(limit), |reqs|)
    ensures Erase(Overtaken(limit), reqs, cleanups) == Before(limit) + [Event(limit, At(HOUR - 1))]
  {
    BeforeRuns(s0, reqs, limit);
    WhoActs(limit, cleanups);
    EraseBetween(Before(limit), Event(limit + 1, At(HOUR)), 4, Event(limit, At(HOUR - 1)), reqs, cleanups);
  }

  lemma {:induction false} ErasedOutcome(t: Trackers, reqs: seq<Request>, limit: nat, cleanups: bool)
    requires AskedAre(reqs, limit) && limit >= 1 && Filled(Initial(t, reqs, 0), reqs, limit, OneByOne(limit), limit)
    ensures Belong(Overtaken(limit), |reqs|)
    ensures Reached(t, reqs, Erase(Overtaken(limit), reqs, cleanups), 0).pcs[limit] == Done(Blocked(BudgetSpent))
  {
    var s0, e := Initial(t, reqs, 0), Event(limit, At(HOUR - 1));
    OvertakenErased(s0, reqs, limit, cleanups);
    BeforeRuns(s0, reqs, limit);
    Refused(Exec(s0, reqs, OneByOne(limit)), reqs, limit);
    ExecPush(s0, reqs, Before(limit), e);
  }

  // ---- By how much the fix is overtaken ----

  predicate CutsUpto(cuts: PolicyBudgets.Cuts, m: int) {
    forall key :: key in cuts ==> cuts[key] <= m
  }

  lemma {:induction false} NoLaterCut(s: System, reqs: seq<Request>, evs: seq<Event>, cleanups: bool, m: int)
    requires Of(s, reqs) && Belong(evs, |reqs|) && forall i :: 0 <= i < |evs| ==> evs[i].tick.now <= m
    ensures CutsUpto(CutsAfter(s, reqs, evs, cleanups), m)
  {
    if evs != [] { NoLaterCut(s, reqs, evs[..|evs| - 1], cleanups, m); }
  }

  /** Along a run whose readings rise nothing is overtaken. */
  lemma {:induction false} RisingNeverOvertaken(
      s: System, reqs: seq<Request>, evs: seq<Event>, start: int, cleanups: bool)
    requires Of(s, reqs) && Belong(evs, |reqs|) && Rising(evs, start)
    ensures OvertakenAtMost(s, reqs, evs, cleanups, 0)
  {
    if evs != [] {
      var front, last := evs[..|evs| - 1], evs[|evs| - 1];
      RisingNeverOvertaken(s, reqs, front, start, cleanups);
      RisingUpto(front, last.tick.now, start);
      NoLaterCut(s, reqs, front, cleanups, last.tick.now);
    }
  }

  lemma {:induction false} RisingUpto(evs: seq<Event>, m: int, start: int)
    requires Rising(evs, start) && (evs != [] ==> evs[|evs| - 1].tick.again <= m)
    ensures forall i :: 0 <= i < |evs| ==> evs[i].tick.now <= m
  {
    if evs != [] { RisingUpto(evs[..|evs| - 1], m, start); }
  }

  lemma {:induction false} OvertakenMore(s: System, reqs: seq<Request>, evs: seq<Event>, cleanups: bool, c: nat, d: nat)
    requires Of(s, reqs) && Belong(evs, |reqs|) && OvertakenAtMost(s, reqs, evs, cleanups, c) && c <= d
    ensures OvertakenAtMost(s, reqs, evs, cleanups, d)
  {
    if evs != [] { OvertakenMore(s, reqs, evs[..|evs| - 1], cleanups, c, d); }
  }

  lemma {:induction false} OvertakenByOne(s0: System, reqs: seq<Request>, limit: nat, cleanups: bool, d: nat)
    requires Of(s0, reqs) && AskedAre(reqs, limit) && Filled(s0, reqs, limit, OneByOne(limit), limit) && d >= 1
    ensures Belong(Overtaken(limit), |reqs|) && OvertakenAtMost(s0, reqs, Overtaken(limit), cleanups, d)
  {
    var evs := Between(limit);
    BeforeRuns(s0, reqs, limit);
    BetweenRuns(s0, reqs, limit);
    RisingNeverOvertaken(s0, reqs, evs, 0, cleanups);
    OvertakenMore(s0, reqs, evs, cleanups, 0, d);
    assert evs[|evs| - 1] == Event(limit + 1, At(HOUR));
    RisingUpto(evs, HOUR, 0);
    NoLaterCut(s0, reqs, evs, cleanups, HOUR);
    assert Overtaken(limit)[..|evs|] == evs;
  }

  // ---- Results ----

  /** Every hourly policy allows that many actions. */
  predicate AllAllow(reqs: seq<Request>, limit: nat) {
    forall i :: 0 <= i < |reqs| && reqs[i].Change? && Gate.Counted(reqs[i].crd) ==>
      reqs[i].crd.value.maxActionsPerHour == limit
  }

  /** In every run in which no call left out overtakes a kept one by more than d on the
      way to the budget they share, every kept call stands where it would without. */
  ghost predicate KeepsOutcomes(limit: nat, cleanups: bool, d: nat) {
    forall t, reqs, evs, start, c: nat ::
      RunOf(t, reqs, evs, start) && AllAllow(reqs, limit) && Quiet(reqs, cleanups)
      && OvertakenAtMost(Initial(t, reqs, start), reqs, evs, cleanups, d) && c < |reqs| && !Silent(reqs[c], cleanups)
      ==> Reached(t, reqs, evs, start).pcs[c] == Reached(t, reqs, Erase(evs, reqs, cleanups), start).pcs[c]
  }

  lemma {:induction false} TellsApart(t: Trackers, reqs: seq<Request>, limit: nat, cleanups: bool, d: nat)
    requires limit >= 1 && d >= 1 && AskedAre(reqs, limit)
    requires Filled(Initial(t, reqs, 0), reqs, limit, OneByOne(limit), limit)
    ensures var evs := Overtaken(limit);
            && Belong(evs, |reqs|) && OvertakenAtMost(Initial(t, reqs, 0), reqs, evs, cleanups, d)
            && Reached(t, reqs, evs, 0).pcs[limit] == AtBreaker
            && Reached(t, reqs, Erase(evs, reqs, cleanups), 0).pcs[limit] == Done(Blocked(BudgetSpent))
  {
    OvertakenOutcome(Initial(t, reqs, 0), reqs, limit);
    ErasedOutcome(t, reqs, limit, cleanups);
    OvertakenByOne(Initial(t, reqs, 0), reqs, limit, cleanups, d);
  }

  lemma {:induction false} AskedAllow(reqs: seq<Request>, limit: nat, cleanups: bool)
    requires AskedAre(reqs, limit)
    ensures AllAllow(reqs, limit) && Quiet(reqs, cleanups) && !Silent(reqs[limit], cleanups)
  {
    WhoActs(limit, cleanups);
    forall i | 0 <= i < |reqs| ensures reqs[i].Change? && reqs[i].crd == Hourly(limit) && !reqs[i].housekeeping {
      if i <= limit { assert reqs[i] == PlainFix(Hourly(limit), false); }
    }
  }

  lemma {:induction false} OvertakingTells(limit: nat, cleanups: bool, d: nat)
    requires limit >= 1 && d >= 1
    ensures var t, reqs, evs := Counting(limit, 2), Asked(limit), Overtaken(limit);
            && RunOf(t, reqs, evs, 0) && AllAllow(reqs, limit) && Quiet(reqs, cleanups)
            && OvertakenAtMost(Initial(t, reqs, 0), reqs, evs, cleanups, d)
            && limit < |reqs| && !Silent(reqs[limit], cleanups)
            && Reached(t, reqs, evs, 0).pcs[limit] == AtBreaker
            && Reached(t, reqs, Erase(evs, reqs, cleanups), 0).pcs[limit] == Done(Blocked(BudgetSpent))
  {
    var t, reqs := Counting(limit, 2), Asked(limit);
    FirstShape(limit);
    AllFilled(Initial(t, reqs, 0), reqs, limit);
    AskedAllow(reqs, limit, cleanups);
    OvertakenInOrder(t, reqs, limit);
    TellsApart(t, reqs, limit, cleanups, d);
  }

  /** For every limit, and with housekeeping kept or left out: what the calls left out
      answer tells on no fix if and only if none of them overtakes one. */
  lemma {:induction false} OutcomesKeptIffNotOvertaken(limit: nat, cleanups: bool, d: nat)
    requires limit >= 1
    ensures KeepsOutcomes(limit, cleanups, d) <==> d == 0
  {
    if d == 0 {
      forall t, reqs, evs, start, c: nat |
        RunOf(t, reqs, evs, start) && AllAllow(reqs, limit) && Quiet(reqs, cleanups)
        && OvertakenAtMost(Initial(t, reqs, start), reqs, evs, cleanups, d) && c < |reqs| && !Silent(reqs[c], cleanups)
        ensures Reached(t, reqs, evs, start).pcs[c] == Reached(t, reqs, Erase(evs, reqs, cleanups), start).pcs[c]
      {
        InitialAlike(t, reqs, start, cleanups);
        ExecAlike(Initial(t, reqs, start), reqs, evs, cleanups);
      }
    } else {
      OvertakingTells(limit, cleanups, d);
      var t, reqs, evs := Counting(limit, 2), Asked(limit), Overtaken(limit);
      assert RunOf(t, reqs, evs, 0) && Reached(t, reqs, evs, 0).pcs[limit] == AtBreaker;
    }
  }
}
