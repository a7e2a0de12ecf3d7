/** Exactly when two limits of the gate hold over runs whose calls overlap: the
    limiter's maximum by the clock at which changes are sent, and the hourly limit
    of a policy. The runs that break them are built for every setting. */
module GateLimits {
  import opened Prelude
  import opened Gate
  import opened GateRuns
  import PolicyScope
  import ActionLimiters
  import PolicyBudgets

  // ---- Runs made of one call's steps in a row ----

  /** n steps of one call in a row, at one tick. */
  function Steps(s: System, reqs: seq<Request>, e: Event, n: nat): (s': System)
    requires Of(s, reqs) && e.call < |reqs|
    ensures Of(s', reqs)
    decreases n
  {
    if n == 0 then s else Steps(StepSystem(s, reqs, e), reqs, e, n - 1)
  }

  lemma {:induction false} StepsLast(s: System, reqs: seq<Request>, e: Event, n: nat)
    requires Of(s, reqs) && e.call < |reqs|
    ensures Steps(s, reqs, e, n + 1) == StepSystem(Steps(s, reqs, e, n), reqs, e)
    decreases n
  {
    if n > 0 { StepsLast(StepSystem(s, reqs, e), reqs, e, n - 1); }
  }

  /** Clock readings that rise along the whole run. */
  predicate Rising(evs: seq<Event>, start: int) {
    forall i :: 0 <= i < |evs| ==>
      && start <= evs[i].tick.now <= evs[i].tick.again
      && (i > 0 ==> evs[i - 1].tick.again <= evs[i].tick.now)
  }

  function EndOf(evs: seq<Event>, start: int): int {
    if evs == [] then start else evs[|evs| - 1].tick.again
  }

  lemma {:induction false} ExecPush(s: System, reqs: seq<Request>, front: seq<Event>, e: Event)
    requires Of(s, reqs) && e.call < |reqs| && Belong(front, |reqs|)
    ensures Belong(front + [e], |reqs|) && Exec(s, reqs, front + [e]) == StepSystem(Exec(s, reqs, front), reqs, e)
  {
    assert (front + [e])[..|front|] == front;
  }

  /** A run followed by n steps of one call. */
  lemma {:induction false} Then(s: System, reqs: seq<Request>, evs: seq<Event>, e: Event, n: nat)
    requires Of(s, reqs) && e.call < |reqs| && Belong(evs, |reqs|)
    ensures Belong(evs + Copies(e, n), |reqs|)
    ensures Exec(s, reqs, evs + Copies(e, n)) == Steps(Exec(s, reqs, evs), reqs, e, n)
  {
    if n == 0 {
      assert evs + Copies(e, 0) == evs;
    } else {
      Then(s, reqs, evs, e, n - 1);
      StepsLast(Exec(s, reqs, evs), reqs, e, n - 1);
      ExecPush(s, reqs, evs + Copies(e, n - 1), e);
      CopiesMore(e, n - 1);
      assert evs + Copies(e, n) == evs + Copies(e, n - 1) + [e];
    }
  }

  lemma {:induction false} RisingOn(evs: seq<Event>, start: int, e: Event, n: nat)
    requires Rising(evs, start) && EndOf(evs, start) <= e.tick.now == e.tick.again && start <= e.tick.now
    ensures Rising(evs + Copies(e, n), start) && EndOf(evs + Copies(e, n), start) <= e.tick.now
  {
  }

  ghost predicate Upto(s: System, now: int) {
    && s.clocks.blast <= now && s.clocks.breaker <= now && s.clocks.limiter <= now && s.clocks.cleanup <= now
    && s.latest <= now && forall i :: 0 <= i < |s.read| ==> s.read[i] <= now
  }

  /** Such a run is in order on every tracker and for every call. */
  lemma {:induction false} RisingIsOrdered(t: Trackers, reqs: seq<Request>, evs: seq<Event>, start: int)
    requires Belong(evs, |reqs|) && Rising(evs, start)
    ensures Ordered(Initial(t, reqs, start), reqs, evs)
    ensures Upto(Reached(t, reqs, evs, start), EndOf(evs, start))
  {
    if evs != [] {
      var front, e := evs[..|evs| - 1], evs[|evs| - 1];
      RisingIsOrdered(t, reqs, front, start);
      StepUpto(Reached(t, reqs, front, start), reqs, e, EndOf(front, start));
    }
  }

  lemma {:induction false} StepUpto(s: System, reqs: seq<Request>, e: Event, now: int)
    requires Of(s, reqs) && e.call < |reqs| && Upto(s, now) && now <= e.tick.now <= e.tick.again
    ensures Timely(s, reqs, e) && Upto(StepSystem(s, reqs, e), e.tick.again)
  {
  }

  // ---- A call that no guardrail but the policy and the limiter looks at ----

  const FIXING := PolicyScope.Policy(PolicyScope.Fix, PolicyScope.Num(0.5), 1, 1, 1, 1, "", "", true, {}, {}, {}, {},
    true, None)

  function PlainFix(crd: Option<CrdPolicy>, hk: bool): Request {
    Change(FIXING, "", "node-1", "cordon_node", hk, crd)
  }

  function At(now: int): Tick {
    Tick(now, now, false, true)
  }

  function LimiterOf(t: Trackers, hk: bool): Option<ActionLimiters.Limiter> {
    if hk then t.cleanup else t.limiter
  }

  function WithLimiter(t: Trackers, hk: bool, l: ActionLimiters.Limiter): Trackers {
    if hk then t.(cleanup := Some(l)) else t.(limiter := Some(l))
  }

  /** Scope, quiet hours, blast radius and policy: the first four steps. */
  lemma {:induction false} ReachBreaker(s: System, reqs: seq<Request>, e: Event, crd: Option<CrdPolicy>, hk: bool)
    requires Of(s, reqs) && e.call < |reqs| && reqs[e.call] == PlainFix(crd, hk)
    requires s.pcs[e.call] == AtScope && !e.tick.quiet && s.t.blast.None?
    requires PolicyRefusal(s.t.budget, crd, "cordon_node", e.tick.now).1.None?
    ensures var s' := Steps(s, reqs, e, 4);
            && s'.t == s.t.(budget := PolicyRefusal(s.t.budget, crd, "cordon_node", e.tick.now).0)
            && s'.pcs == s.pcs[e.call := AtBreaker] && s'.logs == s.logs
  {
    var s1 := StepSystem(s, reqs, e);
    var s2 := StepSystem(s1, reqs, e);
    var s3 := StepSystem(s2, reqs, e);
    assert s3.pcs == s.pcs[e.call := AtPolicy] && s3.t == s.t;
    assert Steps(s, reqs, e, 4) == Steps(s1, reqs, e, 3) == Steps(s2, reqs, e, 2) == Steps(s3, reqs, e, 1);
  }

  /** The breaker, which is off, and the limiter. */
  lemma {:induction false} ReachApply(s: System, reqs: seq<Request>, e: Event, crd: Option<CrdPolicy>, hk: bool)
    requires Of(s, reqs) && e.call < |reqs| && reqs[e.call] == PlainFix(crd, hk)
    requires s.pcs[e.call] == AtBreaker && s.t.breaker.None? && LimiterOf(s.t, hk).Some?
    requires ActionLimiters.AfterAllow(LimiterOf(s.t, hk).value, e.tick.now, e.tick.again).1
    ensures var s' := Steps(s, reqs, e, 2);
            && s'.t == WithLimiter(s.t, hk, ActionLimiters.AfterAllow(LimiterOf(s.t, hk).value, e.tick.now,
               e.tick.again).0)
            && s'.pcs == s.pcs[e.call := AtApply(e.tick.again)]
            && s'.logs.hits == s.logs.hits && s'.logs.attempts == s.logs.attempts
  {
    var s1 := StepSystem(s, reqs, e);
    assert Steps(s, reqs, e, 2) == Steps(s1, reqs, e, 1) == Steps(StepSystem(s1, reqs, e), reqs, e, 0);
  }

  lemma {:induction false} Send(s: System, reqs: seq<Request>, e: Event, crd: Option<CrdPolicy>, hk: bool)
    requires Of(s, reqs) && e.call < |reqs| && reqs[e.call] == PlainFix(crd, hk)
    requires s.pcs[e.call].AtApply? && e.tick.accepted
    ensures var s' := Steps(s, reqs, e, 1);
            && s'.t == s.t && s'.pcs == s.pcs[e.call := AtRecord]
            && s'.logs == s.logs.(attempts := s.logs.attempts + [Attempt(hk, s.pcs[e.call].granted, e.tick.now)])
  {
    assert Steps(s, reqs, e, 1) == Steps(StepSystem(s, reqs, e), reqs, e, 0);
  }

  /** Sent, accepted and recorded. */
  lemma {:induction false} Record(s: System, reqs: seq<Request>, e: Event, crd: Option<CrdPolicy>, hk: bool)
    requires Of(s, reqs) && e.call < |reqs| && reqs[e.call] == PlainFix(crd, hk) && Gate.Counted(crd)
    requires s.pcs[e.call].AtApply? && e.tick.accepted && s.t.budget.Some?
    ensures var s' := Steps(s, reqs, e, 2);
            && s'.t == s.t.(budget := Some(PolicyBudgets.AfterHit(s.t.budget.value, crd.value.key, e.tick.now)))
            && s'.pcs == s.pcs[e.call := Done(Applied)]
            && s'.logs.hits == s.logs.hits + [PolicyBudgets.Hit(crd.value.key, e.tick.now)]
  {
    var s1 := StepSystem(s, reqs, e);
    assert Steps(s, reqs, e, 2) == Steps(s1, reqs, e, 1) == Steps(StepSystem(s1, reqs, e), reqs, e, 0);
  }

  // ---- The limiter's maximum, by the clock of sending ----

  function SentClosed(attempts: seq<Attempt>, hk: bool, lo: int, window: int): nat {
    SentIn(attempts, hk, lo, lo + window + 1)
  }

  /** In every run in which no attempt of the kind is held up longer than d between
      its grant and its sending, no closed interval one window long sees more of
      them sent than the maximum. */
  ghost predicate KeepsBySending(l: ActionLimiters.Limiter, hk: bool, d: nat) {
    forall t, reqs, evs, start, lo ::
      RunOf(t, reqs, evs, start) && LimiterOf(t, hk) == Some(l)
      && HeldAtMost(Reached(t, reqs, evs, start).logs.attempts, hk, d)
      ==> SentClosed(Reached(t, reqs, evs, start).logs.attempts, hk, lo, l.window) <= Cap(l)
  }

  /** The maximum holds by the clock of sending exactly when no hold-up is allowed
      for, or there is nothing to exceed: none is ever granted, or the interval is
      empty. */
  lemma {:induction false} SendingKeepsTheRate(l: ActionLimiters.Limiter, hk: bool, d: nat)
    requires l.events == []
    ensures KeepsBySending(l, hk, d) <==> d == 0 || l.max <= 0 || l.window < 0
  {
    if d == 0 || l.max <= 0 || l.window < 0 {
      forall t, reqs, evs, start, lo |
        RunOf(t, reqs, evs, start) && LimiterOf(t, hk) == Some(l)
        && HeldAtMost(Reached(t, reqs, evs, start).logs.attempts, hk, d)
        ensures SentClosed(Reached(t, reqs, evs, start).logs.attempts, hk, lo, l.window) <= Cap(l)
      {
        SendingKept(l, hk, d, t, reqs, evs, start, lo);
      }
    } else {
      SendingBroken(l, hk);
      var t, reqs, evs := Twice(l), Fixes(l.max + 1, None, hk), TooMany(l);
      assert HeldAtMost(Reached(t, reqs, evs, 0).logs.attempts, hk, d);
      assert SentClosed(Reached(t, reqs, evs, 0).logs.attempts, hk, 1, l.window) > Cap(l);
    }
  }

  lemma {:induction false} SendingKept(
      l: ActionLimiters.Limiter, hk: bool, d: nat, t: Trackers, reqs: seq<Request>, evs: seq<Event>, start: int,
      lo: int)
    requires d == 0 || l.max <= 0 || l.window < 0
    requires RunOf(t, reqs, evs, start) && LimiterOf(t, hk) == Some(l)
    requires HeldAtMost(Reached(t, reqs, evs, start).logs.attempts, hk, d)
    ensures SentClosed(Reached(t, reqs, evs, start).logs.attempts, hk, lo, l.window) <= Cap(l)
  {
    var attempts := Reached(t, reqs, evs, start).logs.attempts;
    if l.window < 0 {
      NoneSent(attempts, hk, lo, lo + l.window + 1);
    } else if d == 0 {
      SentWithinHoldUp(t, reqs, evs, start, lo, hk, 0);
    } else {
      forall g ensures CountClosed(GrantedAt(attempts, hk), g, l.window) == 0 {
        AttemptBound(t, reqs, evs, start, g, hk);
      }
      NeverGranted(attempts, hk, lo, lo + l.window + 1, l.window);
    }
  }

  lemma {:induction false} NoneSent(attempts: seq<Attempt>, hk: bool, lo: int, hi: int)
    requires hi <= lo
    ensures SentIn(attempts, hk, lo, hi) == 0
  {
    if attempts != [] { NoneSent(attempts[..|attempts| - 1], hk, lo, hi); }
  }

  /** What is never granted is never sent. */
  lemma {:induction false} NeverGranted(attempts: seq<Attempt>, hk: bool, lo: int, hi: int, window: nat)
    requires forall g :: CountClosed(GrantedAt(attempts, hk), g, window) == 0
    ensures SentIn(attempts, hk, lo, hi) == 0
  {
    if attempts != [] {
      var front, a := attempts[..|attempts| - 1], attempts[|attempts| - 1];
      assert front + [a] == attempts;
      GrantedPush(front, a, hk);
      assert CountClosed(GrantedAt(attempts, hk), a.granted, window) == 0;
      CountPush(GrantedAt(front, hk), a.granted, a.granted, a.granted + window + 1);
      forall g ensures CountClosed(GrantedAt(front, hk), g, window) == 0 {
        assert CountClosed(GrantedAt(attempts, hk), g, window) == 0;
      }
      NeverGranted(front, hk, lo, hi, window);
    }
  }

  function Fixes(n: nat, crd: Option<CrdPolicy>, hk: bool): seq<Request> {
    Copies(PlainFix(crd, hk), n)
  }

  /** The same limiter for fixes and for housekeeping. */
  function Twice(l: ActionLimiters.Limiter): Trackers {
    Trackers(None, None, Some(l), Some(l), None)
  }

  /** The first n calls are granted at 0; then the first n of them are sent at 1. */
  function OneGranted(evs: seq<Event>, i: nat): seq<Event> {
    evs + Copies(Event(i, At(0)), 4) + Copies(Event(i, At(0)), 2)
  }

  function Granting(n: nat): seq<Event> {
    if n == 0 then [] else OneGranted(Granting(n - 1), n - 1)
  }

  function Sending(all: nat, n: nat): seq<Event> {
    if n == 0 then Granting(all) else Sending(all, n - 1) + Copies(Event(n - 1, At(1)), 1)
  }

  /** A run followed by a call's m, n and one more steps. */
  function Onward(evs: seq<Event>, e: Event, m: nat, n: nat): seq<Event> {
    evs + Copies(e, m) + Copies(e, n) + Copies(e, 1)
  }

  /** As many as the maximum are granted at 0 and sent at 1; one more is granted and
      sent as soon as the window of those grants is over. */
  function TooMany(l: ActionLimiters.Limiter): seq<Event>
    requires l.max >= 1
  {
    Onward(Sending(l.max, l.max), Event(l.max, At(l.window + 1)), 4, 2)
  }

  /** g calls hold or have used a grant made at 0; the first of them were sent at 1. */
  ghost predicate Midway(s: System, l: ActionLimiters.Limiter, hk: bool, g: nat, sent: nat) {
    && s.t.blast.None? && s.t.breaker.None? && s.t.budget.None?
    && LimiterOf(s.t, hk) == Some(l.(events := Copies(0, g)))
    && s.logs.attempts == Copies(Attempt(hk, 0, 1), sent)
    && forall i :: 0 <= i < |s.pcs| ==> s.pcs[i] == if i < sent then AtRecord else if i < g then AtApply(0) else AtScope
  }

  lemma {:induction false} DropsNone(n: nat, cutoff: int)
    requires cutoff <= 0
    ensures ActionLimiters.Dropped(Copies(0, n), cutoff) == Copies(0, n)
  {
  }

  lemma {:induction false} DropsAll(n: nat, cutoff: int)
    requires cutoff > 0
    ensures ActionLimiters.Dropped(Copies(0, n), cutoff) == []
  {
    if n > 0 {
      CopiesMore(0, n - 1);
      DropsAll(n - 1, cutoff);
    }
  }

  lemma {:induction false} GrantOne(s: System, reqs: seq<Request>, l: ActionLimiters.Limiter, hk: bool, n: nat)
    requires Of(s, reqs) && n < |reqs| && reqs[n] == PlainFix(None, hk) && Midway(s, l, hk, n, 0)
    requires l.events == [] && l.window >= 0 && n < l.max
    ensures var e := Event(n, At(0));
            Midway(Steps(Steps(s, reqs, e, 4), reqs, e, 2), l, hk, n + 1, 0)
  {
    var e := Event(n, At(0));
    DropsNone(n, 0 - l.window);
    CopiesMore(0, n);
    ReachBreaker(s, reqs, e, None, hk);
    ReachApply(Steps(s, reqs, e, 4), reqs, e, None, hk);
  }

  lemma {:induction false} SendOne(s: System, reqs: seq<Request>, l: ActionLimiters.Limiter, hk: bool, g: nat, n: nat)
    requires Of(s, reqs) && n < g <= |reqs| && reqs[n] == PlainFix(None, hk) && Midway(s, l, hk, g, n)
    ensures Midway(Steps(s, reqs, Event(n, At(1)), 1), l, hk, g, n + 1)
  {
    Send(s, reqs, Event(n, At(1)), None, hk);
    CopiesMore(Attempt(hk, 0, 1), n);
  }

  /** The call after the window of the grants made at 0. */
  lemma {:induction false} LastOne(s: System, reqs: seq<Request>, l: ActionLimiters.Limiter, hk: bool)
    requires l.events == [] && l.window >= 0 && l.max >= 1
    requires Of(s, reqs) && l.max < |reqs| && reqs[l.max] == PlainFix(None, hk) && Midway(s, l, hk, l.max, l.max)
    ensures var e := Event(l.max, At(l.window + 1));
            Steps(Steps(Steps(s, reqs, e, 4), reqs, e, 2), reqs, e, 1).logs.attempts
            == s.logs.attempts + [Attempt(hk, l.window + 1, l.window + 1)]
  {
    var e := Event(l.max, At(l.window + 1));
    ReachBreaker(s, reqs, e, None, hk);
    DropsAll(l.max, l.window + 1 - l.window);
    ReachApply(Steps(s, reqs, e, 4), reqs, e, None, hk);
    Send(Steps(Steps(s, reqs, e, 4), reqs, e, 2), reqs, e, None, hk);
  }

  /** Two stretches of one call's steps after a run. */
  lemma {:induction false} ThenTwo(s: System, reqs: seq<Request>, evs: seq<Event>, e: Event, m: nat, n: nat, start: int)
    requires Of(s, reqs) && e.call < |reqs| && Belong(evs, |reqs|)
    requires Rising(evs, start) && EndOf(evs, start) <= e.tick.now == e.tick.again && start <= e.tick.now
    ensures var all := evs + Copies(e, m) + Copies(e, n);
            && Belong(all, |reqs|) && Rising(all, start) && EndOf(all, start) <= e.tick.now
            && Exec(s, reqs, all) == Steps(Steps(Exec(s, reqs, evs), reqs, e, m), reqs, e, n)
  {
    Then(s, reqs, evs, e, m);
    RisingOn(evs, start, e, m);
    Then(s, reqs, evs + Copies(e, m), e, n);
    RisingOn(evs + Copies(e, m), start, e, n);
  }

  lemma {:induction false} ThenOne(s: System, reqs: seq<Request>, evs: seq<Event>, e: Event, start: int)
    requires Of(s, reqs) && e.call < |reqs| && Belong(evs, |reqs|)
    requires Rising(evs, start) && EndOf(evs, start) <= e.tick.now == e.tick.again && start <= e.tick.now
    ensures var all := evs + Copies(e, 1);
            Belong(all, |reqs|) && Rising(all, start) && Exec(s, reqs, all) == Steps(Exec(s, reqs, evs), reqs, e, 1)
  {
    Then(s, reqs, evs, e, 1);
    RisingOn(evs, start, e, 1);
  }

  predicate AllPlain(reqs: seq<Request>, n: nat, hk: bool) {
    |reqs| == n && forall i :: 0 <= i < n ==> reqs[i] == PlainFix(None, hk)
  }

  ghost predicate Arrives(
      s0: System, reqs: seq<Request>, l: ActionLimiters.Limiter, hk: bool, evs: seq<Event>, g: nat, sent: nat,
      now: int)
    requires Of(s0, reqs)
  {
    && Belong(evs, |reqs|) && Rising(evs, 0) && EndOf(evs, 0) <= now
    && Midway(Exec(s0, reqs, evs), l, hk, g, sent)
  }

  lemma {:induction false} ArrivesNext(
      s0: System, reqs: seq<Request>, l: ActionLimiters.Limiter, hk: bool, evs: seq<Event>, e: Event, m: nat, n: nat,
      g: nat, sent: nat)
    requires Of(s0, reqs) && e.call < |reqs| && Belong(evs, |reqs|) && Rising(evs, 0)
    requires EndOf(evs, 0) <= e.tick.now == e.tick.again && 0 <= e.tick.now
    requires Midway(Steps(Steps(Exec(s0, reqs, evs), reqs, e, m), reqs, e, n), l, hk, g, sent)
    ensures Arrives(s0, reqs, l, hk, evs + Copies(e, m) + Copies(e, n), g, sent, e.tick.now)
  {
    ThenTwo(s0, reqs, evs, e, m, n, 0);
  }

  lemma {:induction false} GrantNext(
      s0: System, reqs: seq<Request>, l: ActionLimiters.Limiter, hk: bool, evs: seq<Event>, n: nat)
    requires l.events == [] && l.window >= 0 && n < l.max
    requires Of(s0, reqs) && AllPlain(reqs, l.max + 1, hk) && Arrives(s0, reqs, l, hk, evs, n, 0, 0)
    ensures Arrives(s0, reqs, l, hk, OneGranted(evs, n), n + 1, 0, 0)
  {
    GrantOne(Exec(s0, reqs, evs), reqs, l, hk, n);
    ArrivesNext(s0, reqs, l, hk, evs, Event(n, At(0)), 4, 2, n + 1, 0);
  }

  lemma {:induction false} SendNext(
      s0: System, reqs: seq<Request>, l: ActionLimiters.Limiter, hk: bool, evs: seq<Event>, n: nat)
    requires l.events == [] && l.window >= 0 && n < l.max
    requires Of(s0, reqs) && AllPlain(reqs, l.max + 1, hk) && Arrives(s0, reqs, l, hk, evs, l.max, n, 1)
    ensures Arrives(s0, reqs, l, hk, evs + Copies(Event(n, At(1)), 1), l.max, n + 1, 1)
  {
    ThenOne(s0, reqs, evs, Event(n, At(1)), 0);
    SendOne(Exec(s0, reqs, evs), reqs, l, hk, l.max, n);
  }

  ghost function Arriving(s0: System, reqs: seq<Request>, l: ActionLimiters.Limiter, hk: bool): (seq<Event>, nat, nat,
        int) -> bool
    requires Of(s0, reqs)
  {
    (evs: seq<Event>, g: nat, sent: nat, now: int) => Arrives(s0, reqs, l, hk, evs, g, sent, now)
  }

  lemma {:induction false} GrantTurns(p: (seq<Event>, nat, nat, int) -> bool, max: nat, n: nat)
    requires p([], 0, 0, 0) && n <= max
    requires forall evs, g: nat :: g < max && p(evs, g, 0, 0) ==> p(OneGranted(evs, g), g + 1, 0, 0)
    ensures p(Granting(n), n, 0, 0)
  {
    if n > 0 { GrantTurns(p, max, n - 1); }
  }

  lemma {:induction false} SendTurns(p: (seq<Event>, nat, nat, int) -> bool, max: nat, n: nat)
    requires p(Granting(max), max, 0, 1) && n <= max
    requires forall evs, g: nat :: g < max && p(evs, max, g, 1) ==> p(evs + Copies(Event(g, At(1)), 1), max, g + 1, 1)
    ensures p(Sending(max, n), max, n, 1)
  {
    if n > 0 { SendTurns(p, max, n - 1); }
  }

  lemma {:induction false} AllGranted(s0: System, reqs: seq<Request>, l: ActionLimiters.Limiter, hk: bool)
    requires l.events == [] && l.window >= 0 && l.max >= 1
    requires Of(s0, reqs) && AllPlain(reqs, l.max + 1, hk) && Midway(s0, l, hk, 0, 0)
    ensures Arrives(s0, reqs, l, hk, Granting(l.max), l.max, 0, 0)
  {
    var p := Arriving(s0, reqs, l, hk);
    forall evs, g: nat | g < l.max && p(evs, g, 0, 0) ensures p(OneGranted(evs, g), g + 1, 0, 0) {
      GrantNext(s0, reqs, l, hk, evs, g);
    }
    GrantTurns(p, l.max, l.max);
  }

  lemma {:induction false} AllSent(s0: System, reqs: seq<Request>, l: ActionLimiters.Limiter, hk: bool)
    requires l.events == [] && l.window >= 0 && l.max >= 1
    requires Of(s0, reqs) && AllPlain(reqs, l.max + 1, hk) && Arrives(s0, reqs, l, hk, Granting(l.max), l.max, 0, 0)
    ensures Arrives(s0, reqs, l, hk, Sending(l.max, l.max), l.max, l.max, 1)
  {
    var p := Arriving(s0, reqs, l, hk);
    forall evs, g: nat | g < l.max && p(evs, l.max, g, 1) ensures p(evs + Copies(Event(g, At(1)), 1), l.max, g + 1, 1) {
      SendNext(s0, reqs, l, hk, evs, g);
    }
    SendTurns(p, l.max, l.max);
  }

  /** All granted at 0 were sent at 1, and one more was sent when it was granted. */
  ghost predicate Ends(s0: System, reqs: seq<Request>, l: ActionLimiters.Limiter, hk: bool, evs: seq<Event>)
    requires Of(s0, reqs) && l.max >= 0
  {
    && Belong(evs, |reqs|) && Rising(evs, 0)
    && Exec(s0, reqs, evs).logs.attempts
       == Copies(Attempt(hk, 0, 1), l.max) + [Attempt(hk, l.window + 1, l.window + 1)]
  }

  lemma {:induction false} EndsAfter(
      s0: System, reqs: seq<Request>, l: ActionLimiters.Limiter, hk: bool, evs: seq<Event>, e: Event, m: nat, n: nat)
    requires Of(s0, reqs) && l.max >= 0 && e.call < |reqs| && Belong(evs, |reqs|) && Rising(evs, 0)
    requires EndOf(evs, 0) <= e.tick.now == e.tick.again && 0 <= e.tick.now
    requires Steps(Steps(Steps(Exec(s0, reqs, evs), reqs, e, m), reqs, e, n), reqs, e, 1).logs.attempts
             == Copies(Attempt(hk, 0, 1), l.max) + [Attempt(hk, l.window + 1, l.window + 1)]
    ensures Ends(s0, reqs, l, hk, Onward(evs, e, m, n))
  {
    ThenTwo(s0, reqs, evs, e, m, n, 0);
    ThenOne(s0, reqs, evs + Copies(e, m) + Copies(e, n), e, 0);
  }

  lemma {:induction false} ThenLast(
      s0: System, reqs: seq<Request>, l: ActionLimiters.Limiter, hk: bool, evs: seq<Event>, e: Event)
    requires l.events == [] && l.window >= 0 && l.max >= 1
    requires Of(s0, reqs) && AllPlain(reqs, l.max + 1, hk) && Arrives(s0, reqs, l, hk, evs, l.max, l.max, 1)
    requires e == Event(l.max, At(l.window + 1))
    ensures Ends(s0, reqs, l, hk, Onward(evs, e, 4, 2))
  {
    LastOne(Exec(s0, reqs, evs), reqs, l, hk);
    EndsAfter(s0, reqs, l, hk, evs, e, 4, 2);
  }

  lemma {:induction false} TooManyAttempts(s0: System, reqs: seq<Request>, l: ActionLimiters.Limiter, hk: bool)
    requires l.events == [] && l.window >= 0 && l.max >= 1
    requires Of(s0, reqs) && AllPlain(reqs, l.max + 1, hk) && Midway(s0, l, hk, 0, 0)
    ensures Ends(s0, reqs, l, hk, TooMany(l))
  {
    AllGranted(s0, reqs, l, hk);
    AllSent(s0, reqs, l, hk);
    ThenLast(s0, reqs, l, hk, Sending(l.max, l.max), Event(l.max, At(l.window + 1)));
  }

  lemma {:induction false} MidwayFirst(l: ActionLimiters.Limiter, hk: bool)
    requires l.events == [] && l.max >= 1
    ensures var reqs := Fixes(l.max + 1, None, hk);
            AllPlain(reqs, l.max + 1, hk) && Midway(Initial(Twice(l), reqs, 0), l, hk, 0, 0)
  {
    assert l.(events := Copies(0, 0)) == l;
    assert Copies(Attempt(hk, 0, 1), 0) == [];
  }

  lemma {:induction false} SendingBroken(l: ActionLimiters.Limiter, hk: bool)
    requires l.events == [] && l.window >= 0 && l.max >= 1
    ensures var t, reqs, evs := Twice(l), Fixes(l.max + 1, None, hk), TooMany(l);
            && RunOf(t, reqs, evs, 0) && LimiterOf(t, hk) == Some(l)
            && HeldAtMost(Reached(t, reqs, evs, 0).logs.attempts, hk, 1)
            && SentClosed(Reached(t, reqs, evs, 0).logs.attempts, hk, 1, l.window) == l.max + 1
  {
    var t, reqs := Twice(l), Fixes(l.max + 1, None, hk);
    MidwayFirst(l, hk);
    TooManyAttempts(Initial(t, reqs, 0), reqs, l, hk);
    RisingIsOrdered(t, reqs, TooMany(l), 0);
    SentAtOne(hk, l.max, l.window);
  }

  lemma {:induction false} SentAtOne(hk: bool, n: nat, window: nat)
    ensures var attempts := Copies(Attempt(hk, 0, 1), n) + [Attempt(hk, window + 1, window + 1)];
            SentClosed(attempts, hk, 1, window) == n + 1
  {
    var sent, last := Copies(Attempt(hk, 0, 1), n), Attempt(hk, window + 1, window + 1);
    assert (sent + [last])[..|sent|] == sent;
    AllSentAtOne(hk, n, 1 + window + 1);
  }

  lemma {:induction false} AllSentAtOne(hk: bool, n: nat, hi: int)
    requires hi > 1
    ensures SentIn(Copies(Attempt(hk, 0, 1), n), hk, 1, hi) == n
  {
    if n > 0 {
      CopiesMore(Attempt(hk, 0, 1), n - 1);
      AllSentAtOne(hk, n - 1, hi);
    }
  }

  // ---- The hourly limit of a policy ----

  /** In every run with at most k counted calls in flight no hour holds more
      recorded actions of the policy than its limit. */
  ghost predicate KeepsHourly(limit: int, k: nat) {
    forall t, reqs, evs, start, key, lo ::
      RunOf(t, reqs, evs, start) && t.budget.Some? && Allows(reqs, key, limit)
      && AtMostInFlight(Initial(t, reqs, start), reqs, evs, key, k)
      ==> CountFrom(PolicyBudgets.TimesOf(Reached(t, reqs, evs, start).logs.hits, key), lo, HOUR) <= limit
  }

  /** The hourly limit holds exactly when counted calls never overlap. */
  lemma {:induction false} HourlyLimitIffAlone(limit: int, k: nat)
    requires limit >= 1
    ensures KeepsHourly(limit, k) <==> k <= 1
  {
    if k <= 1 {
      forall t, reqs, evs, start, key, lo |
        RunOf(t, reqs, evs, start) && t.budget.Some? && Allows(reqs, key, limit)
        && AtMostInFlight(Initial(t, reqs, start), reqs, evs, key, k)
        ensures CountFrom(PolicyBudgets.TimesOf(Reached(t, reqs, evs, start).logs.hits, key), lo, HOUR) <= limit
      {
        PolicyBudgetBound(t, reqs, evs, start, lo, key, limit, k);
      }
    } else {
      HourlyBoundIsMet(limit, k);
      var t, reqs, evs := Counting(limit, k), Counted(limit, k), Overlapping(limit - 1, k, k);
      assert CountFrom(PolicyBudgets.TimesOf(Reached(t, reqs, evs, 0).logs.hits, "p"), 0, HOUR) > limit;
    }
  }

  function Hourly(limit: int): Option<CrdPolicy> {
    Some(CrdPolicy("p", false, None, limit))
  }

  function Counted(limit: int, k: nat): seq<Request>
    requires limit >= 1
  {
    Fixes(limit - 1 + k, Hourly(limit), false)
  }

  function Counting(limit: int, k: nat): Trackers {
    Trackers(None, None, Some(ActionLimiters.Limiter(limit - 1 + k, 10, [])), None, Some(PolicyBudgets.Budget(map[])))
  }

  function Passes(i: nat): seq<Event> {
    Copies(Event(i, At(0)), 4)
  }

  /** From the breaker to the end. */
  function Finishes(evs: seq<Event>, i: nat): seq<Event> {
    evs + Copies(Event(i, At(0)), 2) + Copies(Event(i, At(0)), 2)
  }

  /** n calls one after another. */
  function OneByOne(n: nat): seq<Event> {
    if n == 0 then [] else Finishes(OneByOne(n - 1) + Passes(n - 1), n - 1)
  }

  /** Then j more, each checked against the budget before any of them is recorded. */
  function AllPass(n: nat, j: nat): seq<Event> {
    if j == 0 then OneByOne(n) else AllPass(n, j - 1) + Passes(n + j - 1)
  }

  /** And then j of those k finish. */
  function Overlapping(n: nat, k: nat, j: nat): seq<Event> {
    if j == 0 then AllPass(n, k) else Finishes(Overlapping(n, k, j - 1), n + j - 1)
  }

  /** The first lo calls are done and recorded; those up to hi have passed the check. */
  ghost predicate Shape(s: System, limit: int, k: nat, lo: nat, hi: nat) {
    && s.t.blast.None? && s.t.breaker.None?
    && s.t.limiter == Some(ActionLimiters.Limiter(limit - 1 + k, 10, Copies(0, lo)))
    && s.t.budget.Some? && PolicyBudgets.HitsOf(s.t.budget.value, "p") == Copies(0, lo)
    && s.logs.hits == Copies(PolicyBudgets.Hit("p", 0), lo)
    && forall i :: 0 <= i < |s.pcs| ==>
       s.pcs[i] == if i < lo then Done(Applied) else if i < hi then AtBreaker else AtScope
  }

  /** A run that has come to a shape, at most k in flight all the way. */
  ghost predicate Comes(s0: System, reqs: seq<Request>, limit: int, k: nat, evs: seq<Event>, lo: nat, hi: nat)
    requires Of(s0, reqs)
  {
    && Belong(evs, |reqs|) && Rising(evs, 0) && EndOf(evs, 0) <= 0
    && Shape(Exec(s0, reqs, evs), limit, k, lo, hi)
    && AtMostInFlight(s0, reqs, evs, "p", k)
  }

  predicate AllHourly(reqs: seq<Request>, limit: int, k: nat) {
    && limit >= 1 && |reqs| == limit - 1 + k
    && forall i :: 0 <= i < |reqs| ==> reqs[i] == PlainFix(Hourly(limit), false)
  }

  lemma {:induction false} RecentCopies(n: nat)
    ensures After(Copies(0, n), 0 - HOUR) == Copies(0, n)
  {
    if n > 0 {
      CopiesMore(0, n - 1);
      RecentCopies(n - 1);
      AfterPush(Copies(0, n - 1), 0, 0 - HOUR);
    }
  }

  /** In flight are the calls between lo and hi. */
  lemma {:induction false} FlyingCount(reqs: seq<Request>, pcs: seq<Pc>, lo: nat, hi: nat)
    requires |reqs| == |pcs| && lo <= hi
    requires forall i :: 0 <= i < |reqs| ==> reqs[i].Change? && reqs[i].crd.Some? && reqs[i].crd.value.key == "p"
                                             && reqs[i].crd.value.maxActionsPerHour > 0
    requires forall i :: 0 <= i < |pcs| ==>
             pcs[i] == if i < lo then Done(Applied) else if i < hi then AtBreaker else AtScope
    ensures CountWhere(reqs, pcs, InFlight("p")) == if |pcs| <= lo then 0 else if |pcs| <= hi then |pcs| - lo
            else hi - lo
  {
    if pcs != [] { FlyingCount(reqs[..|pcs| - 1], pcs[..|pcs| - 1], lo, hi); }
  }

  /** While one call runs, the rest stay where they are: the count of those in
      flight is that of the rest, or one more. */
  lemma {:induction false} StepsInFlight(s: System, reqs: seq<Request>, e: Event, n: nat, f: (Request, Pc) -> bool)
    requires Of(s, reqs) && e.call < |reqs|
    ensures var s' := Steps(s, reqs, e, n);
            CountWhere(reqs, s'.pcs, f) + (if f(reqs[e.call], s.pcs[e.call]) then 1 else 0)
            == CountWhere(reqs, s.pcs, f) + if f(reqs[e.call], s'.pcs[e.call]) then 1 else 0
    decreases n
  {
    if n > 0 {
      var s1 := StepSystem(s, reqs, e);
      CountUpdate(reqs, s.pcs, f, e.call, s1.pcs[e.call]);
      StepsInFlight(s1, reqs, e, n - 1, f);
    }
  }

  /** So far along n steps of one call after a run. */
  lemma {:induction false} FewAfter(
      s0: System, reqs: seq<Request>, evs: seq<Event>, e: Event, n: nat, m: nat, key: string, k: nat)
    requires Of(s0, reqs) && Belong(evs, |reqs|) && e.call < |reqs| && m <= n
    requires var s := Exec(s0, reqs, evs);
             CountWhere(reqs, s.pcs, InFlight(key)) < k + if InFlight(key)(reqs[e.call], s.pcs[e.call]) then 1 else 0
    ensures FewFlying(s0, reqs, key, k)(evs + Copies(e, n)[..m])
  {
    assert Copies(e, n)[..m] == Copies(e, m);
    Then(s0, reqs, evs, e, m);
    StepsInFlight(Exec(s0, reqs, evs), reqs, e, m, InFlight(key));
  }

  lemma {:induction false} AllPrefixes<T>(p: seq<T> -> bool, a: seq<T>, b: seq<T>)
    requires forall m :: 0 <= m <= |a| ==> p(a[..m])
    requires forall m :: 0 <= m <= |b| ==> p(a + b[..m])
    ensures forall m :: 0 <= m <= |a + b| ==> p((a + b)[..m])
  {
    forall m | 0 <= m <= |a + b| ensures p((a + b)[..m]) {
      if m <= |a| {
        assert (a + b)[..m] == a[..m];
      } else {
        assert (a + b)[..m] == a + b[..m - |a|];
      }
    }
  }

  /** n more steps of one call keep at most k in flight when fewer than k others are. */
  lemma {:induction false} StillFew(
      s0: System, reqs: seq<Request>, evs: seq<Event>, e: Event, n: nat, key: string, k: nat)
    requires Of(s0, reqs) && Belong(evs, |reqs|) && e.call < |reqs| && AtMostInFlight(s0, reqs, evs, key, k)
    requires var s := Exec(s0, reqs, evs);
             CountWhere(reqs, s.pcs, InFlight(key)) < k + if InFlight(key)(reqs[e.call], s.pcs[e.call]) then 1 else 0
    ensures Belong(evs + Copies(e, n), |reqs|) && AtMostInFlight(s0, reqs, evs + Copies(e, n), key, k)
  {
    var p, more := FewFlying(s0, reqs, key, k), Copies(e, n);
    forall m | 0 <= m <= n ensures p(evs + more[..m]) {
      FewAfter(s0, reqs, evs, e, n, m, key, k);
    }
    AllPrefixes(p, evs, more);
  }

  lemma {:induction false} PassOne(s: System, reqs: seq<Request>, limit: int, k: nat, lo: nat, hi: nat)
    requires Of(s, reqs) && hi < |reqs| && reqs[hi] == PlainFix(Hourly(limit), false)
    requires limit >= 1 && Shape(s, limit, k, lo, hi) && lo < limit && lo <= hi
    ensures Shape(Steps(s, reqs, Event(hi, At(0)), 4), limit, k, lo, hi + 1)
  {
    RecentCopies(lo);
    ReachBreaker(s, reqs, Event(hi, At(0)), Hourly(limit), false);
  }

  lemma {:induction false} FinishOne(s: System, reqs: seq<Request>, limit: int, k: nat, lo: nat, hi: nat)
    requires Of(s, reqs) && lo < |reqs| && reqs[lo] == PlainFix(Hourly(limit), false)
    requires limit >= 1 && Shape(s, limit, k, lo, hi) && lo < hi <= limit - 1 + k
    ensures var e := Event(lo, At(0));
            && Steps(s, reqs, e, 2).pcs == s.pcs[lo := AtApply(0)]
            && Shape(Steps(Steps(s, reqs, e, 2), reqs, e, 2), limit, k, lo + 1, hi)
  {
    var e := Event(lo, At(0));
    DropsNone(lo, 0 - 10);
    CopiesMore(0, lo);
    CopiesMore(PolicyBudgets.Hit("p", 0), lo);
    ReachApply(s, reqs, e, Hourly(limit), false);
    Record(Steps(s, reqs, e, 2), reqs, e, Hourly(limit), false);
  }

  /** One more call passes the check of the budget. */
  lemma {:induction false} OneMorePasses(
      s0: System, reqs: seq<Request>, limit: int, k: nat, evs: seq<Event>, lo: nat, hi: nat)
    requires Of(s0, reqs) && AllHourly(reqs, limit, k) && Comes(s0, reqs, limit, k, evs, lo, hi)
    requires lo < limit && lo <= hi < limit - 1 + k && hi - lo < k
    ensures Comes(s0, reqs, limit, k, evs + Passes(hi), lo, hi + 1)
  {
    var s, e := Exec(s0, reqs, evs), Event(hi, At(0));
    FlyingCount(reqs, s.pcs, lo, hi);
    StillFew(s0, reqs, evs, e, 4, "p", k);
    Then(s0, reqs, evs, e, 4);
    RisingOn(evs, 0, e, 4);
    PassOne(s, reqs, limit, k, lo, hi);
  }

  /** The next of those that passed it finishes. */
  lemma {:induction false} OneMoreFinishes(
      s0: System, reqs: seq<Request>, limit: int, k: nat, evs: seq<Event>, lo: nat, hi: nat)
    requires Of(s0, reqs) && AllHourly(reqs, limit, k) && Comes(s0, reqs, limit, k, evs, lo, hi)
    requires lo < hi <= limit - 1 + k && hi - lo <= k
    ensures Comes(s0, reqs, limit, k, Finishes(evs, lo), lo + 1, hi)
  {
    var s, e := Exec(s0, reqs, evs), Event(lo, At(0));
    FlyingCount(reqs, s.pcs, lo, hi);
    FinishOne(s, reqs, limit, k, lo, hi);
    FewWhileFinishing(s0, reqs, evs, e, k, hi - lo);
    ThenTwo(s0, reqs, evs, e, 2, 2, 0);
  }

  lemma {:induction false} FewWhileFinishing(
      s0: System, reqs: seq<Request>, evs: seq<Event>, e: Event, k: nat, flying: nat)
    requires Of(s0, reqs) && Belong(evs, |reqs|) && e.call < |reqs| && AtMostInFlight(s0, reqs, evs, "p", k)
    requires var s := Exec(s0, reqs, evs);
             && CountWhere(reqs, s.pcs, InFlight("p")) == flying <= k
             && InFlight("p")(reqs[e.call], s.pcs[e.call])
             && InFlight("p")(reqs[e.call], Steps(s, reqs, e, 2).pcs[e.call])
    ensures var all := evs + Copies(e, 2) + Copies(e, 2);
            Belong(all, |reqs|) && AtMostInFlight(s0, reqs, all, "p", k)
  {
    StillFew(s0, reqs, evs, e, 2, "p", k);
    Then(s0, reqs, evs, e, 2);
    StepsInFlight(Exec(s0, reqs, evs), reqs, e, 2, InFlight("p"));
    StillFew(s0, reqs, evs + Copies(e, 2), e, 2, "p", k);
  }

  lemma {:induction false} ComesFirst(s0: System, reqs: seq<Request>, limit: int, k: nat)
    requires AllHourly(reqs, limit, k) && s0 == Initial(Counting(limit, k), reqs, 0)
    ensures Comes(s0, reqs, limit, k, [], 0, 0)
  {
    FlyingCount(reqs, s0.pcs, 0, 0);
    assert Copies(0, 0) == [] && Copies(PolicyBudgets.Hit("p", 0), 0) == [];
  }

  ghost function Coming(s0: System, reqs: seq<Request>, limit: int, k: nat): (seq<Event>, nat, nat) -> bool
    requires Of(s0, reqs)
  {
    (evs: seq<Event>, lo: nat, hi: nat) => Comes(s0, reqs, limit, k, evs, lo, hi)
  }

  ghost predicate KeptByPasses(p: (seq<Event>, nat, nat) -> bool, limit: int, k: nat) {
    forall evs, lo: nat, hi: nat | p(evs, lo, hi) && lo < limit && lo <= hi < limit - 1 + k && hi - lo < k
      :: p(evs + Passes(hi), lo, hi + 1)
  }

  ghost predicate KeptByFinishes(p: (seq<Event>, nat, nat) -> bool, limit: int, k: nat) {
    forall evs, lo: nat, hi: nat | p(evs, lo, hi) && lo < hi <= limit - 1 + k && hi - lo <= k
      :: p(Finishes(evs, lo), lo + 1, hi)
  }

  lemma {:induction false} OneByOneTurns(p: (seq<Event>, nat, nat) -> bool, limit: int, k: nat, n: nat)
    requires limit >= 1 && k >= 1 && p([], 0, 0) && KeptByPasses(p, limit, k) && KeptByFinishes(p, limit, k)
    requires n < limit
    ensures p(OneByOne(n), n, n)
  {
    if n > 0 {
      OneByOneTurns(p, limit, k, n - 1);
      assert p(OneByOne(n - 1) + Passes(n - 1), n - 1, n);
    }
  }

  lemma {:induction false} AllPassTurns(p: (seq<Event>, nat, nat) -> bool, limit: int, k: nat, j: nat)
    requires limit >= 1 && KeptByPasses(p, limit, k) && p(OneByOne(limit - 1), limit - 1, limit - 1) && j <= k
    ensures p(AllPass(limit - 1, j), limit - 1, limit - 1 + j)
  {
    if j > 0 { AllPassTurns(p, limit, k, j - 1); }
  }

  lemma {:induction false} OverlappingTurns(p: (seq<Event>, nat, nat) -> bool, limit: int, k: nat, j: nat)
    requires limit >= 1 && KeptByFinishes(p, limit, k) && p(AllPass(limit - 1, k), limit - 1, limit - 1 + k) && j <= k
    ensures p(Overlapping(limit - 1, k, j), limit - 1 + j, limit - 1 + k)
  {
    if j > 0 { OverlappingTurns(p, limit, k, j - 1); }
  }

  /** What each pass and each finish keeps holds of the run that overlaps k calls. */
  lemma {:induction false} ByTurns(p: (seq<Event>, nat, nat) -> bool, limit: int, k: nat)
    requires limit >= 1 && k >= 1 && p([], 0, 0) && KeptByPasses(p, limit, k) && KeptByFinishes(p, limit, k)
    ensures p(Overlapping(limit - 1, k, k), limit - 1 + k, limit - 1 + k)
  {
    OneByOneTurns(p, limit, k, limit - 1);
    AllPassTurns(p, limit, k, k);
    OverlappingTurns(p, limit, k, k);
  }

  lemma {:induction false} PassesKeep(s0: System, reqs: seq<Request>, limit: int, k: nat)
    requires Of(s0, reqs) && AllHourly(reqs, limit, k)
    ensures KeptByPasses(Coming(s0, reqs, limit, k), limit, k)
  {
    var p := Coming(s0, reqs, limit, k);
    forall evs, lo: nat, hi: nat | p(evs, lo, hi) && lo < limit && lo <= hi < limit - 1 + k && hi - lo < k
      ensures p(evs + Passes(hi), lo, hi + 1)
    {
      OneMorePasses(s0, reqs, limit, k, evs, lo, hi);
    }
  }

  lemma {:induction false} FinishesKeep(s0: System, reqs: seq<Request>, limit: int, k: nat)
    requires Of(s0, reqs) && AllHourly(reqs, limit, k)
    ensures KeptByFinishes(Coming(s0, reqs, limit, k), limit, k)
  {
    var p := Coming(s0, reqs, limit, k);
    forall evs, lo: nat, hi: nat | p(evs, lo, hi) && lo < hi <= limit - 1 + k && hi - lo <= k
      ensures p(Finishes(evs, lo), lo + 1, hi)
    {
      OneMoreFinishes(s0, reqs, limit, k, evs, lo, hi);
    }
  }

  lemma {:induction false} OverlappingComes(s0: System, reqs: seq<Request>, limit: int, k: nat)
    requires AllHourly(reqs, limit, k) && k >= 1 && s0 == Initial(Counting(limit, k), reqs, 0)
    ensures Comes(s0, reqs, limit, k, Overlapping(limit - 1, k, k), limit - 1 + k, limit - 1 + k)
  {
    ComesFirst(s0, reqs, limit, k);
    PassesKeep(s0, reqs, limit, k);
    FinishesKeep(s0, reqs, limit, k);
    ByTurns(Coming(s0, reqs, limit, k), limit, k);
  }

  /** The bound is met for every limit and every number of calls in flight: all but
      one of the limit one after another, then as many more as may overlap, each
      checked before any of them is recorded. */
  lemma {:induction false} HourlyBoundIsMet(limit: int, k: nat)
    requires limit >= 1 && k >= 1
    ensures var t, reqs, evs := Counting(limit, k), Counted(limit, k), Overlapping(limit - 1, k, k);
            && RunOf(t, reqs, evs, 0) && Allows(reqs, "p", limit)
            && AtMostInFlight(Initial(t, reqs, 0), reqs, evs, "p", k)
            && CountFrom(PolicyBudgets.TimesOf(Reached(t, reqs, evs, 0).logs.hits, "p"), 0, HOUR) == limit - 1 + k
  {
    var t, reqs, evs := Counting(limit, k), Counted(limit, k), Overlapping(limit - 1, k, k);
    OverlappingComes(Initial(t, reqs, 0), reqs, limit, k);
    RisingIsOrdered(t, reqs, evs, 0);
    HitsAtZero(limit - 1 + k);
  }

  lemma {:induction false} HitsAtZero(n: nat)
    ensures CountFrom(PolicyBudgets.TimesOf(Copies(PolicyBudgets.Hit("p", 0), n), "p"), 0, HOUR) == n
  {
    if n > 0 {
      CopiesMore(PolicyBudgets.Hit("p", 0), n - 1);
      HitsAtZero(n - 1);
      PolicyBudgets.TimesPush(Copies(PolicyBudgets.Hit("p", 0), n - 1), PolicyBudgets.Hit("p", 0), "p");
      CountPush(PolicyBudgets.TimesOf(Copies(PolicyBudgets.Hit("p", 0), n - 1), "p"), 0, 0, HOUR);
    }
  }
}
