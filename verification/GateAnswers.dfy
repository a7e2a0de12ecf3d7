/** internal/kube/gate.go and policycheck.go: what each answer of the gate rests on,
    over any number of calls in any interleaving. A change comes no further than its
    mode, its scope and its policy let it. */
module GateAnswers {
  import opened Prelude
  import opened Gate
  import opened GateRuns
  import PolicyScope
  import PolicyBudgets

  /** The policy keeps such a change from the cluster whatever has happened so far. */
  predicate Forbids(crd: Option<CrdPolicy>, actionType: string) {
    match crd
    case None => false
    case Some(p) => p.requireApproval || (actionType == "delete_pod" && p.restartStuckPods == Some(false))
  }

  /** The policy limits how often; where no budget is kept it therefore refuses. */
  predicate Permits(r: Request, kept: bool)
    requires r.Change?
  {
    !Forbids(r.crd, r.actionType) && (r.crd.Some? && r.crd.value.maxActionsPerHour > 0 ==> kept)
  }

  /** In the fix scope, or of the cluster as a whole. */
  predicate InScope(r: Request) {
    r.ns == "" || PolicyScope.Fixable(r.pol, r.ns)
  }

  /** What must be so of the change for that guard to be what refuses it. */
  predicate Due(r: Request, kept: bool, g: Guard)
    requires r.Change?
  {
    match g
    case QuietHours => true
    case BlastRadius => true
    case NeedsApproval => r.crd.Some? && r.crd.value.requireApproval
    case RestartsOff =>
      Forbids(r.crd, r.actionType) && !r.crd.value.requireApproval && r.actionType == "delete_pod"
    case NoBudgetTracker =>
      !Forbids(r.crd, r.actionType) && !kept && r.crd.Some? && r.crd.value.maxActionsPerHour > 0
    case BudgetSpent => Permits(r, kept) && kept && r.crd.Some? && r.crd.value.maxActionsPerHour > 0
    case BreakerTripped => Permits(r, kept)
    case RateLimited => Permits(r, kept)
  }

  /** What must be so of a change that stands there; kept says that budgets are. */
  predicate Rightful(r: Request, kept: bool, pc: Pc)
    requires r.Change?
  {
    var fixing := r.pol.mode == PolicyScope.Fix && InScope(r);
    var trying := r.pol.mode == PolicyScope.DryRun && InScope(r);
    match pc
    case AtScope => true
    case AtQuiet => fixing
    case AtBlast => fixing
    case AtPolicy => fixing
    case AtBreaker => fixing && Permits(r, kept)
    case AtLimiter => fixing && Permits(r, kept)
    case AtApply(_) => fixing && Permits(r, kept)
    case AtRecord => fixing && Permits(r, kept)
    case SimQuiet => trying
    case SimBlast => trying
    case SimPolicy => trying
    case SimBreaker => trying && Permits(r, kept)
    case Done(o) => (
      match o
      case Skipped => r.pol.mode == PolicyScope.Observe
      case Suggested => r.pol.mode == PolicyScope.Suggest || (r.pol.mode != PolicyScope.Observe && !InScope(r))
      case Simulated(would) => trying && if would.Some? then Due(r, kept, would.value) else Permits(r, kept)
      case Blocked(g) => fixing && Due(r, kept, g) && (r.housekeeping ==> g != BlastRadius && g != BreakerTripped)
      case Failed => fixing && Permits(r, kept)
      case Applied => fixing && Permits(r, kept)
      case Previewed => false)
    case _ => false
  }

  lemma {:induction false} RightfulStep(t: Trackers, r: Request, pc: Pc, k: Tick)
    requires r.Change? && Rightful(r, t.budget.Some?, pc)
    ensures Rightful(r, t.budget.Some?, Step(t, r, pc, k).1)
    ensures Step(t, r, pc, k).0.budget.Some? == t.budget.Some?
  {
  }

  lemma {:induction false} RightfulAlone(t: Trackers, r: Request, pc: Pc, ticks: seq<Tick>)
    requires r.Change? && Rightful(r, t.budget.Some?, pc)
    ensures Rightful(r, t.budget.Some?, Alone(t, r, pc, ticks).1)
    decreases |ticks|
  {
    if !pc.Done? && ticks != [] {
      var (t', pc') := Step(t, r, pc, ticks[0]);
      RightfulStep(t, r, pc, ticks[0]);
      RightfulAlone(t', r, pc', ticks[1..]);
    }
  }

  ghost predicate AllRightful(s: System, reqs: seq<Request>, kept: bool)
    requires Of(s, reqs)
  {
    forall i :: 0 <= i < |reqs| && reqs[i].Change? ==> Rightful(reqs[i], kept, s.pcs[i])
  }

  /** Every answer is due. In every state of every run each change stands where its own
      mode, scope and policy let it stand, and if it was refused, or a dry run would
      refuse it, the guard named is one that may refuse it. */
  lemma {:induction false} AnswersAreDue(t: Trackers, reqs: seq<Request>, evs: seq<Event>, start: int)
    requires Belong(evs, |reqs|)
    ensures AllRightful(Reached(t, reqs, evs, start), reqs, t.budget.Some?)
    ensures Reached(t, reqs, evs, start).t.budget.Some? == t.budget.Some?
  {
    if evs != [] {
      var front, e := evs[..|evs| - 1], evs[|evs| - 1];
      AnswersAreDue(t, reqs, front, start);
      var m := Reached(t, reqs, front, start);
      if reqs[e.call].Change? {
        RightfulStep(m.t, reqs[e.call], m.pcs[e.call], e.tick);
      }
    }
  }

  // ---- What a policy forbids is never sent ----

  /** The change has been handed to the API server. */
  function WasSent(): (Request, Pc) -> bool {
    (r: Request, pc: Pc) =>
      r.Change? && (pc.AtRecord? || (pc.Done? && (pc.outcome.Applied? || pc.outcome.Failed?)))
  }

  lemma {:induction false} SentOnce(t: Trackers, g: Logs, r: Request, pc: Pc, k: Tick)
    ensures |StepLogs(g, t, r, pc, k).attempts| + (if WasSent()(r, pc) then 1 else 0)
            == |g.attempts| + if WasSent()(r, Step(t, r, pc, k).1) then 1 else 0
  {
  }

  /** Each attempt is the one attempt of one change that has been sent. */
  lemma {:induction false} AttemptsAreChanges(t: Trackers, reqs: seq<Request>, evs: seq<Event>, start: int)
    requires Belong(evs, |reqs|)
    ensures var s := Reached(t, reqs, evs, start); |s.logs.attempts| == CountWhere(reqs, s.pcs, WasSent())
  {
    if evs == [] {
      CountNoneWhere(reqs, Initial(t, reqs, start).pcs, WasSent());
    } else {
      var front, e := evs[..|evs| - 1], evs[|evs| - 1];
      AttemptsAreChanges(t, reqs, front, start);
      var m := Reached(t, reqs, front, start);
      var pc' := Step(m.t, reqs[e.call], m.pcs[e.call], e.tick).1;
      CountUpdate(reqs, m.pcs, WasSent(), e.call, pc');
      SentOnce(m.t, m.logs, reqs[e.call], m.pcs[e.call], e.tick);
    }
  }

  predicate MaySend(r: Request) {
    r.Change? && r.pol.mode == PolicyScope.Fix && InScope(r) && !Forbids(r.crd, r.actionType)
  }

  /** No change that its policy forbids, or that is out of scope or of another mode than
      fix, is ever sent: not by a call alone, and in no run, whatever the trackers hold
      and the clock says. A run has no more attempts than changes that may be sent. */
  lemma {:induction false} ForbiddenIsNeverSent(t: Trackers, reqs: seq<Request>, evs: seq<Event>, start: int)
    requires Belong(evs, |reqs|)
    ensures var s := Reached(t, reqs, evs, start);
            && (forall i :: 0 <= i < |reqs| && WasSent()(reqs[i], s.pcs[i]) ==> MaySend(reqs[i]))
            && ((forall i :: 0 <= i < |reqs| ==> !MaySend(reqs[i])) ==> s.logs.attempts == [])
  {
    AnswersAreDue(t, reqs, evs, start);
    AttemptsAreChanges(t, reqs, evs, start);
    var s := Reached(t, reqs, evs, start);
    if forall i :: 0 <= i < |reqs| ==> !MaySend(reqs[i]) {
      CountNoneWhere(reqs, s.pcs, WasSent());
    }
  }

  lemma {:induction false} ForbiddenAlone(t: Trackers, r: Request, ticks: seq<Tick>)
    requires r.Change? && !MaySend(r)
    ensures var o := Alone(t, r, AtScope, ticks).1; !WasSent()(r, o) && !o.AtApply?
  {
    RightfulAlone(t, r, AtScope, ticks);
  }

  // ---- A policy that limits nothing ----

  /** The policy says nothing about a change of that kind. */
  predicate Silent(crd: Option<CrdPolicy>, actionType: string) {
    !Forbids(crd, actionType) && (crd.Some? ==> crd.value.maxActionsPerHour <= 0)
  }

  /** The change as it is where no policy selects its workload. */
  function Unselected(r: Request): Request {
    if r.Change? && Silent(r.crd, r.actionType) then r.(crd := None) else r
  }

  function AllUnselected(reqs: seq<Request>): seq<Request> {
    seq(|reqs|, i requires 0 <= i < |reqs| => Unselected(reqs[i]))
  }

  lemma {:induction false} SilentStep(t: Trackers, g: Logs, r: Request, pc: Pc, k: Tick)
    ensures Step(t, Unselected(r), pc, k) == Step(t, r, pc, k)
    ensures StepLogs(g, t, Unselected(r), pc, k) == StepLogs(g, t, r, pc, k)
    ensures Touched(Unselected(r), pc) == Touched(r, pc)
  {
  }

  /** A policy that limits nothing changes nothing: every run goes, in every tracker,
      answer and log, as it goes where such policies select no workload. */
  lemma {:induction false} SilentPolicyIsNone(t: Trackers, reqs: seq<Request>, evs: seq<Event>, start: int)
    requires Belong(evs, |reqs|)
    ensures Reached(t, AllUnselected(reqs), evs, start) == Reached(t, reqs, evs, start)
  {
    if evs == [] {
      assert Initial(t, AllUnselected(reqs), start).pcs == Initial(t, reqs, start).pcs;
    } else {
      var front, e := evs[..|evs| - 1], evs[|evs| - 1];
      SilentPolicyIsNone(t, reqs, front, start);
      var m := Reached(t, reqs, front, start);
      SilentStep(m.t, m.logs, reqs[e.call], m.pcs[e.call], e.tick);
    }
  }

  /** The policy's own check lets a change through exactly when it neither forbids it
      nor has had its fill of actions in the hour. */
  lemma {:induction false} PolicyLetsIff(t: Trackers, r: Request, now: int)
    requires r.Change?
    ensures PolicyRefusal(t.budget, r.crd, r.actionType, now).1.None?
            <==> Permits(r, t.budget.Some?)
                 && (r.crd.Some? && r.crd.value.maxActionsPerHour > 0 ==>
                       PolicyBudgets.AfterUsed(t.budget.value, r.crd.value.key, now).1
                       < r.crd.value.maxActionsPerHour)
  {
  }

  /** The policies a preview lists as limiting are those that are not silent about every
      kind of change. */
  lemma {:induction false} LimitingAreNotSilent(ps: seq<CrdPolicy>, p: CrdPolicy)
    ensures p in Limiting(ps) <==> p in ps && exists actionType :: !Silent(Some(p), actionType)
  {
    if Limits(p) {
      assert !Silent(Some(p), "delete_pod");
    }
    if ps != [] {
      LimitingAreNotSilent(ps[..|ps| - 1], p);
    }
  }

  // ---- What became of a change that was sent ----

  /** Event i of the run sends the change of call c, and the API server answers so. */
  ghost predicate SentAt(t: Trackers, reqs: seq<Request>, evs: seq<Event>, start: int, i: nat, c: nat, accepted: bool)
    requires Belong(evs, |reqs|)
  {
    && i < |evs| && c < |reqs| && evs[i].call == c && reqs[c].Change?
    && Reached(t, reqs, evs[..i], start).pcs[c].AtApply? && evs[i].tick.accepted == accepted
  }

  ghost predicate Answered(t: Trackers, reqs: seq<Request>, evs: seq<Event>, start: int, c: nat, accepted: bool)
    requires Belong(evs, |reqs|)
  {
    exists i: nat :: SentAt(t, reqs, evs, start, i, c, accepted)
  }

  lemma {:induction false} AnsweredLonger(
      t: Trackers, reqs: seq<Request>, evs: seq<Event>, start: int, c: nat, accepted: bool)
    requires Belong(evs, |reqs|) && evs != [] && Answered(t, reqs, evs[..|evs| - 1], start, c, accepted)
    ensures Answered(t, reqs, evs, start, c, accepted)
  {
    var i: nat :| SentAt(t, reqs, evs[..|evs| - 1], start, i, c, accepted);
    assert evs[..|evs| - 1][..i] == evs[..i];
    assert SentAt(t, reqs, evs, start, i, c, accepted);
  }

  lemma {:induction false} AcceptStep(t: Trackers, r: Request, pc: Pc, k: Tick)
    requires r.Change?
    ensures var pc' := Step(t, r, pc, k).1;
            && (pc' == Done(Failed) ==> pc == pc' || (pc.AtApply? && !k.accepted))
            && (pc'.AtRecord? || pc' == Done(Applied) ==>
                  pc.AtRecord? || pc == Done(Applied) || (pc.AtApply? && k.accepted))
  {
  }

  /** A change that ends as failed was sent and refused by the API server; one that ends
      as applied, or is about to, was sent and accepted. */
  lemma {:induction false} AcceptanceDecides(t: Trackers, reqs: seq<Request>, evs: seq<Event>, start: int, c: nat)
    requires Belong(evs, |reqs|) && c < |reqs| && reqs[c].Change?
    ensures var pc := Reached(t, reqs, evs, start).pcs[c];
            && (pc == Done(Failed) ==> Answered(t, reqs, evs, start, c, false))
            && (pc.AtRecord? || pc == Done(Applied) ==> Answered(t, reqs, evs, start, c, true))
  {
    if evs != [] {
      var front, e := evs[..|evs| - 1], evs[|evs| - 1];
      AcceptanceDecides(t, reqs, front, start, c);
      var m := Reached(t, reqs, front, start);
      AcceptStep(m.t, reqs[c], m.pcs[c], e.tick);
      if e.call == c && m.pcs[c].AtApply? {
        assert SentAt(t, reqs, evs, start, |evs| - 1, c, e.tick.accepted);
      } else {
        if Answered(t, reqs, front, start, c, false) { AnsweredLonger(t, reqs, evs, start, c, false); }
        if Answered(t, reqs, front, start, c, true) { AnsweredLonger(t, reqs, evs, start, c, true); }
      }
    }
  }

  /** The audit trail tells the outcomes apart. */
  lemma {:induction false} AuditTells(o: Outcome)
    ensures AuditResult(o) == "success" <==> o.Applied?
    ensures AuditResult(o) == "failed" <==> o.Failed?
    ensures AuditResult(o) == "blocked" <==> o.Blocked?
    ensures AuditResult(o) == "simulated" <==> o.Simulated?
    ensures AuditResult(o) == "suggested" <==> o.Suggested?
  {
  }
}
