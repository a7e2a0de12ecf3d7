/** internal/kube/gate.go, guardrails.go, policycheck.go, dryrun.go and
    gate_preview.go: the mutation gate, its guardrails in order, and the two
    read-only twins that answer for it. */
module Gate {
  import opened Prelude
  import opened PolicyScope
  import BlastRadii
  import CircuitBreakers
  import ActionLimiters
  import PolicyBudgets

  datatype Guard =
    | QuietHours | BlastRadius | NeedsApproval | RestartsOff | NoBudgetTracker | BudgetSpent
    | BreakerTripped | RateLimited

  datatype Outcome =
    | Skipped                             // the mode only watches
    | Suggested                           // put into words for someone to do
    | Simulated(would: Option<Guard>)     // answered by a dry run, with what would have refused it
    | Blocked(guard: Guard)
    | Failed                              // handed over, but not accepted
    | Applied
    | Previewed

  /** The limits of the AutoRemediationPolicy that selects a workload. */
  datatype CrdPolicy = CrdPolicy(key: string, requireApproval: bool, restartStuckPods: Option<bool>,
    maxActionsPerHour: int)

  /** A requested change with the policy snapshot the gate reads first, or a preview. */
  datatype Request =
    | Change(pol: Policy, ns: string, workload: string, actionType: string, housekeeping: bool, crd: Option<CrdPolicy>)
    | Preview(pol: Policy, ns: string)

  /** Trackers that are not configured are None. Their checks are then skipped, except
      that no change passes where its limiter is missing. */
  datatype Trackers = Trackers(
    blast: Option<BlastRadii.Blast>,
    breaker: Option<CircuitBreakers.Breaker>,
    limiter: Option<ActionLimiters.Limiter>,
    cleanup: Option<ActionLimiters.Limiter>,
    budget: Option<PolicyBudgets.Budget>)

  /** What one step of a call reads from outside: the clock, read again where
      the code reads it twice, quiet hours, and the API server's answer. */
  datatype Tick = Tick(now: int, again: int, quiet: bool, accepted: bool)

  /** Where a call stands. Between two of these points other calls may run. */
  datatype Pc =
    | AtScope | AtQuiet | AtBlast | AtPolicy | AtBreaker | AtLimiter | AtApply(granted: int) | AtRecord
    | SimQuiet | SimBlast | SimPolicy | SimBreaker
    | ViewBlast | ViewLimiter | ViewBreaker
    | Done(outcome: Outcome)

  datatype Route = Ignore | Describe | Simulate | Act

  /** Where a mode does anything at all the fix scope is asked before it. */
  function RouteOf(p: Policy, ns: string): Route {
    if ns != "" && !Fixable(p, ns) && p.mode != Observe then Describe
    else match p.mode
      case Fix => Act
      case Suggest => Describe
      case DryRun => Simulate
      case Observe => Ignore
  }

  /** policyRefusal: the budget is only consulted when nothing else refuses. */
  function PolicyRefusal(budget: Option<PolicyBudgets.Budget>, crd: Option<CrdPolicy>, actionType: string, now: int)
    : (Option<PolicyBudgets.Budget>, Option<Guard>)
  {
    if crd.None? then (budget, None)
    else if crd.value.requireApproval then (budget, Some(NeedsApproval))
    else if actionType == "delete_pod" && crd.value.restartStuckPods == Some(false) then (budget, Some(RestartsOff))
    else if crd.value.maxActionsPerHour <= 0 then (budget, None)
    else if budget.None? then (budget, Some(NoBudgetTracker))
    else
      var (b, used) := PolicyBudgets.AfterUsed(budget.value, crd.value.key, now);
      (Some(b), if used >= crd.value.maxActionsPerHour then Some(BudgetSpent) else None)
  }

  /** Whether the hourly budget is consulted at all. */
  predicate Consults(crd: Option<CrdPolicy>, actionType: string) {
    && Counted(crd) && !crd.value.requireApproval
    && !(actionType == "delete_pod" && crd.value.restartStuckPods == Some(false))
  }

  predicate Counted(crd: Option<CrdPolicy>) {
    crd.Some? && crd.value.maxActionsPerHour > 0
  }

  // ---- One atomic step of a call ----

  function Start(r: Request): Pc {
    if r.Change? then AtScope else ViewBlast
  }

  function Step(t: Trackers, r: Request, pc: Pc, k: Tick): (Trackers, Pc) {
    match r
    case Change(_, _, _, _, _, _) =>
      if pc.AtScope? || pc.AtQuiet? || pc.AtBlast? || pc.AtPolicy? || pc.AtBreaker? || pc.AtLimiter? || pc.AtApply?
        || pc.AtRecord?
      then ActStep(t, r, pc, k)
      else SimStep(t, r, pc, k)
    case Preview(_, _) => ViewStep(t, pc, k)
  }

  function ActStep(t: Trackers, r: Request, pc: Pc, k: Tick): (Trackers, Pc)
    requires r.Change?
  {
    match pc
    case AtScope => (
      match RouteOf(r.pol, r.ns)
      case Ignore => (t, Done(Skipped))
      case Describe => (t, Done(Suggested))
      case Simulate => (t, SimQuiet)
      case Act => (t, AtQuiet))
    case AtQuiet => (t, if k.quiet then Done(Blocked(QuietHours)) else AtBlast)
    case AtBlast =>
      if r.housekeeping || t.blast.None? then (t, AtPolicy)
      else
        var (b, ok) := BlastRadii.AfterAction(t.blast.value, r.ns, k.now, k.again);
        (t.(blast := Some(b)), if ok then AtPolicy else Done(Blocked(BlastRadius)))
    case AtPolicy =>
      var (b, why) := PolicyRefusal(t.budget, r.crd, r.actionType, k.now);
      (t.(budget := b), if why.Some? then Done(Blocked(why.value)) else AtBreaker)
    case AtBreaker =>
      if r.housekeeping || t.breaker.None? then (t, AtLimiter)
      else
        var (b, ok) := CircuitBreakers.AfterRecord(t.breaker.value, CircuitBreakers.Key(r.ns, r.workload), k.now);
        (t.(breaker := Some(b)), if ok then AtLimiter else Done(Blocked(BreakerTripped)))
    case AtLimiter =>
      var limiter := if r.housekeeping then t.cleanup else t.limiter;
      if limiter.None? then (t, Done(Blocked(RateLimited)))
      else
        var (l, ok) := ActionLimiters.AfterAllow(limiter.value, k.now, k.again);
        (if r.housekeeping then t.(cleanup := Some(l)) else t.(limiter := Some(l)),
         if ok then AtApply(k.again) else Done(Blocked(RateLimited)))
    case AtApply(_) => (t, if k.accepted then AtRecord else Done(Failed))
    case AtRecord =>
      (if Counted(r.crd) && t.budget.Some?
       then t.(budget := Some(PolicyBudgets.AfterHit(t.budget.value, r.crd.value.key, k.now))) else t,
       Done(Applied))
    case _ => (t, pc)
  }

  /** SimulateAction asks each guardrail's read-only side, housekeeping or not. */
  function SimStep(t: Trackers, r: Request, pc: Pc, k: Tick): (Trackers, Pc)
    requires r.Change?
  {
    match pc
    case SimQuiet => (t, if k.quiet then Done(Simulated(Some(QuietHours))) else SimBlast)
    case SimBlast =>
      (t, if t.blast.Some? && !BlastRadii.AfterAction(t.blast.value, r.ns, k.now, k.now).1
          then Done(Simulated(Some(BlastRadius))) else SimPolicy)
    case SimPolicy =>
      var (b, why) := PolicyRefusal(t.budget, r.crd, r.actionType, k.now);
      (t.(budget := b), if why.Some? then Done(Simulated(why)) else SimBreaker)
    case SimBreaker =>
      if t.breaker.None? then (t, Done(Simulated(None)))
      else
        var (b, yes) := CircuitBreakers.AfterQuery(t.breaker.value, CircuitBreakers.Key(r.ns, r.workload), k.now);
        (t.(breaker := Some(b)), Done(Simulated(if yes then Some(BreakerTripped) else None)))
    case _ => (t, pc)
  }

  /** GatePreview: the limiter prunes as it answers, nothing else changes. */
  function ViewStep(t: Trackers, pc: Pc, k: Tick): (Trackers, Pc) {
    match pc
    case ViewBlast => (t, ViewLimiter)
    case ViewLimiter =>
      (if t.limiter.Some? then t.(limiter := Some(ActionLimiters.Pruned(t.limiter.value, k.now))) else t, ViewBreaker)
    case ViewBreaker => (t, Done(Previewed))
    case _ => (t, pc)
  }

  /** A call that runs with nothing in between, one tick a step. */
  function Alone(t: Trackers, r: Request, pc: Pc, ticks: seq<Tick>): (Trackers, Pc)
    decreases |ticks|
  {
    if pc.Done? || ticks == [] then (t, pc)
    else var (t', pc') := Step(t, r, pc, ticks[0]); Alone(t', r, pc', ticks[1..])
  }

  lemma {:induction false} AloneStep(t: Trackers, r: Request, pc: Pc, ticks: seq<Tick>)
    requires !pc.Done? && ticks != []
    ensures Alone(t, r, pc, ticks) == Alone(Step(t, r, pc, ticks[0]).0, r, Step(t, r, pc, ticks[0]).1, ticks[1..])
  {
  }

  /** Of the steps of a preview only the limiter's changes anything. */
  lemma {:induction false} ViewAlone(t: Trackers, r: Request, ticks: seq<Tick>)
    requires r.Preview? && |ticks| == 3
    ensures Alone(t, r, ViewBlast, ticks) == (Step(t, r, ViewLimiter, ticks[1]).0, Done(Previewed))
  {
    AloneStep(t, r, ViewBlast, ticks);
    AloneStep(t, r, ViewLimiter, ticks[1..]);
    AloneStep(Step(t, r, ViewLimiter, ticks[1]).0, r, ViewBreaker, ticks[1..][1..]);
  }

  // ---- What a preview shows ----

  /** One line of it: whether a fix would get past this check now, and the detail. */
  datatype Check =
    | ModeCheck(pass: bool, mode: Mode)
    | ScopeCheck(pass: bool)
    | QuietCheck(pass: bool)
    | BlastCheck(pass: bool, affected: nat)
    | RateCheck(pass: bool, left: Option<int>)
    | BreakerCheck(pass: bool, tripped: set<string>)
    | PolicyCheck(pass: bool, limiting: seq<CrdPolicy>)

  predicate Limits(p: CrdPolicy) {
    p.requireApproval || p.restartStuckPods == Some(false) || p.maxActionsPerHour > 0
  }

  function Limiting(ps: seq<CrdPolicy>): seq<CrdPolicy> {
    if ps == [] then []
    else Limiting(ps[..|ps| - 1]) + if Limits(ps[|ps| - 1]) then [ps[|ps| - 1]] else []
  }

  predicate NeedsApprovals(ps: seq<CrdPolicy>) {
    exists p :: p in ps && p.requireApproval
  }

  /** The workloads of the namespace among the keys of the breaker. */
  function NamesUnder(keys: set<string>, ns: string): set<string> {
    set key | key in keys && ns + "/" <= key :: key[|ns| + 1..]
  }

  function BlastChecks(b: Option<BlastRadii.Blast>, ns: string, now: int): seq<Check> {
    match b
    case None => []
    case Some(b) => [BlastCheck(BlastRadii.AfterAction(b, ns, now, now).1, |b.counts|)]
  }

  function RateChecks(l: Option<ActionLimiters.Limiter>, now: int): seq<Check> {
    match l
    case None => [RateCheck(false, None)]
    case Some(l) =>
      var used := |ActionLimiters.Pruned(l, now).events|;
      [RateCheck(used < l.max, Some(if used >= l.max then 0 else l.max - used))]
  }

  function BreakerChecks(b: Option<CircuitBreakers.Breaker>, ns: string, now: int): seq<Check> {
    match b
    case None => []
    case Some(b) =>
      var keys := set key | key in b.tripped && CircuitBreakers.Blocking(b, key, now);
      [BreakerCheck(true, NamesUnder(keys, ns))]
  }

  /** The checks in the order shown; a tracker that is not configured has none, but
      a missing limiter fails its own. */
  function Shown(t: Trackers, r: Request, quiet: bool, policies: seq<CrdPolicy>, ks: seq<Tick>): seq<Check>
    requires |ks| >= 3
  {
    [ModeCheck(r.pol.mode == Fix, r.pol.mode), ScopeCheck(Fixable(r.pol, r.ns)), QuietCheck(!quiet)]
    + BlastChecks(t.blast, r.ns, ks[0].now) + RateChecks(t.limiter, ks[1].now)
      + BreakerChecks(t.breaker, r.ns, ks[2].now)
    + [PolicyCheck(!NeedsApprovals(policies), Limiting(policies))]
  }

  // ---- The gate as the code runs it ----

  datatype DryRunEntry = DryRunEntry(ns: string, workload: string, action: string, blocked: Option<Guard>)

  datatype AuditEntry = AuditEntry(action: string, ns: string, workload: string, result: string)

  function AuditResult(o: Outcome): string {
    match o
    case Suggested => "suggested"
    case Simulated(_) => "simulated"
    case Blocked(_) => "blocked"
    case Failed => "failed"
    case Applied => "success"
    case Skipped => ""
    case Previewed => ""
  }

  class Deps {
    const blast: BlastRadii.BlastRadiusTracker?
    const breaker: CircuitBreakers.CircuitBreaker?
    const limiter: ActionLimiters.ActionLimiter?
    const cleanup: ActionLimiters.ActionLimiter?
    const budget: PolicyBudgets.PolicyBudget?
    const dryRunMax: nat
    var dryRunLog: seq<DryRunEntry>
    var audit: seq<AuditEntry>
    var sent: seq<Request>   // the changes handed to the API server

    constructor (
        blast: BlastRadii.BlastRadiusTracker?, breaker: CircuitBreakers.CircuitBreaker?,
        limiter: ActionLimiters.ActionLimiter?, cleanup: ActionLimiters.ActionLimiter?,
        budget: PolicyBudgets.PolicyBudget?)
      requires limiter != null ==> limiter != cleanup
      ensures Valid() && sent == [] && audit == [] && dryRunLog == []
      ensures this.blast == blast && this.breaker == breaker && this.limiter == limiter
      ensures this.cleanup == cleanup && this.budget == budget
    {
      this.blast, this.breaker, this.limiter, this.cleanup, this.budget := blast, breaker, limiter, cleanup, budget;
      dryRunMax := 200;
      dryRunLog, audit, sent := [], [], [];
    }

    ghost predicate Valid()
    {
      dryRunMax >= 1 && (limiter != null ==> limiter != cleanup)
    }

    /** The objects the gate spends from. */
    ghost function Spent(): set<object> {
      (if blast != null then {blast} else {}) + (if breaker != null then {breaker} else {})
      + (if limiter != null then {limiter} else {}) + (if cleanup != null then {cleanup} else {})
      + (if budget != null then {budget} else {})
    }

    ghost function Model(): Trackers
      reads Spent()
    {
      Trackers(
        if blast != null then Some(blast.Model()) else None,
        if breaker != null then Some(breaker.Model()) else None,
        if limiter != null then Some(limiter.Model()) else None,
        if cleanup != null then Some(cleanup.Model()) else None,
        if budget != null then Some(budget.Model()) else None)
    }

    method AuditAction(r: Request, o: Outcome)
      requires r.Change?
      modifies this`audit
      ensures audit == old(audit) + [AuditEntry(r.actionType, r.ns, r.workload, AuditResult(o))]
    {
      audit := audit + [AuditEntry(r.actionType, r.ns, r.workload, AuditResult(o))];
    }

    // Each of the next five methods is one atomic step of the gate.

    method SpendBlast(r: Request, k: Tick) returns (ok: bool)
      requires Valid() && r.Change?
      modifies Spent()
      ensures (Model(), if ok then AtPolicy else Done(Blocked(BlastRadius))) == Step(old(Model()), r, AtBlast, k)
    {
      if r.housekeeping || blast == null { return true; }
      ok := blast.AllowAction(r.ns, k.now, k.again);
    }

    method CheckPolicy(r: Request, now: int) returns (why: Option<Guard>)
      requires Valid() && r.Change?
      modifies Spent()
      ensures var (b, w) := PolicyRefusal(old(Model()).budget, r.crd, r.actionType, now);
              Model() == old(Model()).(budget := b) && why == w
    {
      if r.crd.None? {
        return None;
      }
      var pol := r.crd.value;
      if pol.requireApproval {
        return Some(NeedsApproval);
      }
      if r.actionType == "delete_pod" && pol.restartStuckPods == Some(false) {
        return Some(RestartsOff);
      }
      if pol.maxActionsPerHour <= 0 {
        return None;
      }
      if budget == null {
        return Some(NoBudgetTracker);
      }
      var used := budget.Used(pol.key, now);
      if used >= pol.maxActionsPerHour {
        return Some(BudgetSpent);
      }
      return None;
    }

    method SpendBreaker(r: Request, k: Tick) returns (ok: bool)
      requires Valid() && r.Change?
      modifies Spent()
      ensures (Model(), if ok then AtLimiter else Done(Blocked(BreakerTripped))) == Step(old(Model()), r, AtBreaker, k)
    {
      if r.housekeeping || breaker == null { return true; }
      ok := breaker.RecordAndCheck(r.ns, r.workload, k.now);
    }

    /** A grant of the limiter that the kind of change is held to; where that limiter
        is not configured none is ever given. */
    method SpendLimiter(r: Request, k: Tick) returns (ok: bool)
      requires Valid() && r.Change?
      modifies Spent()
      ensures (Model(), if ok then AtApply(k.again) else Done(Blocked(RateLimited)))
              == Step(old(Model()), r, AtLimiter, k)
    {
      var use := limiter;
      if r.housekeeping {
        use := cleanup;
      }
      if use == null {
        return false;
      }
      ok := use.Allow(k.now, k.again);
    }

    method RecordPolicyAction(r: Request, k: Tick)
      requires Valid() && r.Change?
      modifies Spent()
      ensures (Model(), Done(Applied)) == Step(old(Model()), r, AtRecord, k)
    {
      if Counted(r.crd) && budget != null {
        budget.Record(r.crd.value.key, k.now);
      }
    }

    /** The last two safety checks: the policy of the workload, then the breaker. */
    method CheckLimits(r: Request, ticks: seq<Tick>) returns (why: Option<Guard>)
      requires Valid() && r.Change? && |ticks| >= 2
      modifies Spent()
      ensures why.Some? ==> Alone(old(Model()), r, AtPolicy, ticks) == (Model(), Done(Blocked(why.value)))
      ensures why.None? ==> Alone(old(Model()), r, AtPolicy, ticks) == Alone(Model(), r, AtLimiter, ticks[2..])
    {
      AloneStep(Model(), r, AtPolicy, ticks);
      why := CheckPolicy(r, ticks[0].now);
      if why.Some? {
        return;
      }
      AloneStep(Model(), r, AtBreaker, ticks[1..]);
      var ok := SpendBreaker(r, ticks[1]);
      if !ok {
        return Some(BreakerTripped);
      }
      assert ticks[1..][1..] == ticks[2..];
    }

    /** The guardrails one after another; a check that refuses ends
        the run, so what comes after it is not spent. */
    method CheckGuardrails(r: Request, ticks: seq<Tick>) returns (why: Option<Guard>)
      requires Valid() && r.Change? && |ticks| >= 4
      modifies Spent()
      ensures why.Some? ==> Alone(old(Model()), r, AtQuiet, ticks) == (Model(), Done(Blocked(why.value)))
      ensures why.None? ==> Alone(old(Model()), r, AtQuiet, ticks) == Alone(Model(), r, AtLimiter, ticks[4..])
    {
      AloneStep(Model(), r, AtQuiet, ticks);
      if ticks[0].quiet {
        return Some(QuietHours);
      }
      AloneStep(Model(), r, AtBlast, ticks[1..]);
      var ok := SpendBlast(r, ticks[1]);
      if !ok {
        return Some(BlastRadius);
      }
      assert ticks[1..][1..] == ticks[2..] && ticks[2..][2..] == ticks[4..];
      why := CheckLimits(r, ticks[2..]);
    }

    method AskBlast(r: Request, k: Tick) returns (ok: bool)
      requires Valid() && r.Change?
      ensures (Model(), if ok then SimPolicy else Done(Simulated(Some(BlastRadius)))) == Step(Model(), r, SimBlast, k)
    {
      ok := true;
      if blast != null {
        ok := blast.WouldAllow(r.ns, k.now);
        assert ok == BlastRadii.AfterAction(blast.Model(), r.ns, k.now, k.now).1;
      }
    }

    method AskBreaker(r: Request, k: Tick) returns (blocked: Option<Guard>)
      requires Valid() && r.Change?
      modifies Spent()
      ensures (Model(), Done(Simulated(blocked))) == Step(old(Model()), r, SimBreaker, k)
    {
      if breaker != null {
        var yes := breaker.IsTripped(r.ns, r.workload, k.now);
        return if yes then Some(BreakerTripped) else None;
      }
      return None;
    }

    /** What the last two would say. */
    method AskLimits(r: Request, ticks: seq<Tick>) returns (blocked: Option<Guard>)
      requires Valid() && r.Change? && |ticks| >= 2
      modifies Spent()
      ensures Alone(old(Model()), r, SimPolicy, ticks) == (Model(), Done(Simulated(blocked)))
    {
      AloneStep(Model(), r, SimPolicy, ticks);
      blocked := CheckPolicy(r, ticks[0].now);
      if blocked.Some? {
        return;
      }
      AloneStep(Model(), r, SimBreaker, ticks[1..]);
      blocked := AskBreaker(r, ticks[1]);
    }

    /** What the guardrails would say, from their read-only sides. */
    method WouldBlock(r: Request, ticks: seq<Tick>) returns (blocked: Option<Guard>)
      requires Valid() && r.Change? && |ticks| >= 4
      modifies Spent()
      ensures Alone(old(Model()), r, SimQuiet, ticks) == (Model(), Done(Simulated(blocked)))
    {
      AloneStep(Model(), r, SimQuiet, ticks);
      if ticks[0].quiet {
        return Some(QuietHours);
      }
      AloneStep(Model(), r, SimBlast, ticks[1..]);
      var ok := AskBlast(r, ticks[1]);
      if !ok {
        return Some(BlastRadius);
      }
      assert ticks[1..][1..] == ticks[2..];
      blocked := AskLimits(r, ticks[2..]);
    }

    /** The log of dry runs keeps the latest. */
    method LogDryRun(e: DryRunEntry)
      requires Valid()
      modifies this`dryRunLog
      ensures |old(dryRunLog)| <= dryRunMax ==> dryRunLog == LastN(old(dryRunLog) + [e], dryRunMax)
    {
      if |dryRunLog| >= dryRunMax {
        dryRunLog := dryRunLog[1..];
      }
      dryRunLog := dryRunLog + [e];
    }

    method SimulateAction(r: Request, ticks: seq<Tick>) returns (blocked: Option<Guard>)
      requires Valid() && r.Change? && |ticks| >= 4
      modifies Spent(), this`dryRunLog
      ensures Alone(old(Model()), r, SimQuiet, ticks) == (Model(), Done(Simulated(blocked)))
      ensures |old(dryRunLog)| <= dryRunMax ==>
                dryRunLog == LastN(old(dryRunLog) + [DryRunEntry(r.ns, r.workload, r.actionType, blocked)], dryRunMax)
    {
      blocked := WouldBlock(r, ticks);
      LogDryRun(DryRunEntry(r.ns, r.workload, r.actionType, blocked));
    }

    /** Every change to the cluster takes this way. Every decision but a skip is
        audited once, and a change is sent exactly when it ends as applied or failed. */
    method ApplyMutation(r: Request, ticks: seq<Tick>) returns (o: Outcome)
      requires Valid() && r.Change? && |ticks| == 8
      modifies Spent(), this
      ensures Alone(old(Model()), r, AtScope, ticks) == (Model(), Done(o))
      ensures sent == old(sent) + if o.Applied? || o.Failed? then [r] else []
      ensures audit == old(audit) + if o.Skipped? then []
              else [AuditEntry(r.actionType, r.ns, r.workload, AuditResult(o))]
    {
      o := Decide(r, ticks);
      if !o.Skipped? {
        AuditAction(r, o);
      }
    }

    method Decide(r: Request, ticks: seq<Tick>) returns (o: Outcome)
      requires Valid() && r.Change? && |ticks| == 8
      modifies Spent(), this`sent, this`dryRunLog
      ensures Alone(old(Model()), r, AtScope, ticks) == (Model(), Done(o))
      ensures sent == old(sent) + if o.Applied? || o.Failed? then [r] else []
    {
      AloneStep(Model(), r, AtScope, ticks);
      if r.ns != "" && !Fixable(r.pol, r.ns) && r.pol.mode != Observe {
        return Suggested;
      }
      match r.pol.mode {
        case Fix => o := Enforce(r, ticks);
        case Suggest => o := Suggested;
        case DryRun =>
          var would := SimulateAction(r, ticks[1..]);
          o := Simulated(would);
        case Observe => o := Skipped;
      }
    }

    /** Fix mode: the guardrails, then the limiter, and only then the change. */
    method Enforce(r: Request, ticks: seq<Tick>) returns (o: Outcome)
      requires Valid() && r.Change? && |ticks| == 8
      modifies Spent(), this`sent
      ensures Alone(old(Model()), r, AtQuiet, ticks[1..]) == (Model(), Done(o))
      ensures sent == old(sent) + if o.Applied? || o.Failed? then [r] else []
    {
      var why := CheckGuardrails(r, ticks[1..]);
      if why.Some? {
        return Blocked(why.value);
      }
      assert ticks[1..][4..] == ticks[5..];
      AloneStep(Model(), r, AtLimiter, ticks[5..]);
      var ok := SpendLimiter(r, ticks[5]);
      if !ok {
        return Blocked(RateLimited);
      }
      assert ticks[5..][1..] == ticks[6..];
      o := SendChange(r, ticks[5].again, ticks[6..]);
    }

    method SendChange(r: Request, granted: int, ticks: seq<Tick>) returns (o: Outcome)
      requires Valid() && r.Change? && |ticks| == 2
      modifies Spent(), this`sent
      ensures Alone(old(Model()), r, AtApply(granted), ticks) == (Model(), Done(o))
      ensures sent == old(sent) + [r] && (o.Applied? || o.Failed?)
    {
      AloneStep(Model(), r, AtApply(granted), ticks);
      sent := sent + [r];
      if !ticks[0].accepted {
        return Failed;
      }
      AloneStep(Model(), r, AtRecord, ticks[1..]);
      RecordPolicyAction(r, ticks[1]);
      return Applied;
    }

    method PolicyChecks(policies: seq<CrdPolicy>) returns (check: Check)
      ensures check == PolicyCheck(!NeedsApprovals(policies), Limiting(policies))
    {
      var limiting: seq<CrdPolicy> := [];
      var approval := false;
      for i := 0 to |policies|
        invariant limiting == Limiting(policies[..i]) && (approval <==> NeedsApprovals(policies[..i]))
      {
        assert policies[..i + 1] == policies[..i] + [policies[i]];
        var p := policies[i];
        approval := approval || p.requireApproval;
        if Limits(p) {
          limiting := limiting + [p];
        }
      }
      assert policies[..|policies|] == policies;
      check := PolicyCheck(!approval, limiting);
    }

    method ShowBlast(ns: string, now: int) returns (checks: seq<Check>)
      ensures checks == BlastChecks(Model().blast, ns, now)
    {
      if blast == null { return []; }
      var ok := blast.WouldAllow(ns, now);
      var affected := blast.AffectedNamespaces();
      checks := [BlastCheck(ok, affected)];
    }

    method ShowRate(r: Request, k: Tick) returns (checks: seq<Check>)
      requires Valid() && r.Preview?
      modifies Spent()
      ensures (Model(), ViewBreaker) == Step(old(Model()), r, ViewLimiter, k)
      ensures checks == RateChecks(old(Model()).limiter, k.now)
    {
      if limiter == null { return [RateCheck(false, None)]; }
      var left := limiter.Remaining(k.now);
      checks := [RateCheck(left > 0, Some(left))];
    }

    method ShowBreaker(ns: string, now: int) returns (checks: seq<Check>)
      ensures checks == BreakerChecks(Model().breaker, ns, now)
    {
      if breaker == null { return []; }
      var keys := breaker.TrippedWorkloads(now);
      var names := {};
      var left := keys;
      while left != {}
        invariant left <= keys && names == NamesUnder(keys - left, ns)
        decreases left
      {
        var key :| key in left;
        assert keys - (left - {key}) == keys - left + {key};
        if ns + "/" <= key {
          names := names + {key[|ns| + 1..]};
        }
        left := left - {key};
      }
      assert keys - {} == keys;
      checks := [BreakerCheck(true, names)];
    }

    /** The lines about the trackers. */
    method ShowTrackers(r: Request, ks: seq<Tick>) returns (checks: seq<Check>)
      requires Valid() && r.Preview? && |ks| == 3
      modifies Spent()
      ensures (Model(), ViewBreaker) == Step(old(Model()), r, ViewLimiter, ks[1])
      ensures var t := old(Model());
              checks == BlastChecks(t.blast, r.ns, ks[0].now) + RateChecks(t.limiter, ks[1].now)
                        + BreakerChecks(t.breaker, r.ns, ks[2].now)
    {
      checks := ShowBlast(r.ns, ks[0].now);
      var rate := ShowRate(r, ks[1]);
      var last := ShowBreaker(r.ns, ks[2].now);
      checks := checks + rate + last;
    }

    /** What the preview shows, check by check, spending nothing. */
    method GatePreview(r: Request, quiet: bool, policies: seq<CrdPolicy>, ticks: seq<Tick>) returns (checks: seq<Check>)
      requires Valid() && r.Preview? && |ticks| == 3
      modifies Spent()
      ensures Alone(old(Model()), r, ViewBlast, ticks) == (Model(), Done(Previewed))
      ensures checks == Shown(old(Model()), r, quiet, policies, ticks)
    {
      ViewAlone(Model(), r, ticks);
      checks := [ModeCheck(r.pol.mode == Fix, r.pol.mode), ScopeCheck(Fixable(r.pol, r.ns)), QuietCheck(!quiet)];
      var more := ShowTrackers(r, ticks);
      var last := PolicyChecks(policies);
      checks := checks + more + [last];
    }
  }
}
