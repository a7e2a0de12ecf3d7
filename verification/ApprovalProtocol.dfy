/** The durable approval queue as a protocol (internal/kube/approval_store.go,
    approvals.go): any number of controllers share one stored queue. An
    operation reads it with its version, computes the queue after its step, and
    stores that only where the version is still the one read; approving is written
    ahead of applying. Calls interleave freely, writes fail, land without an answer
    or are refused, and controllers crash anywhere. */
module ApprovalProtocol {
  import opened Prelude
  import opened ApprovalFixes
  import opened ApprovalQueue

  /** The ConfigMap: a version is an opaque token, new for every write. */
  datatype Store = Absent | Present(version: nat, queue: Queue)

  function QueueOf(st: Store): Queue {
    if st.Absent? then map[] else st.queue
  }

  function VersionOf(st: Store): Option<nat> {
    if st.Absent? then None else Some(st.version)
  }

  /** What a call was asked to do. */
  datatype Op =
    | ToPropose(m: Mutation, summary: string, now: int, ttl: int)
    | ToApprove(id: string, user: string)
    | ToReject(id: string, user: string)
    | ToRecord(id: string, result: string)

  datatype Phase =
    | Waiting                                 // for its controller's lock
    | Loading                                 // holds the lock, has no copy
    | Holding(version: Option<nat>, seen: nat) // its controller's memory is the queue after `seen` commits
    | Applying(m: Mutation, commit: nat)      // approved by that commit, about to go through the gate

  datatype Call = Call(ctrl: nat, op: Op, phase: Phase, since: nat)

  /** One write that took effect, with what its call was asked and after how many
      commits; and one change sent through the gate. */
  datatype Commit = Commit(call: nat, op: Op, since: nat, step: Step)
  datatype Application = Application(call: nat, id: string, user: string, m: Mutation, commit: nat)

  /** An answer given: asked after `since` commits, true of the queue after `at`, given after `until`. */
  datatype Response = Response(call: nat, op: Op, since: nat, at: nat, until: nat, step: Step, verdict: Verdict)

  /** What has been written: the commits, the queue after each of them from the
      one the run began with, and every id ever drawn. */
  datatype Past = Past(log: seq<Commit>, history: seq<Queue>, usedIds: set<string>)

  datatype Sys = Sys(
    store: Store,
    past: Past,
    mem: map<nat, Items>,
    lock: map<nat, nat>,
    calls: map<nat, Call>,
    usedCalls: set<nat>,
    usedVersions: set<nat>,
    applied: seq<Application>,
    responses: seq<Response>)

  datatype Reply = Saved | Conflict | Failure

  datatype Action =
    | Begin(call: nat, ctrl: nat, op: Op)
    | Acquire(call: nat)
    | Load(call: nat)
    | Abandon(call: nat)   // a failed read, a timeout, or too many conflicts
    | Attempt(call: nat, now: int, id: string, dropped: set<string>, landed: bool, reply: Reply, version: nat)
    | RunGate(call: nat, result: string)
    | List(ctrl: nat, ok: bool, now: int)
    | Crash(ctrl: nat)

  function StepOf(op: Op, now: int, id: string, dropped: set<string>): Step {
    match op
    case ToPropose(m, summary, at, ttl) => Propose(m, summary, at, ttl, id, dropped)
    case ToApprove(i, user) => Approve(i, user, now)
    case ToReject(i, user) => Reject(i, user, now)
    case ToRecord(i, result) => SetResult(i, result)
  }

  function Memory(s: Sys, ctrl: nat): Items {
    if ctrl in s.mem then s.mem[ctrl] else map[]
  }

  ghost predicate Enabled(c: Config, s: Sys, a: Action) {
    match a
    case Begin(call, _, op) =>
      call !in s.usedCalls && !op.ToRecord? && (op.ToPropose? ==> Built(c, op.m))
        && (!op.ToPropose? ==> c.approvers != {})
    case Acquire(call) => call in s.calls && s.calls[call].phase.Waiting? && s.calls[call].ctrl !in s.lock
    case Load(call) => call in s.calls && s.calls[call].phase.Loading?
    case Abandon(call) => call in s.calls && s.calls[call].phase.Loading?
    case Attempt(call, now, id, dropped, landed, reply, version) =>
      && call in s.calls && s.calls[call].phase.Holding?
      && (s.calls[call].op.ToPropose? ==>
            id !in s.past.usedIds && PruneChoice(Expire(Memory(s, s.calls[call].ctrl), s.calls[call].op.now), dropped))
      && (landed ==> s.calls[call].phase.version == VersionOf(s.store) && version !in s.usedVersions)
      && (reply.Saved? ==> landed)
    case RunGate(call, _) => call in s.calls && s.calls[call].phase.Applying?
    case List(ctrl, _, _) => ctrl !in s.lock
    case Crash(_) => true
  }

  /** The call ends and its controller's lock is free. */
  function End(s: Sys, call: nat): Sys
    requires call in s.calls
  {
    s.(calls := s.calls - {call}, lock := s.lock - {s.calls[call].ctrl})
  }

  function Answer(s: Sys, call: nat, at: nat, step: Step, verdict: Verdict): Sys
    requires call in s.calls
  {
    var k := s.calls[call];
    s.(responses := s.responses + [Response(call, k.op, k.since, at, |s.past.log|, step, verdict)])
  }

  function Drawn(p: Past, step: Step): Past {
    if step.Propose? then p.(usedIds := p.usedIds + {step.id}) else p
  }

  function Grown(p: Past, k: Commit, q: Queue): Past {
    p.(log := p.log + [k], history := p.history + [q])
  }

  /** One step run on the memory of the call's controller. */
  function Ran(c: Config, s: Sys, call: nat, step: Step): Sys
    requires call in s.calls
  {
    var ctrl := s.calls[call].ctrl;
    s.(mem := s.mem[ctrl := Apply(Memory(s, ctrl), c, step).0], past := Drawn(s.past, step))
  }

  /** The commit that the call makes when its step is written. */
  function CommitOf(s: Sys, call: nat, step: Step): Commit
    requires call in s.calls
  {
    Commit(call, s.calls[call].op, s.calls[call].since, step)
  }

  /** The memory of the call's controller written to the store. */
  function Put(s: Sys, call: nat, step: Step, version: nat): Sys
    requires call in s.calls
  {
    var q := Stored(Memory(s, s.calls[call].ctrl));
    s.(store := Present(version, q), usedVersions := s.usedVersions + {version},
      past := Grown(s.past, CommitOf(s, call, step), q))
  }

  /** What the call does with the reply to its write; m is the change it asked to approve. */
  function Replied(s: Sys, call: nat, step: Step, at: nat, m: Option<Mutation>, reply: Reply): Sys
    requires call in s.calls
  {
    var k := s.calls[call];
    match reply
    case Saved =>
      var s' := Answer(s, call, at, step, Changed);
      if m.Some? then s'.(calls := s'.calls[call := k.(phase := Applying(m.value, at))], lock := s'.lock - {k.ctrl})
      else End(s', call)
    case Conflict => s.(calls := s.calls[call := k.(phase := Loading)])
    case Failure => End(s, call)
  }

  /** The change an approving call asks for, as its controller's memory has it. */
  function Approves(s: Sys, call: nat): Option<Mutation>
    requires call in s.calls
  {
    var k := s.calls[call];
    var items := Memory(s, k.ctrl);
    if k.op.ToApprove? && k.op.id in items then Some(items[k.op.id].m) else None
  }

  /** updateQueue once its step has run: the write, when the step changed anything. */
  function Finish(
      s: Sys, m: Option<Mutation>, verdict: Verdict, call: nat, step: Step, landed: bool, reply: Reply, version: nat)
      : Sys
    requires call in s.calls && s.calls[call].phase.Holding?
  {
    if verdict != Changed then End(Answer(s, call, s.calls[call].phase.seen, step, verdict), call)
    else Replied(if landed then Put(s, call, step, version) else s, call, step, |s.past.log|, m, reply)
  }

  function Try(c: Config, s: Sys, call: nat, step: Step, landed: bool, reply: Reply, version: nat): Sys
    requires call in s.calls && s.calls[call].phase.Holding?
  {
    Finish(Ran(c, s, call, step), Approves(s, call), Apply(Memory(s, s.calls[call].ctrl), c, step).1, call, step,
      landed, reply, version)
  }

  function Do(c: Config, s: Sys, a: Action): Sys {
    match a
    case Begin(call, ctrl, op) =>
      s.(calls := s.calls[call := Call(ctrl, op, Waiting, |s.past.log|)], usedCalls := s.usedCalls + {call})
    case Acquire(call) =>
      if call !in s.calls then s
      else s.(calls := s.calls[call := s.calls[call].(phase := Loading)], lock := s.lock[s.calls[call].ctrl := call])
    case Load(call) =>
      if call !in s.calls then s
      else s.(mem := s.mem[s.calls[call].ctrl := Loaded(c, QueueOf(s.store))],
              calls := s.calls[call := s.calls[call].(phase := Holding(VersionOf(s.store), |s.past.log|))])
    case Abandon(call) => if call !in s.calls then s else End(s, call)
    case Attempt(call, now, id, dropped, landed, reply, version) =>
      if call !in s.calls || !s.calls[call].phase.Holding? then s
      else Try(c, s, call, StepOf(s.calls[call].op, now, id, dropped), landed, reply, version)
    case RunGate(call, result) =>
      if call !in s.calls || !s.calls[call].phase.Applying? || !s.calls[call].op.ToApprove? then s
      else
        var k := s.calls[call];
        s.(applied := s.applied + [Application(call, k.op.id, k.op.user, k.phase.m.(approvedBy := k.op.user),
          k.phase.commit)],
           calls := s.calls[call := k.(op := ToRecord(k.op.id, result), phase := Waiting, since := |s.past.log|)])
    case List(ctrl, ok, now) =>
      s.(mem := s.mem[ctrl := Expire(if ok then Loaded(c, QueueOf(s.store)) else Memory(s, ctrl), now)])
    case Crash(ctrl) =>
      s.(calls := map call | call in s.calls && s.calls[call].ctrl != ctrl :: s.calls[call],
         lock := s.lock - {ctrl}, mem := s.mem - {ctrl})
  }

  // ---- Runs ----

  ghost predicate Start(s: Sys) {
    && s.calls == map[] && s.lock == map[] && s.past.log == [] && s.applied == [] && s.responses == []
    && s.past.history == [QueueOf(s.store)] && QueueOf(s.store).Keys <= s.past.usedIds && Tidy(QueueOf(s.store))
    && (s.store.Present? ==> s.store.version in s.usedVersions)
  }

  ghost predicate Runs(c: Config, s: Sys, acts: seq<Action>) {
    acts == [] || (Runs(c, s, acts[..|acts| - 1]) && Enabled(c, Run(c, s, acts[..|acts| - 1]), acts[|acts| - 1]))
  }

  function Run(c: Config, s: Sys, acts: seq<Action>): Sys {
    if acts == [] then s else Do(c, Run(c, s, acts[..|acts| - 1]), acts[|acts| - 1])
  }

  /** The committed steps run one at a time, in commit order. */
  function Replay(c: Config, q: Queue, log: seq<Commit>): Queue {
    Fold(Advance(c), q, log)
  }

  function Advance(c: Config): (Queue, Commit) -> Queue {
    (q: Queue, k: Commit) => ApplyStored(q, c, k.step).0
  }

  // ---- The log ----

  /** A commit changed the queue it was run on into the next, and did so sensibly. */
  ghost function Good(c: Config): (Queue, Commit, Queue) -> bool {
    (q: Queue, k: Commit, q': Queue) => ApplyStored(q, c, k.step) == (q', Changed) && Sensible(c, q, k.step)
  }

  ghost predicate CommitOk(c: Config, p: Past, n: nat)
    requires |p.history| == |p.log| + 1 && n < |p.log|
  {
    Good(c)(p.history[n], p.log[n], p.history[n + 1])
  }

  /** A proposed id is in no earlier queue. */
  ghost predicate FreshAt(p: Past, n: nat)
    requires |p.history| == |p.log| + 1 && n < |p.log|
  {
    p.log[n].step.Propose? ==> forall h :: 0 <= h <= n ==> p.log[n].step.id !in p.history[h]
  }

  ghost predicate CommitsOk(c: Config, p: Past)
    requires |p.history| == |p.log| + 1
  {
    Linked(Good(c), p.history, p.log)
  }

  ghost predicate IdsFresh(p: Past)
    requires |p.history| == |p.log| + 1
  {
    forall n :: 0 <= n < |p.log| ==> FreshAt(p, n)
  }

  ghost predicate QueuesOk(p: Past) {
    forall n :: 0 <= n < |p.history| ==> p.history[n].Keys <= p.usedIds && Tidy(p.history[n])
  }

  /** A step that the operation could have run. */
  ghost predicate StepFor(op: Op, step: Step) {
    exists now, id, dropped :: step == StepOf(op, now, id, dropped)
  }

  /** The commit at n is a step that its call asked for, and had asked for by then. */
  ghost predicate AskedFor(k: Commit, n: nat) {
    StepFor(k.op, k.step) && k.since <= n
  }

  ghost predicate AllAsked(log: seq<Commit>) {
    forall n :: 0 <= n < |log| ==> AskedFor(log[n], n)
  }

  ghost predicate LogOk(c: Config, p: Past) {
    |p.history| == |p.log| + 1 && CommitsOk(c, p) && IdsFresh(p) && QueuesOk(p) && AllAsked(p.log)
  }

  /** id is in that state after n commits, or is gone. */
  ghost predicate In(p: Past, id: string, n: nat, state: State)
    requires n < |p.history|
  {
    id in p.history[n] ==> p.history[n][id].state == state
  }

  /** id is gone after n commits, or is decided as r is, by the same person. */
  ghost predicate Still(p: Past, id: string, n: nat, r: Record)
    requires n < |p.history|
  {
    id in p.history[n] ==> p.history[n][id].state == r.state && p.history[n][id].decidedBy == r.decidedBy
  }

  lemma {:induction false} SettledStep(c: Config, p: Past, id: string, k: nat, n: nat, r: Record)
    requires Faithful(c) && LogOk(c, p) && k <= n < |p.log| && r.state != Pending
    requires id in p.history[k] && Still(p, id, n, r)
    ensures Still(p, id, n + 1, r)
  {
    assert CommitOk(c, p, n) && FreshAt(p, n);
    StaysDecided(p.history[n], p.history[n + 1], c, p.log[n].step, id, r);
  }

  /** Once decided, always decided so: an approval keeps its state for as long as
      it is kept, and an id that has left the queue never comes back. */
  lemma {:induction false} Settled(c: Config, p: Past, id: string, k: nat, n: nat)
    requires Faithful(c) && LogOk(c, p) && k <= n <= |p.log|
    requires id in p.history[k] && p.history[k][id].state != Pending
    ensures Still(p, id, n, p.history[k][id])
    decreases n
  {
    if k < n {
      Settled(c, p, id, k, n - 1);
      SettledStep(c, p, id, k, n - 1, p.history[k][id]);
    }
  }

  /** Commit k is the approval of id by user. */
  ghost predicate ApprovedAt(p: Past, k: nat, id: string, user: string) {
    k < |p.log| && p.log[k].step.Approve? && p.log[k].step.id == id && p.log[k].step.user == user
  }

  lemma {:induction false} ApprovalFacts(c: Config, p: Past, k: nat, id: string, user: string)
    requires Faithful(c) && LogOk(c, p) && ApprovedAt(p, k, id, user)
    ensures var q, q' := p.history[k], p.history[k + 1];
            && id in q && q[id].state == Pending && p.log[k].step.now < q[id].expires && user in c.approvers
            && c.rebuild(q[id].fix).Some?
            && id in q' && q'[id].state == Approved && q'[id].decidedBy == user
  {
    assert CommitOk(c, p, k);
    StoredStep(p.history[k], c, p.log[k].step);
  }

  /** At most one commit ever approves an id. */
  lemma {:induction false} OneApproval(c: Config, p: Past, id: string, k: nat, user: string, n: nat, user': string)
    requires Faithful(c) && LogOk(c, p) && ApprovedAt(p, k, id, user) && ApprovedAt(p, n, id, user') && k <= n
    ensures k == n
  {
    ApprovalFacts(c, p, k, id, user);
    ApprovalFacts(c, p, n, id, user');
    if k < n {
      Settled(c, p, id, k + 1, n);
    }
  }

  /** What is approved was never decided before. */
  lemma {:induction false} PendingUntil(c: Config, p: Past, id: string, k: nat, user: string, h: nat)
    requires Faithful(c) && LogOk(c, p) && ApprovedAt(p, k, id, user) && h <= k
    ensures In(p, id, h, Pending)
  {
    ApprovalFacts(c, p, k, id, user);
    if id in p.history[h] && p.history[h][id].state != Pending {
      Settled(c, p, id, h, k);
    }
  }

  // ---- What every reachable state satisfies ----

  ghost predicate StoreOk(s: Sys) {
    && |s.past.history| == |s.past.log| + 1
    && s.past.history[|s.past.log|] == QueueOf(s.store)
    && (s.store.Present? ==> s.store.version in s.usedVersions)
  }

  /** The change commit k approved, as it is sent on. */
  ghost predicate Carries(c: Config, s: Sys, k: nat, id: string, user: string, m: Mutation) {
    && ApprovedAt(s.past, k, id, user) && |s.past.history| == |s.past.log| + 1
    && id in s.past.history[k] && m == FromRecord(c, s.past.history[k][id]).m
  }

  ghost predicate PhaseOk(c: Config, s: Sys, call: nat, k: Call)
    requires |s.past.history| == |s.past.log| + 1
  {
    match k.phase
    case Waiting => true
    case Loading => k.ctrl in s.lock && s.lock[k.ctrl] == call
    case Holding(v, seen) =>
      && k.ctrl in s.lock && s.lock[k.ctrl] == call
      && k.since <= seen <= |s.past.log|
      && Memory(s, k.ctrl) == Loaded(c, s.past.history[seen])
      && (v == VersionOf(s.store) ==> seen == |s.past.log|)
      && (v.Some? ==> v.value in s.usedVersions)
    case Applying(m, commit) =>
      && k.op.ToApprove? && k.since <= commit && Carries(c, s, commit, k.op.id, k.op.user, m)
      && s.past.log[commit].call == call
  }

  ghost predicate CallOk(c: Config, s: Sys, call: nat, k: Call)
    requires |s.past.history| == |s.past.log| + 1
  {
    && call in s.usedCalls && k.since <= |s.past.log|
    && (k.op.ToPropose? ==> Built(c, k.op.m))
    && (k.op.ToRecord? ==> exists i :: 0 <= i < |s.applied| && s.applied[i].call == call && s.applied[i].id == k.op.id)
    && PhaseOk(c, s, call, k)
  }

  ghost predicate CallsOk(c: Config, s: Sys)
    requires |s.past.history| == |s.past.log| + 1
  {
    forall call :: call in s.calls ==> CallOk(c, s, call, s.calls[call])
  }

  ghost predicate ApplicationOk(c: Config, s: Sys, a: Application)
    requires |s.past.history| == |s.past.log| + 1
  {
    && ApprovedAt(s.past, a.commit, a.id, a.user) && s.past.log[a.commit].call == a.call
    && a.id in s.past.history[a.commit]
    && a.m == FromRecord(c, s.past.history[a.commit][a.id]).m.(approvedBy := a.user)
    && a.call in s.usedCalls
    && (a.call in s.calls ==> s.calls[a.call].op.ToRecord?)
  }

  ghost predicate ApplicationsOk(c: Config, s: Sys)
    requires |s.past.history| == |s.past.log| + 1
  {
    && (forall i :: 0 <= i < |s.applied| ==> ApplicationOk(c, s, s.applied[i]))
    && (forall i, j :: 0 <= i < j < |s.applied| ==> s.applied[i].call != s.applied[j].call)
  }

  /** An answer is the one the queue gives to the operation run on its own after
      some number of commits made while the call was open; if it changed the
      queue, that commit is the call's. */
  ghost predicate ResponseOk(c: Config, s: Sys, r: Response)
    requires |s.past.history| == |s.past.log| + 1
  {
    && r.since <= r.at <= r.until <= |s.past.log|
    && StepFor(r.op, r.step)
    && ApplyStored(s.past.history[r.at], c, r.step).1 == r.verdict
    && (r.verdict == Changed ==> r.at < r.until && s.past.log[r.at] == Commit(r.call, r.op, r.since, r.step))
  }

  ghost predicate ResponsesOk(c: Config, s: Sys)
    requires |s.past.history| == |s.past.log| + 1
  {
    forall i :: 0 <= i < |s.responses| ==> ResponseOk(c, s, s.responses[i])
  }

  ghost predicate Inv(c: Config, s: Sys) {
    StoreOk(s) && LogOk(c, s.past) && CallsOk(c, s) && ApplicationsOk(c, s) && ResponsesOk(c, s)
  }

  // ---- Frames ----

  ghost predicate Extends(s: Sys, s': Sys) {
    && |s.past.history| == |s.past.log| + 1 && |s'.past.history| == |s'.past.log| + 1
    && s.past.log <= s'.past.log && s.past.history <= s'.past.history && s.applied <= s'.applied
    && s.usedCalls <= s'.usedCalls && s.usedVersions <= s'.usedVersions
  }

  /** Nothing a call of that kind depends on was touched. */
  ghost predicate Undisturbed(s: Sys, s': Sys, k: Call) {
    && (k.phase.Loading? || k.phase.Holding?
       ==> k.ctrl in s.lock && k.ctrl in s'.lock && s'.lock[k.ctrl] == s.lock[k.ctrl])
    && (k.phase.Holding? ==>
          && Memory(s', k.ctrl) == Memory(s, k.ctrl)
          && (k.phase.version == VersionOf(s'.store)
             ==> k.phase.version == VersionOf(s.store) && |s'.past.log| == |s.past.log|))
  }

  lemma {:induction false} CallFrame(c: Config, s: Sys, s': Sys, call: nat, k: Call)
    requires Extends(s, s') && CallOk(c, s, call, k) && Undisturbed(s, s', k)
    ensures CallOk(c, s', call, k)
  {
  }

  /** Answers and applications stay good as the log grows. */
  lemma {:induction false} PastFrame(c: Config, s: Sys, s': Sys)
    requires Extends(s, s') && s'.applied == s.applied && s'.responses == s.responses
    requires ApplicationsOk(c, s) && ResponsesOk(c, s)
    requires forall call :: call in s'.calls && call in s.usedCalls ==>
             call in s.calls && (s.calls[call].op.ToRecord? ==> s'.calls[call].op.ToRecord?)
    ensures ApplicationsOk(c, s') && ResponsesOk(c, s')
  {
  }

  // ---- The steps that do not write ----

  lemma {:induction false} InvBegin(c: Config, s: Sys, a: Action)
    requires Inv(c, s) && Enabled(c, s, a) && a.Begin?
    ensures Inv(c, Do(c, s, a))
  {
  }

  lemma {:induction false} InvAcquire(c: Config, s: Sys, a: Action)
    requires Inv(c, s) && Enabled(c, s, a) && a.Acquire?
    ensures Inv(c, Do(c, s, a))
  {
    var s' := Do(c, s, a);
    forall call | call in s'.calls ensures CallOk(c, s', call, s'.calls[call]) {
      assert CallOk(c, s, call, s.calls[call]);
      if call != a.call {
        CallFrame(c, s, s', call, s.calls[call]);
      }
    }
    PastFrame(c, s, s');
  }

  lemma {:induction false} InvLoad(c: Config, s: Sys, a: Action)
    requires Inv(c, s) && Enabled(c, s, a) && a.Load?
    ensures Inv(c, Do(c, s, a))
  {
    var s' := Do(c, s, a);
    assert CallOk(c, s, a.call, s.calls[a.call]);
    forall call | call in s'.calls ensures CallOk(c, s', call, s'.calls[call]) {
      assert CallOk(c, s, call, s.calls[call]);
      if call != a.call {
        CallFrame(c, s, s', call, s.calls[call]);
      }
    }
    PastFrame(c, s, s');
  }

  ghost predicate CallsExcept(c: Config, s: Sys, call: nat)
    requires |s.past.history| == |s.past.log| + 1
  {
    forall other :: other in s.calls && other != call ==> CallOk(c, s, other, s.calls[other])
  }

  lemma {:induction false} InvAbandon(c: Config, s: Sys, a: Action)
    requires Inv(c, s) && Enabled(c, s, a) && a.Abandon?
    ensures Inv(c, Do(c, s, a))
  {
  }

  lemma {:induction false} InvList(c: Config, s: Sys, a: Action)
    requires Inv(c, s) && Enabled(c, s, a) && a.List?
    ensures Inv(c, Do(c, s, a))
  {
    var s' := Do(c, s, a);
    forall call | call in s'.calls ensures CallOk(c, s', call, s'.calls[call]) {
      assert CallOk(c, s, call, s.calls[call]);
      CallFrame(c, s, s', call, s.calls[call]);
    }
    PastFrame(c, s, s');
  }

  lemma {:induction false} InvCrash(c: Config, s: Sys, a: Action)
    requires Inv(c, s) && a.Crash?
    ensures Inv(c, Do(c, s, a))
  {
  }

  /** A new application, of the change its call had approved. */
  lemma {:induction false} AppliedOk(c: Config, s: Sys, s': Sys, a: Application)
    requires Extends(s, s') && s'.past == s.past && s'.applied == s.applied + [a] && s'.usedCalls == s.usedCalls
    requires ApplicationsOk(c, s) && ApplicationOk(c, s', a) && a.call in s.calls && !s.calls[a.call].op.ToRecord?
    requires s'.calls.Keys == s.calls.Keys
    requires forall call :: call in s.calls && s.calls[call].op.ToRecord? ==> s'.calls[call].op.ToRecord?
    ensures ApplicationsOk(c, s')
  {
  }

  lemma {:induction false} GateCalls(c: Config, s: Sys, a: Action)
    requires Inv(c, s) && Enabled(c, s, a) && a.RunGate?
    ensures CallsOk(c, Do(c, s, a))
  {
    var s' := Do(c, s, a);
    assert CallOk(c, s, a.call, s.calls[a.call]);
    forall call | call in s'.calls ensures CallOk(c, s', call, s'.calls[call]) {
      if call != a.call {
        assert CallOk(c, s, call, s.calls[call]);
        CallFrame(c, s, s', call, s.calls[call]);
      } else {
        var n := |s.applied|;
        assert s'.applied[n].call == a.call && s'.applied[n].id == s.calls[a.call].op.id;
      }
    }
  }

  lemma {:induction false} InvGate(c: Config, s: Sys, a: Action)
    requires Inv(c, s) && Enabled(c, s, a) && a.RunGate?
    ensures Inv(c, Do(c, s, a))
  {
    var s' := Do(c, s, a);
    GateCalls(c, s, a);
    assert CallOk(c, s, a.call, s.calls[a.call]);
    AppliedOk(c, s, s', s'.applied[|s.applied|]);
    forall i | 0 <= i < |s'.responses| ensures ResponseOk(c, s', s'.responses[i]) {
      assert ResponseOk(c, s, s.responses[i]);
    }
  }

  // ---- The step that writes ----

  lemma {:induction false} DrawnOk(c: Config, p: Past, step: Step)
    requires LogOk(c, p)
    ensures LogOk(c, Drawn(p, step))
  {
    var p' := Drawn(p, step);
    forall n | 0 <= n < |p'.log| ensures CommitOk(c, p', n) && FreshAt(p', n) {
      assert CommitOk(c, p, n) && FreshAt(p, n);
    }
  }

  lemma {:induction false} GrownLog(c: Config, p: Past, k: Commit, q: Queue)
    requires |p.history| == |p.log| + 1 && CommitsOk(c, p)
    requires ApplyStored(p.history[|p.log|], c, k.step) == (q, Changed) && Sensible(c, p.history[|p.log|], k.step)
    ensures CommitsOk(c, Grown(p, k, q))
  {
    LinkedPush(Good(c), p.history, p.log, q, k);
  }

  lemma {:induction false} GrownFresh(p: Past, k: Commit, q: Queue)
    requires |p.history| == |p.log| + 1 && IdsFresh(p)
    requires k.step.Propose? ==> forall n :: 0 <= n < |p.history| ==> k.step.id !in p.history[n]
    ensures IdsFresh(Grown(p, k, q))
  {
    forall n | 0 <= n < |p.log| ensures FreshAt(Grown(p, k, q), n) {
      assert FreshAt(p, n);
    }
  }

  lemma {:induction false} NewQueue(c: Config, q: Queue, step: Step, ids: set<string>)
    requires Faithful(c) && ApplyStored(q, c, step).1 == Changed && Sensible(c, q, step) && Tidy(q)
    requires q.Keys <= ids && (step.Propose? ==> step.id in ids)
    ensures ApplyStored(q, c, step).0.Keys <= ids && Tidy(ApplyStored(q, c, step).0)
  {
    StepTidy(q, c, step);
    StoredStep(q, c, step);
  }

  lemma {:induction false} GrownOk(c: Config, p: Past, k: Commit, q: Queue)
    requires Faithful(c) && LogOk(c, p) && AskedFor(k, |p.log|)
    requires ApplyStored(p.history[|p.log|], c, k.step) == (q, Changed) && Sensible(c, p.history[|p.log|], k.step)
    requires k.step.Propose? ==>
               k.step.id in p.usedIds
               && forall n :: 0 <= n < |p.history| ==> k.step.id !in p.history[n]
    ensures LogOk(c, Grown(p, k, q))
  {
    GrownLog(c, p, k, q);
    GrownFresh(p, k, q);
    NewQueue(c, p.history[|p.log|], k.step, p.usedIds);
  }

  /** What went through the gate is still stored as approved, if it is stored. */
  lemma {:induction false} AppliedIsApproved(c: Config, s: Sys, i: nat)
    requires Faithful(c) && Inv(c, s) && i < |s.applied|
    ensures In(s.past, s.applied[i].id, |s.past.log|, Approved)
  {
    var a := s.applied[i];
    assert ApplicationOk(c, s, a);
    ApprovalFacts(c, s.past, a.commit, a.id, a.user);
    Settled(c, s.past, a.id, a.commit + 1, |s.past.log|);
  }

  /** Before a write lands, the step is one the queue can trust. */
  lemma {:induction false} SensibleNow(
      c: Config, s: Sys, call: nat, step: Step, id: string, now: int, dropped: set<string>)
    requires Faithful(c) && Inv(c, s) && call in s.calls && s.calls[call].phase.Holding?
    requires s.calls[call].phase.version == VersionOf(s.store)
    requires step == StepOf(s.calls[call].op, now, id, dropped)
    requires s.calls[call].op.ToPropose? ==>
               id !in s.past.usedIds && PruneChoice(Expire(Memory(s, s.calls[call].ctrl), s.calls[call].op.now),
                 dropped)
    ensures Memory(s, s.calls[call].ctrl) == Loaded(c, s.past.history[|s.past.log|])
    ensures Sensible(c, s.past.history[|s.past.log|], step)
  {
    var k, n := s.calls[call], |s.past.log|;
    assert CallOk(c, s, call, k);
    if k.op.ToRecord? {
      var i :| 0 <= i < |s.applied| && s.applied[i].call == call && s.applied[i].id == k.op.id;
      AppliedIsApproved(c, s, i);
    }
    assert s.past.history[n].Keys <= s.past.usedIds;
  }

  /** Running the step disturbs no other call. */
  lemma {:induction false} RanOk(c: Config, s: Sys, call: nat, step: Step)
    requires Inv(c, s) && call in s.calls && s.calls[call].phase.Holding?
    ensures var s1 := Ran(c, s, call, step);
            StoreOk(s1) && LogOk(c, s1.past) && CallsExcept(c, s1, call) && ApplicationsOk(c, s1) && ResponsesOk(c, s1)
  {
    var s1 := Ran(c, s, call, step);
    DrawnOk(c, s.past, step);
    assert CallOk(c, s, call, s.calls[call]);
    forall other | other in s1.calls && other != call ensures CallOk(c, s1, other, s1.calls[other]) {
      assert CallOk(c, s, other, s.calls[other]);
      CallFrame(c, s, s1, other, s.calls[other]);
    }
    PastFrame(c, s, s1);
  }

  /** Nor does writing its result, when it lands. */
  lemma {:induction false} PutOthers(c: Config, s: Sys, call: nat, step: Step, version: nat)
    requires StoreOk(s) && CallsExcept(c, s, call) && ApplicationsOk(c, s) && ResponsesOk(c, s)
    requires call in s.calls && version !in s.usedVersions
    ensures var s2 := Put(s, call, step, version);
            StoreOk(s2) && CallsExcept(c, s2, call) && ApplicationsOk(c, s2) && ResponsesOk(c, s2)
  {
    var s2 := Put(s, call, step, version);
    forall other | other in s2.calls && other != call ensures CallOk(c, s2, other, s2.calls[other]) {
      assert CallOk(c, s, other, s.calls[other]);
      CallFrame(c, s, s2, other, s.calls[other]);
    }
    PastFrame(c, s, s2);
  }

  lemma {:induction false} PutOk(c: Config, s: Sys, call: nat, step: Step, version: nat)
    requires Faithful(c) && StoreOk(s) && LogOk(c, s.past) && CallsExcept(c, s, call) && ApplicationsOk(c, s)
             && ResponsesOk(c, s)
    requires call in s.calls && version !in s.usedVersions && AskedFor(CommitOf(s, call, step), |s.past.log|)
    requires var last := s.past.history[|s.past.log|];
             ApplyStored(last, c, step) == (Stored(Memory(s, s.calls[call].ctrl)), Changed) && Sensible(c, last, step)
    requires step.Propose? ==>
               step.id in s.past.usedIds && forall n :: 0 <= n < |s.past.history| ==> step.id !in s.past.history[n]
    ensures var s2 := Put(s, call, step, version);
            StoreOk(s2) && LogOk(c, s2.past) && CallsExcept(c, s2, call) && ApplicationsOk(c, s2) && ResponsesOk(c, s2)
  {
    GrownOk(c, s.past, CommitOf(s, call, step), Stored(Memory(s, s.calls[call].ctrl)));
    PutOthers(c, s, call, step, version);
  }

  /** The answer given, recorded. */
  lemma {:induction false} AnswerOk(c: Config, s: Sys, call: nat, at: nat, step: Step, verdict: Verdict)
    requires |s.past.history| == |s.past.log| + 1 && call in s.calls && ResponsesOk(c, s)
    requires s.calls[call].since <= at <= |s.past.log| && StepFor(s.calls[call].op, step)
    requires ApplyStored(s.past.history[at], c, step).1 == verdict
    requires verdict == Changed ==> at < |s.past.log| && s.past.log[at] == CommitOf(s, call, step)
    ensures ResponsesOk(c, Answer(s, call, at, step, verdict))
  {
  }

  /** Recording an answer disturbs nothing else. */
  lemma {:induction false} AnswerFrame(c: Config, s: Sys, call: nat, at: nat, step: Step, verdict: Verdict)
    requires |s.past.history| == |s.past.log| + 1 && call in s.calls && CallsExcept(c, s, call) && ApplicationsOk(c, s)
    ensures var s' := Answer(s, call, at, step, verdict);
            CallsExcept(c, s', call) && ApplicationsOk(c, s')
  {
  }

  /** What a call needs of a state to take its reply. */
  ghost predicate Replying(c: Config, s: Sys, call: nat) {
    && StoreOk(s) && LogOk(c, s.past) && CallsExcept(c, s, call) && ApplicationsOk(c, s) && ResponsesOk(c, s)
    && call in s.calls && s.calls[call].ctrl in s.lock && s.lock[s.calls[call].ctrl] == call
    && call in s.usedCalls && s.calls[call].since <= |s.past.log|
    && (s.calls[call].op.ToPropose? ==> Built(c, s.calls[call].op.m))
    && (s.calls[call].op.ToRecord? ==>
          exists i :: 0 <= i < |s.applied| && s.applied[i].call == call && s.applied[i].id == s.calls[call].op.id)
  }

  lemma {:induction false} EndInv(c: Config, s: Sys, call: nat)
    requires Replying(c, s, call)
    ensures Inv(c, End(s, call))
  {
  }

  lemma {:induction false} ConflictInv(c: Config, s: Sys, call: nat)
    requires Replying(c, s, call)
    ensures Inv(c, s.(calls := s.calls[call := s.calls[call].(phase := Loading)]))
  {
    var s' := s.(calls := s.calls[call := s.calls[call].(phase := Loading)]);
    forall other | other in s'.calls ensures CallOk(c, s', other, s'.calls[other]) {
      if other != call {
        assert CallOk(c, s, other, s.calls[other]);
        CallFrame(c, s, s', other, s.calls[other]);
      }
    }
    PastFrame(c, s, s');
  }

  lemma {:induction false} ApprovedInv(c: Config, s: Sys, call: nat, m: Mutation, commit: nat)
    requires Replying(c, s, call)
    requires var k := s.calls[call];
             k.op.ToApprove? && k.since <= commit && Carries(c, s, commit, k.op.id, k.op.user, m)
               && s.past.log[commit].call == call
    ensures var k := s.calls[call];
            Inv(c, s.(calls := s.calls[call := k.(phase := Applying(m, commit))], lock := s.lock - {k.ctrl}))
  {
    var k := s.calls[call];
    var s' := s.(calls := s.calls[call := k.(phase := Applying(m, commit))], lock := s.lock - {k.ctrl});
    forall other | other in s'.calls ensures CallOk(c, s', other, s'.calls[other]) {
      if other != call {
        assert CallOk(c, s, other, s.calls[other]);
        CallFrame(c, s, s', other, s.calls[other]);
      }
    }
    PastFrame(c, s, s');
  }

  lemma {:induction false} RepliedInv(
      c: Config, s: Sys, call: nat, step: Step, at: nat, m: Option<Mutation>, reply: Reply)
    requires Replying(c, s, call)
    requires reply.Saved? ==>
               && s.calls[call].since <= at < |s.past.log| && StepFor(s.calls[call].op, step)
               && ApplyStored(s.past.history[at], c, step).1 == Changed && s.past.log[at] == CommitOf(s, call, step)
    requires reply.Saved? && m.Some? ==>
               s.calls[call].op.ToApprove? && Carries(c, s, at, s.calls[call].op.id, s.calls[call].op.user, m.value)
    ensures Inv(c, Replied(s, call, step, at, m, reply))
  {
    match reply {
      case Saved =>
        AnswerOk(c, s, call, at, step, Changed);
        var s' := Answer(s, call, at, step, Changed);
        AnswerFrame(c, s, call, at, step, Changed);
        assert Replying(c, s', call);
        if m.Some? { ApprovedInv(c, s', call, m.value, at); } else { EndInv(c, s', call); }
      case Conflict => ConflictInv(c, s, call);
      case Failure => EndInv(c, s, call);
    }
  }

  /** A call that keeps its place keeps what it needs to take its reply. */
  lemma {:induction false} ReplyingOk(c: Config, s: Sys, s': Sys, call: nat)
    requires Inv(c, s) && call in s.calls && s.calls[call].phase.Holding?
    requires s'.calls == s.calls && s'.lock == s.lock && s'.applied == s.applied && s.usedCalls == s'.usedCalls
    requires |s.past.log| <= |s'.past.log|
    requires StoreOk(s') && LogOk(c, s'.past) && CallsExcept(c, s', call) && ApplicationsOk(c, s') && ResponsesOk(c, s')
    ensures Replying(c, s', call)
  {
  }

  /** The step ran and changed nothing: the answer stands as of the load. */
  lemma {:induction false} InvUnchanged(c: Config, s: Sys, call: nat, step: Step)
    requires Inv(c, s) && call in s.calls && s.calls[call].phase.Holding? && StepFor(s.calls[call].op, step)
    requires Apply(Memory(s, s.calls[call].ctrl), c, step).1 != Changed
    ensures Inv(c, Try(c, s, call, step, false, Failure, 0))
  {
    var k, s1 := s.calls[call], Ran(c, s, call, step);
    var verdict := Apply(Memory(s, k.ctrl), c, step).1;
    RanOk(c, s, call, step);
    assert CallOk(c, s, call, k);
    AnswerOk(c, s1, call, k.phase.seen, step, verdict);
    var s2 := Answer(s1, call, k.phase.seen, step, verdict);
    AnswerFrame(c, s1, call, k.phase.seen, step, verdict);
    ReplyingOk(c, s, s2, call);
    EndInv(c, s2, call);
  }

  /** The step changed the copy, but its write did not land. */
  lemma {:induction false} InvNotLanded(c: Config, s: Sys, call: nat, step: Step, reply: Reply, version: nat)
    requires Inv(c, s) && call in s.calls && s.calls[call].phase.Holding? && !reply.Saved?
    requires Apply(Memory(s, s.calls[call].ctrl), c, step).1 == Changed
    ensures Inv(c, Try(c, s, call, step, false, reply, version))
  {
    var k, s1 := s.calls[call], Ran(c, s, call, step);
    RanOk(c, s, call, step);
    ReplyingOk(c, s, s1, call);
    RepliedInv(c, s1, call, step, |s.past.log|, Approves(s, call), reply);
  }

  /** The write landed: the call can take its reply, and its commit is the last. */
  lemma {:induction false} LandedOk(
      c: Config, s: Sys, call: nat, now: int, id: string, dropped: set<string>, reply: Reply, version: nat,
      step: Step)
    requires Faithful(c) && Inv(c, s) && Enabled(c, s, Attempt(call, now, id, dropped, true, reply, version))
    requires step == StepOf(s.calls[call].op, now, id, dropped)
    requires Apply(Memory(s, s.calls[call].ctrl), c, step).1 == Changed
    ensures var n, s2 := |s.past.log|, Put(Ran(c, s, call, step), call, step, version);
            && Replying(c, s2, call) && s2.calls == s.calls && n < |s2.past.log| && |s2.past.history| > n
            && s2.past.history[n] == s.past.history[n] && s2.past.log[n] == CommitOf(s2, call, step)
            && ApplyStored(s.past.history[n], c, step).1 == Changed
            && Memory(s, s.calls[call].ctrl) == Loaded(c, s.past.history[n])
            && s.calls[call].since <= n && StepFor(s.calls[call].op, step)
  {
    var k, s1 := s.calls[call], Ran(c, s, call, step);
    SensibleNow(c, s, call, step, id, now, dropped);
    RanOk(c, s, call, step);
    assert forall h :: 0 <= h < |s.past.history| ==> s.past.history[h].Keys <= s.past.usedIds;
    assert StepFor(k.op, step) && CallOk(c, s, call, k);
    PutOk(c, s1, call, step, version);
    ReplyingOk(c, s, Put(s1, call, step, version), call);
  }

  /** The step changed the copy and its write landed, whatever the reply said. */
  lemma {:induction false} InvLanded(
      c: Config, s: Sys, call: nat, now: int, id: string, dropped: set<string>, reply: Reply, version: nat)
    requires Faithful(c) && Inv(c, s) && Enabled(c, s, Attempt(call, now, id, dropped, true, reply, version))
    requires Apply(Memory(s, s.calls[call].ctrl), c, StepOf(s.calls[call].op, now, id, dropped)).1 == Changed
    ensures Inv(c, Try(c, s, call, StepOf(s.calls[call].op, now, id, dropped), true, reply, version))
  {
    var step := StepOf(s.calls[call].op, now, id, dropped);
    LandedOk(c, s, call, now, id, dropped, reply, version, step);
    RepliedInv(c, Put(Ran(c, s, call, step), call, step, version), call, step, |s.past.log|, Approves(s, call), reply);
  }

  lemma {:induction false} InvAttempt(c: Config, s: Sys, a: Action)
    requires Faithful(c) && Inv(c, s) && Enabled(c, s, a) && a.Attempt?
    ensures Inv(c, Do(c, s, a))
  {
    var step := StepOf(s.calls[a.call].op, a.now, a.id, a.dropped);
    if Apply(Memory(s, s.calls[a.call].ctrl), c, step).1 != Changed {
      InvUnchanged(c, s, a.call, step);
    } else if a.landed {
      InvLanded(c, s, a.call, a.now, a.id, a.dropped, a.reply, a.version);
    } else {
      InvNotLanded(c, s, a.call, step, a.reply, a.version);
    }
  }

  // ---- Every run ----

  lemma {:induction false} InvStep(c: Config, s: Sys, a: Action)
    requires Faithful(c) && Inv(c, s) && Enabled(c, s, a)
    ensures Inv(c, Do(c, s, a))
  {
    match a {
      case Begin(_, _, _) => InvBegin(c, s, a);
      case Acquire(_) => InvAcquire(c, s, a);
      case Load(_) => InvLoad(c, s, a);
      case Abandon(_) => InvAbandon(c, s, a);
      case Attempt(_, _, _, _, _, _, _) => InvAttempt(c, s, a);
      case RunGate(_, _) => InvGate(c, s, a);
      case List(_, _, _) => InvList(c, s, a);
      case Crash(_) => InvCrash(c, s, a);
    }
  }

  lemma {:induction false} InvRun(c: Config, s: Sys, acts: seq<Action>)
    requires Faithful(c) && Start(s) && Runs(c, s, acts)
    ensures Inv(c, Run(c, s, acts))
  {
    if acts != [] {
      InvRun(c, s, acts[..|acts| - 1]);
      InvStep(c, Run(c, s, acts[..|acts| - 1]), acts[|acts| - 1]);
    }
  }

  /** Nothing rewrites the past, and a run starts from the queue it was given. */
  lemma {:induction false} FirstKept(c: Config, s: Sys, acts: seq<Action>)
    requires Faithful(c) && Start(s) && Runs(c, s, acts)
    ensures |Run(c, s, acts).past.history| > 0 && Run(c, s, acts).past.history[0] == QueueOf(s.store)
  {
    if acts != [] {
      FirstKept(c, s, acts[..|acts| - 1]);
      StepKeepsFirst(c, Run(c, s, acts[..|acts| - 1]), acts[|acts| - 1]);
    }
  }

  lemma {:induction false} StepKeepsFirst(c: Config, s: Sys, a: Action)
    requires |s.past.history| > 0
    ensures |Do(c, s, a).past.history| > 0 && Do(c, s, a).past.history[0] == s.past.history[0]
  {
    if a.Attempt? && a.call in s.calls && s.calls[a.call].phase.Holding? {
      TryKeepsFirst(c, s, a.call, StepOf(s.calls[a.call].op, a.now, a.id, a.dropped), a.landed, a.reply, a.version);
    }
  }

  lemma {:induction false} TryKeepsFirst(
      c: Config, s: Sys, call: nat, step: Step, landed: bool, reply: Reply, version: nat)
    requires |s.past.history| > 0 && call in s.calls && s.calls[call].phase.Holding?
    ensures var s' := Try(c, s, call, step, landed, reply, version);
            |s'.past.history| > 0 && s'.past.history[0] == s.past.history[0]
  {
    FinishKeepsFirst(Ran(c, s, call, step), Approves(s, call), Apply(Memory(s, s.calls[call].ctrl), c, step).1, call,
      step, landed, reply, version);
  }

  lemma {:induction false} FinishKeepsFirst(
      s: Sys, m: Option<Mutation>, verdict: Verdict, call: nat, step: Step, landed: bool, reply: Reply, version: nat)
    requires |s.past.history| > 0 && call in s.calls && s.calls[call].phase.Holding?
    ensures var s' := Finish(s, m, verdict, call, step, landed, reply, version);
            |s'.past.history| > 0 && s'.past.history[0] == s.past.history[0]
  {
  }

  lemma {:induction false} HistoryIsReplay(c: Config, p: Past, n: nat)
    requires LogOk(c, p) && n <= |p.log|
    ensures p.history[n] == Replay(c, p.history[0], p.log[..n])
  {
    forall i | 0 <= i < n ensures p.history[i + 1] == Advance(c)(p.history[i], p.log[i]) {
      assert CommitOk(c, p, i);
    }
    FoldIs(Advance(c), p.history, p.log, n);
  }

  // ---- Results ----

  /** An answer is the one its step gives on its own after some number of the
      commits, made while the call was open: just before the call's own commit if
      it changed the queue. */
  ghost predicate Explained(c: Config, q: Queue, log: seq<Commit>, r: Response) {
    && r.since <= r.at <= r.until <= |log| && StepFor(r.op, r.step)
    && ApplyStored(Replay(c, q, log[..r.at]), c, r.step).1 == r.verdict
    && (r.verdict == Changed ==> r.at < r.until && log[r.at] == Commit(r.call, r.op, r.since, r.step))
  }

  ghost predicate Linearized(c: Config, q: Queue, t: Sys) {
    && QueueOf(t.store) == Replay(c, q, t.past.log) && AllAsked(t.past.log)
    && forall r :: r in t.responses ==> Explained(c, q, t.past.log, r)
  }

  /** Linearizability. However calls interleave, fail, are lost or crash, the
      stored queue is the committed steps run one at a time, in commit order, on
      the queue the run began with; each was asked for by its call, before it and
      whether or not the call ever heard; and every answer given is explained so. */
  lemma {:induction false} Linearizable(c: Config, s: Sys, acts: seq<Action>)
    requires Faithful(c) && Start(s) && Runs(c, s, acts)
    ensures Linearized(c, QueueOf(s.store), Run(c, s, acts))
  {
    InvRun(c, s, acts);
    FirstKept(c, s, acts);
    LinearizedNow(c, Run(c, s, acts));
  }

  lemma {:induction false} LinearizedNow(c: Config, t: Sys)
    requires Inv(c, t)
    ensures Linearized(c, t.past.history[0], t)
  {
    HistoryIsReplay(c, t.past, |t.past.log|);
    assert t.past.log[..|t.past.log|] == t.past.log;
    forall r | r in t.responses ensures Explained(c, t.past.history[0], t.past.log, r) {
      assert ResponseOk(c, t, r);
      HistoryIsReplay(c, t.past, r.at);
    }
  }

  /** What a change sent through the gate rests on: a commit of its own call, made
      by a listed approver before the approval expired, after which the stored
      queue says approved by that user; and what is sent is the change rebuilt
      from the stored spec. */
  ghost predicate Warranted(c: Config, q: Queue, log: seq<Commit>, a: Application) {
    && a.commit < |log| && log[a.commit].call == a.call
    && log[a.commit].step.Approve? && log[a.commit].step.id == a.id && log[a.commit].step.user == a.user
    && a.user in c.approvers
    && (var before := Replay(c, q, log[..a.commit]);
        && a.id in before && before[a.id].state == Pending && log[a.commit].step.now < before[a.id].expires
        && c.rebuild(before[a.id].fix).Some?
        && a.m == c.rebuild(before[a.id].fix).value.(approvedBy := a.user))
    && (var after := Replay(c, q, log[..a.commit + 1]);
        a.id in after && after[a.id].state == Approved && after[a.id].decidedBy == a.user)
  }

  /** The approval was still waiting, or not yet there, after every earlier commit:
      no rejection and no expiry of it was ever stored before. */
  ghost predicate NeverDecidedBefore(c: Config, q: Queue, log: seq<Commit>, a: Application)
    requires a.commit < |log|
  {
    forall h: nat :: h <= a.commit ==>
      var earlier := Replay(c, q, log[..h]); a.id in earlier ==> earlier[a.id].state == Pending
  }

  ghost predicate AppliedOnce(c: Config, q: Queue, t: Sys) {
    && (forall i, j :: 0 <= i < j < |t.applied| ==> t.applied[i].id != t.applied[j].id)
    && (forall i :: 0 <= i < |t.applied| ==>
          Warranted(c, q, t.past.log, t.applied[i]) && NeverDecidedBefore(c, q, t.past.log, t.applied[i]))
  }

  /** At most once. Over every run and all controllers an approval goes through
      the gate at most once, and only on a warrant that was stored first. */
  lemma {:induction false} AtMostOnce(c: Config, s: Sys, acts: seq<Action>)
    requires Faithful(c) && Start(s) && Runs(c, s, acts)
    ensures AppliedOnce(c, QueueOf(s.store), Run(c, s, acts))
  {
    InvRun(c, s, acts);
    FirstKept(c, s, acts);
    AppliedOnceNow(c, Run(c, s, acts));
  }

  lemma {:induction false} AppliedOnceNow(c: Config, t: Sys)
    requires Faithful(c) && Inv(c, t)
    ensures AppliedOnce(c, t.past.history[0], t)
  {
    forall i, j | 0 <= i < j < |t.applied| ensures t.applied[i].id != t.applied[j].id {
      DistinctApplications(c, t, i, j);
    }
    forall i | 0 <= i < |t.applied|
      ensures Warranted(c, t.past.history[0], t.past.log, t.applied[i])
      ensures NeverDecidedBefore(c, t.past.history[0], t.past.log, t.applied[i])
    {
      Warrant(c, t, i);
    }
  }

  lemma {:induction false} DistinctApplications(c: Config, t: Sys, i: nat, j: nat)
    requires Faithful(c) && Inv(c, t) && i < j < |t.applied|
    ensures t.applied[i].id != t.applied[j].id
  {
    var a, b := t.applied[i], t.applied[j];
    assert ApplicationOk(c, t, a) && ApplicationOk(c, t, b) && a.call != b.call;
    if a.id == b.id {
      if a.commit <= b.commit {
        OneApproval(c, t.past, a.id, a.commit, a.user, b.commit, b.user);
      } else {
        OneApproval(c, t.past, a.id, b.commit, b.user, a.commit, a.user);
      }
    }
  }

  lemma {:induction false} Warrant(c: Config, t: Sys, i: nat)
    requires Faithful(c) && Inv(c, t) && i < |t.applied|
    ensures Warranted(c, t.past.history[0], t.past.log, t.applied[i])
    ensures NeverDecidedBefore(c, t.past.history[0], t.past.log, t.applied[i])
  {
    var a := t.applied[i];
    assert ApplicationOk(c, t, a);
    ApprovalFacts(c, t.past, a.commit, a.id, a.user);
    HistoryIsReplay(c, t.past, a.commit);
    HistoryIsReplay(c, t.past, a.commit + 1);
    forall h: nat | h <= a.commit
      ensures var earlier := Replay(c, t.past.history[0], t.past.log[..h]); a.id in earlier ==>
              earlier[a.id].state == Pending
    {
      HistoryIsReplay(c, t.past, h);
      PendingUntil(c, t.past, a.id, a.commit, a.user, h);
    }
  }

  ghost predicate ConsistentThroughout(c: Config, q: Queue, log: seq<Commit>) {
    Consistent(c, q) ==> forall n: nat :: n <= |log| ==> Consistent(c, Replay(c, q, log[..n]))
  }

  /** A queue that started well formed is well formed after every commit: at most
      200 items, no two of them the same pending change, results on approved
      ones only. */
  lemma {:induction false} StaysConsistent(c: Config, s: Sys, acts: seq<Action>)
    requires Faithful(c) && Start(s) && Runs(c, s, acts)
    ensures ConsistentThroughout(c, QueueOf(s.store), Run(c, s, acts).past.log)
  {
    InvRun(c, s, acts);
    FirstKept(c, s, acts);
    ConsistentNow(c, Run(c, s, acts).past);
  }

  lemma {:induction false} ConsistentNow(c: Config, p: Past)
    requires Faithful(c) && LogOk(c, p)
    ensures ConsistentThroughout(c, p.history[0], p.log)
  {
    if Consistent(c, p.history[0]) {
      forall n: nat | n <= |p.log| ensures Consistent(c, Replay(c, p.history[0], p.log[..n])) {
        HistoryIsReplay(c, p, n);
        HistoryConsistent(c, p, n);
      }
    }
  }

  lemma {:induction false} HistoryConsistent(c: Config, p: Past, n: nat)
    requires Faithful(c) && |p.history| == |p.log| + 1 && n <= |p.log| && Consistent(c, p.history[0])
    requires forall i :: 0 <= i < n ==> CommitOk(c, p, i)
    ensures Consistent(c, p.history[n])
  {
    if n > 0 {
      HistoryConsistent(c, p, n - 1);
      NextConsistent(c, p, n - 1);
    }
  }

  lemma {:induction false} NextConsistent(c: Config, p: Past, n: nat)
    requires Faithful(c) && |p.history| == |p.log| + 1 && n < |p.log| && CommitOk(c, p, n)
             && Consistent(c, p.history[n])
    ensures Consistent(c, p.history[n + 1])
  {
    StepConsistent(p.history[n], c, p.log[n].step);
  }

  /** What is decided after k commits is, after n, gone or decided the same way by
      the same person. */
  ghost predicate FinalBetween(q: Queue, q': Queue, id: string) {
    id in q && q[id].state != Pending && id in q' ==> q'[id].state == q[id].state && q'[id].decidedBy == q[id].decidedBy
  }

  ghost predicate DecidedForGood(c: Config, q: Queue, log: seq<Commit>, id: string) {
    forall k: nat, n: nat :: k <= n <= |log| ==> FinalBetween(Replay(c, q, log[..k]), Replay(c, q, log[..n]), id)
  }

  /** A stored decision is final. */
  lemma {:induction false} DecisionsAreFinal(c: Config, s: Sys, acts: seq<Action>, id: string)
    requires Faithful(c) && Start(s) && Runs(c, s, acts)
    ensures DecidedForGood(c, QueueOf(s.store), Run(c, s, acts).past.log, id)
  {
    InvRun(c, s, acts);
    FirstKept(c, s, acts);
    DecidedNow(c, Run(c, s, acts).past, id);
  }

  lemma {:induction false} DecidedNow(c: Config, p: Past, id: string)
    requires Faithful(c) && LogOk(c, p)
    ensures DecidedForGood(c, p.history[0], p.log, id)
  {
    forall k: nat, n: nat | k <= n <= |p.log|
      ensures FinalBetween(Replay(c, p.history[0], p.log[..k]), Replay(c, p.history[0], p.log[..n]), id)
    {
      HistoryIsReplay(c, p, k);
      HistoryIsReplay(c, p, n);
      if id in p.history[k] && p.history[k][id].state != Pending {
        Settled(c, p, id, k, n);
      }
    }
  }
}
