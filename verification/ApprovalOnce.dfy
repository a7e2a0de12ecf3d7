/** internal/kube/approval_store.go:164-186: one call's operation is committed at most
    once, where a conflict means what the API server says it means; and no call leaves
    its controller locked. */
module ApprovalOnce {
  import opened Prelude
  import opened ApprovalFixes
  import opened ApprovalQueue
  import opened ApprovalProtocol

  /** A write answered with a conflict did not land. */
  ghost predicate TrueConflict(a: Action) {
    a.Attempt? && a.reply.Conflict? ==> !a.landed
  }

  ghost predicate TrueConflicts(acts: seq<Action>) {
    forall i :: 0 <= i < |acts| ==> TrueConflict(acts[i])
  }

  predicate NoneTwice(log: seq<Commit>) {
    forall m, n :: 0 <= m < n < |log| ==> !(log[m].call == log[n].call && log[m].op == log[n].op)
  }

  /** A call still open has committed nothing but the approval it has since sent on or
      is about to. */
  ghost predicate StillToCommit(log: seq<Commit>, call: nat, k: Call) {
    forall n :: 0 <= n < |log| && log[n].call == call ==> log[n].op.ToApprove? && (k.op.ToRecord? || k.phase.Applying?)
  }

  ghost predicate Once(s: Sys) {
    && NoneTwice(s.past.log) && s.calls.Keys <= s.usedCalls
    && (forall n :: 0 <= n < |s.past.log| ==> s.past.log[n].call in s.usedCalls)
    && (forall call :: call in s.calls ==> StillToCommit(s.past.log, call, s.calls[call]))
  }

  /** A commit of a call that had not committed this operation. */
  lemma {:induction false} OneMoreCommit(log: seq<Commit>, k: Commit, calls: map<nat, Call>)
    requires NoneTwice(log) && k.call in calls && calls[k.call].op == k.op && !calls[k.call].phase.Applying?
    requires forall call :: call in calls ==> StillToCommit(log, call, calls[call])
    ensures NoneTwice(log + [k])
    ensures forall call :: call in calls && call != k.call ==> StillToCommit(log + [k], call, calls[call])
    ensures forall n :: 0 <= n < |log| && log[n].call == k.call ==> log[n].op.ToApprove?
  {
    assert StillToCommit(log, k.call, calls[k.call]);
    forall call | call in calls && call != k.call ensures StillToCommit(log + [k], call, calls[call]) {
      assert StillToCommit(log, call, calls[call]);
    }
  }

  /** What holds once the call's own commit is in the log. */
  ghost predicate JustCommitted(s: Sys, call: nat) {
    && NoneTwice(s.past.log) && s.calls.Keys <= s.usedCalls && call in s.calls
    && (forall n :: 0 <= n < |s.past.log| ==> s.past.log[n].call in s.usedCalls)
    && (forall other :: other in s.calls && other != call ==> StillToCommit(s.past.log, other, s.calls[other]))
    && (forall n :: 0 <= n < |s.past.log| && s.past.log[n].call == call ==>
          s.past.log[n].op.ToApprove? || s.past.log[n].op == s.calls[call].op)
  }

  lemma {:induction false} OncePut(s: Sys, call: nat, step: Step, version: nat)
    requires Once(s) && call in s.calls && s.calls[call].phase.Holding?
    ensures JustCommitted(Put(s, call, step, version), call)
  {
    OneMoreCommit(s.past.log, CommitOf(s, call, step), s.calls);
  }

  lemma {:induction false} OnceReplied(s: Sys, call: nat, step: Step, at: nat, m: Option<Mutation>, reply: Reply)
    requires JustCommitted(s, call) && !reply.Conflict? && (m.Some? ==> s.calls[call].op.ToApprove?)
    ensures Once(Replied(s, call, step, at, m, reply))
  {
    var s' := Replied(s, call, step, at, m, reply);
    forall other | other in s'.calls ensures StillToCommit(s'.past.log, other, s'.calls[other]) {
      if other != call { assert StillToCommit(s.past.log, other, s.calls[other]); }
    }
  }

  lemma {:induction false} OnceRan(c: Config, s: Sys, call: nat, step: Step)
    requires Once(s) && call in s.calls
    ensures Once(Ran(c, s, call, step))
  {
  }

  lemma {:induction false} OnceLanded(c: Config, s: Sys, call: nat, step: Step, reply: Reply, version: nat)
    requires Once(s) && call in s.calls && s.calls[call].phase.Holding? && !reply.Conflict?
    requires Apply(Memory(s, s.calls[call].ctrl), c, step).1 == Changed
    ensures Once(Try(c, s, call, step, true, reply, version))
  {
    var s1 := Ran(c, s, call, step);
    OnceRan(c, s, call, step);
    OncePut(s1, call, step, version);
    OnceReplied(Put(s1, call, step, version), call, step, |s1.past.log|, Approves(s, call), reply);
  }

  lemma {:induction false} OnceUnsent(s: Sys, call: nat, step: Step, at: nat, m: Option<Mutation>, reply: Reply)
    requires Once(s) && call in s.calls && !s.calls[call].phase.Applying? && !reply.Saved?
    ensures Once(Replied(s, call, step, at, m, reply))
  {
  }

  lemma {:induction false} OnceNotLanded(c: Config, s: Sys, call: nat, step: Step, reply: Reply, version: nat)
    requires Once(s) && call in s.calls && s.calls[call].phase.Holding? && !reply.Saved?
    requires Apply(Memory(s, s.calls[call].ctrl), c, step).1 == Changed
    ensures Once(Try(c, s, call, step, false, reply, version))
  {
    OnceRan(c, s, call, step);
    OnceUnsent(Ran(c, s, call, step), call, step, |s.past.log|, Approves(s, call), reply);
  }

  lemma {:induction false} OnceRefused(
      c: Config, s: Sys, call: nat, step: Step, landed: bool, reply: Reply, version: nat)
    requires Once(s) && call in s.calls && s.calls[call].phase.Holding?
    requires Apply(Memory(s, s.calls[call].ctrl), c, step).1 != Changed
    ensures Once(Try(c, s, call, step, landed, reply, version))
  {
  }

  lemma {:induction false} OnceAttempt(c: Config, s: Sys, a: Action)
    requires Once(s) && Enabled(c, s, a) && TrueConflict(a) && a.Attempt?
    ensures Once(Do(c, s, a))
  {
    var step := StepOf(s.calls[a.call].op, a.now, a.id, a.dropped);
    if Apply(Memory(s, s.calls[a.call].ctrl), c, step).1 != Changed {
      OnceRefused(c, s, a.call, step, a.landed, a.reply, a.version);
    } else if a.landed {
      OnceLanded(c, s, a.call, step, a.reply, a.version);
    } else {
      OnceNotLanded(c, s, a.call, step, a.reply, a.version);
    }
  }

  lemma {:induction false} OnceStep(c: Config, s: Sys, a: Action)
    requires Once(s) && Enabled(c, s, a) && TrueConflict(a)
    ensures Once(Do(c, s, a))
  {
    match a {
      case Attempt(_, _, _, _, _, _, _) => OnceAttempt(c, s, a);
      case Begin(_, _, _) =>
      case Acquire(_) =>
      case Load(_) =>
      case Abandon(_) =>
      case RunGate(_, _) =>
      case List(_, _, _) =>
      case Crash(_) =>
    }
  }

  lemma {:induction false} OnceRun(c: Config, s: Sys, acts: seq<Action>)
    requires Start(s) && Runs(c, s, acts) && TrueConflicts(acts)
    ensures Once(Run(c, s, acts))
  {
    if acts != [] {
      OnceRun(c, s, acts[..|acts| - 1]);
      OnceStep(c, Run(c, s, acts[..|acts| - 1]), acts[|acts| - 1]);
    }
  }

  /** Over every run, with any failed, lost and unanswered writes: where no write that
      landed is answered with a conflict, no call commits one operation twice. */
  lemma {:induction false} CommittedOnce(c: Config, s: Sys, acts: seq<Action>)
    requires Start(s) && Runs(c, s, acts) && TrueConflicts(acts)
    ensures NoneTwice(Run(c, s, acts).past.log)
  {
    OnceRun(c, s, acts);
  }

  // ---- Locks ----

  predicate Inside(k: Call) {
    k.phase.Loading? || k.phase.Holding?
  }

  /** The calls that are inside their controller's lock are those that hold it. */
  ghost predicate LocksMatch(s: Sys) {
    && (forall ctrl :: ctrl in s.lock ==>
          s.lock[ctrl] in s.calls && s.calls[s.lock[ctrl]].ctrl == ctrl && Inside(s.calls[s.lock[ctrl]]))
    && (forall call :: call in s.calls && Inside(s.calls[call]) ==>
          s.calls[call].ctrl in s.lock && s.lock[s.calls[call].ctrl] == call)
  }

  lemma {:induction false} RepliedLocks(s: Sys, call: nat, step: Step, at: nat, m: Option<Mutation>, reply: Reply)
    requires LocksMatch(s) && call in s.calls && s.calls[call].phase.Holding?
    ensures LocksMatch(Replied(s, call, step, at, m, reply))
  {
  }

  lemma {:induction false} FinishLocks(
      s: Sys, m: Option<Mutation>, verdict: Verdict, call: nat, step: Step, landed: bool, reply: Reply, version: nat)
    requires LocksMatch(s) && call in s.calls && s.calls[call].phase.Holding?
    ensures LocksMatch(Finish(s, m, verdict, call, step, landed, reply, version))
  {
    if verdict == Changed {
      RepliedLocks(if landed then Put(s, call, step, version) else s, call, step, |s.past.log|, m, reply);
    }
  }

  lemma {:induction false} StepLocks(c: Config, s: Sys, a: Action)
    requires LocksMatch(s) && Enabled(c, s, a) && s.calls.Keys <= s.usedCalls
    ensures LocksMatch(Do(c, s, a))
  {
    if a.Attempt? {
      var step := StepOf(s.calls[a.call].op, a.now, a.id, a.dropped);
      FinishLocks(Ran(c, s, a.call, step), Approves(s, a.call),
        Apply(Memory(s, s.calls[a.call].ctrl), c, step).1, a.call, step, a.landed, a.reply, a.version);
    }
  }

  lemma {:induction false} StepCalls(c: Config, s: Sys, a: Action)
    requires Enabled(c, s, a) && s.calls.Keys <= s.usedCalls
    ensures Do(c, s, a).calls.Keys <= Do(c, s, a).usedCalls
  {
  }

  lemma {:induction false} RunLocks(c: Config, s: Sys, acts: seq<Action>)
    requires Start(s) && Runs(c, s, acts)
    ensures LocksMatch(Run(c, s, acts)) && Run(c, s, acts).calls.Keys <= Run(c, s, acts).usedCalls
  {
    if acts != [] {
      RunLocks(c, s, acts[..|acts| - 1]);
      StepLocks(c, Run(c, s, acts[..|acts| - 1]), acts[|acts| - 1]);
      StepCalls(c, Run(c, s, acts[..|acts| - 1]), acts[|acts| - 1]);
    }
  }

  /** No controller is left locked. In every state of every run, whatever has failed or
      crashed, a lock that is taken is held by a call of that very controller, which is
      about to load or to write; and no two calls of a controller are so at once. */
  lemma {:induction false} LocksAreHeld(c: Config, s: Sys, acts: seq<Action>)
    requires Start(s) && Runs(c, s, acts)
    ensures var t := Run(c, s, acts);
            && (forall ctrl :: ctrl in t.lock ==>
                  t.lock[ctrl] in t.calls && t.calls[t.lock[ctrl]].ctrl == ctrl && Inside(t.calls[t.lock[ctrl]]))
            && forall a, b ::
                 && a in t.calls && b in t.calls && Inside(t.calls[a]) && Inside(t.calls[b])
                 && t.calls[a].ctrl == t.calls[b].ctrl
                 ==> a == b
  {
    RunLocks(c, s, acts);
  }
}
