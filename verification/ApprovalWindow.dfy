/** internal/kube/approvals.go: what becomes of a proposal. A change that was queued
    waits for exactly its ttl: until someone decides it or a step of the queue sees it
    expired, a listed approver may approve it and anyone may reject it. Once approved
    and let through, it does to the cluster what was proposed. */
module ApprovalWindow {
  import opened Prelude
  import opened ApprovalFixes
  import opened ApprovalEffects
  import opened ApprovalQueue
  import opened ApprovalProtocol

  // ---- When a step is accepted ----

  /** A decision or a result is written back exactly when the stored queue lets it. */
  lemma {:induction false} AcceptedIff(q: Queue, c: Config, s: Step)
    requires Faithful(c) && !s.Propose?
    ensures ApplyStored(q, c, s).1 == Changed <==> Accepts(q, c, s)
  {
  }

  /** The approval is decided so by then: as it is stored, or by lapsing. */
  predicate DecidedBy(q: Queue, id: string, now: int, state: State) {
    && id in q && state != State.Pending
    && (q[id].state == state || (q[id].state == State.Pending && now >= q[id].expires && state == State.Expired))
  }

  /** What asking for an approval is answered, in the order in which reasons count: no
      such item, not an approver, decided already and how, no change to be built. */
  lemma {:induction false} ApprovalAnswer(q: Queue, c: Config, id: string, user: string, now: int, state: State)
    requires Faithful(c)
    ensures var v := ApplyStored(q, c, Approve(id, user, now)).1;
            && (v == Unknown <==> id !in q)
            && (v == NotApprover <==> id in q && user !in c.approvers)
            && (v == AlreadyDecided(state) <==> user in c.approvers && DecidedBy(q, id, now, state))
            && (v == Unreadable <==>
                  && id in q && user in c.approvers && q[id].state == State.Pending && now < q[id].expires
                  && c.rebuild(q[id].fix).None?)
  {
  }

  /** Anyone may reject, and also what cannot be built. */
  lemma {:induction false} RejectionAnswer(q: Queue, c: Config, id: string, user: string, now: int, state: State)
    requires Faithful(c)
    ensures var v := ApplyStored(q, c, Reject(id, user, now)).1;
            && (v == Unknown <==> id !in q)
            && (v == AlreadyDecided(state) <==> DecidedBy(q, id, now, state))
            && (v == Changed <==> id in q && q[id].state == State.Pending && now < q[id].expires)
  {
  }

  /** What still waits for an answer at that time. */
  function Waits(q: Queue, now: int): set<string> {
    set id | id in q && q[id].state == State.Pending && now < q[id].expires
  }

  lemma {:induction false} WaitsAreThePending(c: Config, q: Queue, now: int)
    ensures var e := Expire(Loaded(c, q), now);
            e.Keys == Waits(q, now) + DecidedIds(e) && Waits(q, now) !! DecidedIds(e)
  {
  }

  /** Pruning leaves all that waits, and too much exactly when that alone fills the
      queue. */
  lemma {:induction false} PruningKeeps(e: Items, pending: set<string>, dropped: set<string>)
    requires e.Keys == pending + DecidedIds(e) && pending !! DecidedIds(e) && PruneChoice(e, dropped)
    ensures |e - dropped| >= 200 <==> |pending| >= 200
  {
    PrunedSizes(e, e.Keys, pending, DecidedIds(e), dropped);
  }

  lemma {:induction false} PrunedSizes(
      e: Items, all: set<string>, pending: set<string>, decided: set<string>, dropped: set<string>)
    requires e.Keys == all == pending + decided && pending !! decided && dropped <= decided
    ensures |e| == |all| && |e - dropped| == |e| - |dropped|
    ensures |pending| <= |e - dropped| && (dropped == decided ==> |e - dropped| == |pending|)
  {
    var kept := all - dropped;
    assert (e - dropped).Keys == kept && all == kept + dropped;
    assert kept == pending + (decided - dropped);
  }

  /** The same change waits already. */
  predicate WaitsAlready(c: Config, q: Queue, now: int, m: Mutation) {
    exists id :: id in Waits(q, now) && SameChange(FromRecord(c, q[id]).m, m)
  }

  lemma {:induction false} HasSameIff(c: Config, q: Queue, now: int, m: Mutation)
    ensures HasSame(Expire(Loaded(c, q), now), m) <==> WaitsAlready(c, q, now, m)
  {
    var e := Expire(Loaded(c, q), now);
    if HasSame(e, m) {
      var id :| id in e && e[id].state == State.Pending && SameChange(e[id].m, m);
      assert id in Waits(q, now);
    }
    if WaitsAlready(c, q, now, m) {
      var id :| id in Waits(q, now) && SameChange(FromRecord(c, q[id]).m, m);
      assert id in e && e[id].state == State.Pending && e[id].m == FromRecord(c, q[id]).m;
    }
  }

  /** A proposal is taken in exactly when the same change does not wait already and fewer
      than 200 do: decided and lapsed approvals never keep one out. */
  lemma {:induction false} ProposalAnswer(q: Queue, c: Config, s: Step)
    requires s.Propose? && PruneChoice(Expire(Loaded(c, q), s.now), s.dropped)
    ensures var v := ApplyStored(q, c, s).1;
            && (v == AlreadyQueued <==> WaitsAlready(c, q, s.now, s.m))
            && (v == QueueFull <==> !WaitsAlready(c, q, s.now, s.m) && |Waits(q, s.now)| >= 200)
            && (v == Changed <==> !WaitsAlready(c, q, s.now, s.m) && |Waits(q, s.now)| < 200)
  {
    WaitsAreThePending(c, q, s.now);
    PruningKeeps(Expire(Loaded(c, q), s.now), Waits(q, s.now), s.dropped);
    HasSameIff(c, q, s.now, s.m);
  }

  // ---- What a proposal leaves behind ----

  /** The proposal as it is stored, still to be decided. */
  function Waiting(s: Step): Record
    requires s.Propose? && s.m.fix.Some?
  {
    Record(s.id, s.m.fix.value, s.summary, s.now, s.now + s.ttl, State.Pending, "", "")
  }

  /** Who may answer it, and until when. */
  ghost predicate Answerable(c: Config, q: Queue, s: Step, open: bool)
    requires s.Propose?
  {
    forall user, now ::
      && (ApplyStored(q, c, Approve(s.id, user, now)).1 == Changed
          <==> open && user in c.approvers && now < s.now + s.ttl)
      && (ApplyStored(q, c, Reject(s.id, user, now)).1 == Changed <==> open && now < s.now + s.ttl)
  }

  /** An item stored as it was proposed can be approved by the listed approvers, and
      rejected, for exactly its ttl; one that is gone or decided, by nobody. */
  lemma {:induction false} AnswerableIff(c: Config, q: Queue, s: Step)
    requires Faithful(c) && s.Propose? && Built(c, s.m)
    ensures s.id in q && q[s.id] == Waiting(s) ==> Answerable(c, q, s, true)
    ensures (s.id in q ==> q[s.id].state != Pending) ==> Answerable(c, q, s, false)
  {
    forall user, now
      ensures ApplyStored(q, c, Approve(s.id, user, now)).1 == Changed <==> Accepts(q, c, Approve(s.id, user, now))
      ensures ApplyStored(q, c, Reject(s.id, user, now)).1 == Changed <==> Accepts(q, c, Reject(s.id, user, now))
    {
      AcceptedIff(q, c, Approve(s.id, user, now));
      AcceptedIff(q, c, Reject(s.id, user, now));
    }
  }

  /** A change just queued is stored as it was proposed, to be answered for its ttl. */
  lemma {:induction false} QueuedCanBeApproved(q: Queue, c: Config, s: Step)
    requires Faithful(c) && s.Propose? && Built(c, s.m) && ApplyStored(q, c, s).1 == Changed
    ensures var q' := ApplyStored(q, c, s).0;
            s.id in q' && q'[s.id] == Waiting(s) && Answerable(c, q', s, true)
  {
    StoredStep(q, c, s);
    AnswerableIff(c, ApplyStored(q, c, s).0, s);
  }

  // ---- For as long as nothing closes it ----

  /** The step decides that approval, or is run once it has expired. */
  predicate Closes(s: Step, id: string, expires: int) {
    match s
    case Propose(_, _, now, _, _, _) => now >= expires
    case Approve(i, _, now) => i == id || now >= expires
    case Reject(i, _, now) => i == id || now >= expires
    case SetResult(_, _) => false
  }

  lemma {:induction false} OpenStep(q: Queue, c: Config, s: Step, r: Record)
    requires Faithful(c) && ApplyStored(q, c, s).1 == Changed && Sensible(c, q, s)
    requires r.id in q && q[r.id] == r && r.state == Pending
    ensures OpenAfter(ApplyStored(q, c, s).0, s, r)
  {
    StoredStep(q, c, s);
    if s.Propose? && r.id in s.dropped {
      assert r.id in DecidedIds(Expire(Loaded(c, q), s.now));
    }
    WrittenOpen(q, c, s, r);
  }

  ghost predicate OpenAfter(q: Queue, s: Step, r: Record) {
    if Closes(s, r.id, r.expires) then r.id in q ==> q[r.id].state != Pending else r.id in q && q[r.id] == r
  }

  lemma {:induction false} WrittenOpen(q: Queue, c: Config, s: Step, r: Record)
    requires Accepts(q, c, s) && r.id in q && q[r.id] == r && r.state == Pending
    requires s.Propose? ==> s.id !in q && (r.id in s.dropped ==> s.now >= r.expires)
    requires s.SetResult? ==> q[s.id].state != Pending
    ensures OpenAfter(Written(q, s), s, r)
  {
  }

  /** Nothing reopens an approval that has been decided or dropped. */
  lemma {:induction false} ClosedStep(q: Queue, c: Config, s: Step, id: string)
    requires Faithful(c) && ApplyStored(q, c, s).1 == Changed && Sensible(c, q, s)
    requires (id in q ==> q[id].state != Pending) && !(s.Propose? && s.id == id)
    ensures id in ApplyStored(q, c, s).0 ==> ApplyStored(q, c, s).0[id].state != Pending
  {
    StoredStep(q, c, s);
  }

  /** No commit after k and before n closed what commit k proposed. */
  ghost predicate LeftOpen(log: seq<Commit>, k: nat, n: nat)
    requires k < n <= |log| && log[k].step.Propose?
  {
    forall j :: k < j < n ==> !Closes(log[j].step, log[k].step.id, log[k].step.now + log[k].step.ttl)
  }

  lemma {:induction false} LeftOpenNext(log: seq<Commit>, k: nat, n: nat)
    requires k < n < |log| && log[k].step.Propose?
    ensures LeftOpen(log, k, n + 1)
            <==> LeftOpen(log, k, n) && !Closes(log[n].step, log[k].step.id, log[k].step.now + log[k].step.ttl)
  {
  }

  /** An open proposal is stored as it was made; one closed is gone or decided. */
  ghost predicate Stands(q: Queue, s: Step, open: bool)
    requires s.Propose? && s.m.fix.Some?
  {
    if open then s.id in q && q[s.id] == Waiting(s) else s.id in q ==> q[s.id].state != State.Pending
  }

  lemma {:induction false} StandsNext(q: Queue, q': Queue, c: Config, s: Step, next: Step, open: bool)
    requires Faithful(c) && ApplyStored(q, c, next) == (q', Changed) && Sensible(c, q, next)
    requires s.Propose? && s.m.fix.Some? && Stands(q, s, open) && !(next.Propose? && next.id == s.id)
    ensures Stands(q', s, open && !Closes(next, s.id, s.now + s.ttl))
  {
    if open {
      OpenStep(q, c, next, Waiting(s));
    } else {
      ClosedStep(q, c, next, s.id);
    }
  }

  /** The same of what commit k proposed, after n commits. */
  ghost function StandsAfter(c: Config, p: Past, k: nat): nat -> bool {
    (n: nat) =>
      && |p.history| == |p.log| + 1 && k < n <= |p.log| && p.log[k].step.Propose? && Built(c, p.log[k].step.m)
      && Stands(p.history[n], p.log[k].step, LeftOpen(p.log, k, n))
  }

  lemma {:induction false} OpenOrClosed(c: Config, p: Past, k: nat, n: nat)
    requires Faithful(c) && LogOk(c, p) && k < n <= |p.log| && p.log[k].step.Propose?
    ensures StandsAfter(c, p, k)(n)
    decreases n
  {
    if n == k + 1 {
      FirstStands(c, p, k);
    } else {
      OpenOrClosed(c, p, k, n - 1);
      NextStands(c, p, k, n - 1);
    }
  }

  lemma {:induction false} FirstStands(c: Config, p: Past, k: nat)
    requires Faithful(c) && LogOk(c, p) && k < |p.log| && p.log[k].step.Propose?
    ensures StandsAfter(c, p, k)(k + 1)
  {
    assert CommitOk(c, p, k);
    QueuedCanBeApproved(p.history[k], c, p.log[k].step);
  }

  lemma {:induction false} NextStands(c: Config, p: Past, k: nat, n: nat)
    requires Faithful(c) && LogOk(c, p) && n < |p.log| && StandsAfter(c, p, k)(n)
    ensures StandsAfter(c, p, k)(n + 1)
  {
    LeftOpenNext(p.log, k, n);
    NotProposedAgain(c, p, k, n);
    assert CommitOk(c, p, n);
    StandsNext(p.history[n], p.history[n + 1], c, p.log[k].step, p.log[n].step, LeftOpen(p.log, k, n));
  }

  lemma {:induction false} NotProposedAgain(c: Config, p: Past, k: nat, n: nat)
    requires Faithful(c) && LogOk(c, p) && k < n < |p.log| && p.log[k].step.Propose?
    ensures !(p.log[n].step.Propose? && p.log[n].step.id == p.log[k].step.id)
  {
    assert CommitOk(c, p, k) && FreshAt(p, n);
    StoredStep(p.history[k], c, p.log[k].step);
    assert p.log[k].step.id in p.history[k + 1];
  }

  // ---- Over every run ----

  ghost predicate AnsweredInTime(c: Config, q: Queue, log: seq<Commit>) {
    forall k: nat, n: nat :: k < n <= |log| && log[k].step.Propose? ==> AnsweredAt(c, q, log, k, n)
  }

  /** After n commits what commit k proposed is stored as it was proposed if nothing
      has closed it, and only then can it be answered, for exactly its ttl. */
  ghost predicate AnsweredAt(c: Config, q: Queue, log: seq<Commit>, k: nat, n: nat)
    requires k < n <= |log| && log[k].step.Propose?
  {
    var s, later, open := log[k].step, Replay(c, q, log[..n]), LeftOpen(log, k, n);
    && Built(c, s.m) && (open ==> s.id in later && later[s.id] == Waiting(s))
    && (!open && s.id in later ==> later[s.id].state != Pending)
    && Answerable(c, later, s, open)
  }

  /** An approval can be answered for its ttl and no longer. In every run, after every
      commit: a queued change can be approved, by the listed approvers alone, exactly
      while no commit has decided or outlived it and its ttl has not passed. */
  lemma {:induction false} OpenForItsTtl(c: Config, s: Sys, acts: seq<Action>)
    requires Faithful(c) && Start(s) && Runs(c, s, acts)
    ensures AnsweredInTime(c, QueueOf(s.store), Run(c, s, acts).past.log)
  {
    InvRun(c, s, acts);
    FirstKept(c, s, acts);
    AnsweredNow(c, Run(c, s, acts).past);
  }

  lemma {:induction false} AnsweredNow(c: Config, p: Past)
    requires Faithful(c) && LogOk(c, p)
    ensures AnsweredInTime(c, p.history[0], p.log)
  {
    forall k: nat, n: nat | k < n <= |p.log| && p.log[k].step.Propose?
      ensures AnsweredAt(c, p.history[0], p.log, k, n)
    {
      HistoryIsReplay(c, p, n);
      OpenOrClosed(c, p, k, n);
      AnswerableIff(c, p.history[n], p.log[k].step);
    }
  }

  // ---- What is applied is what was proposed ----

  /** What was sent is what the stored spec asks for, and if it was proposed in this
      run it is that very change, approved in time and with nothing in between. */
  ghost predicate SentAsProposed(c: Config, q: Queue, log: seq<Commit>, a: Application) {
    && a.commit < |log|
    && (var before := Replay(c, q, log[..a.commit]);
        a.id in before && Known(before[a.id].fix) && DoesAsAsked(a.m, before[a.id].fix))
    && forall k: nat :: k < |log| && log[k].step.Propose? && log[k].step.id == a.id ==> FromProposal(log, k, a)
  }

  ghost predicate FromProposal(log: seq<Commit>, k: nat, a: Application)
    requires k < |log| && log[k].step.Propose? && a.commit < |log|
  {
    var s, approval := log[k].step, log[a.commit].step;
    && k < a.commit && LeftOpen(log, k, a.commit) && approval.Approve? && approval.now < s.now + s.ttl
    && a.m == s.m.(approvedBy := a.user)
    && s.m.fix.Some? && Known(s.m.fix.value) && DoesAsAsked(a.m, s.m.fix.value)
  }

  /** In every run, whatever goes through the gate does to the cluster exactly what
      its proposal asked for. */
  lemma {:induction false} AppliedAsProposed(approvers: set<string>, s: Sys, acts: seq<Action>)
    requires var c := Config(approvers, BuildFix); Start(s) && Runs(c, s, acts)
    ensures var c := Config(approvers, BuildFix);
            var t := Run(c, s, acts);
            forall a :: a in t.applied ==> SentAsProposed(c, QueueOf(s.store), t.past.log, a)
  {
    var c := Config(approvers, BuildFix);
    BuildFixIsFaithful(approvers);
    InvRun(c, s, acts);
    FirstKept(c, s, acts);
    AppliedNow(c, Run(c, s, acts));
  }

  lemma {:induction false} AppliedNow(c: Config, t: Sys)
    requires Faithful(c) && (forall s :: c.rebuild(s) == BuildFix(s)) && Inv(c, t)
    ensures forall a :: a in t.applied ==> SentAsProposed(c, t.past.history[0], t.past.log, a)
  {
    AppliedOnceNow(c, t);
    forall i | 0 <= i < |t.applied| ensures SentAsProposed(c, t.past.history[0], t.past.log, t.applied[i]) {
      SentNow(c, t, t.applied[i]);
    }
  }

  lemma {:induction false} SentNow(c: Config, t: Sys, a: Application)
    requires Faithful(c) && (forall s :: c.rebuild(s) == BuildFix(s)) && Inv(c, t)
    requires Warranted(c, t.past.history[0], t.past.log, a)
    ensures SentAsProposed(c, t.past.history[0], t.past.log, a)
  {
    HistoryIsReplay(c, t.past, a.commit);
    BuiltDoesAsAsked(t.past.history[a.commit][a.id].fix);
    forall k: nat | k < |t.past.log| && t.past.log[k].step.Propose? && t.past.log[k].step.id == a.id
      ensures FromProposal(t.past.log, k, a)
    {
      ProposedBefore(c, t.past, k, a);
    }
  }

  lemma {:induction false} ProposedBefore(c: Config, p: Past, k: nat, a: Application)
    requires Faithful(c) && (forall s :: c.rebuild(s) == BuildFix(s)) && LogOk(c, p)
    requires k < |p.log| && p.log[k].step.Propose? && p.log[k].step.id == a.id
    requires Warranted(c, p.history[0], p.log, a)
    ensures FromProposal(p.log, k, a)
  {
    HistoryIsReplay(c, p, a.commit);
    assert FreshAt(p, k);
    OpenOrClosed(c, p, k, a.commit);
    BuiltDoesAsAsked(p.log[k].step.m.fix.value);
  }
}
