/** internal/kube/approvals.go and approval_store.go as they run: the queue in one
    controller's memory, changed in place under its lock, and the ConfigMap it is
    loaded from and written back to. Each method performs one step of
    ApprovalQueue; ApprovalProtocol is about how those steps interleave. */
module ApprovalStore {
  import opened Prelude
  import opened ApprovalFixes
  import opened ApprovalEffects
  import opened ApprovalQueue
  import opened Sorting
  import opened Text

  /** A stored list as a queue: a later record of the same id replaces an earlier one. */
  function FromList(recs: seq<Record>): Queue {
    if recs == [] then map[] else FromList(recs[..|recs| - 1])[recs[|recs| - 1].id := recs[|recs| - 1]]
  }

  /** Items are kept under their own ids. */
  predicate Keyed(items: Items) {
    forall id :: id in items ==> items[id].id == id
  }

  lemma {:induction false} FromListPush(recs: seq<Record>, r: Record)
    ensures FromList(recs + [r]) == FromList(recs)[r.id := r]
  {
  }

  lemma {:induction false} LoadedPush(c: Config, recs: seq<Record>, r: Record)
    ensures Loaded(c, FromList(recs + [r])) == Loaded(c, FromList(recs))[r.id := FromRecord(c, r)]
  {
    FromListPush(recs, r);
  }

  lemma {:induction false} LoadedKeyed(c: Config, recs: seq<Record>)
    ensures Keyed(Loaded(c, FromList(recs)))
  {
    if recs != [] {
      LoadedKeyed(c, recs[..|recs| - 1]);
      var q, last := FromList(recs[..|recs| - 1]), recs[|recs| - 1];
      forall id | id in FromList(recs) ensures Loaded(c, FromList(recs))[id].id == id {
        if id != last.id {
          assert Loaded(c, q)[id].id == id;
        }
      }
    }
  }

  lemma {:induction false} ExpireKeyed(items: Items, now: int)
    requires Keyed(items)
    ensures Keyed(Expire(items, now))
  {
  }

  /** A step keeps items under their own ids. */
  lemma {:induction false} ApplyKeyed(c: Config, items: Items, s: Step)
    requires Keyed(items)
    ensures Keyed(Apply(items, c, s).0)
  {
    match s {
      case Propose(_, _, now, _, _, _) => ExpireKeyed(items, now);
      case Approve(_, _, now) => ExpireKeyed(items, now);
      case Reject(_, _, now) => ExpireKeyed(items, now);
      case SetResult(_, _) =>
    }
  }

  // ---- The decided items, oldest first ----

  function OlderFirst(): (Item, Item) -> bool {
    (p: Item, q: Item) => p.created <= q.created
  }

  function IdsOf(ps: seq<Item>): set<string> {
    set p | p in ps :: p.id
  }

  // ---- The store ----

  datatype Reply = Saved | Conflict | Failure

  /** The ConfigMap. Its resourceVersion is modelled as the number of writes so
      far, 0 while it is not stored, so an equal version means equal contents. */
  class ConfigMapStore {
    var version: nat
    var recs: seq<Record>
    ghost var history: seq<seq<Record>>
    /** How many calls were answered with a failure, and how many with a conflict. */
    ghost var failures: nat
    ghost var conflicts: nat

    ghost predicate Valid()
      reads this
    {
      |history| == version + 1 && history[version] == recs
    }

    constructor ()
      ensures Valid() && version == 0 && recs == [] && failures == 0 && conflicts == 0
    {
      version, recs, history := 0, [], [[]];
      failures, conflicts := 0, 0;
    }

    /** Other controllers write whatever they write, at any time. */
    method OthersWrite()
      requires Valid()
      modifies this`version, this`recs, this`history
      ensures Valid() && old(history) <= history
    {
      var writes :| 0 <= writes;
      for i := 0 to writes
        invariant Valid() && old(history) <= history
      {
        var q: seq<Record> := *;
        version, recs, history := version + 1, q, history + [q];
      }
    }

    /** readApprovals: the list and its version, or a failure. */
    method Read() returns (r: Result<(seq<Record>, nat), ()>)
      requires Valid()
      modifies this
      ensures Valid() && old(history) <= history
      ensures r.Ok? ==> r.value.1 < |history| && history[r.value.1] == r.value.0 && old(version) <= r.value.1
      ensures conflicts == old(conflicts) && failures == old(failures) + if r.Err? then 1 else 0
    {
      OthersWrite();
      var fails: bool := *;
      if fails { failures := failures + 1; }
      r := if fails then Err(()) else Ok((recs, version));
    }

    /** writeApprovals: a compare and swap on the version read. A write that is
        reported saved is the one that follows the version read, with nothing in
        between; one in conflict came after another writer's; one that fails may have
        landed all the same. */
    method Write(q: seq<Record>, base: nat) returns (reply: Reply)
      requires Valid() && base < |history|
      modifies this
      ensures Valid() && old(history) <= history
      ensures reply.Saved? ==> base + 1 < |history| && history[base + 1] == q && |old(history)| == base + 1
      ensures reply.Conflict? ==> base + 1 < |history|
      ensures conflicts == old(conflicts) + if reply.Conflict? then 1 else 0
      ensures failures == old(failures) + if reply.Failure? then 1 else 0
    {
      OthersWrite();
      if version != base {
        conflicts := conflicts + 1;
        return Conflict;
      }
      var lands: bool := *;
      var answered: bool := *;
      if lands {
        version, recs, history := version + 1, q, history + [q];
        if answered { return Saved; }
      }
      failures := failures + 1;
      return Failure;
    }
  }

  // ---- The queue of one controller ----

  /** What a call asks the queue to do. */
  datatype Request =
    | AskPropose(m: Mutation, summary: string, now: int)
    | AskApprove(id: string, user: string)
    | AskReject(id: string, user: string)
    | AskResult(id: string, result: string)

  /** A step that could carry the request out. */
  predicate Serves(q: Request, ttl: int, s: Step) {
    match q
    case AskPropose(m, summary, now) => s.Propose? && s.m == m && s.summary == summary && s.now == now && s.ttl == ttl
    case AskApprove(id, user) => s.Approve? && s.id == id && s.user == user
    case AskReject(id, user) => s.Reject? && s.id == id && s.user == user
    case AskResult(id, result) => s == SetResult(id, result)
  }

  datatype Outcome = Done | Refused(verdict: Verdict) | Failed

  class Approvals {
    const ttl: int
    const approvers: set<string>
    const config := Config(approvers, BuildFix)
    const store: ConfigMapStore
    const api: ApiServer
    var items: Items
    var sent: seq<Mutation> // the changes put through the gate, in order

    ghost predicate Valid()
      reads this, store
    {
      store.Valid() && Keyed(items)
    }

    constructor (ttl: int, approvers: set<string>, store: ConfigMapStore, api: ApiServer)
      requires store.Valid()
      ensures Valid() && this.ttl == ttl && this.approvers == approvers && this.store == store && this.api == api
      ensures items == map[] && sent == []
    {
      this.ttl, this.approvers, this.store, this.api, items, sent := ttl, approvers, store, api, map[], [];
    }

    method ExpireLocked(now: int)
      modifies this`items
      ensures items == Expire(old(items), now)
    {
      var todo := items.Keys;
      while todo != {}
        invariant todo <= old(items).Keys == items.Keys
        invariant forall id :: id in items ==>
                  items[id] == (if id in todo then old(items) else Expire(old(items), now))[id]
        decreases |todo|
      {
        var id :| id in todo;
        if items[id].state == Pending && now >= items[id].expires {
          items := items[id := items[id].(state := Expired)];
        }
        todo := todo - {id};
      }
    }

    /** The decided items, in no particular order. */
    method Decided() returns (ps: seq<Item>)
      requires Keyed(items)
      ensures IdsOf(ps) == DecidedIds(items) && (forall p :: p in ps ==> p.id in items && items[p.id] == p)
      ensures Distinct(ps)
    {
      ps := [];
      var todo := items.Keys;
      while todo != {}
        invariant todo <= items.Keys
        invariant forall p :: p in ps ==> p.id in items && p.id !in todo && items[p.id] == p && p.state != Pending
        invariant forall id :: id in items && id !in todo && items[id].state != Pending ==> items[id] in ps
        invariant Distinct(ps)
        decreases |todo|
      {
        var id :| id in todo;
        if items[id].state != Pending {
          ps := ps + [items[id]];
        }
        todo := todo - {id};
      }
    }

    /** Makes room for one more at the expense of decided items, those proposed longest
        ago first, and says whether there is any. */
    method PruneLocked() returns (room: bool, ghost dropped: set<string>)
      requires Keyed(items)
      modifies this`items
      ensures PruneChoice(old(items), dropped) && items == old(items) - dropped
      ensures room <==> |items| < MAX_APPROVALS
    {
      if |items| < MAX_APPROVALS {
        assert items - {} == items;
        return true, {};
      }
      var decided := Decided();
      var sorted := SortBy(decided, OlderFirst());
      SameItems(items, decided, sorted);
      ghost var k;
      dropped, k := DropInOrder(sorted);
      SizeWithout(old(items), dropped);
      PrefixIsChoice(old(items), sorted, k);
      room := |items| < MAX_APPROVALS;
    }

    /** Deletes from the front of the list until there is room. */
    method DropInOrder(sorted: seq<Item>) returns (ghost dropped: set<string>, ghost dropping: nat)
      requires |items| >= MAX_APPROVALS
      requires Droppable(items, sorted)
      modifies this`items
      ensures DroppedTo(old(items), items, sorted, dropping, dropped)
      ensures |items| >= MAX_APPROVALS - 1 && (dropping < |sorted| ==> |items| < MAX_APPROVALS)
    {
      var k := 0;
      dropped := {};
      ghost var start := items;
      DropNone(start, sorted);
      while k < |sorted| && |items| >= MAX_APPROVALS
        invariant DroppedTo(start, items, sorted, k, dropped)
        invariant |items| >= MAX_APPROVALS - 1
        decreases |sorted| - k
      {
        var id := sorted[k].id;
        DropNext(start, items, sorted, k, dropped);
        items := items - {id};
        dropped := dropped + {id};
        k := k + 1;
      }
      dropping := k;
    }

    /** HasSame, looked for one item at a time. */
    method FindSame(m: Mutation) returns (found: bool)
      ensures found <==> HasSame(items, m)
    {
      var todo := items.Keys;
      while todo != {}
        invariant todo <= items.Keys
        invariant forall id :: id in items && id !in todo ==>
                  !(items[id].state == Pending && SameChange(items[id].m, m))
        decreases |todo|
      {
        var id :| id in todo;
        if items[id].state == Pending && SameChange(items[id].m, m) { return true; }
        todo := todo - {id};
      }
      return false;
    }

    method ProposeStep(m: Mutation, summary: string, now: int, id: string)
      returns (verdict: Verdict, ghost dropped: set<string>)
      requires Keyed(items)
      modifies this`items
      ensures (items, verdict) == Apply(old(items), config, Propose(m, summary, now, ttl, id, dropped))
      ensures !HasSame(Expire(old(items), now), m) ==> PruneChoice(Expire(old(items), now), dropped)
    {
      dropped := {};
      ExpireKeyed(items, now);
      ExpireLocked(now);
      var found := FindSame(m);
      if found { return AlreadyQueued, {}; }
      var room;
      room, dropped := PruneLocked();
      if !room { return QueueFull, dropped; }
      items := items[id := Item(id, m, summary, now, now + ttl, Pending, "", "", false)];
      verdict := Changed;
    }

    method ApproveStep(id: string, user: string, now: int) returns (verdict: Verdict, m: Option<Mutation>)
      modifies this`items
      ensures (items, verdict) == Apply(old(items), config, Approve(id, user, now))
      ensures m == if id in old(items) then Some(old(items)[id].m) else None
    {
      if id !in items { return Unknown, None; }
      m := Some(items[id].m);
      if user !in config.approvers { return NotApprover, m; }
      ExpireLocked(now);
      if items[id].state != Pending { return AlreadyDecided(items[id].state), m; }
      if items[id].broken { return Unreadable, m; }
      items := items[id := items[id].(state := Approved, decidedBy := user)];
      verdict := Changed;
    }

    method RejectStep(id: string, user: string, now: int) returns (verdict: Verdict)
      modifies this`items
      ensures (items, verdict) == Apply(old(items), config, Reject(id, user, now))
    {
      if id !in items { return Unknown; }
      ExpireLocked(now);
      if items[id].state != Pending { return AlreadyDecided(items[id].state); }
      items := items[id := items[id].(state := Rejected, decidedBy := user)];
      verdict := Changed;
    }

    method RecordStep(id: string, result: string) returns (verdict: Verdict)
      modifies this`items
      ensures (items, verdict) == Apply(old(items), config, SetResult(id, result))
    {
      if id !in items { return Unknown; }
      items := items[id := items[id].(result := result)];
      verdict := Changed;
    }

    /** One step, with a clock reading and an id of its own. */
    method RunStep(q: Request) returns (verdict: Verdict, m: Option<Mutation>, ghost step: Step)
      requires Keyed(items)
      modifies this`items
      ensures Serves(q, ttl, step) && (items, verdict) == Apply(old(items), config, step)
      ensures q.AskApprove? && q.id in old(items) ==> m == Some(old(items)[q.id].m)
    {
      m := None;
      var now: int := *;
      match q {
        case AskPropose(change, summary, at) =>
          var id: string := *;
          ghost var dropped;
          verdict, dropped := ProposeStep(change, summary, at, id);
          step := Propose(change, summary, at, ttl, id, dropped);
        case AskApprove(id, user) =>
          verdict, m := ApproveStep(id, user, now);
          step := Approve(id, user, now);
        case AskReject(id, user) =>
          verdict := RejectStep(id, user, now);
          step := Reject(id, user, now);
        case AskResult(id, result) =>
          verdict := RecordStep(id, result);
          step := SetResult(id, result);
      }
    }

    /** reloadLocked, once the list has been read. */
    method Replace(recs: seq<Record>)
      modifies this`items
      ensures items == Loaded(config, FromList(recs)) && Keyed(items)
    {
      var loaded: Items := map[];
      for i := 0 to |recs|
        invariant loaded == Loaded(config, FromList(recs[..i]))
      {
        assert recs[..i + 1] == recs[..i] + [recs[i]];
        LoadedPush(config, recs[..i], recs[i]);
        loaded := loaded[recs[i].id := FromRecord(config, recs[i])];
      }
      assert recs[..|recs|] == recs;
      LoadedKeyed(config, recs);
      items := loaded;
    }

    /** recordsLocked: the queue as a list, in whatever order the map gives it. */
    method RecordsLocked() returns (out: seq<Record>)
      requires Keyed(items)
      ensures FromList(out) == Stored(items) && |out| == |items|
    {
      out := [];
      var todo := items.Keys;
      while todo != {}
        invariant todo <= items.Keys && |out| + |todo| == |items.Keys|
        invariant FromList(out) == Stored(items) - todo
        decreases |todo|
      {
        var id :| id in todo;
        var r := ToRecord(items[id]);
        FromListPush(out, r);
        OneMoreStored(items, todo, id);
        out := out + [r];
        todo := todo - {id};
      }
    }

    /** One try of updateQueue: load, step, write. None asks for another try. */
    method TryUpdate(q: Request) returns (out: Option<Outcome>, m: Option<Mutation>, ghost step: Step, ghost at: nat)
      requires Valid()
      modifies this`items, store
      ensures Valid() && old(store.history) <= store.history
      ensures out.Some? ==> Answered(q, out.value, m, step, old(store.version), at)
      ensures store.conflicts == old(store.conflicts) + if out.None? then 1 else 0
      ensures store.failures == old(store.failures) + if out == Some(Failed) then 1 else 0
    {
      step, at, m := SetResult("", ""), 0, None;
      var read := store.Read();
      if read.Err? { return Some(Failed), m, step, at; }
      var (recs, version) := read.value;
      at := version;
      Replace(recs);
      ghost var before := items;
      var verdict;
      verdict, m, step := RunStep(q);
      assert ApplyStored(FromList(recs), config, step) == (Stored(items), verdict);
      assert q.AskApprove? && q.id in FromList(recs) ==> m == Some(before[q.id].m);
      ApplyKeyed(config, before, step);
      if verdict != Changed { return Some(Refused(verdict)), m, step, at; }
      var list := RecordsLocked();
      var reply := store.Write(list, version);
      out := match reply case Saved => Some(Done) case Conflict => None case Failure => Some(Failed);
    }

    /** What an answer of updateQueue means: it is one the stored queue gives at
        some version read during the call; a change reported stored is the very
        next write after that version, and is the step run on its queue. */
    ghost predicate Answered(q: Request, out: Outcome, m: Option<Mutation>, step: Step, since: nat, at: nat)
      reads this, store
    {
      out.Failed? ||
      (&& since <= at < |store.history| && Serves(q, ttl, step)
       && (out.Refused? ==>
             && out.verdict != Changed
             && ApplyStored(FromList(store.history[at]), config, step).1 == out.verdict)
       && (out.Done? ==>
             && at + 1 < |store.history|
             && ApplyStored(FromList(store.history[at]), config, step) == (FromList(store.history[at + 1]), Changed)
             && (q.AskApprove? && q.id in FromList(store.history[at]) ==>
                   m == Some(FromRecord(config, FromList(store.history[at])[q.id]).m))))
    }

    /** updateQueue: up to five tries, as client-go's DefaultRetry makes them. It fails
        exactly when the store fails it, or when it has met with five conflicts. */
    method UpdateQueue(q: Request) returns (out: Outcome, m: Option<Mutation>, ghost step: Step, ghost at: nat)
      requires Valid()
      modifies this`items, store
      ensures Valid() && old(store.history) <= store.history
      ensures Answered(q, out, m, step, old(store.version), at)
      ensures out.Failed? <==> store.failures == old(store.failures) + 1 || store.conflicts == old(store.conflicts) + 5
      ensures out != Failed ==> store.failures == old(store.failures) && store.conflicts < old(store.conflicts) + 5
    {
      out, m, at, step := Failed, None, 0, SetResult("", "");
      var tries := 0;
      while tries < 5
        invariant Valid() && old(store.history) <= store.history && out == Failed && tries <= 5
        invariant store.failures == old(store.failures) && store.conflicts == old(store.conflicts) + tries
      {
        tries := tries + 1;
        var tried;
        tried, m, step, at := TryUpdate(q);
        if tried.Some? { return tried.value, m, step, at; }
      }
    }

    /** The change through the gate, which may keep it from the cluster; the answer is
        the API server's when it does not. */
    method PutThroughGate(m: Mutation) returns (ghost answer: Option<bool>)
      requires m.effect.Some?
      modifies this`sent, api
      ensures sent == old(sent) + [m]
      ensures answer.None? ==> api.world == old(api.world)
      ensures answer.Some? ==> (api.world, answer.value) == Perform(m.effect.value, old(api.world))
    {
      answer := None;
      sent := sent + [m];
      var lets: bool := *;
      if lets {
        var ok := api.Apply(m);
        answer := Some(ok);
      }
    }

    /** The approval written ahead, and the change it is of; none when it was not written. */
    method WriteApproval(id: string, user: string) returns (m: Option<Mutation>, ghost at: nat)
      requires Valid()
      modifies this`items, store
      ensures Valid() && old(store.history) <= store.history
      ensures m.Some? ==>
                && at + 1 < |store.history| && old(store.version) <= at
                && Approves(FromList(store.history[at]), FromList(store.history[at + 1]), approvers, id, user)
                && m == BuildFix(FromList(store.history[at])[id].fix)
    {
      ghost var step;
      var out;
      out, m, step, at := UpdateQueue(AskApprove(id, user));
      if !out.Done? { return None, at; }
      ApprovedFrom(config, FromList(store.history[at]), step);
    }

    /** ApproveFix: the change goes through the gate only when its approval was
        written first, and goes as that user's. If it reaches the cluster it does
        there what the stored spec asks, and nothing else. */
    method ApproveFix(id: string, user: string) returns (ok: bool, ghost at: nat, ghost answer: Option<bool>)
      requires Valid()
      modifies this, store, api
      ensures Valid() && old(store.history) <= store.history
      ensures !ok ==> sent == old(sent) && answer.None?
      ensures ok ==>
                && at + 1 < |store.history| && old(store.version) <= at
                && Approves(FromList(store.history[at]), FromList(store.history[at + 1]), approvers, id, user)
                && sent == old(sent) + [BuildFix(FromList(store.history[at])[id].fix).value.(approvedBy := user)]
      ensures answer.None? ==> api.world == old(api.world)
      ensures answer.Some? ==>
                DoneAsAsked(FromList(store.history[at])[id].fix, old(api.world), api.world, answer.value)
    {
      if approvers == {} { return false, 0, None; }
      var m;
      m, at := WriteApproval(id, user);
      if m.None? { return false, at, None; }
      ghost var fix := FromList(store.history[at])[id].fix;
      SentAsAsked(fix, user);
      answer := PutThroughGate(m.value.(approvedBy := user));
      var result: string := *;
      var recorded, rm;
      ghost var rstep, rat;
      recorded, rm, rstep, rat := UpdateQueue(AskResult(id, result));
      ok := true;
    }
  }

  /** The queue before and after that user's approval. */
  ghost predicate Approves(before: Queue, after: Queue, approvers: set<string>, id: string, user: string) {
    && id in before && before[id].state == Pending && user in approvers && Known(before[id].fix)
    && id in after && after[id].state == Approved && after[id].decidedBy == user
  }

  /** What is sent for a stored spec does what the spec asks. */
  lemma {:induction false} SentAsAsked(s: FixSpec, user: string)
    requires BuildFix(s).Some?
    ensures Known(s) && DoesAsAsked(BuildFix(s).value.(approvedBy := user), s)
  {
    BuiltDoesAsAsked(s);
  }

  /** Distinct items of the queue. */
  ghost predicate Droppable(items: Items, sorted: seq<Item>) {
    && (forall p :: p in sorted ==> p.id in items)
    && forall i, j :: 0 <= i < j < |sorted| ==> sorted[i].id != sorted[j].id
  }

  /** The first k of the list have been deleted, and nothing else. */
  ghost predicate DroppedTo(start: Items, now: Items, sorted: seq<Item>, k: nat, dropped: set<string>) {
    && k <= |sorted| && dropped == IdsOf(sorted[..k]) && dropped <= start.Keys && now == start - dropped
  }

  lemma {:induction false} DropNone(items: Items, sorted: seq<Item>)
    ensures DroppedTo(items, items, sorted, 0, {})
  {
  }

  lemma {:induction false} DropNext(start: Items, now: Items, sorted: seq<Item>, k: nat, dropped: set<string>)
    requires Droppable(start, sorted) && k < |sorted| && DroppedTo(start, now, sorted, k, dropped)
    ensures DroppedTo(start, now - {sorted[k].id}, sorted, k + 1, dropped + {sorted[k].id})
    ensures |now - {sorted[k].id}| == |now| - 1
  {
  }

  lemma {:induction false} SizeWithout(items: Items, dropped: set<string>)
    requires dropped <= items.Keys
    ensures |items - dropped| == |items| - |dropped|
  {
  }

  lemma {:induction false} OneMoreStored(items: Items, todo: set<string>, id: string)
    requires id in todo && todo <= items.Keys
    ensures Stored(items) - (todo - {id}) == (Stored(items) - todo)[id := ToRecord(items[id])]
  {
  }

  lemma {:induction false} ApprovedFrom(c: Config, q: Queue, s: Step)
    requires s.Approve? && ApplyStored(q, c, s).1 == Changed
    ensures s.id in q && q[s.id].state == Pending && s.user in c.approvers && c.rebuild(q[s.id].fix).Some?
    ensures s.id in ApplyStored(q, c, s).0
    ensures ApplyStored(q, c, s).0[s.id].state == Approved && ApplyStored(q, c, s).0[s.id].decidedBy == s.user
  {
  }

  /** Sorting rearranges a list of the queue's items into one with distinct ids. */
  lemma {:induction false} SameItems(items: Items, ps: seq<Item>, sorted: seq<Item>)
    requires multiset(ps) == multiset(sorted) && Distinct(ps)
    requires forall p :: p in ps ==> p.id in items && items[p.id] == p
    ensures IdsOf(ps) == IdsOf(sorted) && (forall p :: p in sorted <==> p in ps)
    ensures forall i, j :: 0 <= i < j < |sorted| ==> sorted[i].id != sorted[j].id
  {
    Rearranged(ps, sorted);
    forall i, j | 0 <= i < j < |sorted| ensures sorted[i].id != sorted[j].id {
      assert sorted[i] in sorted && sorted[j] in sorted && sorted[i] != sorted[j];
    }
  }

  /** The items a prefix of the sorted list names are what pruning may drop. */
  lemma {:induction false} PrefixIsChoice(items: Items, sorted: seq<Item>, k: nat)
    requires Sorted(sorted, OlderFirst()) && IdsOf(sorted) == DecidedIds(items) && k <= |sorted|
    requires forall p :: p in sorted ==> p.id in items && items[p.id] == p
    requires |items| >= MAX_APPROVALS
    requires |items| - |IdsOf(sorted[..k])| >= MAX_APPROVALS - 1
    requires k < |sorted| ==> |items| - |IdsOf(sorted[..k])| < MAX_APPROVALS
    ensures PruneChoice(items, IdsOf(sorted[..k]))
  {
  }
}
