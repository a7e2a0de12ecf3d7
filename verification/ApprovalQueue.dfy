/** internal/kube/approvals.go and approval_store.go: the approval queue. A step
    of the queue is a function of the items loaded; the class below is the code
    that performs it, and the store it writes to compares versions and swaps. */
module ApprovalQueue {
  import opened Prelude
  import opened ApprovalFixes

  datatype State = Pending | Approved | Rejected | Expired

  /** An approval in memory. A broken one could not be rebuilt from its spec. */
  datatype Item = Item(
    id: string, m: Mutation, summary: string, created: int, expires: int,
    state: State, decidedBy: string, result: string, broken: bool)

  /** An approval as stored. */
  datatype Record = Record(
    id: string, fix: FixSpec, summary: string, created: int, expires: int,
    state: State, decidedBy: string, result: string)

  type Items = map<string, Item>
  type Queue = map<string, Record>

  const MAX_APPROVALS := 200

  /** Who may approve, and how the store turns a spec back into its change. */
  datatype Config = Config(approvers: set<string>, rebuild: FixSpec -> Option<Mutation>)

  /** What the store relies on: a rebuilt change carries the spec it came from. */
  ghost predicate Faithful(c: Config) {
    forall s :: c.rebuild(s).Some? ==> c.rebuild(s).value.fix == Some(s)
  }

  /** buildFix is such a way. */
  lemma {:induction false} BuildFixIsFaithful(approvers: set<string>)
    ensures Faithful(Config(approvers, BuildFix))
  {
  }

  // ---- Stored form and back ----

  function ToRecord(p: Item): Record {
    Record(p.id, if p.m.fix.Some? then p.m.fix.value else NO_FIX, p.summary, p.created, p.expires, p.state,
      p.decidedBy, p.result)
  }

  function FromRecord(c: Config, r: Record): Item {
    var m := c.rebuild(r.fix);
    var unreadable := Mutation(r.fix.namespace, r.fix.name, "", r.fix.action, "unreadable stored change", None, "",
      Some(r.fix));
    Item(r.id, if m.Some? then m.value else unreadable, r.summary, r.created, r.expires, r.state, r.decidedBy,
      r.result, m.None?)
  }

  function Loaded(c: Config, q: Queue): Items {
    map id | id in q :: FromRecord(c, q[id])
  }

  function Stored(items: Items): Queue {
    map id | id in items :: ToRecord(items[id])
  }

  /** A change the queue can store: it carries the spec it was built from. */
  predicate Built(c: Config, m: Mutation) {
    m.fix.Some? && c.rebuild(m.fix.value) == Some(m)
  }

  /** An item that survives being stored. */
  predicate Storable(c: Config, p: Item) {
    FromRecord(c, ToRecord(p)) == p
  }

  /** Storing what was loaded changes nothing, unreadable changes included; and a
      new proposal comes back from the store as the very change it was, so it
      makes no difference that it waited there. */
  lemma {:induction false} StoreRoundTrip(c: Config, q: Queue, p: Item)
    requires Faithful(c)
    ensures Stored(Loaded(c, q)) == q
    ensures Built(c, p.m) && !p.broken ==> Storable(c, p)
  {
  }

  // ---- The steps ----

  predicate Lapsed(p: Item, now: int) {
    p.state == Pending && now >= p.expires
  }

  /** expireLocked. */
  function Expire(items: Items, now: int): Items {
    map id | id in items :: if Lapsed(items[id], now) then items[id].(state := Expired) else items[id]
  }

  function DecidedIds(items: Items): set<string> {
    set id | id in items && items[id].state != Pending
  }

  /** What pruneLocked may drop: nothing while there is room; else the oldest
      decided items, ties in any order, until there is room or none is left. */
  ghost predicate PruneChoice(items: Items, dropped: set<string>) {
    && dropped <= DecidedIds(items)
    && (|items| < MAX_APPROVALS ==> dropped == {})
    && (|items| >= MAX_APPROVALS ==> |items| - |dropped| == MAX_APPROVALS - 1
                                     || (dropped == DecidedIds(items) && |items| - |dropped| >= MAX_APPROVALS - 1))
    && forall d, k :: d in dropped && k in DecidedIds(items) && k !in dropped ==> items[d].created <= items[k].created
  }

  /** One step, with what it read from outside: the clock, the new id, and which
      items pruning dropped. */
  datatype Step =
    | Propose(m: Mutation, summary: string, now: int, ttl: int, id: string, dropped: set<string>)
    | Approve(id: string, user: string, now: int)
    | Reject(id: string, user: string, now: int)
    | SetResult(id: string, result: string)

  datatype Verdict =
    | Changed           // to be written back
    | AlreadyQueued     // the same change is pending
    | QueueFull
    | Unknown
    | NotApprover
    | AlreadyDecided(state: State)
    | Unreadable

  predicate HasSame(items: Items, m: Mutation) {
    exists id :: id in items && items[id].state == Pending && SameChange(items[id].m, m)
  }

  function NewItem(s: Step): Item
    requires s.Propose?
  {
    Item(s.id, s.m, s.summary, s.now, s.now + s.ttl, Pending, "", "", false)
  }

  function Apply(items: Items, c: Config, s: Step): (Items, Verdict) {
    match s
    case Propose(m, _, now, _, id, dropped) =>
      var e := Expire(items, now);
      if HasSame(e, m) then (e, AlreadyQueued)
      else
        var kept := e - dropped;
        if |kept| >= MAX_APPROVALS then (kept, QueueFull)
        else (kept[id := NewItem(s)], Changed)
    case Approve(id, user, now) =>
      if id !in items then (items, Unknown)
      else if user !in c.approvers then (items, NotApprover)
      else
        var e := Expire(items, now);
        if e[id].state != Pending then (e, AlreadyDecided(e[id].state))
        else if e[id].broken then (e, Unreadable)
        else (e[id := e[id].(state := Approved, decidedBy := user)], Changed)
    case Reject(id, user, now) =>
      if id !in items then (items, Unknown)
      else
        var e := Expire(items, now);
        if e[id].state != Pending then (e, AlreadyDecided(e[id].state))
        else (e[id := e[id].(state := Rejected, decidedBy := user)], Changed)
    case SetResult(id, result) =>
      if id !in items then (items, Unknown)
      else (items[id := items[id].(result := result)], Changed)
  }

  /** A step against the stored queue. */
  function ApplyStored(q: Queue, c: Config, s: Step): (Queue, Verdict) {
    var (items, v) := Apply(Loaded(c, q), c, s);
    (Stored(items), v)
  }

  // ---- What every step keeps of the stored queue ----

  ghost predicate Consistent(c: Config, q: Queue) {
    |q| <= 200 && Tidy(q) && Separate(c, q)
  }

  /** Items are kept under their own ids, and only an approved one carries a result. */
  ghost predicate Tidy(q: Queue) {
    forall id :: id in q ==> q[id].id == id && (q[id].result != "" ==> q[id].state == Approved)
  }

  /** No two pending items are the same change. */
  ghost predicate Separate(c: Config, q: Queue) {
    forall i, j :: i in q && j in q && i != j && q[i].state == Pending && q[j].state == Pending
      ==> !SameChange(FromRecord(c, q[i]).m, FromRecord(c, q[j]).m)
  }

  /** What the code guarantees of a step before it runs it. */
  ghost predicate Sensible(c: Config, q: Queue, s: Step) {
    match s
    case Propose(m, _, now, _, id, dropped) => Built(c, m) && id !in q
      && PruneChoice(Expire(Loaded(c, q), now), dropped)
    case Approve(_, _, _) => true
    case Reject(_, _, _) => true
    case SetResult(id, _) => id in q ==> q[id].state == Approved
  }

  /** What one step may do to a stored approval: its change, its times and its
      summary never move. A decided one keeps its state and who decided it. A
      pending one is approved only by a listed approver before it expires,
      rejected only before it expires, and expired only once it has; and only
      a proposal drops one, decided or lapsed. */
  ghost predicate Moves(r: Record, q': Queue, c: Config, s: Step) {
    && (r.id !in q' ==> s.Propose? && (r.state != Pending || s.now >= r.expires))
    && (r.id in q' ==>
          var r' := q'[r.id];
          && r'.(state := r.state, decidedBy := r.decidedBy, result := r.result) == r
          && (r'.result != r.result ==> s == SetResult(r.id, r'.result))
          && (r.state != Pending ==> r'.state == r.state && r'.decidedBy == r.decidedBy)
          && (r.state == Pending ==>
                match r'.state
                case Pending => r'.decidedBy == r.decidedBy && (s.SetResult? || s.now < r.expires)
                case Approved => s.Approve? && s.id == r.id && r'.decidedBy == s.user && s.user in c.approvers
                  && s.now < r.expires
                case Rejected => s.Reject? && s.id == r.id && r'.decidedBy == s.user && s.now < r.expires
                case Expired => !s.SetResult? && s.now >= r.expires && r'.decidedBy == r.decidedBy))
  }

  /** A stored approval, and a stored queue, as expiry leaves them. */
  function Aged(r: Record, now: int): Record {
    if r.state == Pending && now >= r.expires then r.(state := Expired) else r
  }

  function AgedAll(q: Queue, now: int): Queue {
    map id | id in q :: Aged(q[id], now)
  }

  /** A step that is written back, in terms of the stored queue alone. */
  function Written(q: Queue, s: Step): Queue
    requires s.Propose? || s.id in q
  {
    match s
    case Propose(_, _, now, _, id, dropped) => (AgedAll(q, now) - dropped)[id := ToRecord(NewItem(s))]
    case Approve(id, user, now) => AgedAll(q, now)[id := q[id].(state := Approved, decidedBy := user)]
    case Reject(id, user, now) => AgedAll(q, now)[id := q[id].(state := Rejected, decidedBy := user)]
    case SetResult(id, result) => q[id := q[id].(result := result)]
  }

  /** When a step may be written back. */
  predicate Accepts(q: Queue, c: Config, s: Step) {
    match s
    case Propose(_, _, _, _, _, _) => true
    case Approve(id, user, now) => id in q && q[id].state == Pending && now < q[id].expires && user in c.approvers
      && c.rebuild(q[id].fix).Some?
    case Reject(id, _, now) => id in q && q[id].state == Pending && now < q[id].expires
    case SetResult(id, _) => id in q
  }

  lemma {:induction false} StoredExpiry(c: Config, q: Queue, now: int)
    requires Faithful(c)
    ensures Stored(Expire(Loaded(c, q), now)) == AgedAll(q, now)
  {
  }

  lemma {:induction false} StoredUpdate(items: Items, id: string, p: Item)
    ensures Stored(items[id := p]) == Stored(items)[id := ToRecord(p)]
  {
  }

  lemma {:induction false} StoredDrop(items: Items, dropped: set<string>)
    ensures Stored(items - dropped) == Stored(items) - dropped
  {
  }

  lemma {:induction false} StoredProposal(q: Queue, c: Config, s: Step)
    requires Faithful(c) && s.Propose? && ApplyStored(q, c, s).1 == Changed
    ensures Accepts(q, c, s) && ApplyStored(q, c, s).0 == Written(q, s)
  {
    var e := Expire(Loaded(c, q), s.now);
    StoredExpiry(c, q, s.now);
    StoredDrop(e, s.dropped);
    StoredUpdate(e - s.dropped, s.id, NewItem(s));
  }

  lemma {:induction false} StoredDecision(q: Queue, c: Config, s: Step)
    requires Faithful(c) && (s.Approve? || s.Reject?) && ApplyStored(q, c, s).1 == Changed
    ensures Accepts(q, c, s) && ApplyStored(q, c, s).0 == Written(q, s)
  {
    var e := Expire(Loaded(c, q), s.now);
    StoredExpiry(c, q, s.now);
    StoredUpdate(e, s.id, e[s.id].(state := if s.Approve? then Approved else Rejected, decidedBy := s.user));
  }

  lemma {:induction false} StoredResult(q: Queue, c: Config, s: Step)
    requires Faithful(c) && s.SetResult? && ApplyStored(q, c, s).1 == Changed
    ensures Accepts(q, c, s) && ApplyStored(q, c, s).0 == Written(q, s)
  {
    var l := Loaded(c, q);
    StoreRoundTrip(c, q, FromRecord(c, q[s.id]));
    StoredUpdate(l, s.id, l[s.id].(result := s.result));
  }

  /** The step on rebuilt items and the step on stored records are one. */
  lemma {:induction false} StoredStep(q: Queue, c: Config, s: Step)
    requires Faithful(c) && ApplyStored(q, c, s).1 == Changed
    ensures Accepts(q, c, s) && ApplyStored(q, c, s).0 == Written(q, s)
  {
    match s {
      case Propose(_, _, _, _, _, _) => StoredProposal(q, c, s);
      case Approve(_, _, _) => StoredDecision(q, c, s);
      case Reject(_, _, _) => StoredDecision(q, c, s);
      case SetResult(_, _) => StoredResult(q, c, s);
    }
  }

  lemma {:induction false} StepMoves(q: Queue, c: Config, s: Step, id: string)
    requires Faithful(c) && ApplyStored(q, c, s).1 == Changed && id in q && q[id].id == id && Sensible(c, q, s)
    ensures Moves(q[id], ApplyStored(q, c, s).0, c, s)
  {
    StoredStep(q, c, s);
    if s.Propose? && id in s.dropped {
      assert id in DecidedIds(Expire(Loaded(c, q), s.now));
    }
    WrittenMoves(q, c, s, id);
  }

  lemma {:induction false} WrittenMoves(q: Queue, c: Config, s: Step, id: string)
    requires Accepts(q, c, s) && id in q && q[id].id == id
    requires s.Propose? ==> s.id !in q && (id in s.dropped ==> q[id].state != Pending || s.now >= q[id].expires)
    ensures Moves(q[id], Written(q, s), c, s)
  {
  }

  /** A decided approval that is still there after a step is there as it was, and
      one that has gone comes back only if its id is proposed again. */
  lemma {:induction false} StaysDecided(q: Queue, q': Queue, c: Config, s: Step, id: string, r: Record)
    requires Faithful(c) && ApplyStored(q, c, s) == (q', Changed) && Sensible(c, q, s) && r.state != Pending
    requires id in q ==> q[id].id == id && q[id].state == r.state && q[id].decidedBy == r.decidedBy
    requires id !in q ==> !(s.Propose? && s.id == id)
    ensures id in q' ==> q'[id].state == r.state && q'[id].decidedBy == r.decidedBy
  {
    if id in q {
      StepMoves(q, c, s, id);
    } else {
      StoredStep(q, c, s);
    }
  }

  /** Every step keeps the queue within 200 items, no two of them the same
      pending change, and results on approved items only. */
  lemma {:induction false} StepConsistent(q: Queue, c: Config, s: Step)
    requires Faithful(c) && ApplyStored(q, c, s).1 == Changed && Consistent(c, q) && Sensible(c, q, s)
    ensures Consistent(c, ApplyStored(q, c, s).0)
  {
    StepSize(q, c, s);
    StepTidy(q, c, s);
    var q' := ApplyStored(q, c, s).0;
    forall i, j | i in q' && j in q' && i != j && q'[i].state == Pending && q'[j].state == Pending
      ensures !SameChange(FromRecord(c, q'[i]).m, FromRecord(c, q'[j]).m)
    {
      if s.Propose? && i == s.id {
        NewIsDifferent(q, c, s, j);
      } else if s.Propose? && j == s.id {
        NewIsDifferent(q, c, s, i);
      } else {
        StillPending(q, c, s, i);
        StillPending(q, c, s, j);
      }
    }
  }

  /** What is pending after a step, and not new, was pending before it. */
  lemma {:induction false} StillPending(q: Queue, c: Config, s: Step, i: string)
    requires Faithful(c) && ApplyStored(q, c, s).1 == Changed && !(s.Propose? && i == s.id)
    requires i in ApplyStored(q, c, s).0 && ApplyStored(q, c, s).0[i].state == Pending
    ensures i in q && q[i].state == Pending && FromRecord(c, ApplyStored(q, c, s).0[i]).m == FromRecord(c, q[i]).m
  {
    StoredStep(q, c, s);
    WrittenPending(q, c, s, i);
  }

  lemma {:induction false} WrittenPending(q: Queue, c: Config, s: Step, i: string)
    requires Accepts(q, c, s) && !(s.Propose? && i == s.id) && i in Written(q, s) && Written(q, s)[i].state == Pending
    ensures i in q && q[i].state == Pending && Written(q, s)[i].fix == q[i].fix
  {
  }

  lemma {:induction false} StepTidy(q: Queue, c: Config, s: Step)
    requires Faithful(c) && ApplyStored(q, c, s).1 == Changed && Tidy(q) && Sensible(c, q, s)
    ensures Tidy(ApplyStored(q, c, s).0)
  {
    StoredStep(q, c, s);
    WrittenTidy(q, c, s);
  }

  lemma {:induction false} WrittenTidy(q: Queue, c: Config, s: Step)
    requires Tidy(q) && Accepts(q, c, s) && (s.SetResult? ==> q[s.id].state == Approved)
    ensures Tidy(Written(q, s))
  {
  }

  lemma {:induction false} StepSize(q: Queue, c: Config, s: Step)
    requires Faithful(c) && ApplyStored(q, c, s).1 == Changed && |q| <= 200
    ensures |ApplyStored(q, c, s).0| <= 200
  {
    StoredStep(q, c, s);
    if s.Propose? {
      var kept := Expire(Loaded(c, q), s.now) - s.dropped;
      assert |kept| < MAX_APPROVALS;
      SameKeysSize(kept, AgedAll(q, s.now) - s.dropped);
      PutSize(AgedAll(q, s.now) - s.dropped, s.id, ToRecord(NewItem(s)));
    } else {
      WrittenKeys(q, s);
      SameKeysSize(q, Written(q, s));
    }
  }

  lemma {:induction false} WrittenKeys(q: Queue, s: Step)
    requires !s.Propose? && s.id in q
    ensures Written(q, s).Keys == q.Keys
  {
  }

  lemma {:induction false} SameKeysSize<X, Y, Z>(a: map<X, Y>, b: map<X, Z>)
    requires a.Keys == b.Keys
    ensures |a| == |b|
  {
  }

  lemma {:induction false} PutSize<X, Y>(a: map<X, Y>, x: X, y: Y)
    ensures |a[x := y]| <= |a| + 1
  {
  }

  lemma {:induction false} NewIsDifferent(q: Queue, c: Config, s: Step, i: string)
    requires Faithful(c) && s.Propose? && ApplyStored(q, c, s).1 == Changed && Built(c, s.m)
    requires i in ApplyStored(q, c, s).0 && i != s.id && ApplyStored(q, c, s).0[i].state == Pending
    ensures var q' := ApplyStored(q, c, s).0;
            s.id in q' && !SameChange(FromRecord(c, q'[i]).m, FromRecord(c, q'[s.id]).m)
              && !SameChange(FromRecord(c, q'[s.id]).m, FromRecord(c, q'[i]).m)
  {
    StoredStep(q, c, s);
    var e := Expire(Loaded(c, q), s.now);
    assert q[i].state == Pending && i in e;
    assert !SameChange(e[i].m, s.m);
    StoreRoundTrip(c, q, NewItem(s));
    assert FromRecord(c, ToRecord(NewItem(s))).m == s.m;
    assert FromRecord(c, Written(q, s)[i]).m == e[i].m;
  }
}
