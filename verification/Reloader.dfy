/** internal/kube/reload.go as it runs: the changes that wait, the waves under way
    and the versions blocked, changed in place by each tick. */
module Reloaders {
  import opened Prelude
  import opened Text
  import opened Sorting
  import opened ReloadRefs
  import opened ReloadWaves

  /** A change that waits, with the object it is to. */
  datatype PendingChange = PendingChange(ns: string, ref: ObjRef, p: Pending)

  /** A workload the reloader may restart, as listed. */
  datatype Reloadable = Reloadable(wl: WorkloadRef, use: Option<Use>, rules: Rules)

  predicate ListedOnce(listed: seq<Reloadable>) {
    forall i, j :: 0 <= i < j < |listed| ==> listed[i].wl != listed[j].wl
  }

  function RefName(r: ObjRef): string {
    (if r.kind.ConfigMap? then "configmap" else "secret") + "/" + r.name
  }

  function PendingKey(ns: string, ref: ObjRef): string {
    ns + "/" + RefName(ref)
  }

  /** No namespace holds a slash, so what waits is kept apart object by object. */
  lemma {:induction false} PendingKeyExact(ns: string, ref: ObjRef, ns': string, ref': ObjRef)
    requires '/' !in ns && '/' !in ns'
    ensures PendingKey(ns, ref) == PendingKey(ns', ref') <==> ns == ns' && ref == ref'
  {
    assert PendingKey(ns, ref) == ns + ['/'] + RefName(ref) && PendingKey(ns', ref') == ns' + ['/'] + RefName(ref');
    if PendingKey(ns, ref) == PendingKey(ns', ref') {
      CutUnique(ns, RefName(ref), ns', RefName(ref'), '/');
      RefNameExact(ref, ref');
    }
  }

  lemma {:induction false} RefNameExact(ref: ObjRef, ref': ObjRef)
    requires RefName(ref) == RefName(ref')
    ensures ref == ref'
  {
    var kind, kind' := if ref.kind.ConfigMap? then "configmap" else "secret",
      if ref'.kind.ConfigMap? then "configmap" else "secret";
    assert RefName(ref) == kind + ['/'] + ref.name && RefName(ref') == kind' + ['/'] + ref'.name;
    CutUnique(kind, ref.name, kind', ref'.name, '/');
    assert "configmap"[0] != "secret"[0];
  }

  function ByStart(): (PendingChange, PendingChange) -> bool {
    (a: PendingChange, b: PendingChange) => a.p.startAt <= b.p.startAt
  }

  predicate NameLeq(a: WorkloadRef, b: WorkloadRef) {
    Name(a) == Name(b) || Less(Name(a), Name(b))
  }

  lemma {:induction false} NamesOrdered()
    ensures TotalOrder(NameLeq)
  {
    forall a, b ensures NameLeq(a, b) || NameLeq(b, a) {
      LessTotal(Name(a), Name(b));
    }
    forall a, b, c | NameLeq(a, b) && NameLeq(b, c) ensures NameLeq(a, c) {
      if Name(a) != Name(b) && Name(b) != Name(c) {
        LessTrans(Name(a), Name(b), Name(c));
      }
    }
  }

  class Wave {
    const change: Change
    ghost const targets: seq<WorkloadRef>
    var todo: seq<WorkloadRef>
    var current: Option<WorkloadRef>
    var hash: string
    var startedAt: int
    var record: seq<Outcome>
    var done: bool

    function Model(): Progress
      reads this
    {
      Progress(todo, current, hash, startedAt, record, done)
    }

    ghost predicate Valid()
      reads this
    {
      Sound(Model(), targets)
    }

    constructor (change: Change, targets: seq<WorkloadRef>)
      requires Distinct(targets)
      ensures Model() == Starting(targets) && this.change == change && this.targets == targets && Valid()
    {
      this.change, this.targets := change, targets;
      todo, current, hash, startedAt, record, done := targets, None, "", 0, [], false;
      new;
      assert Firsts([]) + targets == targets;
    }

    method RecordOutcome(wl: WorkloadRef, r: Fate)
      modifies this`record
      ensures Model() == Recorded(old(Model()), wl, r)
    {
      record := record + [Outcome(wl, r)];
    }
  }

  /** The waves as values, in the order in which they began. */
  ghost function Snapshot(ws: seq<Wave>): (s: seq<(Change, Progress)>)
    reads ws
    ensures |s| == |ws|
  {
    seq(|ws|, i requires 0 <= i < |ws| reads ws => (ws[i].change, ws[i].Model()))
  }

  /** Waves before anything has been restarted. */
  ghost function Unstarted(ws: seq<Wave>): (s: seq<(Change, Progress)>)
    ensures |s| == |ws|
  {
    seq(|ws|, i requires 0 <= i < |ws| => (ws[i].change, Starting(ws[i].targets)))
  }

  ghost function BegunWith(s: System, ws: seq<Wave>): System {
    s.(waves := s.waves + Unstarted(ws))
  }

  ghost function Unfinished(ws: seq<Wave>): seq<Wave>
    reads ws
  {
    if ws == [] then []
    else Unfinished(ws[..|ws| - 1]) + if ws[|ws| - 1].done then [] else [ws[|ws| - 1]]
  }

  lemma {:induction false} UnfinishedAre(ws: seq<Wave>)
    ensures forall w :: w in Unfinished(ws) <==> w in ws && !w.done
    ensures Distinct(ws) ==> Distinct(Unfinished(ws))
  {
    if ws != [] {
      var front, last := ws[..|ws| - 1], ws[|ws| - 1];
      UnfinishedAre(front);
      assert ws == front + [last];
      if Distinct(ws) {
        assert last !in front;
      }
    }
  }

  /** The listed workload is one the change restarts. */
  ghost predicate Selects(c: PendingChange, l: Reloadable, byDefault: On) {
    ShouldReload(l.rules, c.ref, l.use, SortedOf(c.p.keys), c.p.marks, byDefault)
  }

  ghost predicate Restarts(c: PendingChange, listed: seq<Reloadable>, byDefault: On) {
    exists i :: 0 <= i < |listed| && Selects(c, listed[i], byDefault)
  }

  /** The wave of a change: for its last values, and over just the workloads listed
      in its namespace that it restarts, by name. */
  ghost predicate IsWaveOf(w: Wave, c: PendingChange, listed: seq<Reloadable>, byDefault: On, digest: string -> string)
  {
    && w.change == Change(c.ns, c.ref, c.p.data, digest)
    && Distinct(w.targets) && Sorted(w.targets, NameLeq)
    && forall wl :: wl in w.targets <==>
       exists i :: 0 <= i < |listed| && listed[i].wl == wl && Selects(c, listed[i], byDefault)
  }

  /** The changes that start a wave. listed is what the API server lists in the
      namespace of each when its turn comes. */
  ghost function Starters(
      due: seq<PendingChange>, listed: PendingChange -> seq<Reloadable>, byDefault: On): seq<PendingChange>
  {
    if due == [] then []
    else
      var c := due[|due| - 1];
      Starters(due[..|due| - 1], listed, byDefault) + if Restarts(c, listed(c), byDefault) then [c] else []
  }

  /** One wave for each change that starts one, in their order. */
  ghost predicate AreWavesOf(
      ws: seq<Wave>, due: seq<PendingChange>, listed: PendingChange -> seq<Reloadable>, byDefault: On,
      digest: string -> string)
  {
    var cs := Starters(due, listed, byDefault);
    |ws| == |cs| && forall i :: 0 <= i < |ws| ==> IsWaveOf(ws[i], cs[i], listed(cs[i]), byDefault, digest)
  }

  lemma {:induction false} StartersPush(
      ws: seq<Wave>, more: seq<Wave>, due: seq<PendingChange>, c: PendingChange,
      listed: PendingChange -> seq<Reloadable>, byDefault: On, digest: string -> string)
    requires AreWavesOf(ws, due, listed, byDefault, digest)
    requires |more| == if Restarts(c, listed(c), byDefault) then 1 else 0
    requires more != [] ==> IsWaveOf(more[0], c, listed(c), byDefault, digest)
    ensures AreWavesOf(ws + more, due + [c], listed, byDefault, digest)
  {
    assert (due + [c])[..|due|] == due;
  }

  /** One change for each of the keys, and no key twice. */
  predicate TakenFor(keys: seq<string>, taken: seq<PendingChange>, pending: map<string, PendingChange>) {
    && |keys| == |taken| && Distinct(keys)
    && forall i :: 0 <= i < |keys| ==> keys[i] in pending && taken[i] == pending[keys[i]]
  }

  ghost predicate AllDue(keys: seq<string>, pending: map<string, PendingChange>, now: int) {
    forall k :: k in keys <==> k in pending && now >= pending[k].p.dueAt
  }

  /** The changes that are due, each once, in whatever order. */
  ghost predicate DueOnce(due: seq<PendingChange>, pending: map<string, PendingChange>, now: int) {
    exists keys, taken ::
      TakenFor(keys, taken, pending) && AllDue(keys, pending, now) && multiset(taken) == multiset(due)
  }

  /** What is due has been taken, each change once, and what is not waits on as it was. */
  ghost predicate TakenOff(
      start: map<string, PendingChange>, pending: map<string, PendingChange>, due: seq<PendingChange>, now: int)
  {
    && DueOnce(due, start, now)
    && (forall c :: c in due <==> exists k :: k in start && start[k] == c && now >= c.p.dueAt)
    && (forall k :: k in pending <==> k in start && now < start[k].p.dueAt)
    && forall k :: k in pending ==> pending[k] == start[k]
  }

  /** On the way: the keys in left are still to be looked at. */
  ghost predicate Taking(
      start: map<string, PendingChange>, left: set<string>, pending: map<string, PendingChange>, keys: seq<string>,
      due: seq<PendingChange>, now: int)
  {
    && left <= start.Keys && TakenFor(keys, due, start)
    && (forall k :: k in pending <==> k in start && (k in left || now < start[k].p.dueAt))
    && (forall k :: k in pending ==> pending[k] == start[k])
    && (forall k :: k in keys <==> k in start && k !in left && now >= start[k].p.dueAt)
  }

  lemma {:induction false} TakeOne(
      start: map<string, PendingChange>, left: set<string>, pending: map<string, PendingChange>, keys: seq<string>,
      due: seq<PendingChange>, now: int, k: string)
    requires Taking(start, left, pending, keys, due, now) && k in left && now >= start[k].p.dueAt
    ensures Taking(start, left - {k}, pending - {k}, keys + [k], due + [pending[k]], now)
  {
    assert k !in keys;
  }

  lemma {:induction false} LeaveOne(
      start: map<string, PendingChange>, left: set<string>, pending: map<string, PendingChange>, keys: seq<string>,
      due: seq<PendingChange>, now: int, k: string)
    requires Taking(start, left, pending, keys, due, now) && k in left && now < start[k].p.dueAt
    ensures Taking(start, left - {k}, pending, keys, due, now)
  {
  }

  lemma {:induction false} AllTaken(
      start: map<string, PendingChange>, pending: map<string, PendingChange>, keys: seq<string>,
      due: seq<PendingChange>, now: int)
    requires Taking(start, {}, pending, keys, due, now)
    ensures TakenOff(start, pending, due, now)
  {
    assert AllDue(keys, start, now);
    forall c | exists k :: k in start && start[k] == c && now >= c.p.dueAt ensures c in due {
      var k :| k in start && start[k] == c && now >= c.p.dueAt;
      var i :| 0 <= i < |keys| && keys[i] == k;
      assert due[i] == c;
    }
    forall c | c in due ensures exists k :: k in start && start[k] == c && now >= c.p.dueAt {
      var i :| 0 <= i < |due| && due[i] == c;
      assert keys[i] in keys;
    }
  }

  /** The same changes in another order. */
  lemma {:induction false} DueReordered(
      start: map<string, PendingChange>, pending: map<string, PendingChange>, due: seq<PendingChange>,
      sorted: seq<PendingChange>, now: int)
    requires TakenOff(start, pending, due, now) && multiset(sorted) == multiset(due)
    ensures TakenOff(start, pending, sorted, now)
  {
    Rearranged(sorted, due);
  }

  class Reloader {
    const debounce: int
    const byDefault: On
    const digest: string -> string
    var pending: map<string, PendingChange>
    var waves: seq<Wave>
    var blocked: set<string>
    ghost var journal: seq<Entry>

    ghost function TheBooks(): Books
      reads this
    {
      Books(blocked, journal)
    }

    ghost function TheSystem(): System
      reads this, waves
    {
      System(Snapshot(waves), TheBooks())
    }

    /** Each of those waves has had its turn, and those that are not finished are kept,
        all waiting for a restart. */
    ghost predicate Led(before: System, mine: seq<Wave>, turns: seq<Turn>)
      reads this, waves, mine
    {
      && |turns| == |mine| && System(Snapshot(mine), TheBooks()) == AdvanceEach(before, turns)
      && waves == Unfinished(mine) && forall w :: w in waves ==> w.current.Some?
    }

    ghost predicate Valid()
      reads this, waves
    {
      Kept(TheBooks()) && Distinct(waves) && forall w :: w in waves ==> w.Valid()
    }

    constructor (debounce: int, byDefault: On, digest: string -> string)
      ensures Valid() && pending == map[] && waves == [] && blocked == {}
    {
      this.debounce, this.byDefault, this.digest := debounce, if byDefault.Always? then Always else Auto, digest;
      pending, waves, blocked, journal := map[], [], {}, [];
    }

    static method WithKeys(some: set<string>, keys: seq<string>) returns (all: set<string>)
      ensures all == some + Elements(keys)
    {
      all := some;
      for i := 0 to |keys|
        invariant all == some + Elements(keys[..i])
      {
        assert keys[..i + 1] == keys[..i] + [keys[i]];
        ElementsAppend(keys[..i], [keys[i]]);
        all := all + {keys[i]};
      }
      assert keys[..|keys|] == keys;
    }

    /** An update of a watched namespace is merged into what waits for that object. */
    method QueueChange(ns: string, ref: ObjRef, u: Update)
      modifies this`pending
      ensures var key := PendingKey(ns, ref);
              var waiting := if key in old(pending) then Some(old(pending)[key].p) else None;
              match AfterUpdate(waiting, u, debounce)
              case None => pending == old(pending)
              case Some(p) =>
                && pending.Keys == old(pending).Keys + {key} && pending[key].p == p
                && pending[key]
                   == (if key in old(pending) then old(pending)[key] else PendingChange(ns, ref, p)).(p := p)
                && forall k :: k in old(pending) && k != key ==> pending[k] == old(pending)[k]
    {
      if !u.watched {
        assert PendingKey(ns, ref) in pending ==> pending.Keys + {PendingKey(ns, ref)} == pending.Keys;
        return;
      }
      var keys := ChangedKeys(u.before, u.after);
      if keys == [] {
        assert Changed(u.before, u.after) == {};
        assert PendingKey(ns, ref) in pending ==> pending.Keys + {PendingKey(ns, ref)} == pending.Keys;
        return;
      }
      assert keys[0] in Elements(keys);
      var key := PendingKey(ns, ref);
      var c := if key in pending then pending[key]
        else PendingChange(ns, ref, Pending({}, u.marks, u.after, u.now, u.now));
      var touched := WithKeys(c.p.keys, keys);
      assert {} + Elements(keys) == Elements(keys);
      pending := pending[key := c.(p := c.p.(keys := touched, marks := u.marks, data := u.after,
        dueAt := u.now + debounce))];
    }

    /** The changes whose window has passed, taken off the list. */
    method TakeDue(now: int) returns (due: seq<PendingChange>)
      modifies this`pending
      ensures TakenOff(old(pending), pending, due, now)
    {
      due := [];
      ghost var start, keys := pending, [];
      var left := pending.Keys;
      while left != {}
        invariant Taking(start, left, pending, keys, due, now)
        decreases left
      {
        var k :| k in left;
        if now >= pending[k].p.dueAt {
          TakeOne(start, left, pending, keys, due, now, k);
          due, keys := due + [pending[k]], keys + [k];
          pending := pending - {k};
        } else {
          LeaveOne(start, left, pending, keys, due, now, k);
        }
        left := left - {k};
      }
      AllTaken(start, pending, keys, due, now);
    }

    /** The workloads the change restarts, by name. */
    method AffectedWorkloads(c: PendingChange, keys: seq<string>, listed: seq<Reloadable>)
      returns (targets: seq<WorkloadRef>)
      requires ListedOnce(listed)
      ensures forall wl :: wl in targets <==>
                             exists i :: 0 <= i < |listed| && listed[i].wl == wl
                                         && ShouldReload(listed[i].rules, c.ref, listed[i].use, keys, c.p.marks,
                                            byDefault)
      ensures Distinct(targets) && Sorted(targets, NameLeq)
    {
      var found: seq<WorkloadRef> := [];
      for i := 0 to |listed|
        invariant forall wl :: wl in found <==>
                                 exists j :: 0 <= j < i && listed[j].wl == wl
                                             && ShouldReload(listed[j].rules, c.ref, listed[j].use, keys, c.p.marks,
                                                byDefault)
        invariant Distinct(found)
      {
        if ShouldReload(listed[i].rules, c.ref, listed[i].use, keys, c.p.marks, byDefault) {
          assert listed[i].wl !in found;
          found := found + [listed[i].wl];
        }
      }
      NamesOrdered();
      targets := SortBy(found, NameLeq);
      Rearranged(found, targets);
    }

    /** A wave for the workloads affected, if there are any. */
    method StartWave(c: PendingChange, listed: seq<Reloadable>) returns (ghost started: seq<Wave>)
      requires Valid() && ListedOnce(listed)
      modifies this`waves
      ensures Valid() && waves == old(waves) + started && fresh(started) && Snapshot(started) == Unstarted(started)
      ensures |started| == if Restarts(c, listed, byDefault) then 1 else 0
      ensures started != [] ==> IsWaveOf(started[0], c, listed, byDefault, digest)
    {
      started := [];
      var keys := KeyList(c.p.keys);
      var targets := AffectedWorkloads(c, keys, listed);
      assert targets != [] <==> Restarts(c, listed, byDefault) by {
        if i :| 0 <= i < |listed| && Selects(c, listed[i], byDefault) {
          assert listed[i].wl in targets;
        } else if targets != [] {
          assert targets[0] in targets;
        }
      }
      if targets == [] { return; }
      var w := new Wave(Change(c.ns, c.ref, c.p.data, digest), targets);
      waves, started := waves + [w], [w];
    }

    method KeyList(keys: set<string>) returns (out: seq<string>)
      ensures out == SortedOf(keys)
    {
      out := [];
      var left := keys;
      while left != {}
        invariant left <= keys && Distinct(out) && Elements(out) == keys - left
        decreases left
      {
        var k :| k in left;
        assert k !in Elements(out);
        ElementsAppend(out, [k]);
        out, left := out + [k], left - {k};
      }
      assert Elements(out) == keys;
      SortedListing(out);
      out := Sort(out);
    }

    /** restartForReload: true when the wave is to wait for the workload. */
    method RestartForReload(w: Wave, wl: WorkloadRef) returns (waits: bool, ghost k: Look)
      requires w.current.None?
      modifies w`record, w`current, w`hash, w`startedAt, this`journal
      ensures (w.Model(), TheBooks()) == Restarting(w.change, old(w.Model()), old(TheBooks()), wl, k)
      ensures waits <==> w.current.Some?
    {
      var answer: Answer := *;
      var found: Option<Template> := *;
      var clock: int := *;
      k := Look(found, answer, clock);
      match found {
        case None =>
          w.RecordOutcome(wl, Failed);
          waits := false;
        case Some(template) =>
          waits := RestartFrom(w, wl, template, answer, clock);
      }
    }

    /** usedHash of what the template sees of the change's values. */
    static method VersionOf(change: Change, template: Template) returns (hash: string)
      ensures hash == VersionFor(change, template)
    {
      var use := match template.use case Some(u) => u case None => Use(true, {}, false);
      var stream := UsedStream(use, change.data);
      hash := change.digest(stream);
    }

    method RestartFrom(w: Wave, wl: WorkloadRef, template: Template, answer: Answer, clock: int)
      returns (waits: bool)
      requires w.current.None?
      modifies w`record, w`current, w`hash, w`startedAt, this`journal
      ensures (w.Model(), TheBooks()) == Restarting(w.change, old(w.Model()), old(TheBooks()), wl,
              Look(Some(template), answer, clock))
      ensures waits <==> w.current.Some?
    {
      var hash := VersionOf(w.change, template);
      var key := BlockKey(w.change.ns, wl, hash);
      if key in blocked {
        w.RecordOutcome(wl, Blocked);
        return false;
      }
      if template.recorded == hash {
        w.RecordOutcome(wl, UpToDate);
        return false;
      }
      journal := journal + [Sent(key)];
      w.RecordOutcome(wl, FateOf(answer));
      if answer != GateApplied || wl.kind == "CronJob" { return false; }
      w.current, w.hash, w.startedAt := Some(wl), hash, clock;
      waits := true;
    }

    /** failWave: the version is blocked for that workload, the rest are skipped. */
    method FailWave(w: Wave)
      requires w.current.Some?
      modifies w`record, w`current, w`todo, w`done, this`blocked, this`journal
      ensures (w.Model(), TheBooks()) == Failing(w.change, old(w.Model()), old(TheBooks()))
    {
      var cur := w.current.value;
      var key := BlockKey(w.change.ns, cur, w.hash);
      blocked, journal := blocked + {key}, journal + [Stalled(key)];
      w.RecordOutcome(cur, Failed);
      ghost var start := w.Model();
      for i := 0 to |w.todo|
        invariant w.todo == old(w.todo) && w.Model() == SkipAll(start, w.todo[..i])
        invariant TheBooks() == Books(old(blocked) + {key}, old(journal) + [Stalled(key)])
      {
        assert w.todo[..i + 1][..i] == w.todo[..i];
        w.RecordOutcome(w.todo[i], Skipped);
      }
      assert w.todo[..|w.todo|] == w.todo;
      w.todo, w.current, w.done := [], None, true;
    }

    /** advanceWave's loop: the next workloads, until one is to be waited for. */
    method WorkThrough(w: Wave) returns (ghost looks: seq<Look>)
      requires w.current.None?
      modifies w`record, w`current, w`hash, w`startedAt, w`todo, w`done, this`journal
      ensures (w.Model(), TheBooks()) == Working(w.change, old(w.Model()), old(TheBooks()), looks)
      ensures w.done || w.current.Some?
    {
      looks := [];
      ghost var start, books := w.Model(), TheBooks();
      while w.todo != []
        invariant (w.Model(), TheBooks()) == WorkOn(w.change, start, books, looks) && w.current.None?
        decreases |w.todo|
      {
        var next := w.todo[0];
        w.todo := w.todo[1..];
        var waits;
        ghost var k;
        waits, k := RestartForReload(w, next);
        assert (looks + [k])[..|looks|] == looks;
        looks := looks + [k];
        if waits { return; }
      }
      w.done := true;
    }

    /** advanceWave: the workload restarted last is looked at first; the wave stays with
        it, fails with it, or goes on. The turn says what was seen, and when. */
    method AdvanceWave(w: Wave) returns (ghost t: Turn)
      requires Kept(TheBooks()) && w.Valid()
      modifies w, this`blocked, this`journal
      ensures t.books == old(TheBooks()) && (w.Model(), TheBooks()) == Turned(w.change, old(w.Model()), t)
      ensures Kept(TheBooks()) && old(blocked) <= blocked && w.Valid() && (w.done || w.current.Some?)
    {
      var seen: Seen := *;
      var now: int := *;
      t := Turn(TheBooks(), seen, now, []);
      ghost var start := w.Model();
      if w.current.Some? {
        var verdict := Verify(w.current.value.kind, seen, now - w.startedAt);
        SoundAdvance(w.change, start, t.books, verdict, [], w.targets);
        KeptAdvance(w.change, start, t.books, verdict, []);
        if verdict.Waiting? { return; }
        if verdict.Broken? {
          FailWave(w);
          return;
        }
        w.RecordOutcome(w.current.value, Healthy);
        w.current := None;
      }
      ghost var looks := WorkThrough(w);
      t := t.(looks := looks);
      SoundAdvance(w.change, start, t.books, Judged(start, seen, now), looks, w.targets);
      KeptAdvance(w.change, start, t.books, Judged(start, seen, now), looks);
    }

    /** The waves of the changes that are due, in the order in which they began. */
    method StartWaves(due: seq<PendingChange>, listed: PendingChange -> seq<Reloadable>)
      returns (ghost started: seq<Wave>)
      requires Valid() && forall c :: ListedOnce(listed(c))
      modifies this`waves
      ensures Valid() && waves == old(waves) + started && fresh(started)
      ensures Snapshot(started) == Unstarted(started)
      ensures AreWavesOf(started, due, listed, byDefault, digest)
    {
      started := [];
      for i := 0 to |due|
        invariant Valid() && waves == old(waves) + started && fresh(started)
        invariant Snapshot(started) == Unstarted(started)
        invariant AreWavesOf(started, due[..i], listed, byDefault, digest)
      {
        assert due[..i + 1] == due[..i] + [due[i]];
        ghost var more := StartWave(due[i], listed(due[i]));
        StartersPush(started, more, due[..i], due[i], listed, byDefault, digest);
        assert Snapshot(started + more) == Snapshot(started) + Snapshot(more);
        started := started + more;
      }
      assert due[..|due|] == due;
    }

    /** What the leader does with them: starts their waves, the oldest first, moves each
        of its waves on by one turn and lets go of those that are finished. */
    method Lead(due: seq<PendingChange>, listed: PendingChange -> seq<Reloadable>)
      returns (ghost started: seq<Wave>, ghost turns: seq<Turn>)
      requires Valid() && forall c :: ListedOnce(listed(c))
      modifies this`waves, this`blocked, this`journal, waves
      ensures Valid() && old(blocked) <= blocked
      ensures AreWavesOf(started, due, listed, byDefault, digest) && fresh(started)
      ensures Led(BegunWith(old(TheSystem()), started), old(waves) + started, turns)
    {
      started := StartWaves(due, listed);
      assert Snapshot(waves) == old(Snapshot(waves)) + Unstarted(started);
      turns := TurnAll();
    }

    method TurnAll() returns (ghost turns: seq<Turn>)
      requires Valid()
      modifies this`waves, this`blocked, this`journal, waves
      ensures Valid() && old(blocked) <= blocked && Led(old(TheSystem()), old(waves), turns)
    {
      ghost var before, mine := TheSystem(), waves;
      turns := MoveOn();
      ghost var after := TheSystem();
      DropDone();
      UnfinishedAre(mine);
      assert Snapshot(mine) == after.waves;
      assert System(Snapshot(mine), TheBooks()) == AdvanceEach(before, turns);
    }

    /** reloadTick. Every controller drops the changes that are due; only the leader
        acts on them, and gives every wave under way one turn. */
    method ReloadTick(now: int, leading: bool, listed: PendingChange -> seq<Reloadable>)
      returns (ghost due: seq<PendingChange>, ghost started: seq<Wave>, ghost turns: seq<Turn>)
      requires Valid() && forall c :: ListedOnce(listed(c))
      modifies this, waves
      ensures Valid() && old(blocked) <= blocked
      ensures TakenOff(old(pending), pending, due, now)
      ensures leading ==>
                && (forall i, j :: 0 <= i < j < |due| ==> due[i].p.startAt <= due[j].p.startAt)
                && AreWavesOf(started, due, listed, byDefault, digest) && fresh(started)
      ensures leading ==> Led(BegunWith(old(TheSystem()), started), old(waves) + started, turns)
      ensures !leading ==> started == [] && waves == old(waves) && TheSystem() == old(TheSystem())
    {
      ghost var before := TheSystem();
      var taken := TakeDue(now);
      assert TheSystem() == before;
      due, started, turns := taken, [], [];
      if !leading { return; }
      var sorted := SortBy(taken, ByStart());
      DueReordered(old(pending), pending, taken, sorted, now);
      due := sorted;
      started, turns := Lead(sorted, listed);
    }

    /** Each wave in turn, on the books as the one before it left them. */
    method MoveOn() returns (ghost turns: seq<Turn>)
      requires Valid()
      modifies waves, this`blocked, this`journal
      ensures Valid() && old(blocked) <= blocked && waves == old(waves)
      ensures |turns| == |waves|
      ensures TheSystem() == AdvanceEach(old(TheSystem()), turns)
      ensures forall w :: w in waves ==> w.done || w.current.Some?
    {
      turns := [];
      for i := 0 to |waves|
        invariant Valid() && old(blocked) <= blocked && waves == old(waves) && |turns| == i
        invariant TheSystem() == AdvanceEach(old(TheSystem()), turns)
        invariant forall j :: 0 <= j < i ==> waves[j].done || waves[j].current.Some?
      {
        ghost var before, books := Snapshot(waves), TheBooks();
        ghost var t := AdvanceWave(waves[i]);
        assert Snapshot(waves) == before[i := (waves[i].change, waves[i].Model())];
        assert (turns + [t])[..i] == turns;
        turns := turns + [t];
      }
    }

    method DropDone()
      requires Valid()
      modifies this`waves
      ensures Valid() && waves == Unfinished(old(waves))
    {
      var kept: seq<Wave> := [];
      for i := 0 to |waves|
        invariant kept == Unfinished(waves[..i])
      {
        assert waves[..i + 1][..i] == waves[..i];
        if !waves[i].done {
          kept := kept + [waves[i]];
        }
      }
      assert waves[..|waves|] == waves;
      UnfinishedAre(waves);
      waves := kept;
    }
  }
}
