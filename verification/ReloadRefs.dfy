/** internal/kube/reload_refs.go and reload_policy.go: which keys of a ConfigMap or
    Secret changed, whether a pod template uses them, what a restart is recorded
    under, and which workloads a change restarts. */
module ReloadRefs {
  import opened Prelude
  import opened Text

  datatype Kind = ConfigMap | Secret

  datatype ObjRef = ObjRef(kind: Kind, name: string)

  /** Keys and values; a value is its bytes, one character each. */
  type Data = map<string, string>

  /** What of an object a pod template refers to: all of it or some keys, and whether
      only a restart brings a new value in. */
  datatype Use = Use(allKeys: bool, keys: set<string>, needsRestart: bool)

  // ---- Which keys changed ----

  predicate Differs(k: string, before: Data, after: Data) {
    if k in before && k in after then before[k] != after[k] else k in before || k in after
  }

  function Changed(before: Data, after: Data): set<string> {
    set k | k in before.Keys + after.Keys && Differs(k, before, after)
  }

  /** The keys in which two versions differ, sorted. */
  method ChangedKeys(before: Data, after: Data) returns (out: seq<string>)
    ensures Increasing(out) && Elements(out) == Changed(before, after)
  {
    out := [];
    var left := after.Keys;
    while left != {}
      invariant left <= after.Keys && Distinct(out)
      invariant Elements(out) == set k | k in after.Keys - left && Differs(k, before, after)
      decreases left
    {
      var k :| k in left;
      if k !in before || before[k] != after[k] {
        assert k !in Elements(out);
        ElementsAppend(out, [k]);
        out := out + [k];
      }
      left := left - {k};
    }
    left := before.Keys;
    while left != {}
      invariant left <= before.Keys && Distinct(out)
      invariant Elements(out) == set k | k in after.Keys + (before.Keys - left) && Differs(k, before, after)
      decreases left
    {
      var k :| k in left;
      if k !in after {
        assert k !in Elements(out);
        ElementsAppend(out, [k]);
        out := out + [k];
      }
      left := left - {k};
    }
    SortSorts(out);
    out := Sort(out);
  }

  // ---- Whether a template uses them ----

  predicate Names(u: Use, k: string) {
    u.allKeys || k in u.keys
  }

  predicate Affects(u: Use, changed: seq<string>) {
    exists k :: k in changed && Names(u, k)
  }

  /** affects, as the code decides it. */
  method DecideAffects(u: Use, changed: seq<string>) returns (yes: bool)
    ensures yes <==> Affects(u, changed)
  {
    if changed == [] { return false; }
    if u.allKeys {
      assert changed[0] in changed && Names(u, changed[0]);
      return true;
    }
    for i := 0 to |changed|
      invariant forall j :: 0 <= j < i ==> !Names(u, changed[j])
    {
      if changed[i] in u.keys {
        assert Names(u, changed[i]);
        return true;
      }
    }
    yes := false;
  }

  /** What the template sees of the object. */
  function Used(u: Use, data: Data): Data {
    map k | k in data && Names(u, k) :: data[k]
  }

  /** A change affects a template exactly when what it sees is different. */
  lemma {:induction false} AffectsIffUsedDiffers(u: Use, before: Data, after: Data, changed: seq<string>)
    requires Elements(changed) == Changed(before, after)
    ensures Affects(u, changed) <==> Used(u, before) != Used(u, after)
  {
    if Affects(u, changed) {
      var k :| k in changed && Names(u, k);
      assert k in Elements(changed);
      assert k in Used(u, before) <==> k in before;
      assert k in Used(u, after) <==> k in after;
      assert Differs(k, before, after);
    } else {
      forall k ensures k in Used(u, before) <==> k in Used(u, after)
               ensures k in Used(u, before) && k in Used(u, after) ==> before[k] == after[k]
      {
        if Names(u, k) && (k in before || k in after) {
          assert k !in Elements(changed);
        }
      }
      assert Used(u, before) == Used(u, after);
    }
  }

  // ---- What a restart is recorded under ----

  const NUL := '\0'

  function Entry(k: string, v: string): string {
    k + [NUL] + (v + [NUL])
  }

  /** The text that is hashed, for the keys listed. */
  function Stream(keys: seq<string>, data: Data): string
    requires forall k :: k in keys ==> k in data
  {
    if keys == [] then "" else Entry(keys[0], data[keys[0]]) + Stream(keys[1..], data)
  }

  lemma {:induction false} ListedKeys(data: Data)
    ensures forall k :: k in SortedOf(data.Keys) ==> k in data
  {
  }

  ghost function HashInput(u: Use, data: Data): string {
    var seen := Used(u, data);
    ListedKeys(seen);
    Stream(SortedOf(seen.Keys), seen)
  }

  /** Of an object, the keys that a template sees, sorted. */
  method UsedKeys(u: Use, data: Data) returns (keys: seq<string>)
    ensures keys == SortedOf(Used(u, data).Keys)
  {
    keys := [];
    var left := data.Keys;
    while left != {}
      invariant left <= data.Keys && Distinct(keys)
      invariant Elements(keys) == set k | k in data.Keys - left && Names(u, k)
      decreases left
    {
      var k :| k in left;
      if Names(u, k) {
        assert k !in Elements(keys);
        ElementsAppend(keys, [k]);
        keys := keys + [k];
      }
      left := left - {k};
    }
    assert Elements(keys) == Used(u, data).Keys;
    SortedListing(keys);
    keys := Sort(keys);
  }

  /** usedHash up to the hash itself: the keys used, in order, each with its value. */
  method UsedStream(u: Use, data: Data) returns (h: string)
    ensures h == HashInput(u, data)
  {
    var keys := UsedKeys(u, data);
    ghost var seen := Used(u, data);
    ListedKeys(seen);
    h := "";
    for i := 0 to |keys|
      invariant h + Stream(keys[i..], seen) == Stream(keys, seen)
    {
      assert keys[i] in keys;
      StreamNext(h, keys, i, seen);
      h := h + Entry(keys[i], data[keys[i]]);
    }
  }

  lemma {:induction false} StreamNext(h: string, keys: seq<string>, i: nat, data: Data)
    requires i < |keys| && forall k :: k in keys ==> k in data
    ensures h + Stream(keys[i..], data) == h + Entry(keys[i], data[keys[i]]) + Stream(keys[i + 1..], data)
  {
  }

  /** An unaffected template keeps its hash, whatever the hash is. */
  lemma {:induction false} UnaffectedKeepsHash(u: Use, before: Data, after: Data, changed: seq<string>)
    requires Elements(changed) == Changed(before, after) && !Affects(u, changed)
    ensures HashInput(u, before) == HashInput(u, after)
  {
    AffectsIffUsedDiffers(u, before, after, changed);
  }

  predicate Plain(data: Data) {
    forall k :: k in data ==> NUL !in k && NUL !in data[k]
  }

  /** Where no value holds a NUL the text tells contents apart, so two versions share
      a hash input exactly when the template sees the same of both. */
  lemma {:induction false} HashInputExact(u: Use, v: Use, before: Data, after: Data)
    requires Plain(before) && Plain(after)
    ensures HashInput(u, before) == HashInput(v, after) <==> Used(u, before) == Used(v, after)
  {
    var a, b := Used(u, before), Used(v, after);
    ListedKeys(a);
    ListedKeys(b);
    if HashInput(u, before) == HashInput(v, after) {
      StreamExact(SortedOf(a.Keys), a, SortedOf(b.Keys), b);
      assert a.Keys == b.Keys;
      forall k | k in a ensures a[k] == b[k] {
        assert k in Elements(SortedOf(a.Keys));
      }
    }
  }

  lemma {:induction false} EntryThen(keys: seq<string>, data: Data)
    requires keys != [] && forall k :: k in keys ==> k in data
    ensures Stream(keys, data) == keys[0] + [NUL] + (data[keys[0]] + [NUL] + Stream(keys[1..], data))
  {
  }

  lemma {:induction false} StreamExact(ks: seq<string>, a: Data, ls: seq<string>, b: Data)
    requires (forall k :: k in ks ==> k in a) && (forall k :: k in ls ==> k in b)
    requires Plain(a) && Plain(b) && Stream(ks, a) == Stream(ls, b)
    ensures ks == ls && forall k :: k in ks ==> a[k] == b[k]
  {
    if ks != [] && ls != [] {
      EntryThen(ks, a);
      EntryThen(ls, b);
      CutUnique(ks[0], a[ks[0]] + [NUL] + Stream(ks[1..], a), ls[0], b[ls[0]] + [NUL] + Stream(ls[1..], b), NUL);
      CutUnique(a[ks[0]], Stream(ks[1..], a), b[ls[0]], Stream(ls[1..], b), NUL);
      StreamExact(ks[1..], a, ls[1..], b);
      assert ks == [ks[0]] + ks[1..] && ls == [ls[0]] + ls[1..];
    }
  }

  /** One key whose value runs on, after a NUL, into what looks like the next. */
  function Joined(k: string, x: string, l: string, y: string): Data {
    map[k := x + [NUL] + l + [NUL] + y]
  }

  function Apart(k: string, x: string, l: string, y: string): Data {
    map[k := x, l := y]
  }

  /** A value may hold a NUL (a Secret's may). Then two objects with different keys
      are hashed from the same text, for any two keys and any two values. */
  lemma {:induction false} NulHidesAChange(k: string, x: string, l: string, y: string)
    requires Less(k, l)
    ensures var u, joined, apart := Use(true, {}, true), Joined(k, x, l, y), Apart(k, x, l, y);
            Used(u, joined) != Used(u, apart) && HashInput(u, joined) == HashInput(u, apart)
  {
    var u, joined, apart := Use(true, {}, true), Joined(k, x, l, y), Apart(k, x, l, y);
    LessAntisym(k, l);
    assert Used(u, joined) == joined && Used(u, apart) == apart;
    assert l in apart && l !in joined;
    assert Elements([k]) == joined.Keys && Elements([k, l]) == apart.Keys;
    ListingUnique(SortedOf(joined.Keys), [k]);
    ListingUnique(SortedOf(apart.Keys), [k, l]);
    EntryThen([k], joined);
    EntryThen([k, l], apart);
    EntryThen([l], apart);
    assert [k, l][1..] == [l];
    assert joined[k] + [NUL] + "" == x + [NUL] + (l + [NUL] + (y + [NUL] + ""));
  }

  // ---- Which workloads a change restarts ----

  datatype On = Always | Auto | Unset

  /** A workload's reload annotations, read. */
  datatype Rules = Rules(off: set<Kind>, named: set<ObjRef>, search: bool, on: On)

  /** An object's: whether it opts out, and whether it is marked for search. */
  datatype Marks = Marks(ignored: bool, matches: bool)

  predicate ShouldReload(r: Rules, ref: ObjRef, use: Option<Use>, changed: seq<string>, marks: Marks, byDefault: On) {
    if ref.kind in r.off || marks.ignored || changed == [] then false
    else if ref in r.named then true
    else if use.None? || (r.search && !marks.matches) || !Affects(use.value, changed) then false
    else (if r.on.Unset? then byDefault else r.on).Always? || use.value.needsRestart
  }

  /** A workload that does not ask for an object by name is never restarted for a
      change it does not see. */
  lemma {:induction false} UnseenChangeNeverRestarts(
      r: Rules, ref: ObjRef, use: Option<Use>, before: Data, after: Data, changed: seq<string>, marks: Marks,
      byDefault: On)
    requires Elements(changed) == Changed(before, after) && ref !in r.named
    requires use.Some? ==> Used(use.value, before) == Used(use.value, after)
    ensures !ShouldReload(r, ref, use, changed, marks, byDefault)
  {
    if use.Some? {
      AffectsIffUsedDiffers(use.value, before, after, changed);
    }
  }

  /** More changed keys never turn a restart off. */
  lemma {:induction false} MoreKeysStillReload(
      r: Rules, ref: ObjRef, use: Option<Use>, some: seq<string>, more: seq<string>, marks: Marks, byDefault: On)
    requires Elements(some) <= Elements(more) && ShouldReload(r, ref, use, some, marks, byDefault)
    ensures ShouldReload(r, ref, use, more, marks, byDefault)
  {
    assert some[0] in Elements(some);
    if use.Some? && Affects(use.value, some) {
      var k :| k in some && Names(use.value, k);
      assert k in Elements(some);
    }
  }

  // ---- Changes that wait out the debounce window ----

  /** A change waiting: every key touched since it began, and the latest values. */
  datatype Pending = Pending(keys: set<string>, marks: Marks, data: Data, dueAt: int, startAt: int)

  /** One update of an object as the informer reports it. */
  datatype Update = Update(before: Data, after: Data, marks: Marks, watched: bool, now: int)

  function AfterUpdate(p: Option<Pending>, u: Update, debounce: int): Option<Pending> {
    var keys := Changed(u.before, u.after);
    if !u.watched || keys == {} then p
    else if p.None? then Some(Pending(keys, u.marks, u.after, u.now + debounce, u.now))
    else Some(Pending(p.value.keys + keys, u.marks, u.after, u.now + debounce, p.value.startAt))
  }

  function AfterUpdates(p: Option<Pending>, us: seq<Update>, debounce: int): Option<Pending> {
    if us == [] then p else AfterUpdate(AfterUpdates(p, us[..|us| - 1], debounce), us[|us| - 1], debounce)
  }

  /** Each update starts from where the one before it left off. */
  predicate Chained(us: seq<Update>) {
    forall i :: 0 <= i < |us| - 1 ==> us[i].after == us[i + 1].before
  }

  /** The versions of an object, first and last. */
  function First(us: seq<Update>): Data
    requires us != []
  {
    us[0].before
  }

  function Final(us: seq<Update>): Data
    requires us != []
  {
    us[|us| - 1].after
  }

  ghost predicate Covers(p: Option<Pending>, v0: Data, vn: Data) {
    match p
    case None => v0 == vn
    case Some(w) => Changed(v0, vn) <= w.keys && w.data == vn
  }

  lemma {:induction false} NoKeysSame(v: Data, w: Data)
    requires Changed(v, w) == {}
    ensures v == w
  {
    forall k ensures k in v <==> k in w
             ensures k in v && k in w ==> v[k] == w[k]
    {
      assert k !in Changed(v, w);
      if k in v || k in w { assert !Differs(k, v, w); }
    }
  }

  lemma {:induction false} ChangedCompose(v0: Data, v1: Data, v2: Data)
    ensures Changed(v0, v2) <= Changed(v0, v1) + Changed(v1, v2)
  {
  }

  lemma {:induction false} CoversStep(p: Option<Pending>, v0: Data, u: Update, debounce: int)
    requires Covers(p, v0, u.before) && u.watched
    ensures Covers(AfterUpdate(p, u, debounce), v0, u.after)
  {
    if Changed(u.before, u.after) == {} {
      NoKeysSame(u.before, u.after);
    } else {
      ChangedCompose(v0, u.before, u.after);
    }
  }

  /** The debounce loses nothing: after any series of updates of a watched object
      nothing waits only if the object is back where it was untouched; otherwise the
      keys that wait cover every key that differs between the first version and the
      last, and the values that wait are the last. */
  lemma {:induction false} DebounceLosesNothing(us: seq<Update>, debounce: int)
    requires us != [] && Chained(us) && forall i :: 0 <= i < |us| ==> us[i].watched
    ensures Covers(AfterUpdates(None, us, debounce), First(us), Final(us))
  {
    var front, last := us[..|us| - 1], us[|us| - 1];
    if front == [] {
      CoversStep(None, last.before, last, debounce);
      assert AfterUpdates(None, front, debounce) == None;
    } else {
      DebounceLosesNothing(front, debounce);
      assert us[|us| - 2].after == us[|us| - 1].before;
      CoversStep(AfterUpdates(None, front, debounce), First(us), last, debounce);
    }
  }

  /** So a template that would be restarted for the net change, had it come as one
      update, is restarted for what waits. */
  lemma {:induction false} DebouncedStillReloads(
      us: seq<Update>, debounce: int, r: Rules, ref: ObjRef, use: Option<Use>, net: seq<string>, waiting: seq<string>,
      byDefault: On)
    requires us != [] && Chained(us) && forall i :: 0 <= i < |us| ==> us[i].watched
    requires Elements(net) == Changed(First(us), Final(us))
    requires var p := AfterUpdates(None, us, debounce); p.Some? ==> Elements(waiting) == p.value.keys
    ensures var p := AfterUpdates(None, us, debounce);
            && (p.None? ==> net == [])
            && (p.Some? && ShouldReload(r, ref, use, net, p.value.marks, byDefault)
                ==> ShouldReload(r, ref, use, waiting, p.value.marks, byDefault))
  {
    DebounceLosesNothing(us, debounce);
    var p := AfterUpdates(None, us, debounce);
    assert net != [] ==> net[0] in Elements(net);
    if p.None? {
      assert Changed(First(us), Final(us)) == {};
    } else if ShouldReload(r, ref, use, net, p.value.marks, byDefault) {
      MoreKeysStillReload(r, ref, use, net, waiting, p.value.marks, byDefault);
    }
  }

  /** The updates that touched a key. */
  function Touches(us: seq<Update>): seq<Update> {
    if us == [] then []
    else
      var u := us[|us| - 1];
      Touches(us[..|us| - 1]) + if u.watched && Changed(u.before, u.after) != {} then [u] else []
  }

  /** The change falls due one window after the last update that touched a key, is
      decided by the marks the object had then, and remembers when the first one came. */
  lemma {:induction false} DueAfterLastTouch(us: seq<Update>, debounce: int)
    ensures var p, ts := AfterUpdates(None, us, debounce), Touches(us);
            && (p.None? <==> ts == [])
            && (p.Some? ==>
                  && p.value.startAt == ts[0].now && p.value.dueAt == ts[|ts| - 1].now + debounce
                  && p.value.marks == ts[|ts| - 1].marks && p.value.data == ts[|ts| - 1].after)
  {
    if us != [] { DueAfterLastTouch(us[..|us| - 1], debounce); }
  }

  /** Updates that are not watched, or touch no key, leave nothing waiting. */
  lemma {:induction false} UnwatchedIsForgotten(us: seq<Update>, debounce: int)
    requires forall i :: 0 <= i < |us| ==> !us[i].watched || us[i].before == us[i].after
    ensures AfterUpdates(None, us, debounce) == None
  {
    if us != [] {
      UnwatchedIsForgotten(us[..|us| - 1], debounce);
      assert !us[|us| - 1].watched || us[|us| - 1].before == us[|us| - 1].after;
    }
  }

  predicate WatchedAs(us: seq<Update>, watched: seq<bool>) {
    |us| == |watched| && forall i :: 0 <= i < |us| ==> us[i].watched == watched[i]
  }

  /** Every series of updates of an object, its namespace watched at just these of
      them, is covered by what waits. */
  ghost predicate AlwaysCovered(watched: seq<bool>, debounce: int)
    requires watched != []
  {
    forall us :: WatchedAs(us, watched) && Chained(us)
      ==> Covers(AfterUpdates(None, us, debounce), First(us), Final(us))
  }

  /** A series in which only the update at i touches a key. */
  function OnlyAt(watched: seq<bool>, i: nat): (us: seq<Update>)
    requires i < |watched|
    ensures WatchedAs(us, watched)
  {
    seq(|watched|, j requires 0 <= j < |watched| =>
      Update(if j <= i then map[] else map["key" := "value"], if j < i then map[] else map["key" := "value"],
             Marks(false, false), watched[j], 0))
  }

  /** The debounce loses nothing exactly when every update came while the namespace
      was watched: miss any one of them and there is a series of which nothing waits
      although the object is not as it was. */
  lemma {:induction false} CoveredIffWatched(watched: seq<bool>, debounce: int)
    requires watched != []
    ensures AlwaysCovered(watched, debounce) <==> forall i :: 0 <= i < |watched| ==> watched[i]
  {
    if i: nat :| i < |watched| && !watched[i] {
      var us := OnlyAt(watched, i);
      UnwatchedIsForgotten(us, debounce);
      assert "key" in Final(us) && "key" !in First(us);
      assert Chained(us) && !Covers(AfterUpdates(None, us, debounce), First(us), Final(us));
    } else {
      forall us | WatchedAs(us, watched) && Chained(us)
        ensures Covers(AfterUpdates(None, us, debounce), First(us), Final(us))
      {
        DebounceLosesNothing(us, debounce);
      }
    }
  }
}
