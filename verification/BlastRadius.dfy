/** internal/kube/auditlog.go: how many namespaces may be acted on per window. */
module BlastRadii {
  import opened Prelude

  datatype Blast = Blast(maxNamespaces: int, window: int, counts: map<string, nat>, lastReset: int)

  predicate Expired(b: Blast, now: int) {
    now - b.lastReset >= b.window
  }

  /** An expired window is emptied, and restarts at a second reading of the clock. */
  function Emptied(b: Blast, now: int, again: int): Blast {
    if Expired(b, now) then b.(counts := map[], lastReset := again) else b
  }

  function Counted(b: Blast, ns: string): Blast {
    b.(counts := b.counts[ns := if ns in b.counts then b.counts[ns] + 1 else 1])
  }

  /** AllowAction as a function. */
  function AfterAction(b: Blast, ns: string, now: int, again: int): (Blast, bool) {
    var c := Emptied(b, now, again);
    if ns !in c.counts && |c.counts| >= c.maxNamespaces then (c, false) else (Counted(c, ns), true)
  }

  class BlastRadiusTracker {
    const maxNamespaces: int
    const window: int
    var namespaceCounts: map<string, nat>
    var lastReset: int

    function Model(): Blast
      reads this
    {
      Blast(maxNamespaces, window, namespaceCounts, lastReset)
    }

    constructor (maxNamespaces: int, window: int, now: int)
      ensures Model() == Blast(maxNamespaces, window, map[], now)
    {
      this.maxNamespaces := maxNamespaces;
      this.window := window;
      this.namespaceCounts := map[];
      this.lastReset := now;
    }

    method AllowAction(ns: string, now: int, again: int) returns (ok: bool)
      modifies this
      ensures (Model(), ok) == AfterAction(old(Model()), ns, now, again)
    {
      if now - lastReset >= window {
        namespaceCounts := map[];
        lastReset := again;
      }
      if ns !in namespaceCounts {
        if |namespaceCounts| >= maxNamespaces {
          return false;
        }
      }
      namespaceCounts := namespaceCounts[ns := if ns in namespaceCounts then namespaceCounts[ns] + 1 else 1];
      return true;
    }

    /** The answer AllowAction would give in the same state, spending nothing. */
    method WouldAllow(ns: string, now: int) returns (ok: bool)
      ensures forall again: int :: ok == AfterAction(Model(), ns, now, again).1
    {
      if now - lastReset >= window {
        return maxNamespaces > 0;
      }
      if ns in namespaceCounts {
        return true;
      }
      return |namespaceCounts| < maxNamespaces;
    }

    method AffectedNamespaces() returns (n: nat)
      ensures n == |Model().counts|
    {
      n := |namespaceCounts|;
    }
  }

  // ---- What the tracker promises over a run of calls ----

  /** One allowed action: its namespace, the clock it read, and how many times
      the window had been emptied before. */
  datatype Grant = Grant(ns: string, at: int, epoch: nat)

  /** Everything allowed so far, the current epoch, and when it was openedAt. */
  datatype History = History(grants: seq<Grant>, epoch: nat, openedAt: int)

  function NsOf(grants: seq<Grant>, epoch: nat): set<string> {
    set i | 0 <= i < |grants| && grants[i].epoch == epoch :: grants[i].ns
  }

  function NsBetween(grants: seq<Grant>, lo: int, hi: int): set<string> {
    set i | 0 <= i < |grants| && lo <= grants[i].at < hi :: grants[i].ns
  }

  function Limit(b: Blast): nat {
    if b.maxNamespaces > 0 then b.maxNamespaces else 0
  }

  function NextEpoch(h: History, b: Blast, now: int): History {
    if Expired(b, now) then h.(epoch := h.epoch + 1, openedAt := now) else h
  }

  function Note(h: History, b: Blast, ns: string, now: int, again: int): History {
    var h1 := NextEpoch(h, b, now);
    if AfterAction(b, ns, now, again).1 then h1.(grants := h1.grants + [Grant(ns, now, h1.epoch)]) else h1
  }

  ghost predicate Sound(b: Blast, h: History, now: int) {
    && h.openedAt <= b.lastReset && h.openedAt <= now
    && NsOf(h.grants, h.epoch) == b.counts.Keys
    && (forall e: nat :: |NsOf(h.grants, e)| <= Limit(b))
    && (forall i :: 0 <= i < |h.grants| ==> GrantSound(b, h, now, h.grants[i]))
    && Spaced(b, h.grants)
  }

  ghost predicate GrantSound(b: Blast, h: History, now: int, g: Grant) {
    && g.epoch <= h.epoch && g.at <= now
    && (g.epoch < h.epoch ==> g.at <= h.openedAt)
    && (g.epoch + 2 <= h.epoch ==> g.at + b.window <= h.openedAt)
    && (g.epoch == h.epoch ==> h.openedAt <= g.at)
  }

  /** Grants two or more epochs apart are at least a window apart. */
  ghost predicate Spaced(b: Blast, grants: seq<Grant>) {
    forall i, j :: 0 <= i < |grants| && 0 <= j < |grants| && grants[i].epoch + 2 <= grants[j].epoch
      ==> grants[i].at + b.window <= grants[j].at
  }

  /** Emptying the window opens an epoch. */
  lemma {:induction false} OpenSound(b: Blast, h: History, before: int, now: int, again: int)
    requires Sound(b, h, before) && before <= now <= again && b.lastReset <= now
    ensures Sound(Emptied(b, now, again), NextEpoch(h, b, now), now)
  {
  }

  lemma {:induction false} ActionSound(b: Blast, h: History, before: int, ns: string, now: int, again: int)
    requires Sound(b, h, before) && before <= now <= again && b.lastReset <= now
    ensures var b' := AfterAction(b, ns, now, again).0;
            Sound(b', Note(h, b, ns, now, again), again) && b'.lastReset <= again
  {
    OpenSound(b, h, before, now, again);
    var c, h1 := Emptied(b, now, again), NextEpoch(h, b, now);
    if AfterAction(b, ns, now, again).1 {
      GrantSoundPush(c, h1, now, Grant(ns, now, h1.epoch), ns, again);
    } else {
      Later(c, h1, now, again);
    }
  }

  lemma {:induction false} Later(b: Blast, h: History, now: int, later: int)
    requires Sound(b, h, now) && now <= later
    ensures Sound(b, h, later)
  {
  }

  lemma {:induction false} GrantSoundPush(c: Blast, h: History, now: int, g: Grant, ns: string, again: int)
    requires Sound(c, h, now) && now <= again
    requires g == Grant(ns, now, h.epoch) && (ns in c.counts || |c.counts| < c.maxNamespaces)
    ensures Sound(Counted(c, ns), h.(grants := h.grants + [g]), again)
  {
    var h' := h.(grants := h.grants + [g]);
    var c' := Counted(c, ns);
    assert c'.counts.Keys == c.counts.Keys + {ns};
    NsPush(h.grants, g, h.epoch);
    SizesPush(c, h, g);
    AllSoundPush(c, c', h, now, g, again);
    SpacedPush(c, h, now, g);
    assert Spaced(c', h'.grants);
  }

  lemma {:induction false} AllSoundPush(c: Blast, c': Blast, h: History, now: int, g: Grant, again: int)
    requires Sound(c, h, now) && now <= again && g.epoch == h.epoch && g.at == now && c'.window == c.window
    ensures var h' := h.(grants := h.grants + [g]);
            forall i :: 0 <= i < |h'.grants| ==> GrantSound(c', h', again, h'.grants[i])
  {
    var h' := h.(grants := h.grants + [g]);
    forall i | 0 <= i < |h'.grants| ensures GrantSound(c', h', again, h'.grants[i]) {
      if i < |h.grants| {
        assert GrantSound(c, h, now, h.grants[i]);
      }
    }
  }

  lemma {:induction false} SizesPush(c: Blast, h: History, g: Grant)
    requires NsOf(h.grants, h.epoch) == c.counts.Keys && g.epoch == h.epoch
    requires g.ns in c.counts || |c.counts| < c.maxNamespaces
    requires forall e: nat :: |NsOf(h.grants, e)| <= Limit(c)
    ensures forall e: nat :: |NsOf(h.grants + [g], e)| <= Limit(c)
  {
    forall e: nat ensures |NsOf(h.grants + [g], e)| <= Limit(c) {
      NsPush(h.grants, g, e);
      assert |NsOf(h.grants, e)| <= Limit(c);
      if e == h.epoch {
        assert |c.counts.Keys| == |c.counts|;
        if g.ns in c.counts {
          assert c.counts.Keys + {g.ns} == c.counts.Keys;
        }
      }
    }
  }

  lemma {:induction false} SpacedPush(c: Blast, h: History, now: int, g: Grant)
    requires Sound(c, h, now) && g.epoch == h.epoch && g.at == now
    ensures Spaced(c, h.grants + [g])
  {
  }

  lemma {:induction false} NsPush(grants: seq<Grant>, g: Grant, e: nat)
    ensures NsOf(grants + [g], e) == NsOf(grants, e) + (if e == g.epoch then {g.ns} else {})
  {
    var all := grants + [g];
    forall x | x in NsOf(grants, e) ensures x in NsOf(all, e) {
      var i :| 0 <= i < |grants| && grants[i].epoch == e && grants[i].ns == x;
      assert all[i] == grants[i];
    }
    if e == g.epoch {
      assert all[|grants|] == g;
    }
  }

  // ---- Any sequence of calls ----

  datatype Call = Call(ns: string, now: int, again: int)

  predicate Monotone(calls: seq<Call>, start: int) {
    forall i :: 0 <= i < |calls| ==>
      && start <= calls[i].now <= calls[i].again
      && (i > 0 ==> calls[i - 1].again <= calls[i].now)
  }

  function Run(b: Blast, calls: seq<Call>): (Blast, History) {
    if calls == [] then (b, History([], 0, b.lastReset))
    else
      var (b1, h) := Run(b, calls[..|calls| - 1]);
      var c := calls[|calls| - 1];
      (AfterAction(b1, c.ns, c.now, c.again).0, Note(h, b1, c.ns, c.now, c.again))
  }

  lemma {:induction false} RunSound(b: Blast, calls: seq<Call>)
    requires b.counts == map[] && Monotone(calls, b.lastReset)
    ensures var (b', h) := Run(b, calls);
            var end := if calls == [] then b.lastReset else calls[|calls| - 1].again;
            Sound(b', h, end) && b'.lastReset <= end && b'.window == b.window && b'.maxNamespaces == b.maxNamespaces
  {
    if calls == [] {
      assert NsOf([], 0) == {};
      forall e: nat ensures |NsOf([], e)| <= Limit(b) {
        assert NsOf([], e) == {};
      }
    } else {
      var front := calls[..|calls| - 1];
      RunSound(b, front);
      var (b1, h) := Run(b, front);
      var c := calls[|calls| - 1];
      var before := if front == [] then b.lastReset else front[|front| - 1].again;
      ActionSound(b1, h, before, c.ns, c.now, c.again);
    }
  }

  /** Between two emptyings of the window at most maxNamespaces namespaces are
      acted on; in any half-open interval as long as the window, at most twice that. */
  lemma {:induction false} BlastBound(b: Blast, calls: seq<Call>, epoch: nat, lo: int)
    requires b.counts == map[] && Monotone(calls, b.lastReset)
    ensures |NsOf(Run(b, calls).1.grants, epoch)| <= Limit(b)
    ensures |NsBetween(Run(b, calls).1.grants, lo, lo + b.window)| <= 2 * Limit(b)
  {
    RunSound(b, calls);
    BoundFromSound(Run(b, calls).0, Run(b, calls).1.grants, lo);
  }

  /** When the window in force began: at the start, or at the second reading of the last
      call that found the one before it over. */
  function OpenedAt(b: Blast, calls: seq<Call>): int {
    if calls == [] then b.lastReset
    else
      var began, last := OpenedAt(b, calls[..|calls| - 1]), calls[|calls| - 1];
      if last.now - began >= b.window then last.again else began
  }

  lemma {:induction false} ResetIsOpening(b: Blast, calls: seq<Call>)
    ensures var b' := Run(b, calls).0;
            b'.lastReset == OpenedAt(b, calls) && b'.window == b.window && b'.maxNamespaces == b.maxNamespaces
  {
    if calls != [] {
      ResetIsOpening(b, calls[..|calls| - 1]);
    }
  }

  /** And no action is refused without need: after any run a namespace is allowed if and
      only if the window is over and any may be acted on, or it has been acted on in
      this window, or there is room for one more. */
  lemma {:induction false} AllowedExactly(b: Blast, calls: seq<Call>, c: Call)
    requires b.counts == map[] && Monotone(calls, b.lastReset)
    ensures var (b', h) := Run(b, calls);
            var acted := NsOf(h.grants, h.epoch);
            AfterAction(b', c.ns, c.now, c.again).1
            <==> if c.now - OpenedAt(b, calls) >= b.window then b.maxNamespaces > 0
                 else c.ns in acted || |acted| < b.maxNamespaces
  {
    RunSound(b, calls);
    ResetIsOpening(b, calls);
    assert |Run(b, calls).0.counts.Keys| == |Run(b, calls).0.counts|;
  }

  lemma {:induction false} BoundFromSound(b: Blast, grants: seq<Grant>, lo: int)
    requires Spaced(b, grants) && forall e: nat :: |NsOf(grants, e)| <= Limit(b)
    ensures |NsBetween(grants, lo, lo + b.window)| <= 2 * Limit(b)
  {
    var hi := lo + b.window;
    if i :| 0 <= i < |grants| && lo <= grants[i].at < hi {
      var first := Earliest(grants, lo, hi, i);
      var e := grants[first].epoch;
      assert |NsOf(grants, e)| <= Limit(b) && |NsOf(grants, e + 1)| <= Limit(b);
      assert NsBetween(grants, lo, hi) <= NsOf(grants, e) + NsOf(grants, e + 1);
      SizeOfUnion(NsBetween(grants, lo, hi), NsOf(grants, e), NsOf(grants, e + 1));
    } else {
      assert NsBetween(grants, lo, hi) == {};
    }
  }

  /** The grant of the lowest epoch inside the interval. */
  lemma {:induction false} Earliest(grants: seq<Grant>, lo: int, hi: int, i: nat) returns (first: nat)
    requires i < |grants| && lo <= grants[i].at < hi
    ensures first < |grants| && lo <= grants[first].at < hi
    ensures forall j :: 0 <= j < |grants| && lo <= grants[j].at < hi ==> grants[first].epoch <= grants[j].epoch
    decreases grants[i].epoch
  {
    if j :| 0 <= j < |grants| && lo <= grants[j].at < hi && grants[j].epoch < grants[i].epoch {
      first := Earliest(grants, lo, hi, j);
    } else {
      first := i;
    }
  }

  lemma {:induction false} SizeOfUnion(s: set<string>, a: set<string>, b: set<string>)
    requires s <= a + b
    ensures |s| <= |a| + |b|
  {
    SubsetSize(s, a + b);
  }

  lemma {:induction false} SubsetSize<T>(s: set<T>, t: set<T>)
    requires s <= t
    ensures |s| <= |t|
  {
    assert |t - s| == |t| - |s| by { assert t == s + (t - s); }
  }
}
