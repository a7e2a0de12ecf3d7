/** internal/kube/auditlog.go:143-166: the bound on the blast radius is met. A window
    that is emptied lets its maximum through just before and again just after. */
module BlastCrowds {
  import opened Prelude
  import opened Text
  import opened BlastRadii

  /** Half of the names just before the window of b is over, the rest when it is. */
  function Crowd(b: Blast, names: seq<string>, n: nat): (calls: seq<Call>)
    requires n <= |names|
    ensures |calls| == n
  {
    seq(n, i requires 0 <= i < n => Call(names[i], MomentOf(b, i), MomentOf(b, i)))
  }

  function MomentOf(b: Blast, i: nat): int {
    b.lastReset + b.window - if i < b.maxNamespaces then 1 else 0
  }

  lemma {:induction false} DistinctSize<T>(xs: seq<T>)
    requires Distinct(xs)
    ensures |Elements(xs)| == |xs|
  {
    if xs != [] {
      var front, last := xs[..|xs| - 1], xs[|xs| - 1];
      DistinctSize(front);
      assert Elements(xs) == Elements(front) + {last} && last !in Elements(front);
    }
  }

  /** The names from lo up to n are those counted in the window. */
  predicate Counts(b: Blast, names: seq<string>, lo: nat, n: nat) {
    lo <= n <= |names| && b.counts.Keys == Elements(names[lo..n])
  }

  lemma {:induction false} OneMoreName(names: seq<string>, lo: nat, n: nat)
    requires Distinct(names) && lo <= n < |names|
    ensures |Elements(names[lo..n])| == n - lo && names[n] !in Elements(names[lo..n])
    ensures Elements(names[lo..n + 1]) == Elements(names[lo..n]) + {names[n]}
  {
    DistinctSize(names[lo..n]);
    assert names[lo..n + 1] == names[lo..n] + [names[n]];
    ElementsAppend(names[lo..n], [names[n]]);
  }

  lemma {:induction false} CountedKeys(b: Blast, ns: string)
    ensures Counted(b, ns).counts.Keys == b.counts.Keys + {ns} && |b.counts.Keys| == |b.counts|
  {
  }

  /** While the window lasts and there is room the next name is let through. */
  lemma {:induction false} NextCounts(b: Blast, names: seq<string>, lo: nat, n: nat, at: int)
    requires Distinct(names) && Counts(b, names, lo, n) && n < |names| && n - lo < b.maxNamespaces && !Expired(b, at)
    ensures var (b', ok) := AfterAction(b, names[n], at, at);
            ok && Counts(b', names, lo, n + 1) && b' == b.(counts := b'.counts)
  {
    OneMoreName(names, lo, n);
    CountedKeys(b, names[n]);
  }

  /** When the window is over the first name opens the next. */
  lemma {:induction false} FirstCounts(b: Blast, names: seq<string>, n: nat, at: int)
    requires n < |names| && b.maxNamespaces >= 1 && Expired(b, at)
    ensures var (b', ok) := AfterAction(b, names[n], at, at);
            ok && Counts(b', names, n, n + 1) && b' == b.(counts := b'.counts, lastReset := at)
  {
    assert names[n..n + 1] == [names[n]];
  }

  predicate Granted(b: Blast, names: seq<string>, n: nat, grants: seq<Grant>) {
    |grants| == n <= |names| && forall i :: 0 <= i < n ==> grants[i].ns == names[i] && grants[i].at == MomentOf(b, i)
  }

  lemma {:induction false} NoteGrants(b: Blast, names: seq<string>, n: nat, b1: Blast, h: History)
    requires Granted(b, names, n, h.grants) && n < |names|
    requires AfterAction(b1, names[n], MomentOf(b, n), MomentOf(b, n)).1
    ensures Granted(b, names, n + 1, Note(h, b1, names[n], MomentOf(b, n), MomentOf(b, n)).grants)
  {
  }

  /** The first n have been let through; the second half counts in a window of its own. */
  ghost predicate Crowded(b: Blast, names: seq<string>, n: nat, b': Blast, h: History) {
    var half := b.maxNamespaces;
    && b'.maxNamespaces == half >= 0 && b'.window == b.window && Granted(b, names, n, h.grants)
    && (n <= half ==> b'.lastReset == b.lastReset && Counts(b', names, 0, n))
    && (n > half ==> b'.lastReset == b.lastReset + b.window && Counts(b', names, half, n))
  }

  lemma {:induction false} OneMoreCrowds(b: Blast, names: seq<string>, n: nat, b': Blast, h: History)
    requires b.maxNamespaces >= 1 && b.window >= 1 && Distinct(names) && |names| == 2 * b.maxNamespaces
    requires n < |names| && Crowded(b, names, n, b', h)
    ensures var at := MomentOf(b, n);
            Crowded(b, names, n + 1, AfterAction(b', names[n], at, at).0, Note(h, b', names[n], at, at))
  {
    var half, at := b.maxNamespaces, MomentOf(b, n);
    if n == half {
      FirstCounts(b', names, n, at);
    } else {
      NextCounts(b', names, if n < half then 0 else half, n, at);
    }
    NoteGrants(b, names, n, b', h);
  }

  lemma {:induction false} AllCrowd(b: Blast, names: seq<string>, n: nat)
    requires b.counts == map[] && b.maxNamespaces >= 1 && b.window >= 1
    requires Distinct(names) && |names| == 2 * b.maxNamespaces && n <= |names|
    ensures Crowded(b, names, n, Run(b, Crowd(b, names, n)).0, Run(b, Crowd(b, names, n)).1)
  {
    if n > 0 {
      AllCrowd(b, names, n - 1);
      var front := Crowd(b, names, n - 1);
      assert Crowd(b, names, n)[..n - 1] == front;
      OneMoreCrowds(b, names, n - 1, Run(b, front).0, Run(b, front).1);
    }
  }

  lemma {:induction false} AllBetween(b: Blast, names: seq<string>, grants: seq<Grant>, lo: int, hi: int)
    requires Granted(b, names, |names|, grants) && Distinct(names)
    requires forall i: nat :: i < |names| ==> lo <= MomentOf(b, i) < hi
    ensures |NsBetween(grants, lo, hi)| >= |names|
  {
    forall x | x in Elements(names) ensures x in NsBetween(grants, lo, hi) {
      var i :| 0 <= i < |names| && names[i] == x;
      assert grants[i].ns == x && lo <= grants[i].at < hi;
    }
    DistinctSize(names);
    SubsetSize(Elements(names), NsBetween(grants, lo, hi));
  }

  lemma {:induction false} CrowdInOrder(b: Blast, names: seq<string>)
    requires b.window >= 1
    ensures Monotone(Crowd(b, names, |names|), b.lastReset)
  {
  }

  lemma {:induction false} CrowdPasses(b: Blast, names: seq<string>, calls: seq<Call>, lo: int)
    requires b.counts == map[] && b.maxNamespaces >= 1 && b.window >= 2
    requires Distinct(names) && |names| == 2 * b.maxNamespaces
    requires calls == Crowd(b, names, |names|) && lo == b.lastReset + b.window - 1
    ensures |NsBetween(Run(b, calls).1.grants, lo, lo + b.window)| >= |names|
  {
    AllCrowd(b, names, |names|);
    AllBetween(b, names, Run(b, calls).1.grants, lo, lo + b.window);
  }

  /** Twice the maximum is reached in one interval as long as the window, for any
      namespaces and any window of at least two ticks. */
  lemma {:induction false} BlastBoundIsMet(b: Blast, names: seq<string>)
    requires b.counts == map[] && b.maxNamespaces >= 1 && b.window >= 2
    requires Distinct(names) && |names| == 2 * b.maxNamespaces
    ensures var calls, lo := Crowd(b, names, |names|), b.lastReset + b.window - 1;
            && Monotone(calls, b.lastReset)
            && |NsBetween(Run(b, calls).1.grants, lo, lo + b.window)| == 2 * Limit(b)
  {
    var calls, lo := Crowd(b, names, |names|), b.lastReset + b.window - 1;
    CrowdInOrder(b, names);
    CrowdPasses(b, names, calls, lo);
    BlastBound(b, calls, 0, lo);
  }
}
