/** Small vocabulary shared by every module: optional values, results, and
    the handful of facts about sequences of timestamps the trackers need. */
module Prelude {

  datatype Option<+T> = None | Some(value: T)

  datatype Result<+T, +E> = Ok(value: T) | Err(error: E)

  /** Clocks are read in nanoseconds. */
  const SECOND := 1_000_000_000
  const MINUTE := 60 * SECOND
  const HOUR := 60 * MINUTE

  /** The last n elements of s, or all of s when it is shorter. */
  function LastN<T>(s: seq<T>, n: nat): seq<T> {
    if |s| <= n then s else s[|s| - n..]
  }

  /** Pushing onto a bounded tail is the bounded tail of the push. */
  lemma {:induction false} LastNPush<T>(s: seq<T>, x: T, n: nat)
    requires n >= 1
    ensures LastN(LastN(s, n) + [x], n) == LastN(s + [x], n)
  {
  }

  /** The elements of ts later than cutoff, in order. */
  function After(ts: seq<int>, cutoff: int): seq<int> {
    if ts == [] then []
    else
      var rest := After(ts[..|ts| - 1], cutoff);
      if ts[|ts| - 1] > cutoff then rest + [ts[|ts| - 1]] else rest
  }

  /** How many elements of ts lie in the half-open interval [lo, hi). */
  function CountIn(ts: seq<int>, lo: int, hi: int): nat {
    if ts == [] then 0
    else CountIn(ts[..|ts| - 1], lo, hi) + if lo <= ts[|ts| - 1] < hi then 1 else 0
  }

  /** The same count for the interval of the given width that starts at lo. */
  function CountFrom(ts: seq<int>, lo: int, width: int): nat {
    CountIn(ts, lo, lo + width)
  }

  /** The count for the closed interval: clocks tick in whole nanoseconds, so
      it is the half-open interval one longer. */
  function CountClosed(ts: seq<int>, lo: int, width: int): nat {
    CountIn(ts, lo, lo + width + 1)
  }

  function Copies<T>(x: T, n: nat): seq<T> {
    seq(n, i => x)
  }

  lemma {:induction false} CopiesMore<T>(x: T, n: nat)
    ensures Copies(x, n + 1) == Copies(x, n) + [x] == [x] + Copies(x, n)
    ensures Copies(x, n + 1)[..n] == Copies(x, n) == Copies(x, n + 1)[1..]
  {
  }

  predicate AllAtMost(ts: seq<int>, bound: int) {
    forall i :: 0 <= i < |ts| ==> ts[i] <= bound
  }

  predicate Ascending(ts: seq<int>) {
    forall i, j :: 0 <= i < j < |ts| ==> ts[i] <= ts[j]
  }

  lemma {:induction false} AscendingPush(ts: seq<int>, x: int)
    requires Ascending(ts) && AllAtMost(ts, x)
    ensures Ascending(ts + [x]) && AllAtMost(ts + [x], x)
  {
  }

  lemma {:induction false} AtMostPush(ts: seq<int>, x: int)
    requires AllAtMost(ts, x)
    ensures AllAtMost(ts + [x], x)
  {
  }

  lemma {:induction false} AfterPush(ts: seq<int>, x: int, cutoff: int)
    ensures After(ts + [x], cutoff) == After(ts, cutoff) + if x > cutoff then [x] else []
  {
  }

  lemma {:induction false} AfterAfter(ts: seq<int>, c: int, d: int)
    requires c <= d
    ensures After(After(ts, c), d) == After(ts, d)
  {
    if ts != [] {
      var front, last := ts[..|ts| - 1], ts[|ts| - 1];
      AfterAfter(front, c, d);
      if last > c {
        AfterPush(After(front, c), last, d);
      }
    }
  }

  lemma {:induction false} AfterNone(ts: seq<int>, cutoff: int)
    requires AllAtMost(ts, cutoff)
    ensures After(ts, cutoff) == []
  {
    if ts != [] { AfterNone(ts[..|ts| - 1], cutoff); }
  }

  lemma {:induction false} AfterShorter(ts: seq<int>, cutoff: int)
    ensures |After(ts, cutoff)| <= |ts|
  {
    if ts != [] { AfterShorter(ts[..|ts| - 1], cutoff); }
  }

  /** On an ascending sequence, keeping the late elements is dropping a prefix. */
  lemma {:induction false} AfterIsSuffix(ts: seq<int>, cutoff: int, i: nat)
    requires Ascending(ts) && i <= |ts|
    requires forall j :: 0 <= j < i ==> ts[j] <= cutoff
    requires i < |ts| ==> ts[i] > cutoff
    ensures After(ts, cutoff) == ts[i..]
  {
    if i == |ts| {
      AfterNone(ts, cutoff);
    } else {
      var front := ts[..|ts| - 1];
      if i == |front| {
        AfterNone(front, cutoff);
      } else {
        AfterIsSuffix(front, cutoff, i);
      }
      assert ts[i..] == front[i..] + [ts[|ts| - 1]];
    }
  }

  lemma {:induction false} CountPush(ts: seq<int>, x: int, lo: int, hi: int)
    ensures CountIn(ts + [x], lo, hi) == CountIn(ts, lo, hi) + if lo <= x < hi then 1 else 0
  {
  }

  /** Everything counted from lo on survives a cutoff before lo. */
  lemma {:induction false} CountAtMostAfter(ts: seq<int>, lo: int, hi: int, cutoff: int)
    requires cutoff < lo
    ensures CountIn(ts, lo, hi) <= |After(ts, cutoff)|
  {
    if ts != [] { CountAtMostAfter(ts[..|ts| - 1], lo, hi, cutoff); }
  }

  /** Nothing lies in an interval that starts after the latest element. */
  lemma {:induction false} CountNone(ts: seq<int>, lo: int, hi: int)
    requires AllAtMost(ts, lo - 1)
    ensures CountIn(ts, lo, hi) == 0
  {
    if ts != [] { CountNone(ts[..|ts| - 1], lo, hi); }
  }

  /** Each state and the next are related through the label between them. */
  predicate Linked<X, K>(ok: (X, K, X) -> bool, states: seq<X>, ks: seq<K>)
    requires |states| == |ks| + 1
  {
    forall n :: 0 <= n < |ks| ==> ok(states[n], ks[n], states[n + 1])
  }

  lemma {:induction false} LinkedPush<X, K>(ok: (X, K, X) -> bool, states: seq<X>, ks: seq<K>, x: X, k: K)
    requires |states| == |ks| + 1 && Linked(ok, states, ks) && ok(states[|ks|], k, x)
    ensures Linked(ok, states + [x], ks + [k])
  {
  }

  /** f run over ks from the left, starting from x. */
  function Fold<X, K>(f: (X, K) -> X, x: X, ks: seq<K>): X {
    if ks == [] then x else f(Fold(f, x, ks[..|ks| - 1]), ks[|ks| - 1])
  }

  /** A sequence of states, each made from the one before, is the fold. */
  lemma {:induction false} FoldIs<X, K>(f: (X, K) -> X, states: seq<X>, ks: seq<K>, n: nat)
    requires n <= |ks| && n < |states|
    requires forall i :: 0 <= i < n ==> states[i + 1] == f(states[i], ks[i])
    ensures states[n] == Fold(f, states[0], ks[..n])
  {
    if n > 0 {
      FoldIs(f, states, ks, n - 1);
      assert states[n - 1 + 1] == f(states[n - 1], ks[n - 1]);
      assert ks[..n][..n - 1] == ks[..n - 1];
    }
  }
}
