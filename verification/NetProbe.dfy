/** internal/kube/netprobe.go: a node agent tries Services a few at a time, going round
    the list, and speaks up when one fails twice in a row. */
module NetProbes {
  import opened Prelude

  const SAMPLE := 20
  const FAILURES_BEFORE_REPORT := 2

  function Fewer(a: nat, b: nat): nat {
    if a < b then a else b
  }

  // ---- The rotation ----

  /** The place in the list that the i-th dial of a pass goes to. */
  function Dialled(offset: nat, i: nat, n: nat): nat
    requires n > 0
  {
    (offset + i) % n
  }

  /** The offset after so many passes over a list of n. */
  function OffsetAfter(offset: nat, passes: nat, n: nat): nat
    requires n > 0
  {
    if passes == 0 then offset else (OffsetAfter(offset, passes - 1, n) + SAMPLE) % n
  }

  lemma {:induction false} Multiple(k: int, n: nat)
    ensures k >= 1 ==> k * n >= n
    ensures k <= -1 ==> k * n + n <= 0
    ensures k == 0 ==> k * n == 0
  {
  }

  lemma {:induction false} ModIs(q: int, r: int, n: nat)
    requires n > 0 && 0 <= r < n
    ensures (q * n + r) % n == r
  {
    var x := q * n + r;
    assert x == (x / n) * n + x % n;
    var k := q - x / n;
    assert k * n == x % n - r;
    Multiple(k, n);
  }

  /** Reducing before adding changes nothing. */
  lemma {:induction false} ModAdd(a: nat, b: nat, n: nat)
    requires n > 0
    ensures (a % n + b) % n == (a + b) % n
  {
    var x := a % n + b;
    assert a == (a / n) * n + a % n && x == (x / n) * n + x % n;
    var q := a / n + x / n;
    assert a + b == q * n + x % n by {
      assert q * n == (a / n) * n + (x / n) * n;
    }
    ModIs(q, x % n, n);
  }

  lemma {:induction false} OffsetIs(offset: nat, passes: nat, i: nat, n: nat)
    requires n > 0
    ensures Dialled(OffsetAfter(offset, passes, n), i, n) == (offset + SAMPLE * passes + i) % n
  {
    if passes > 0 {
      var before := OffsetAfter(offset, passes - 1, n);
      OffsetIs(offset, passes - 1, SAMPLE + i, n);
      Shift(before, i, n);
      assert offset + SAMPLE * (passes - 1) + (SAMPLE + i) == offset + SAMPLE * passes + i;
    }
  }

  /** A dial of the next pass is one further along this one. */
  lemma {:induction false} Shift(before: nat, i: nat, n: nat)
    requires n > 0
    ensures Dialled((before + SAMPLE) % n, i, n) == Dialled(before, SAMPLE + i, n)
  {
    ModAdd(before + SAMPLE, i, n);
    assert before + SAMPLE + i == before + (SAMPLE + i);
  }

  /** Whatever the offset it begins at, and for a list of any length, the rotation
      dials every Service within as many passes as the list has samples. */
  lemma {:induction false} EveryServiceIsDialled(offset: nat, n: nat, j: nat)
    requires j < n
    ensures exists pass: nat, i: nat ::
              && pass < (n + 19) / 20 && i < Fewer(n, 20)
              && Dialled(OffsetAfter(offset, pass, n), i, n) == j
  {
    var r := offset % n;
    var d := if j >= r then j - r else j + n - r;
    var pass, i := d / SAMPLE, d % SAMPLE;
    assert d == SAMPLE * pass + i && d < n;
    OffsetIs(offset, pass, i, n);
    ModAdd(offset, d, n);
    assert (r + d) % n == j by {
      ModIs(if j >= r then 0 else 1, j, n);
    }
    assert offset + SAMPLE * pass + i == offset + d;
    assert Dialled(OffsetAfter(offset, pass, n), i, n) == j;
  }

  /** No Service is dialled twice in one pass. */
  lemma {:induction false} NoneTwiceInAPass(offset: nat, n: nat, i: nat, j: nat)
    requires i < j < Fewer(n, 20)
    ensures Dialled(offset, i, n) != Dialled(offset, j, n)
  {
    var a, b := offset + i, offset + j;
    assert a == (a / n) * n + a % n && b == (b / n) * n + b % n;
    var k := b / n - a / n;
    assert k * n == (b / n) * n - (a / n) * n == (j - i) - (b % n - a % n);
    Multiple(k, n);
  }

  // ---- The streaks ----

  datatype Probe = Probe(key: string, ok: bool)

  type Fails = map<string, nat>

  function CountOf(fails: Fails, key: string): nat {
    if key in fails then fails[key] else 0
  }

  function AfterProbe(fails: Fails, p: Probe): Fails {
    if p.ok then fails - {p.key} else fails[p.key := CountOf(fails, p.key) + 1]
  }

  function AfterProbes(fails: Fails, ps: seq<Probe>): Fails {
    if ps == [] then fails else AfterProbe(AfterProbes(fails, ps[..|ps| - 1]), ps[|ps| - 1])
  }

  predicate Tells(fails: Fails, p: Probe) {
    !p.ok && CountOf(fails, p.key) + 1 == FAILURES_BEFORE_REPORT
  }

  /** How the probes of one key went. */
  function Own(ps: seq<Probe>, key: string): seq<bool> {
    if ps == [] then []
    else Own(ps[..|ps| - 1], key) + if ps[|ps| - 1].key == key then [ps[|ps| - 1].ok] else []
  }

  /** Failures in a row at the end. */
  function Trailing(oks: seq<bool>): nat {
    if oks == [] || oks[|oks| - 1] then 0 else 1 + Trailing(oks[..|oks| - 1])
  }

  /** The count kept for a key is its failures in a row, whatever other keys do. */
  lemma {:induction false} CountsStreaks(ps: seq<Probe>, key: string)
    ensures CountOf(AfterProbes(map[], ps), key) == Trailing(Own(ps, key))
  {
    if ps != [] {
      var front, last := ps[..|ps| - 1], ps[|ps| - 1];
      CountsStreaks(front, key);
      assert Own(front, key) + [] == Own(front, key);
      if last.key == key {
        assert (Own(front, key) + [last.ok])[..|Own(front, key)|] == Own(front, key);
      }
    }
  }

  /** A probe is reported exactly when it is the second failure in a row of its key:
      never for one blip, and once, not again, for as long as it keeps failing. */
  lemma {:induction false} ToldAtSecondFailure(ps: seq<Probe>, p: Probe)
    ensures var own := Own(ps, p.key);
            Tells(AfterProbes(map[], ps), p) <==>
              !p.ok && |own| >= 1 && !own[|own| - 1] && (|own| == 1 || own[|own| - 2])
  {
    CountsStreaks(ps, p.key);
    var own := Own(ps, p.key);
    if |own| >= 2 {
      assert own[..|own| - 1][|own| - 2] == own[|own| - 2];
    }
  }

  // ---- The code ----

  class NetProber {
    var fails: Fails
    var offset: nat
    var reported: seq<string>

    constructor ()
      ensures fails == map[] && offset == 0 && reported == []
    {
      fails, offset, reported := map[], 0, [];
    }

    method Failed(key: string) returns (tell: bool)
      modifies this`fails
      ensures tell == Tells(old(fails), Probe(key, false)) && fails == AfterProbe(old(fails), Probe(key, false))
    {
      fails := fails[key := (if key in fails then fails[key] else 0) + 1];
      tell := fails[key] == FAILURES_BEFORE_REPORT;
    }

    method Ok(key: string)
      modifies this`fails
      ensures fails == AfterProbe(old(fails), Probe(key, true))
    {
      fails := fails - {key};
    }

    /** One dial, counted, and told of when it is time. */
    method Count(p: Probe)
      modifies this`fails, this`reported
      ensures fails == AfterProbe(old(fails), p)
      ensures reported == old(reported) + if Tells(old(fails), p) then [p.key] else []
    {
      if p.ok {
        Ok(p.key);
      } else {
        var tell := Failed(p.key);
        if tell {
          reported := reported + [p.key];
        }
      }
    }

    /** One pass over the targets listed, each dial succeeding or not as answers says. */
    method ProbeServices(targets: seq<string>, answers: seq<bool>) returns (ghost dials: seq<Probe>)
      requires |answers| >= Fewer(|targets|, SAMPLE)
      modifies this
      ensures |dials| == Fewer(|targets|, SAMPLE)
      ensures forall i :: 0 <= i < |dials| ==>
              dials[i] == Probe(targets[Dialled(old(offset), i, |targets|)], answers[i])
      ensures fails == AfterProbes(old(fails), dials)
      ensures reported == old(reported) + Reports(old(fails), dials)
      ensures offset == if targets == [] then old(offset) else OffsetAfter(old(offset), 1, |targets|)
    {
      dials := [];
      var i := 0;
      while i < |targets| && i < SAMPLE
        invariant 0 <= i <= Fewer(|targets|, SAMPLE) && |dials| == i && offset == old(offset)
        invariant forall j :: 0 <= j < i ==> dials[j] == Probe(targets[Dialled(offset, j, |targets|)], answers[j])
        invariant fails == AfterProbes(old(fails), dials)
        invariant reported == old(reported) + Reports(old(fails), dials)
      {
        var p := Probe(targets[Dialled(offset, i, |targets|)], answers[i]);
        assert (dials + [p])[..i] == dials;
        Count(p);
        dials := dials + [p];
        i := i + 1;
      }
      if |targets| > 0 {
        assert OffsetAfter(offset, 0, |targets|) == offset;
        offset := (offset + SAMPLE) % |targets|;
      }
    }
  }

  /** The keys reported by a series of probes. */
  function Reports(fails: Fails, ps: seq<Probe>): seq<string> {
    if ps == [] then []
    else
      Reports(fails, ps[..|ps| - 1])
      + if Tells(AfterProbes(fails, ps[..|ps| - 1]), ps[|ps| - 1]) then [ps[|ps| - 1].key] else []
  }
}
