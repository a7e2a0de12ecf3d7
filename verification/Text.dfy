/** Strings as the Go standard library treats them: ordering and sorting,
    splitting and joining, trimming, and printing a number in base ten. */
module Text {

  // ---- Order ----

  /** Byte order, as sort.Strings uses. */
  predicate Less(a: string, b: string) {
    b != "" && (a == "" || a[0] < b[0] || (a[0] == b[0] && Less(a[1..], b[1..])))
  }

  lemma {:induction false} LessTrans(a: string, b: string, c: string)
    requires Less(a, b) && Less(b, c)
    ensures Less(a, c)
  {
    if a != "" && a[0] == b[0] && b[0] == c[0] { LessTrans(a[1..], b[1..], c[1..]); }
  }

  lemma {:induction false} LessAntisym(a: string, b: string)
    requires Less(a, b)
    ensures !Less(b, a) && a != b
  {
    if a != "" && a[0] == b[0] { LessAntisym(a[1..], b[1..]); }
  }

  lemma {:induction false} LessTotal(a: string, b: string)
    ensures a == b || Less(a, b) || Less(b, a)
  {
    if a != "" && b != "" && a[0] == b[0] {
      LessTotal(a[1..], b[1..]);
      assert a == [a[0]] + a[1..] && b == [b[0]] + b[1..];
    }
  }

  // ---- Sorting ----

  predicate Distinct<T(==)>(xs: seq<T>) {
    forall i, j :: 0 <= i < j < |xs| ==> xs[i] != xs[j]
  }

  predicate Increasing(xs: seq<string>) {
    forall i, j :: 0 <= i < j < |xs| ==> Less(xs[i], xs[j])
  }

  function Elements<T>(xs: seq<T>): set<T> {
    set x | x in xs
  }

  function Insert(x: string, xs: seq<string>): seq<string> {
    if xs == [] || !Less(xs[0], x) then [x] + xs else [xs[0]] + Insert(x, xs[1..])
  }

  function Sort(xs: seq<string>): seq<string> {
    if xs == [] then [] else Insert(xs[0], Sort(xs[1..]))
  }

  lemma {:induction false} InsertSorts(x: string, xs: seq<string>)
    requires Increasing(xs) && x !in xs
    ensures Increasing(Insert(x, xs)) && Elements(Insert(x, xs)) == Elements(xs) + {x}
    ensures |Insert(x, xs)| == |xs| + 1
  {
    var r := Insert(x, xs);
    if xs == [] || !Less(xs[0], x) {
      forall j | 0 <= j < |xs| ensures Less(x, xs[j]) {
        LessTotal(x, xs[0]);
        if j > 0 { LessTrans(x, xs[0], xs[j]); }
      }
      assert Elements(r) == Elements(xs) + {x} by { assert r == [x] + xs; ElementsAppend([x], xs); }
    } else {
      var rest := Insert(x, xs[1..]);
      InsertSorts(x, xs[1..]);
      forall j | 0 <= j < |rest| ensures Less(xs[0], rest[j]) {
        assert rest[j] in Elements(rest);
        assert rest[j] == x || rest[j] in xs[1..];
      }
      ElementsAppend([xs[0]], rest);
      ElementsAppend([xs[0]], xs[1..]);
      assert xs == [xs[0]] + xs[1..];
    }
  }

  lemma {:induction false} ElementsAppend<T>(a: seq<T>, b: seq<T>)
    ensures Elements(a + b) == Elements(a) + Elements(b)
  {
  }

  lemma {:induction false} SortSorts(xs: seq<string>)
    requires Distinct(xs)
    ensures Increasing(Sort(xs)) && Elements(Sort(xs)) == Elements(xs) && |Sort(xs)| == |xs|
  {
    if xs != [] {
      SortSorts(xs[1..]);
      assert xs[0] !in xs[1..];
      assert xs[0] !in Elements(Sort(xs[1..]));
      InsertSorts(xs[0], Sort(xs[1..]));
      ElementsAppend([xs[0]], xs[1..]);
      assert xs == [xs[0]] + xs[1..];
    }
  }

  /** A set has one ascending listing. */
  lemma {:induction false} ListingUnique(a: seq<string>, b: seq<string>)
    requires Increasing(a) && Increasing(b) && Elements(a) == Elements(b)
    ensures a == b
  {
    if a == [] {
      assert forall i :: 0 <= i < |b| ==> b[i] in Elements(b);
    } else {
      assert a[0] in Elements(a);
      var j :| 0 <= j < |b| && b[j] == a[0];
      assert b[0] in Elements(b);
      var i :| 0 <= i < |a| && a[i] == b[0];
      if i > 0 && j > 0 { LessAntisym(a[0], a[i]); assert false; }
      assert a[0] == b[0];
      forall x ensures x in a[1..] <==> x in b[1..] {
        if x in a[1..] {
          var k :| 1 <= k < |a| && a[k] == x;
          LessAntisym(a[0], x);
          assert x in Elements(b);
          assert b == [b[0]] + b[1..];
        }
        if x in b[1..] {
          var k :| 1 <= k < |b| && b[k] == x;
          LessAntisym(b[0], x);
          assert x in Elements(a);
          assert a == [a[0]] + a[1..];
        }
      }
      ListingUnique(a[1..], b[1..]);
      assert a == [a[0]] + a[1..] && b == [b[0]] + b[1..];
    }
  }

  /** A set listed in some order, each element once. */
  ghost function Listing(s: set<string>): (xs: seq<string>)
    ensures Distinct(xs) && Elements(xs) == s
  {
    if s == {} then []
    else
      var x :| x in s;
      var rest := Listing(s - {x});
      ElementsAppend([x], rest);
      assert forall i :: 0 <= i < |rest| ==> rest[i] in Elements(rest);
      [x] + rest
  }

  /** The ascending listing of a set. */
  ghost function SortedOf(s: set<string>): (xs: seq<string>)
    ensures Increasing(xs) && Elements(xs) == s
  {
    SortSorts(Listing(s));
    Sort(Listing(s))
  }

  /** Sorting any listing of a set gives its ascending listing. */
  lemma {:induction false} SortedListing(xs: seq<string>)
    requires Distinct(xs)
    ensures Sort(xs) == SortedOf(Elements(xs))
  {
    SortSorts(xs);
    ListingUnique(Sort(xs), SortedOf(Elements(xs)));
  }

  // ---- Splitting and joining ----

  function Split(s: string, sep: char): (parts: seq<string>)
    ensures |parts| > 0
  {
    if s == "" then [""]
    else
      var rest := Split(s[1..], sep);
      if s[0] == sep then [""] + rest else [[s[0]] + rest[0]] + rest[1..]
  }

  function Join(parts: seq<string>, sep: string): string {
    if parts == [] then ""
    else if |parts| == 1 then parts[0]
    else parts[0] + sep + Join(parts[1..], sep)
  }

  lemma {:induction false} SplitPlain(a: string, sep: char)
    requires sep !in a
    ensures Split(a, sep) == [a]
  {
    if a != "" {
      SplitPlain(a[1..], sep);
      assert a == [a[0]] + a[1..];
    }
  }

  lemma {:induction false} SplitFirst(a: string, sep: char, b: string)
    requires sep !in a
    ensures Split(a + [sep] + b, sep) == [a] + Split(b, sep)
  {
    var s := a + [sep] + b;
    if a == "" {
      assert s[1..] == b;
    } else {
      assert s[1..] == a[1..] + [sep] + b;
      SplitFirst(a[1..], sep, b);
      assert Split(s, sep) == [[s[0]] + Split(s[1..], sep)[0]] + Split(s[1..], sep)[1..];
      assert a == [a[0]] + a[1..];
    }
  }

  lemma {:induction false} SplitJoin(parts: seq<string>, sep: char)
    requires parts != [] && forall p :: p in parts ==> sep !in p
    ensures Split(Join(parts, [sep]), sep) == parts
  {
    assert parts[0] in parts;
    if |parts| == 1 {
      SplitPlain(parts[0], sep);
    } else {
      SplitJoin(parts[1..], sep);
      SplitFirst(parts[0], sep, Join(parts[1..], [sep]));
      assert parts == [parts[0]] + parts[1..];
    }
  }

  /** Text before a separator that it does not hold is recovered from the whole. */
  lemma {:induction false} CutUnique(a: string, b: string, c: string, d: string, sep: char)
    requires sep !in a && sep !in c && a + [sep] + b == c + [sep] + d
    ensures a == c && b == d
  {
    var s, t := a + [sep] + b, c + [sep] + d;
    assert s[|a|] == sep && t[|c|] == sep;
    assert forall i :: 0 <= i < |a| ==> s[i] == a[i] && a[i] in a;
    assert forall i :: 0 <= i < |c| ==> t[i] == c[i] && c[i] in c;
    assert |a| == |c|;
    assert a == s[..|a|] && c == t[..|c|];
    assert b == s[|a| + 1..] && d == t[|c| + 1..];
  }

  /** A common beginning can be cancelled. */
  lemma {:induction false} CancelPrefix(p: string, a: string, b: string)
    requires p + a == p + b
    ensures a == b
  {
    assert a == (p + a)[|p|..] && b == (p + b)[|p|..];
  }

  lemma {:induction false} CancelSuffix(a: string, b: string, p: string)
    requires a + p == b + p
    ensures a == b
  {
    assert |a| == |b|;
    assert a == (a + p)[..|a|] && b == (b + p)[..|b|];
  }

  // ---- Trimming ----

  predicate IsSpace(c: char) {
    c == ' ' || c == '\t' || c == '\n' || c == '\r' || c == '\U{B}' || c == '\U{C}'
  }

  function TrimLeft(s: string): string {
    if s != "" && IsSpace(s[0]) then TrimLeft(s[1..]) else s
  }

  function TrimRight(s: string): string {
    if s != "" && IsSpace(s[|s| - 1]) then TrimRight(s[..|s| - 1]) else s
  }

  function TrimSpace(s: string): string {
    TrimRight(TrimLeft(s))
  }

  function Lower(s: string): string {
    if s == "" then ""
    else [if 'A' <= s[0] <= 'Z' then (s[0] as int + 32) as char else s[0]] + Lower(s[1..])
  }

  // ---- Numbers ----

  function Digit(d: nat): char
    requires d < 10
  {
    ('0' as int + d) as char
  }

  function DecimalNat(n: nat): (s: string)
    ensures s != "" && forall c :: c in s ==> '0' <= c <= '9'
  {
    if n < 10 then [Digit(n)] else DecimalNat(n / 10) + [Digit(n % 10)]
  }

  function Decimal(n: int): string {
    if n < 0 then "-" + DecimalNat(-n) else DecimalNat(n)
  }

  lemma {:induction false} DecimalNatInjective(m: nat, n: nat)
    requires DecimalNat(m) == DecimalNat(n)
    ensures m == n
  {
    DecimalLength(m);
    DecimalLength(n);
    if m >= 10 {
      CancelLast(DecimalNat(m / 10), Digit(m % 10), DecimalNat(n / 10), Digit(n % 10));
      DecimalNatInjective(m / 10, n / 10);
    }
  }

  lemma {:induction false} DecimalLength(n: nat)
    ensures |DecimalNat(n)| >= 2 <==> n >= 10
  {
  }

  lemma {:induction false} CancelLast(a: string, c: char, b: string, d: char)
    requires a + [c] == b + [d]
    ensures a == b && c == d
  {
    assert (a + [c])[|a|] == c && (b + [d])[|b|] == d;
    assert a == (a + [c])[..|a|] && b == (b + [d])[..|b|];
  }

  lemma {:induction false} DecimalInjective(m: int, n: int)
    requires Decimal(m) == Decimal(n)
    ensures m == n
  {
    DecimalSign(m);
    DecimalSign(n);
    if m < 0 {
      CancelPrefix("-", DecimalNat(-m), DecimalNat(-n));
      DecimalNatInjective(-m, -n);
    } else {
      DecimalNatInjective(m, n);
    }
  }

  lemma {:induction false} DecimalSign(n: int)
    ensures Decimal(n) != "" && (Decimal(n)[0] == '-' <==> n < 0)
  {
    if n >= 0 { assert DecimalNat(n)[0] in DecimalNat(n); }
  }

  lemma {:induction false} DecimalPlain(n: int)
    ensures ' ' !in Decimal(n)
  {
  }
}
