/** internal/kube/auditlog.go: maintenance windows, read from text and compared with
    the clock as text. */
module QuietHoursWindows {
  import opened Text

  const DAY := 1440

  datatype Window = Window(start: string, end: string)

  /** The two digits of a number below a hundred. */
  function Two(n: nat): (s: string)
    requires n < 100
    ensures |s| == 2
  {
    [Digit(n / 10), Digit(n % 10)]
  }

  /** A minute of the day as HH:MM. */
  function Clock(minute: nat): (s: string)
    requires minute < DAY
    ensures |s| == 5
  {
    Two(minute / 60) + [':'] + Two(minute % 60)
  }

  predicate Inside(now: string, w: Window) {
    if !Less(w.end, w.start) then !Less(now, w.start) && Less(now, w.end)
    else !Less(now, w.start) || Less(now, w.end)
  }

  // ---- Reading the windows ----

  predicate IsBlank(c: char) {
    c == ' ' || c == '\t'
  }

  /** trimSpace, which knows spaces and tabs only. */
  function TrimBlanks(s: string): string
    decreases |s|
  {
    if s != "" && IsBlank(s[0]) then TrimBlanks(s[1..])
    else if s != "" && IsBlank(s[|s| - 1]) then TrimBlanks(s[..|s| - 1])
    else s
  }

  /** A part that is not two texts around a dash is left out. */
  function WindowOf(part: string): seq<Window> {
    var ends := Split(TrimBlanks(part), '-');
    if TrimBlanks(part) != "" && |ends| == 2 then [Window(ends[0], ends[1])] else []
  }

  function WindowsOf(parts: seq<string>): seq<Window> {
    if parts == [] then [] else WindowsOf(parts[..|parts| - 1]) + WindowOf(parts[|parts| - 1])
  }

  lemma {:induction false} SplitHere(parts: seq<string>, s: string, start: nat, i: nat, sep: char)
    requires start <= i < |s| && s[i] == sep && sep !in s[start..i]
    ensures parts + Split(s[start..], sep) == parts + [s[start..i]] + Split(s[i + 1..], sep)
  {
    assert s[start..] == s[start..i] + [sep] + s[i + 1..];
    SplitFirst(s[start..i], sep, s[i + 1..]);
  }

  class QuietHours {
    var enabled: bool
    var windows: seq<Window>

    /** splitBy: the text between separators. */
    static method SplitBy(s: string, sep: char) returns (parts: seq<string>)
      ensures parts == Split(s, sep)
    {
      parts := [];
      var start, i := 0, 0;
      while i < |s|
        invariant 0 <= start <= i <= |s| && sep !in s[start..i]
        invariant Split(s, sep) == parts + Split(s[start..], sep)
      {
        if s[i] == sep {
          SplitHere(parts, s, start, i, sep);
          parts := parts + [s[start..i]];
          start := i + 1;
        }
        i := i + 1;
      }
      SplitPlain(s[start..], sep);
      parts := parts + [s[start..]];
    }

    static method ReadWindow(part: string) returns (w: seq<Window>)
      ensures w == WindowOf(part)
    {
      w := [];
      var trimmed := TrimBlanks(part);
      if trimmed != "" {
        var ends := SplitBy(trimmed, '-');
        if |ends| == 2 {
          w := [Window(ends[0], ends[1])];
        }
      }
    }

    constructor (text: string)
      ensures enabled == (text != "")
      ensures windows == if text == "" then [] else WindowsOf(Split(text, ','))
    {
      enabled, windows := text != "", [];
      new;
      if text != "" {
        var parts := SplitBy(text, ',');
        for i := 0 to |parts|
          invariant windows == WindowsOf(parts[..i]) && enabled
        {
          assert parts[..i + 1][..i] == parts[..i];
          var w := ReadWindow(parts[i]);
          windows := windows + w;
        }
        assert parts[..|parts|] == parts;
      }
    }

    method IsQuiet(minute: nat) returns (quiet: bool)
      requires minute < DAY
      ensures quiet <==> enabled && exists w :: w in windows && Inside(Clock(minute), w)
    {
      if !enabled || |windows| == 0 { return false; }
      var now := Clock(minute);
      for i := 0 to |windows|
        invariant forall j :: 0 <= j < i ==> !Inside(now, windows[j])
      {
        var w := windows[i];
        if !Less(w.end, w.start) {
          if !Less(now, w.start) && Less(now, w.end) {
            assert Inside(now, w);
            return true;
          }
        } else if !Less(now, w.start) || Less(now, w.end) {
          assert Inside(now, w);
          return true;
        }
      }
      quiet := false;
    }
  }

  // ---- Text order is clock order ----

  lemma {:induction false} LessStep(a: string, b: string)
    requires a != "" && b != ""
    ensures Less(a, b) <==> a[0] < b[0] || (a[0] == b[0] && Less(a[1..], b[1..]))
  {
  }

  lemma {:induction false} TwoOrdered(m: nat, n: nat, a: string, b: string)
    requires m < 100 && n < 100
    ensures Less(Two(m) + a, Two(n) + b) <==> m < n || (m == n && Less(a, b))
  {
  }

  lemma {:induction false} ClockOrdered(m: nat, n: nat)
    requires m < DAY && n < DAY
    ensures Less(Clock(m), Clock(n)) <==> m < n
  {
    var a, b := [':'] + Two(m % 60), [':'] + Two(n % 60);
    assert Clock(m) == Two(m / 60) + a && Clock(n) == Two(n / 60) + b;
    TwoOrdered(m / 60, n / 60, a, b);
    LessStep(a, b);
    assert a[1..] == Two(m % 60) + "" && b[1..] == Two(n % 60) + "";
    TwoOrdered(m % 60, n % 60, "", "");
  }

  /** A window of two HH:MM times, overnight or not, is quiet from its start for as
      long as it takes the clock to come round to its end; one whose ends are the
      same is never quiet. */
  lemma {:induction false} QuietAroundTheClock(start: nat, end: nat, now: nat)
    requires start < DAY && end < DAY && now < DAY
    ensures Inside(Clock(now), Window(Clock(start), Clock(end)))
            <==> (now - start) % DAY < (end - start) % DAY
  {
    ClockOrdered(end, start);
    ClockOrdered(now, start);
    ClockOrdered(now, end);
    Wrapped(now - start);
    Wrapped(end - start);
  }

  lemma {:induction false} Wrapped(x: int)
    requires -1440 < x < 1440
    ensures x % DAY == if x >= 0 then x else x + 1440
  {
  }

  /** A time of day, its hour with a leading nought or, before ten, without. */
  function Spelled(minute: nat, padded: bool): string
    requires minute < DAY && (padded || minute < 600)
  {
    if padded then Clock(minute) else [Digit(minute / 60), ':'] + Two(minute % 60)
  }

  /** Against a time without it the clock goes by the tens of its hour alone. */
  lemma {:induction false} UnpaddedOrder(now: nat, minute: nat)
    requires now < DAY && minute < 600
    ensures Less(Clock(now), Spelled(minute, false)) <==> now / 600 <= minute / 60
    ensures Less(Spelled(minute, false), Clock(now)) <==> now / 600 > minute / 60
  {
    var text := Spelled(minute, false);
    assert Clock(now)[0] == Digit(now / 60 / 10) == Digit(now / 600) && text[0] == Digit(minute / 60);
    LessStep(Clock(now), text);
    LessStep(text, Clock(now));
    assert Clock(now)[1] == Digit(now / 60 % 10) && Clock(now)[1] < ':';
    LessStep(Clock(now)[1..], text[1..]);
    LessStep(text[1..], Clock(now)[1..]);
  }

  /** The window is quiet as meant, from start round to end, at every minute. */
  ghost predicate ReadAsMeant(text: string, start: nat, end: nat)
    requires start < DAY && end < DAY
  {
    forall now: nat :: now < DAY
      ==> (Inside(Clock(now), Window(text, Clock(end))) <==> (now - start) % DAY < (end - start) % DAY)
  }

  /** A minute at which it is not. */
  function Misread(start: nat, end: nat): nat
    requires start < 600 && end < DAY
  {
    var turn := 600 * (start / 60 + 1);
    if end < start || (start < 120 && end >= turn) then start else if start >= 120 then 0 else turn
  }

  lemma {:induction false} MisreadThere(start: nat, end: nat)
    requires start < 600 && end < DAY
    ensures var now := Misread(start, end);
            now < DAY && !(Inside(Clock(now), Window(Spelled(start, false), Clock(end)))
              <==> (now - start) % DAY < (end - start) % DAY)
  {
    var now := Misread(start, end);
    UnpaddedOrder(end, start);
    UnpaddedOrder(now, start);
    ClockOrdered(now, end);
    Wrapped(now - start);
    Wrapped(end - start);
  }

  /** Times are compared as text, so the start of a window is read as meant exactly
      when its hour is written with two digits: written with one it is wrong at some
      minute, whatever the hour, the minute and the end. */
  lemma {:induction false} StartNeedsTwoDigits(start: nat, end: nat, padded: bool)
    requires start < DAY && end < DAY && (padded || start < 600)
    ensures ReadAsMeant(Spelled(start, padded), start, end) <==> padded
  {
    if padded {
      forall now: nat | now < DAY
        ensures Inside(Clock(now), Window(Clock(start), Clock(end))) <==> (now - start) % DAY < (end - start) % DAY
      {
        QuietAroundTheClock(start, end, now);
      }
    } else {
      MisreadThere(start, end);
    }
  }

  // ---- What is written is what is read ----

  function Written(w: (nat, nat)): string
    requires w.0 < DAY && w.1 < DAY
  {
    Clock(w.0) + ['-'] + Clock(w.1)
  }

  predicate InDay(ws: seq<(nat, nat)>) {
    forall i :: 0 <= i < |ws| ==> ws[i].0 < DAY && ws[i].1 < DAY
  }

  /** The windows meant, and how they are written. */
  function Meant(ws: seq<(nat, nat)>): seq<Window>
    requires InDay(ws)
  {
    if ws == [] then [] else Meant(ws[..|ws| - 1]) + [Window(Clock(ws[|ws| - 1].0), Clock(ws[|ws| - 1].1))]
  }

  function Texts(ws: seq<(nat, nat)>): (texts: seq<string>)
    requires InDay(ws)
    ensures |texts| == |ws| && forall t :: t in texts ==> ',' !in t
  {
    if ws == [] then []
    else
      ClockPlain(ws[|ws| - 1].0);
      ClockPlain(ws[|ws| - 1].1);
      Texts(ws[..|ws| - 1]) + [Written(ws[|ws| - 1])]
  }

  lemma {:induction false} ClockPlain(m: nat)
    requires m < DAY
    ensures forall c :: c in Clock(m) ==> c == ':' || '0' <= c <= '9'
  {
  }

  /** A list of windows written as HH:MM-HH:MM, with commas between, is read back. */
  lemma {:induction false} WindowsRoundTrip(ws: seq<(nat, nat)>)
    requires ws != [] && InDay(ws)
    ensures WindowsOf(Split(Join(Texts(ws), ","), ',')) == Meant(ws)
  {
    SplitJoin(Texts(ws), ',');
    assert [','] == ",";
    ReadBack(ws);
  }

  lemma {:induction false} ReadBack(ws: seq<(nat, nat)>)
    requires InDay(ws)
    ensures WindowsOf(Texts(ws)) == Meant(ws)
  {
    if ws != [] {
      var front, last := ws[..|ws| - 1], ws[|ws| - 1];
      ReadBack(front);
      ReadOne(last.0, last.1);
      WindowsPush(Texts(front), Written(last));
    }
  }

  lemma {:induction false} WindowsPush(parts: seq<string>, part: string)
    ensures WindowsOf(parts + [part]) == WindowsOf(parts) + WindowOf(part)
  {
  }

  lemma {:induction false} ReadOne(start: nat, end: nat)
    requires start < DAY && end < DAY
    ensures WindowOf(Written((start, end))) == [Window(Clock(start), Clock(end))]
  {
    var a, b := Clock(start), Clock(end);
    ClockPlain(start);
    ClockPlain(end);
    var t := a + ['-'] + b;
    assert t[0] == a[0] && a[0] in a && t[|t| - 1] == b[4] && b[4] in b;
    assert TrimBlanks(t) == t;
    SplitFirst(a, '-', b);
    SplitPlain(b, '-');
  }

  // ---- What is read at all ----

  function Dashes(s: string): nat {
    if s == "" then 0 else Dashes(s[1..]) + if s[0] == '-' then 1 else 0
  }

  lemma {:induction false} SplitCounts(s: string)
    ensures |Split(s, '-')| == 1 + Dashes(s)
  {
    if s != "" { SplitCounts(s[1..]); }
  }

  lemma {:induction false} DashesPush(s: string, c: char)
    ensures Dashes(s + [c]) == Dashes(s) + if c == '-' then 1 else 0
  {
    if s != "" {
      DashesPush(s[1..], c);
      assert (s + [c])[1..] == s[1..] + [c];
    }
  }

  lemma {:induction false} TrimKeepsDashes(s: string)
    ensures Dashes(TrimBlanks(s)) == Dashes(s)
    decreases |s|
  {
    if s != "" && IsBlank(s[0]) {
      TrimKeepsDashes(s[1..]);
    } else if s != "" && IsBlank(s[|s| - 1]) {
      TrimKeepsDashes(s[..|s| - 1]);
      DashesPush(s[..|s| - 1], s[|s| - 1]);
      assert s == s[..|s| - 1] + [s[|s| - 1]];
    }
  }

  /** A part of the text is a window exactly when it holds one dash; other parts are
      left out, whatever else they hold. */
  lemma {:induction false} OneDashIsAWindow(part: string)
    ensures |WindowOf(part)| == if Dashes(part) == 1 then 1 else 0
  {
    SplitCounts(TrimBlanks(part));
    TrimKeepsDashes(part);
  }

  predicate Blank(s: string) {
    forall i :: 0 <= i < |s| ==> s[i] == ' ' || s[i] == '\t'
  }

  lemma {:induction false} PaddingTrimmed(before: string, t: string, after: string)
    requires Blank(before) && Blank(after)
    requires t != "" && !IsBlank(t[0]) && !IsBlank(t[|t| - 1])
    ensures TrimBlanks(before + t + after) == t
    decreases |before| + |after|
  {
    var s := before + t + after;
    if before != "" {
      assert s[0] == before[0];
      assert s[1..] == before[1..] + t + after;
      PaddingTrimmed(before[1..], t, after);
    } else if after != "" {
      assert s[0] == t[0] && s[|s| - 1] == after[|after| - 1];
      assert s[..|s| - 1] == before + t + after[..|after| - 1];
      PaddingTrimmed(before, t, after[..|after| - 1]);
    } else {
      assert s == t;
    }
  }

  /** Spaces and tabs around a window are of no account. */
  lemma {:induction false} PaddingIsIgnored(before: string, start: nat, end: nat, after: string)
    requires start < DAY && end < DAY
    requires Blank(before) && Blank(after)
    ensures WindowOf(before + Written((start, end)) + after) == [Window(Clock(start), Clock(end))]
  {
    var t := Written((start, end));
    ReadOne(start, end);
    ClockPlain(start);
    ClockPlain(end);
    assert t[0] == Clock(start)[0] && t[0] in Clock(start);
    assert t[|t| - 1] == Clock(end)[4] && t[|t| - 1] in Clock(end);
    PaddingTrimmed(before, t, after);
    PaddingTrimmed("", t, "");
    assert "" + t + "" == t;
  }
}
