/** internal/events/recorder.go: the event log, a ring of the latest events over a
    file that holds one event a line and is read back when a process starts. */
module Events {
  import opened Prelude

  /** An event; body stands for what is only carried. The time 0 is no time. */
  datatype Event = Event(id: int, at: int, node: string, body: string)

  /** A line of the file: the event, or text that does not parse. */
  type Line = Option<Event>

  /** The file: its lines, and what follows the last of them when an append broke off
      before its newline. */
  datatype Disk = Disk(lines: seq<Line>, tail: Option<Line>)

  /** What became of one append to the file: all of it written, some of it (perhaps all
      but the newline), nothing, or no file to write to. After a failure the encoder
      writes nothing more in the same process; the runs below allow that and more. */
  datatype Write = Written | Torn(whole: bool) | Lost | NotKept

  const DEFAULT_LENGTH := 500

  function Parsed(lines: seq<Line>): seq<Event> {
    if lines == [] then []
    else Parsed(lines[..|lines| - 1]) + if lines[|lines| - 1].Some? then [lines[|lines| - 1].value] else []
  }

  /** The next id once the events have been read, starting from id. */
  function NextAfter(id: int, es: seq<Event>): int {
    if es == [] then id
    else
      var next, last := NextAfter(id, es[..|es| - 1]), es[|es| - 1].id;
      if last >= next then last + 1 else next
  }

  /** The lines a reader finds, with or without a newline at the end. */
  function Readable(d: Disk): seq<Line> {
    if d.tail.Some? then d.lines + [d.tail.value] else d.lines
  }

  /** What is appended joins the line that an earlier append broke off, and no joined
      line parses. */
  function Appended(d: Disk, e: Event, w: Write): Disk {
    var line := if d.tail.None? then Some(e) else None;
    match w
    case Written => Disk(d.lines + [line], None)
    case Torn(whole) => Disk(d.lines, Some(if whole then line else None))
    case Lost => d
    case NotKept => d
  }

  /** The event as the log keeps it. */
  function Kept(e: Event, id: int, now: int): Event {
    e.(id := id, at := if e.at == 0 then now else e.at)
  }

  function Reversed<T>(s: seq<T>): (r: seq<T>)
    ensures |r| == |s|
  {
    seq(|s|, i requires 0 <= i < |s| => s[|s| - 1 - i])
  }

  class LogFile {
    var disk: Disk

    constructor ()
      ensures disk == Disk([], None)
    {
      disk := Disk([], None);
    }
  }

  class Recorder {
    const maxLen: nat
    const events: array<Event>
    var used: nat
    var nextID: int
    var file: LogFile?

    ghost predicate Valid()
      reads this
    {
      maxLen >= 1 && events.Length == maxLen && used <= maxLen
    }

    ghost function Contents(): seq<Event>
      reads this, events
      requires Valid()
    {
      events[..used]
    }

    constructor (maxLen: int)
      ensures Valid() && Contents() == [] && nextID == 1 && file == null && fresh(events)
      ensures this.maxLen == if maxLen <= 0 then 500 else maxLen
    {
      var n := if maxLen <= 0 then DEFAULT_LENGTH else maxLen;
      this.maxLen := n;
      events := new Event[n](_ => Event(0, 0, "", ""));
      used, nextID, file := 0, 1, null;
    }

    /** Appends, or, in a full ring, shifts everything down one place first. */
    method Push(e: Event)
      requires Valid()
      modifies this`used, events
      ensures Valid() && Contents() == LastN(old(Contents()) + [e], maxLen)
    {
      if used >= maxLen {
        for i := 0 to maxLen - 1
          invariant used == maxLen
          invariant forall j :: 0 <= j < i ==> events[j] == old(events[j + 1])
          invariant forall j :: i <= j < maxLen ==> events[j] == old(events[j])
        {
          events[i] := events[i + 1];
        }
        events[maxLen - 1] := e;
        assert Contents() == old(Contents())[1..] + [e];
      } else {
        events[used] := e;
        used := used + 1;
        assert Contents() == old(Contents()) + [e];
      }
    }

    method Record(e: Event, now: int) returns (ghost w: Write)
      requires Valid()
      modifies this`used, this`nextID, events, file
      ensures Valid() && nextID == old(nextID) + 1
      ensures Contents() == LastN(old(Contents()) + [Kept(e, old(nextID), now)], maxLen)
      ensures file == null <==> w == NotKept
      ensures file != null ==> file.disk == Appended(old(file.disk), Kept(e, old(nextID), now), w)
    {
      var kept := Kept(e, nextID, now);
      nextID := nextID + 1;
      Push(kept);
      w := NotKept;
      if file != null {
        var lost: bool := *;
        var torn: bool := *;
        var whole: bool := *;
        if lost {
          w := Lost;
        } else {
          var line := if file.disk.tail.None? then Some(kept) else None;
          if torn {
            w := Torn(whole);
            file.disk := file.disk.(tail := Some(if whole then line else None));
          } else {
            w := Written;
            file.disk := Disk(file.disk.lines + [line], None);
          }
        }
      }
    }

    /** loadFromFile, of the lines that could be read: those that do not parse are
        skipped, and the next id is past every id seen. */
    method LoadFromFile(lines: seq<Line>)
      requires Valid()
      modifies this`used, this`nextID, events
      ensures Valid() && nextID == NextAfter(old(nextID), Parsed(lines))
      ensures Contents() == LastN(old(Contents()) + Parsed(lines), maxLen)
    {
      for i := 0 to |lines|
        invariant Valid() && nextID == NextAfter(old(nextID), Parsed(lines[..i]))
        invariant Contents() == LastN(old(Contents()) + Parsed(lines[..i]), maxLen)
      {
        ghost var before := Parsed(lines[..i]);
        ParsedNext(lines, i);
        if lines[i].Some? {
          var e := lines[i].value;
          NextAfterPush(old(nextID), before, e);
          assert old(Contents()) + (before + [e]) == (old(Contents()) + before) + [e];
          LastNPush(old(Contents()) + before, e, maxLen);
          if e.id >= nextID {
            nextID := e.id + 1;
          }
          Push(e);
        }
      }
      assert lines[..|lines|] == lines;
    }

    /** The lines that could be read are loaded, then the file is opened for
        appending, which may fail. */
    method EnablePersistence(path: LogFile?, read: nat, opens: bool)
      requires Valid() && (path != null ==> read <= |Readable(path.disk)|)
      modifies this, events
      ensures Valid()
      ensures path == null ==> Contents() == old(Contents()) && nextID == old(nextID) && file == old(file)
      ensures path != null ==>
                var loaded := Parsed(Readable(path.disk)[..read]);
                && Contents() == LastN(old(Contents()) + loaded, maxLen) && nextID == NextAfter(old(nextID), loaded)
                && file == (if opens then path else old(file))
    {
      if path == null { return; }
      LoadFromFile(Readable(path.disk)[..read]);
      if opens {
        file := path;
      }
    }

    /** The latest n events, newest first; all of them when n is not that many. */
    method Recent(n: int) returns (out: seq<Event>)
      requires Valid()
      ensures out == Reversed(LastN(Contents(), if n <= 0 || n > used then used else n))
      ensures |out| == (if n <= 0 || n > used then used else n)
      ensures forall i :: 0 <= i < |out| ==> out[i] == Contents()[used - 1 - i]
    {
      var k := if n <= 0 || n > used then used else n;
      out := [];
      for i := 0 to k
        invariant |out| == i && forall j :: 0 <= j < i ==> out[j] == events[used - 1 - j]
      {
        out := out + [events[used - 1 - i]];
      }
      NewestFirst(Contents(), out);
    }
  }

  lemma {:induction false} NewestFirst(all: seq<Event>, out: seq<Event>)
    requires |out| <= |all| && forall i :: 0 <= i < |out| ==> out[i] == all[|all| - 1 - i]
    ensures out == Reversed(LastN(all, |out|))
  {
  }

  lemma {:induction false} ParsedNext(lines: seq<Line>, i: nat)
    requires i < |lines|
    ensures Parsed(lines[..i + 1]) == if lines[i].Some? then Parsed(lines[..i]) + [lines[i].value]
            else Parsed(lines[..i])
  {
    assert lines[..i + 1][..i] == lines[..i];
  }

  lemma {:induction false} NextAfterPush(id: int, es: seq<Event>, e: Event)
    ensures NextAfter(id, es + [e]) == if e.id >= NextAfter(id, es) then e.id + 1 else NextAfter(id, es)
  {
  }

  // ---- A log over restarts ----

  /** all is what the process in charge has loaded and recorded, kept what its ring
      holds of it. */
  datatype Log = Log(all: seq<Event>, kept: seq<Event>, nextID: int, disk: Disk)

  /** A restart reads the first `read` lines back into a new ring. */
  datatype Action = Append(e: Event, now: int, w: Write) | Restart(read: nat)

  function Do(s: Log, maxLen: nat, a: Action): Log {
    match a
    case Append(e, now, w) =>
      var kept := Kept(e, s.nextID, now);
      Log(s.all + [kept], LastN(s.kept + [kept], maxLen), s.nextID + 1, Appended(s.disk, kept, w))
    case Restart(read) =>
      var lines := Readable(s.disk);
      var loaded := Parsed(if read <= |lines| then lines[..read] else lines);
      Log(loaded, LastN(loaded, maxLen), NextAfter(1, loaded), s.disk)
  }

  const NEW_LOG := Log([], [], 1, Disk([], None))

  function Run(maxLen: nat, acts: seq<Action>): Log {
    if acts == [] then NEW_LOG else Do(Run(maxLen, acts[..|acts| - 1]), maxLen, acts[|acts| - 1])
  }

  /** Nothing that parses is left unread. */
  predicate ReadsAll(lines: seq<Line>, read: nat) {
    read <= |lines| ==> Parsed(lines[read..]) == []
  }

  /** Every restart read all there was to read. */
  predicate Complete(maxLen: nat, acts: seq<Action>) {
    acts == [] ||
    (&& Complete(maxLen, acts[..|acts| - 1])
     && (acts[|acts| - 1].Restart? ==> ReadsAll(Readable(Run(maxLen, acts[..|acts| - 1]).disk), acts[|acts| - 1].read)))
  }

  predicate IdsRise(es: seq<Event>) {
    forall i, j :: 0 <= i < j < |es| ==> es[i].id < es[j].id
  }

  predicate IdsBelow(es: seq<Event>, bound: int) {
    forall i :: 0 <= i < |es| ==> 1 <= es[i].id < bound
  }

  lemma {:induction false} ParsedConcat(a: seq<Line>, b: seq<Line>)
    ensures Parsed(a + b) == Parsed(a) + Parsed(b)
  {
    if b == [] {
      assert a + b == a;
    } else {
      ParsedConcat(a, b[..|b| - 1]);
      assert (a + b)[..|a + b| - 1] == a + b[..|b| - 1];
    }
  }

  lemma {:induction false} ParsedPush(lines: seq<Line>, line: Line)
    ensures Parsed(lines + [line]) == Parsed(lines) + if line.Some? then [line.value] else []
  {
  }

  /** An event written after an append that broke off is lost, and so is that one. */
  lemma {:induction false} WrittenNext(d: Disk, e: Event)
    ensures Parsed(Appended(d, e, Written).lines) == Parsed(d.lines) + if d.tail.None? then [e] else []
    ensures Appended(d, e, Written).tail.None?
  {
    ParsedPush(d.lines, if d.tail.None? then Some(e) else None);
  }

  /** An append adds one event to those that can be read, adds none, or spoils the last. */
  lemma {:induction false} ParsedAppend(d: Disk, e: Event, w: Write)
    ensures var es, es' := Parsed(Readable(d)), Parsed(Readable(Appended(d, e, w)));
            es' == es + [e] || es' == es || es' == Parsed(d.lines)
    ensures Parsed(Readable(d)) == Parsed(d.lines) || (d.tail.Some? && d.tail.value.Some?
                                                       && Parsed(Readable(d)) == Parsed(d.lines) + [d.tail.value.value])
  {
    if d.tail.Some? { ParsedPush(d.lines, d.tail.value); }
    var d' := Appended(d, e, w);
    if w.Written? { ParsedPush(d.lines, if d.tail.None? then Some(e) else None); }
    if w.Torn? { ParsedPush(d.lines, d'.tail.value); }
  }

  lemma {:induction false} ReadsAllParsed(lines: seq<Line>, read: nat)
    requires ReadsAll(lines, read) && read <= |lines|
    ensures Parsed(lines[..read]) == Parsed(lines)
  {
    ParsedConcat(lines[..read], lines[read..]);
    assert lines[..read] + lines[read..] == lines;
  }

  /** The next id is past every id read, and no further than it has to be. */
  lemma {:induction false} NextAfterIs(id: int, es: seq<Event>)
    ensures NextAfter(id, es) >= id
    ensures forall i :: 0 <= i < |es| ==> es[i].id < NextAfter(id, es)
    ensures NextAfter(id, es) == id || exists i :: 0 <= i < |es| && NextAfter(id, es) == es[i].id + 1
  {
    if es != [] {
      NextAfterIs(id, es[..|es| - 1]);
    }
  }

  // ---- Results ----

  /** The ring is always the last maxLen of everything loaded and recorded, whatever
      writes failed, wherever the process restarted and however much it read back. */
  lemma {:induction false} RingIsTail(maxLen: nat, acts: seq<Action>)
    requires maxLen >= 1
    ensures Run(maxLen, acts).kept == LastN(Run(maxLen, acts).all, maxLen)
  {
    if acts != [] {
      var s, a := Run(maxLen, acts[..|acts| - 1]), acts[|acts| - 1];
      RingIsTail(maxLen, acts[..|acts| - 1]);
      if a.Append? { LastNPush(s.all, Kept(a.e, s.nextID, a.now), maxLen); }
    }
  }

  ghost predicate Sound(s: Log) {
    && 1 <= s.nextID
    && IdsRise(s.all) && IdsBelow(s.all, s.nextID)
    && IdsRise(Parsed(Readable(s.disk))) && IdsBelow(Parsed(Readable(s.disk)), s.nextID)
  }

  /** Ids rise in memory and on disk, and the next is past them all, whatever writes
      failed, as long as each restart read all the file held. */
  lemma {:induction false} IdsRiseWhenAllIsRead(maxLen: nat, acts: seq<Action>)
    requires Complete(maxLen, acts)
    ensures Sound(Run(maxLen, acts))
  {
    if acts != [] {
      IdsRiseWhenAllIsRead(maxLen, acts[..|acts| - 1]);
      SoundStep(Run(maxLen, acts[..|acts| - 1]), maxLen, acts[|acts| - 1]);
    }
  }

  lemma {:induction false} SoundStep(s: Log, maxLen: nat, a: Action)
    requires Sound(s) && (a.Restart? ==> ReadsAll(Readable(s.disk), a.read))
    ensures Sound(Do(s, maxLen, a))
  {
    match a {
      case Append(e, now, w) => SoundAppend(s, maxLen, e, now, w);
      case Restart(read) =>
        if read <= |Readable(s.disk)| { ReadsAllParsed(Readable(s.disk), read); }
        NextAfterIs(1, Parsed(Readable(s.disk)));
    }
  }

  lemma {:induction false} IdsPush(es: seq<Event>, e: Event)
    requires IdsRise(es) && IdsBelow(es, e.id) && 1 <= e.id
    ensures IdsRise(es + [e]) && IdsBelow(es + [e], e.id + 1) && IdsBelow(es, e.id + 1)
  {
  }

  lemma {:induction false} IdsFront(es: seq<Event>, e: Event, bound: int)
    requires IdsRise(es + [e]) && IdsBelow(es + [e], bound)
    ensures IdsRise(es) && IdsBelow(es, bound)
  {
    assert forall i :: 0 <= i < |es| ==> (es + [e])[i] == es[i];
  }

  lemma {:induction false} IdsAfterAppend(es: seq<Event>, es': seq<Event>, front: seq<Event>, e: Event)
    requires IdsRise(es) && IdsBelow(es, e.id) && 1 <= e.id
    requires es == front || exists x :: es == front + [x]
    requires es' == es + [e] || es' == es || es' == front
    ensures IdsRise(es') && IdsBelow(es', e.id + 1)
  {
    IdsPush(es, e);
    if x :| es == front + [x] {
      IdsFront(front, x, e.id + 1);
    }
  }

  lemma {:induction false} DiskAppend(d: Disk, e: Event, w: Write)
    requires IdsRise(Parsed(Readable(d))) && IdsBelow(Parsed(Readable(d)), e.id) && 1 <= e.id
    ensures IdsRise(Parsed(Readable(Appended(d, e, w)))) && IdsBelow(Parsed(Readable(Appended(d, e, w))), e.id + 1)
  {
    ParsedAppend(d, e, w);
    IdsAfterAppend(Parsed(Readable(d)), Parsed(Readable(Appended(d, e, w))), Parsed(d.lines), e);
  }

  lemma {:induction false} SoundAppend(s: Log, maxLen: nat, e: Event, now: int, w: Write)
    requires Sound(s)
    ensures Sound(Do(s, maxLen, Append(e, now, w)))
  {
    IdsPush(s.all, Kept(e, s.nextID, now));
    DiskAppend(s.disk, Kept(e, s.nextID, now), w);
  }

  /** After a restart that stopped early, the next event written keeps the ids in
      the file rising if and only if nothing that parses was left unread, or it is lost
      to a line that broke off before. */
  lemma {:induction false} UnreadEventsRepeatIds(d: Disk, read: nat, e: Event)
    requires var es := Parsed(Readable(d)); IdsRise(es) && forall i :: 0 <= i < |es| ==> es[i].id >= 1
    requires read <= |Readable(d)|
    ensures var next := NextAfter(1, Parsed(Readable(d)[..read]));
            IdsRise(Parsed(Readable(Appended(d, e.(id := next), Written))))
            <==> ReadsAll(Readable(d), read) || d.tail.Some?
  {
    var next := NextAfter(1, Parsed(Readable(d)[..read]));
    WrittenNext(d, e.(id := next));
    if d.tail.Some? {
      ParsedPush(d.lines, d.tail.value);
      assert forall i :: 0 <= i < |Parsed(d.lines)| ==> Parsed(d.lines)[i] == Parsed(Readable(d))[i];
    } else {
      NextRepeats(d.lines, read, e);
    }
  }

  lemma {:induction false} NextRepeats(lines: seq<Line>, read: nat, e: Event)
    requires read <= |lines| && IdsRise(Parsed(lines))
             && (forall i :: 0 <= i < |Parsed(lines)| ==> Parsed(lines)[i].id >= 1)
    ensures var next := NextAfter(1, Parsed(lines[..read]));
            IdsRise(Parsed(lines) + [e.(id := next)]) <==> ReadsAll(lines, read)
  {
    var before, after := Parsed(lines[..read]), Parsed(lines[read..]);
    ParsedConcat(lines[..read], lines[read..]);
    assert lines[..read] + lines[read..] == lines;
    NextAfterIs(1, before);
    var next := NextAfter(1, before);
    var whole := before + after + [e.(id := next)];
    if after != [] {
      var k := |before| + |after| - 1;
      assert whole[k].id >= next by {
        assert whole[k] == Parsed(lines)[k];
        assert forall i :: 0 <= i < |before| ==> before[i] == Parsed(lines)[i];
      }
      assert whole[k + 1].id == next;
    } else {
      assert Parsed(lines) == before;
    }
  }

  // ---- What can be read at the end of a run ----

  /** An append of which something came to the file. */
  predicate Reaches(a: Action) {
    a.Append? && (a.w.Written? || a.w.Torn?)
  }

  /** The last append to reach the file broke off. */
  predicate BrokenOff(acts: seq<Action>) {
    acts != [] && if Reaches(acts[|acts| - 1]) then acts[|acts| - 1].w.Torn? else BrokenOff(acts[..|acts| - 1])
  }

  /** The event of the append at i, as it was recorded. */
  function RecordedAt(maxLen: nat, acts: seq<Action>, i: nat): Event
    requires i < |acts| && acts[i].Append?
  {
    Kept(acts[i].e, Run(maxLen, acts[..i]).nextID, acts[i].now)
  }

  /** It was written, and the last append before it to reach the file had not broken off. */
  predicate ReadableAt(acts: seq<Action>, i: nat)
    requires i < |acts|
  {
    acts[i].Append? && acts[i].w.Written? && !BrokenOff(acts[..i])
  }

  /** The events of the first n actions that can be read. */
  function ReadableUpto(maxLen: nat, acts: seq<Action>, n: nat): seq<Event>
    requires n <= |acts|
  {
    if n == 0 then []
    else ReadableUpto(maxLen, acts, n - 1) + if ReadableAt(acts, n - 1) then [RecordedAt(maxLen, acts, n - 1)] else []
  }

  /** An append that broke off just before its newline leaves an event that can be read
      until another append reaches the file, unless it joined a broken line itself. */
  function WholeTail(maxLen: nat, acts: seq<Action>): seq<Event> {
    if acts == [] then []
    else
      var front, a := acts[..|acts| - 1], acts[|acts| - 1];
      if !Reaches(a) then WholeTail(maxLen, front)
      else if a.w == Torn(true) && !BrokenOff(front) then [RecordedAt(maxLen, acts, |front|)] else []
  }

  lemma {:induction false} SameBefore(maxLen: nat, acts: seq<Action>, a: Action, n: nat)
    requires n <= |acts|
    ensures ReadableUpto(maxLen, acts + [a], n) == ReadableUpto(maxLen, acts, n)
  {
    if n > 0 {
      SameBefore(maxLen, acts, a, n - 1);
      assert (acts + [a])[..n - 1] == acts[..n - 1];
    }
  }

  /** What a file holds: events in lines of their own, what is left of one broken off,
      and whether one did. */
  predicate Holds(d: Disk, readable: seq<Event>, whole: seq<Event>, broken: bool) {
    Parsed(d.lines) == readable && Parsed(Readable(d)) == readable + whole && (d.tail.Some? <==> broken)
  }

  lemma {:induction false} HoldsWritten(d: Disk, readable: seq<Event>, whole: seq<Event>, broken: bool, e: Event)
    requires Holds(d, readable, whole, broken)
    ensures Holds(Appended(d, e, Written), readable + if broken then [] else [e], [], false)
  {
    WrittenNext(d, e);
  }

  lemma {:induction false} HoldsTorn(
      d: Disk, readable: seq<Event>, whole: seq<Event>, broken: bool, e: Event, all: bool)
    requires Holds(d, readable, whole, broken)
    ensures Holds(Appended(d, e, Torn(all)), readable, if all && !broken then [e] else [], true)
  {
    ParsedPush(d.lines, Appended(d, e, Torn(all)).tail.value);
  }

  lemma {:induction false} UptoLast(maxLen: nat, front: seq<Action>, a: Action)
    ensures ReadableUpto(maxLen, front + [a], |front| + 1)
            == ReadableUpto(maxLen, front, |front|)
               + if !(a.Append? && a.w.Written?) || BrokenOff(front) then []
                 else [Kept(a.e, Run(maxLen, front).nextID, a.now)]
  {
    SameBefore(maxLen, front, a, |front|);
    assert (front + [a])[..|front|] == front;
  }

  lemma {:induction false} TailLast(maxLen: nat, front: seq<Action>, a: Action)
    ensures BrokenOff(front + [a]) <==> if Reaches(a) then a.w.Torn? else BrokenOff(front)
    ensures WholeTail(maxLen, front + [a])
            == if !Reaches(a) then WholeTail(maxLen, front)
               else if a.w == Torn(true) && !BrokenOff(front) then [Kept(a.e, Run(maxLen, front).nextID, a.now)] else []
    ensures Run(maxLen, front + [a]) == Do(Run(maxLen, front), maxLen, a)
  {
    assert (front + [a])[..|front|] == front;
  }

  lemma {:induction false} DiskNext(
      s: Log, maxLen: nat, a: Action, readable: seq<Event>, whole: seq<Event>, broken: bool)
    requires Holds(s.disk, readable, whole, broken)
    ensures a.Append? ==>
              var e := Kept(a.e, s.nextID, a.now);
              && (a.w.Written? ==> Holds(Do(s, maxLen, a).disk, readable + if broken then [] else [e], [], false))
              && (a.w.Torn? ==> Holds(Do(s, maxLen, a).disk, readable, if a.w.whole && !broken then [e] else [], true))
    ensures !Reaches(a) ==> Do(s, maxLen, a).disk == s.disk
  {
    if a.Append? && a.w.Written? {
      HoldsWritten(s.disk, readable, whole, broken, Kept(a.e, s.nextID, a.now));
    } else if a.Append? && a.w.Torn? {
      HoldsTorn(s.disk, readable, whole, broken, Kept(a.e, s.nextID, a.now), a.w.whole);
    }
  }

  /** Whatever was written, torn, lost or restarted: what can be read of the file at the
      end are, in order, the events written of which the last append before to reach the
      file had not broken off, and at most one more, whole but for its newline. */
  lemma {:induction false} ReadBackExactly(maxLen: nat, acts: seq<Action>)
    ensures Holds(Run(maxLen, acts).disk, ReadableUpto(maxLen, acts, |acts|), WholeTail(maxLen, acts), BrokenOff(acts))
  {
    if acts != [] {
      var front, a := acts[..|acts| - 1], acts[|acts| - 1];
      ReadBackExactly(maxLen, front);
      assert acts == front + [a];
      UptoLast(maxLen, front, a);
      TailLast(maxLen, front, a);
      DiskNext(Run(maxLen, front), maxLen, a, ReadableUpto(maxLen, front, |front|), WholeTail(maxLen, front),
               BrokenOff(front));
    }
  }

  predicate AllWritten(acts: seq<Action>) {
    forall i :: 0 <= i < |acts| ==> (acts[i].Append? ==> acts[i].w.Written?)
  }

  ghost predicate OnDisk(s: Log, maxLen: nat) {
    && s.disk.tail.None? && s.kept == LastN(Parsed(s.disk.lines), maxLen)
    && s.nextID == NextAfter(1, Parsed(s.disk.lines))
  }

  /** While writes succeed a restart loses nothing: at any point of any run, reading
      the file back restores the very same ring and the same next id. */
  lemma {:induction false} ReloadRestores(maxLen: nat, acts: seq<Action>, read: nat)
    requires maxLen >= 1 && Complete(maxLen, acts) && AllWritten(acts)
    requires ReadsAll(Readable(Run(maxLen, acts).disk), read)
    ensures var s, s' := Run(maxLen, acts), Do(Run(maxLen, acts), maxLen, Restart(read));
            s'.kept == s.kept && s'.nextID == s.nextID && s'.disk == s.disk
  {
    var s := Run(maxLen, acts);
    WrittenOnDisk(maxLen, acts);
    if read <= |s.disk.lines| { ReadsAllParsed(s.disk.lines, read); }
  }

  lemma {:induction false} WrittenOnDisk(maxLen: nat, acts: seq<Action>)
    requires maxLen >= 1 && Complete(maxLen, acts) && AllWritten(acts)
    ensures OnDisk(Run(maxLen, acts), maxLen)
  {
    if acts != [] {
      WrittenOnDisk(maxLen, acts[..|acts| - 1]);
      OnDiskStep(Run(maxLen, acts[..|acts| - 1]), maxLen, acts[|acts| - 1]);
    }
  }

  lemma {:induction false} OnDiskStep(s: Log, maxLen: nat, a: Action)
    requires maxLen >= 1 && OnDisk(s, maxLen) && (a.Append? ==> a.w.Written?)
    requires a.Restart? ==> ReadsAll(Readable(s.disk), a.read)
    ensures OnDisk(Do(s, maxLen, a), maxLen)
  {
    match a {
      case Append(e, now, w) =>
        var kept, before := Kept(e, s.nextID, now), Parsed(s.disk.lines);
        ParsedPush(s.disk.lines, Some(kept));
        LastNPush(before, kept, maxLen);
        NextAfterPush(1, before, kept);
      case Restart(read) =>
        if read <= |s.disk.lines| { ReadsAllParsed(s.disk.lines, read); }
    }
  }
}
