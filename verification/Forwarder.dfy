/** internal/events/forwarder.go: a node agent's bounded buffer of events, posted in
    batches. Records keep arriving, and may push old events out, while a batch is
    on the wire; what was sent is then removed by sequence number. */
module Forwarders {
  import opened Prelude
  import opened Events

  const MAX_BATCH := 200
  const FORWARD_BUFFER := 2000

  datatype Queued = Queued(seqNo: nat, ev: Event)

  datatype Buffer = Buffer(buf: seq<Queued>, nextSeq: nat)

  // ---- What each critical section does to the buffer ----

  function AfterRecord(b: Buffer, max: nat, e: Event): Buffer
    requires max >= 1
  {
    Buffer((if |b.buf| >= max then b.buf[1..] else b.buf) + [Queued(b.nextSeq + 1, e)], b.nextSeq + 1)
  }

  function AfterRecords(b: Buffer, max: nat, es: seq<Event>): Buffer
    requires max >= 1
  {
    if es == [] then b else AfterRecord(AfterRecords(b, max, es[..|es| - 1]), max, es[|es| - 1])
  }

  function Batch(b: Buffer): seq<Queued> {
    b.buf[..if |b.buf| < MAX_BATCH then |b.buf| else MAX_BATCH]
  }

  /** How many leading entries carry a number up to last. */
  function Sent(buf: seq<Queued>, last: nat): (n: nat)
    ensures n <= |buf|
  {
    if buf == [] || buf[0].seqNo > last then 0 else 1 + Sent(buf[1..], last)
  }

  function AfterTrim(b: Buffer, last: nat): Buffer {
    b.(buf := b.buf[Sent(b.buf, last)..])
  }

  function EventsOf(qs: seq<Queued>): (es: seq<Event>)
    ensures |es| == |qs|
  {
    seq(|qs|, i requires 0 <= i < |qs| => qs[i].ev)
  }

  /** The buffer is the consecutive numbers that end at nextSeq. */
  ghost predicate Consecutive(b: Buffer) {
    |b.buf| <= b.nextSeq && forall i :: 0 <= i < |b.buf| ==> b.buf[i].seqNo == b.nextSeq - |b.buf| + 1 + i
  }

  /** The number at the front of the buffer, or the next one when it is empty. */
  function Front(b: Buffer): nat {
    if |b.buf| <= b.nextSeq then b.nextSeq - |b.buf| + 1 else 0
  }

  /** Trimming a consecutive buffer drops exactly the numbers up to last. */
  lemma {:induction false} SentCount(buf: seq<Queued>, last: nat, front: nat)
    requires forall i :: 0 <= i < |buf| ==> buf[i].seqNo == front + i
    ensures Sent(buf, last) == if last < front then 0 else if last - front + 1 <= |buf| then last - front + 1 else |buf|
  {
    if buf != [] && buf[0].seqNo <= last {
      SentCount(buf[1..], last, front + 1);
    }
  }

  /** The event as an agent queues it: stamped with the time and the agent's node when
      it carries none. */
  function StampedBy(node: string, e: Event, now: int): Event {
    e.(at := if e.at == 0 then now else e.at, node := if e.node == "" then node else e.node)
  }

  /** The first stamp stays, however many agents pass the event on; and nothing else of
      it is touched. */
  lemma {:induction false} FirstStampStays(e: Event, node: string, now: int, other: string, later: int)
    requires now != 0 && node != ""
    ensures var s := StampedBy(node, e, now);
            && StampedBy(other, s, later) == s && s.at != 0 && s.node != ""
            && s.(at := e.at, node := e.node) == e
            && (e.at == 0 ==> s.at == now) && (e.node == "" ==> s.node == node)
            && (e.at != 0 ==> s.at == e.at) && (e.node != "" ==> s.node == e.node)
  {
  }

  // ---- The code ----

  class Forwarder {
    const node: string
    const max: nat
    var buf: seq<Queued>
    var nextSeq: nat
    var accepted: seq<Event> // what the targets have taken, batch by batch

    ghost predicate Valid()
      reads this
    {
      max >= 1 && Consecutive(Model()) && |buf| <= max
    }

    function Model(): Buffer
      reads this
    {
      Buffer(buf, nextSeq)
    }

    constructor (node: string)
      ensures Valid() && max == 2000 && this.node == node && Model() == Buffer([], 0) && accepted == []
    {
      this.node, max, buf, nextSeq, accepted := node, FORWARD_BUFFER, [], 0, [];
    }

    function Stamped(e: Event, now: int): Event {
      StampedBy(node, e, now)
    }

    method Record(e: Event, now: int)
      requires Valid()
      modifies this`buf, this`nextSeq
      ensures Valid() && Model() == AfterRecord(old(Model()), max, Stamped(e, now))
      ensures buf[|buf| - 1] == Queued(old(nextSeq) + 1, Stamped(e, now))
    {
      if |buf| >= max {
        buf := buf[1..];
      }
      nextSeq := nextSeq + 1;
      buf := buf + [Queued(nextSeq, Stamped(e, now))];
    }

    /** The first critical section of Flush: a copy of the front of the buffer. */
    method Copy() returns (batch: seq<Event>, last: nat)
      requires Valid()
      ensures batch == EventsOf(Batch(Model())) && (batch == [] <==> buf == []) && |batch| <= 200
      ensures batch != [] ==> last == Batch(Model())[|batch| - 1].seqNo
    {
      var n := if |buf| < MAX_BATCH then |buf| else MAX_BATCH;
      batch, last := [], 0;
      for i := 0 to n
        invariant batch == EventsOf(buf[..i]) && (i > 0 ==> last == buf[i - 1].seqNo)
      {
        assert buf[..i + 1] == buf[..i] + [buf[i]];
        batch, last := batch + [buf[i].ev], buf[i].seqNo;
      }
    }

    /** Its second critical section. */
    method Trim(last: nat)
      requires Valid()
      modifies this`buf
      ensures Valid() && Model() == AfterTrim(old(Model()), last)
    {
      var i := 0;
      while i < |buf| && buf[i].seqNo <= last
        invariant 0 <= i <= |buf| && Sent(buf, last) == i + Sent(buf[i..], last)
      {
        assert buf[i..][1..] == buf[i + 1..];
        i := i + 1;
      }
      assert buf == old(buf);
      buf := buf[i..];
    }

    /** One batch: copied, encoded and posted to every target, during which other
        handlers record `during`, and trimmed only when every target took it.
        With no target the batch is done. */
    method Flush(encodes: bool, targets: Option<seq<bool>>, during: seq<Event>) returns (n: Result<nat, ()>)
      requires Valid()
      modifies this
      ensures Valid()
      ensures old(buf) == [] ==> n == Ok(0) && Model() == old(Model()) && accepted == old(accepted)
      ensures old(buf) != [] ==>
                var batch, later := old(Batch(Model())), old(AfterRecords(Model(), max, during));
                var taken := encodes && targets.Some? && forall i :: 0 <= i < |targets.value| ==> targets.value[i];
                && n == (if taken then Ok(|batch|) else Err(()))
                && Model() == (if taken then AfterTrim(later, batch[|batch| - 1].seqNo) else later)
                && accepted == old(accepted) + if taken then EventsOf(batch) else []
    {
      var batch, last := Copy();
      if batch == [] { return Ok(0); }
      RecordAll(during);
      if !encodes || targets.None? { return Err(()); }
      for i := 0 to |targets.value|
        invariant forall j :: 0 <= j < i ==> targets.value[j]
      {
        if !targets.value[i] { return Err(()); }
      }
      accepted := accepted + batch;
      Trim(last);
      return Ok(|batch|);
    }

    /** Events other handlers record, already stamped. */
    method RecordAll(es: seq<Event>)
      requires Valid()
      modifies this`buf, this`nextSeq
      ensures Valid() && Model() == AfterRecords(old(Model()), max, es)
    {
      for i := 0 to |es|
        invariant Valid() && Model() == AfterRecords(old(Model()), max, es[..i])
      {
        assert es[..i + 1][..i] == es[..i];
        if |buf| >= max {
          buf := buf[1..];
        }
        nextSeq := nextSeq + 1;
        buf := buf + [Queued(nextSeq, es[i])];
      }
      assert es[..|es|] == es;
    }

    /** A flush while no handler records: it moves the front of the buffer to what
        was accepted, or moves nothing. */
    method FlushAlone(answer: bool) returns (n: Result<nat, ()>)
      requires Valid()
      modifies this
      ensures Valid() && nextSeq == old(nextSeq)
      ensures accepted + EventsOf(buf) == old(accepted + EventsOf(buf))
      ensures n.Err? ==> buf == old(buf)
      ensures n.Ok? ==> |buf| == |old(buf)| - n.value && (n.value < MAX_BATCH ==> buf == [])
    {
      ghost var before := Model();
      n := Flush(true, Some([answer]), []);
      if before.buf != [] {
        BatchThenRest(before);
      }
    }

    /** drain, while no handler records: full batches until one is short or a send
        fails. It sends the front of the buffer in order, nothing twice; when no
        send fails, all of it. */
    method Drain() returns (ok: bool)
      requires Valid()
      modifies this
      ensures Valid() && nextSeq == old(nextSeq)
      ensures accepted + EventsOf(buf) == old(accepted + EventsOf(buf))
      ensures ok ==> buf == []
    {
      while true
        invariant Valid() && nextSeq == old(nextSeq)
        invariant accepted + EventsOf(buf) == old(accepted + EventsOf(buf))
        decreases |buf|
      {
        var answer: bool := *;
        var n := FlushAlone(answer);
        if n.Err? { return false; }
        if n.value < MAX_BATCH { return true; }
      }
    }
  }

  /** Trimming up to the end of the batch leaves what was not in the batch. */
  lemma {:induction false} BatchThenRest(b: Buffer)
    requires Consecutive(b) && b.buf != []
    ensures AfterTrim(b, Batch(b)[|Batch(b)| - 1].seqNo).buf == b.buf[|Batch(b)|..]
    ensures EventsOf(b.buf) == EventsOf(Batch(b)) + EventsOf(b.buf[|Batch(b)|..])
  {
    SentCount(b.buf, Batch(b)[|Batch(b)| - 1].seqNo, Front(b));
  }
}
