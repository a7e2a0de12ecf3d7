/** internal/events/forwarder.go over whole runs: events recorded while a batch is in
    flight, posts that fail, that arrive though they were answered with a failure, or
    that arrive long after they were given up on, and targets that change from one
    flush to the next. One target is followed: what it receives, and in which order. */
module ForwarderRuns {
  import opened Prelude
  import opened Events
  import opened Forwarders

  /** The flush in flight; reached says the followed target has its batch. */
  datatype Flight = Flight(batch: seq<Queued>, reached: bool)

  /** recorded holds every event, the one numbered n at n - 1. lo and hi bound the
      batch with the highest number that reached the followed target; skipped are the
      numbers done with by a flush that was not posted to it; late are the batches
      posted to it and given up on, which may still come. */
  datatype Link = Link(
    b: Buffer, flight: Option<Flight>, recorded: seq<Event>,
    dropped: set<nat>, trimmed: set<nat>, skipped: set<nat>,
    arrivals: seq<Queued>, lo: nat, hi: nat, late: seq<seq<Queued>>)

  const EMPTY := Link(Buffer([], 0), None, [], {}, {}, {}, [], 1, 0, [])

  datatype Action =
    | Record(e: Event)
    | Copy                                // a flush begins
    | Post(mine: bool, arrives: bool)     // to the followed target or another; answered with success
    | PostFails(mine: bool, arrives: bool)
    | Late(k: nat)                        // a batch given up on is handled after all
    | GiveUp                              // the batch does not encode, or the targets are unknown
    | Trim                                // every post succeeded

  function Numbers(qs: seq<Queued>): set<nat> {
    set q | q in qs :: q.seqNo
  }

  function Highest(qs: seq<Queued>): nat
    requires qs != []
  {
    qs[|qs| - 1].seqNo
  }

  function First(f: Flight): nat
    requires f.batch != []
  {
    f.batch[0].seqNo
  }

  function Last(f: Flight): nat
    requires f.batch != []
  {
    Highest(f.batch)
  }

  function Arrived(s: Link): Link
    requires s.flight.Some? && s.flight.value.batch != []
  {
    s.(arrivals := s.arrivals + s.flight.value.batch, lo := First(s.flight.value), hi := Last(s.flight.value),
       flight := Some(s.flight.value.(reached := true)))
  }

  function ArrivedLate(s: Link, batch: seq<Queued>): Link {
    if batch == [] then s
    else if Highest(batch) <= s.hi then s.(arrivals := s.arrivals + batch)
    else s.(arrivals := s.arrivals + batch, lo := batch[0].seqNo, hi := Highest(batch))
  }

  /** The post failed; a request that has not arrived by then may do so later. */
  function GivenUpOn(s: Link, mine: bool, arrives: bool): Link {
    if !mine || s.flight.None? || s.flight.value.batch == [] then s.(flight := None)
    else (if arrives then Arrived(s) else s.(late := s.late + [s.flight.value.batch])).(flight := None)
  }

  predicate Enabled(s: Link, a: Action) {
    match a
    case Record(_) => true
    case Copy => s.flight.None? && s.b.buf != []
    case Post(mine, arrives) => s.flight.Some? && (mine ==> arrives)
    case PostFails(_, _) => s.flight.Some?
    case Late(k) => k < |s.late|
    case GiveUp => s.flight.Some?
    case Trim => s.flight.Some?
  }

  function Recorded(s: Link, max: nat, e: Event): Link
    requires max >= 1
  {
    s.(b := AfterRecord(s.b, max, e), recorded := s.recorded + [e],
       dropped := if |s.b.buf| >= max then s.dropped + {s.b.buf[0].seqNo} else s.dropped)
  }

  function Trimmed(s: Link): Link
    requires s.flight.Some? && s.flight.value.batch != []
  {
    var last := Last(s.flight.value);
    var gone := Numbers(s.b.buf[..Sent(s.b.buf, last)]);
    s.(b := AfterTrim(s.b, last), flight := None, trimmed := s.trimmed + gone,
       skipped := if s.flight.value.reached then s.skipped else s.skipped + gone)
  }

  function Do(s: Link, max: nat, a: Action): Link
    requires max >= 1
  {
    match a
    case Record(e) => Recorded(s, max, e)
    case Copy => s.(flight := Some(Flight(Batch(s.b), false)))
    case Post(mine, arrives) =>
      if mine && arrives && s.flight.Some? && s.flight.value.batch != [] then Arrived(s) else s
    case PostFails(mine, arrives) => GivenUpOn(s, mine, arrives)
    case Late(k) => if k < |s.late| then ArrivedLate(s, s.late[k]) else s
    case GiveUp => s.(flight := None)
    case Trim => if s.flight.None? || s.flight.value.batch == [] then s else Trimmed(s)
  }

  function Run(max: nat, acts: seq<Action>): Link
    requires max >= 1
  {
    if acts == [] then EMPTY else Do(Run(max, acts[..|acts| - 1]), max, acts[|acts| - 1])
  }

  predicate Runs(max: nat, acts: seq<Action>)
    requires max >= 1
  {
    acts == [] || (Runs(max, acts[..|acts| - 1]) && Enabled(Run(max, acts[..|acts| - 1]), acts[|acts| - 1]))
  }

  /** The numbers from lo up to but not including hi. */
  function Range(lo: nat, hi: int): (r: set<nat>)
    ensures forall n :: n in r <==> lo <= n < hi
    decreases hi - lo
  {
    if hi <= lo then {} else Range(lo, hi - 1) + {hi - 1}
  }

  /** The numbers a target sees for the first time, in the order it sees them. */
  function FirstSeen(arrivals: seq<Queued>): seq<nat> {
    if arrivals == [] then []
    else
      var front, last := arrivals[..|arrivals| - 1], arrivals[|arrivals| - 1].seqNo;
      if last in Numbers(front) then FirstSeen(front) else FirstSeen(front) + [last]
  }

  predicate Rising(ns: seq<nat>) {
    forall i, j :: 0 <= i < j < |ns| ==> ns[i] < ns[j]
  }

  // ---- What every reachable state satisfies ----

  predicate FromOn(qs: seq<Queued>, first: nat) {
    forall i :: 0 <= i < |qs| ==> qs[i].seqNo == first + i
  }

  /** The buffer is the consecutive numbers up to nextSeq; those before it were
      dropped or trimmed, and not both. */
  ghost predicate Accounted(s: Link, max: nat) {
    && |s.b.buf| <= s.b.nextSeq && |s.b.buf| <= max && FromOn(s.b.buf, Front(s.b))
    && s.dropped + s.trimmed == Range(1, Front(s.b)) && s.dropped !! s.trimmed
  }

  /** A batch in flight is consecutive, begins no later than the buffer does and no
      earlier than the last batch that reached the target, and ends no earlier. */
  ghost predicate FlightOk(s: Link, f: Flight) {
    && 1 <= |f.batch| <= MAX_BATCH && FromOn(f.batch, First(f))
    && s.lo <= First(f) <= Front(s.b) && s.hi <= Last(f) <= s.b.nextSeq
    && (f.reached ==> s.lo == First(f) && s.hi == Last(f))
  }

  ghost predicate InOrder(s: Link) {
    && 1 <= s.lo <= Front(s.b) && s.hi <= s.b.nextSeq && s.hi < s.lo + MAX_BATCH
    && Range(s.lo, s.hi + 1) <= Numbers(s.arrivals) <= Range(1, s.hi + 1)
    && s.trimmed <= Numbers(s.arrivals) + s.skipped
    && (if s.arrivals == [] then s.hi == 0 else s.lo <= s.hi)
  }

  /** A batch given up on is consecutive, and neither begins nor ends later than what
      is copied after it. */
  ghost predicate LateOk(s: Link, qs: seq<Queued>) {
    && 1 <= |qs| <= MAX_BATCH && FromOn(qs, qs[0].seqNo)
    && 1 <= qs[0].seqNo <= Front(s.b) && Highest(qs) <= s.b.nextSeq
    && (s.flight.Some? && s.flight.value.batch != [] ==>
          qs[0].seqNo <= First(s.flight.value) && Highest(qs) <= Last(s.flight.value))
  }

  ghost predicate Inv(s: Link, max: nat) {
    && Accounted(s, max) && InOrder(s) && (s.flight.Some? ==> FlightOk(s, s.flight.value))
    && forall k :: 0 <= k < |s.late| ==> LateOk(s, s.late[k])
  }

  lemma {:induction false} NumbersConcat(a: seq<Queued>, b: seq<Queued>)
    ensures Numbers(a + b) == Numbers(a) + Numbers(b)
  {
  }

  lemma {:induction false} FromOnNumbers(qs: seq<Queued>, first: nat)
    requires FromOn(qs, first)
    ensures Numbers(qs) == Range(first, first + |qs|)
  {
    forall n | n in Range(first, first + |qs|) ensures n in Numbers(qs) {
      assert qs[n - first] in qs;
    }
    forall q | q in qs ensures q.seqNo in Range(first, first + |qs|) {
      var i :| 0 <= i < |qs| && qs[i] == q;
    }
  }

  lemma {:induction false} FirstSeenElements(arrivals: seq<Queued>)
    ensures forall n :: n in FirstSeen(arrivals) <==> n in Numbers(arrivals)
  {
    if arrivals != [] {
      var front, last := arrivals[..|arrivals| - 1], arrivals[|arrivals| - 1];
      FirstSeenElements(front);
      assert arrivals == front + [last];
      NumbersConcat(front, [last]);
    }
  }

  /** A batch that begins no earlier than the last one did adds, as first seen,
      exactly the numbers after the highest seen: the order keeps rising. */
  lemma {:induction false} RisingOn(arrivals: seq<Queued>, batch: seq<Queued>, first: nat, lo: nat, hi: nat)
    requires Rising(FirstSeen(arrivals)) && FromOn(batch, first) && lo <= first
    requires Range(lo, hi + 1) <= Numbers(arrivals) <= Range(1, hi + 1)
    ensures Rising(FirstSeen(arrivals + batch))
  {
    if batch == [] {
      assert arrivals + batch == arrivals;
    } else {
      var front, last := batch[..|batch| - 1], batch[|batch| - 1];
      RisingOn(arrivals, front, first, lo, hi);
      assert (arrivals + batch)[..|arrivals + batch| - 1] == arrivals + front;
      NumbersConcat(arrivals, front);
      FromOnNumbers(front, first);
      FirstSeenElements(arrivals + front);
      RisingPush(FirstSeen(arrivals + front), last.seqNo);
    }
  }

  lemma {:induction false} RisingPush(ns: seq<nat>, n: nat)
    requires Rising(ns)
    ensures (forall m :: m in ns ==> m < n) ==> Rising(ns + [n])
  {
    assert forall i :: 0 <= i < |ns| ==> ns[i] in ns;
  }

  // ---- Each step ----

  lemma {:induction false} InvRecord(s: Link, max: nat, e: Event)
    requires max >= 1 && Inv(s, max)
    ensures Inv(Recorded(s, max, e), max)
  {
  }

  lemma {:induction false} InvCopy(s: Link, max: nat)
    requires max >= 1 && Inv(s, max) && Enabled(s, Copy)
    ensures Inv(Do(s, max, Copy), max)
  {
  }

  /** The followed target has the batch in flight. */
  lemma {:induction false} InvArrived(s: Link, max: nat)
    requires Inv(s, max) && s.flight.Some?
    ensures Inv(Arrived(s), max)
  {
    var f := s.flight.value;
    NumbersConcat(s.arrivals, f.batch);
    FromOnNumbers(f.batch, First(f));
    assert Last(f) == First(f) + |f.batch| - 1;
  }

  lemma {:induction false} InvPost(s: Link, max: nat, a: Action)
    requires max >= 1 && Inv(s, max) && Enabled(s, a) && a.Post?
    ensures Inv(Do(s, max, a), max)
  {
    InvArrived(s, max);
  }

  lemma {:induction false} InvGivenUp(s: Link, max: nat, mine: bool, arrives: bool)
    requires Inv(s, max) && s.flight.Some?
    ensures Inv(GivenUpOn(s, mine, arrives), max)
  {
    InvArrived(s, max);
  }

  lemma {:induction false} LateInOrder(s: Link, qs: seq<Queued>)
    requires InOrder(s) && LateOk(s, qs)
    ensures InOrder(ArrivedLate(s, qs))
  {
    NumbersConcat(s.arrivals, qs);
    FromOnNumbers(qs, qs[0].seqNo);
  }

  /** A batch given up on comes after all. */
  lemma {:induction false} InvLate(s: Link, max: nat, k: nat)
    requires Inv(s, max) && k < |s.late|
    ensures Inv(ArrivedLate(s, s.late[k]), max)
  {
    var s' := ArrivedLate(s, s.late[k]);
    assert LateOk(s, s.late[k]);
    LateInOrder(s, s.late[k]);
    forall i | 0 <= i < |s'.late| ensures LateOk(s', s'.late[i]) {
      assert LateOk(s, s.late[i]);
    }
  }

  /** What a trim removes: the numbers from the front of the buffer up to the last
      of the batch, every one of them in the batch. */
  lemma {:induction false} TrimmedIsBatch(s: Link, max: nat)
    requires Inv(s, max) && s.flight.Some?
    ensures var f := s.flight.value;
            var k := Sent(s.b.buf, Last(f));
            && k == (if Last(f) < Front(s.b) then 0 else Last(f) - Front(s.b) + 1)
            && Numbers(s.b.buf[..k]) == Range(Front(s.b), Front(s.b) + k) <= Numbers(f.batch)
            && Numbers(f.batch) == Range(First(f), Last(f) + 1)
  {
    var f := s.flight.value;
    SentCount(s.b.buf, Last(f), Front(s.b));
    FromOnNumbers(f.batch, First(f));
    FromOnNumbers(s.b.buf[..Sent(s.b.buf, Last(f))], Front(s.b));
  }

  lemma {:induction false} InvTrim(s: Link, max: nat)
    requires Inv(s, max) && s.flight.Some?
    ensures Inv(Trimmed(s), max)
  {
    TrimAccounted(s, max);
    TrimInOrder(s, max);
  }

  lemma {:induction false} TrimAccounted(s: Link, max: nat)
    requires Inv(s, max) && s.flight.Some?
    ensures Accounted(Trimmed(s), max) && Front(Trimmed(s).b) >= Front(s.b)
  {
    var s' := Trimmed(s);
    TrimmedIsBatch(s, max);
    var k := Sent(s.b.buf, Last(s.flight.value));
    assert Front(s'.b) == Front(s.b) + k;
    MoveTrimmed(s.dropped, s.trimmed, Front(s.b), k);
  }

  lemma {:induction false} TrimInOrder(s: Link, max: nat)
    requires Inv(s, max) && s.flight.Some?
    ensures InOrder(Trimmed(s))
  {
    TrimmedIsBatch(s, max);
    TrimAccounted(s, max);
  }

  lemma {:induction false} MoveTrimmed(dropped: set<nat>, trimmed: set<nat>, front: nat, k: nat)
    requires front >= 1 && dropped + trimmed == Range(1, front) && dropped !! trimmed
    ensures dropped + (trimmed + Range(front, front + k)) == Range(1, front + k)
    ensures dropped !! trimmed + Range(front, front + k)
  {
  }

  lemma {:induction false} InvStep(s: Link, max: nat, a: Action)
    requires max >= 1 && Inv(s, max) && Enabled(s, a)
    ensures Inv(Do(s, max, a), max)
  {
    match a {
      case Record(e) => InvRecord(s, max, e);
      case Copy => InvCopy(s, max);
      case Post(_, _) => InvPost(s, max, a);
      case PostFails(mine, arrives) => InvGivenUp(s, max, mine, arrives);
      case Late(k) => InvLate(s, max, k);
      case GiveUp =>
      case Trim => InvTrim(s, max);
    }
  }

  lemma {:induction false} InvRun(max: nat, acts: seq<Action>)
    requires max >= 1 && Runs(max, acts)
    ensures Inv(Run(max, acts), max)
  {
    if acts != [] {
      InvRun(max, acts[..|acts| - 1]);
      InvStep(Run(max, acts[..|acts| - 1]), max, acts[|acts| - 1]);
    }
  }

  // ---- A number stands for one event ----

  /** Each entry carries the event recorded under its number. */
  predicate Honest(qs: seq<Queued>, recorded: seq<Event>) {
    forall i :: 0 <= i < |qs| ==> 1 <= qs[i].seqNo <= |recorded| && qs[i].ev == recorded[qs[i].seqNo - 1]
  }

  predicate HonestState(s: Link) {
    && |s.recorded| == s.b.nextSeq && Honest(s.b.buf, s.recorded) && Honest(s.arrivals, s.recorded)
    && (s.flight.Some? ==> Honest(s.flight.value.batch, s.recorded))
    && forall k :: 0 <= k < |s.late| ==> Honest(s.late[k], s.recorded)
  }

  lemma {:induction false} HonestRun(max: nat, acts: seq<Action>)
    requires max >= 1
    ensures HonestState(Run(max, acts))
  {
    if acts != [] {
      HonestRun(max, acts[..|acts| - 1]);
      HonestStep(Run(max, acts[..|acts| - 1]), max, acts[|acts| - 1]);
    }
  }

  lemma {:induction false} HonestStep(s: Link, max: nat, a: Action)
    requires max >= 1 && HonestState(s)
    ensures HonestState(Do(s, max, a))
  {
    match a {
      case Record(e) => HonestRecord(s, max, e);
      case Copy =>
      case Post(_, _) => HonestArrived(s);
      case PostFails(_, _) => HonestArrived(s);
      case Late(k) => if k < |s.late| { HonestLate(s, s.late[k]); }
      case GiveUp =>
      case Trim =>
    }
  }

  lemma {:induction false} HonestArrived(s: Link)
    requires HonestState(s)
    ensures s.flight.Some? && s.flight.value.batch != [] ==> HonestState(Arrived(s))
  {
  }

  lemma {:induction false} HonestLate(s: Link, qs: seq<Queued>)
    requires HonestState(s) && Honest(qs, s.recorded)
    ensures HonestState(ArrivedLate(s, qs))
  {
  }

  lemma {:induction false} HonestRecord(s: Link, max: nat, e: Event)
    requires max >= 1 && HonestState(s)
    ensures HonestState(Recorded(s, max, e))
  {
  }

  // ---- Results ----

  lemma {:induction false} RangeSize(lo: nat, hi: nat)
    requires lo <= hi
    ensures |Range(lo, hi)| == hi - lo
  {
    if lo < hi { RangeSize(lo, hi - 1); }
  }

  /** The buffer is the tail of what was recorded, numbered from one. */
  ghost predicate Latest(s: Link) {
    && |s.recorded| == s.b.nextSeq && |s.b.buf| <= |s.recorded|
    && var before := |s.recorded| - |s.b.buf|;
       forall i :: 0 <= i < |s.b.buf| ==> s.b.buf[i] == Queued(before + i + 1, s.recorded[before + i])
  }

  ghost predicate Conserved(s: Link, max: nat) {
    && |s.b.buf| <= max && Latest(s) && s.dropped !! s.trimmed
    && s.dropped + s.trimmed == Range(1, s.b.nextSeq - |s.b.buf| + 1)
    && |s.dropped| + |s.trimmed| + |s.b.buf| == |s.recorded|
  }

  /** Nothing is lost track of: under any interleaving of records with a flush in
      flight the buffer holds the latest events under the consecutive numbers that
      end at nextSeq, never more than its bound, and every recorded event was
      dropped, was trimmed, or is buffered, each exactly once. */
  lemma {:induction false} Conservation(max: nat, acts: seq<Action>)
    requires max >= 1 && Runs(max, acts)
    ensures Conserved(Run(max, acts), max)
  {
    InvRun(max, acts);
    HonestRun(max, acts);
    ConservedNow(Run(max, acts), max);
  }

  lemma {:induction false} ConservedNow(s: Link, max: nat)
    requires Accounted(s, max) && HonestState(s)
    ensures Conserved(s, max)
  {
    RangeSize(1, Front(s.b));
    assert |s.dropped + s.trimmed| == |s.dropped| + |s.trimmed|;
  }

  /** A trim removes nothing but what was in the batch just accepted, though old
      events may have been dropped, and new ones recorded, while it was in flight. */
  ghost predicate TrimIsSafe(s: Link) {
    s.flight.Some? ==>
      && s.flight.value.batch != []
      && Trimmed(s).trimmed <= s.trimmed + Numbers(s.flight.value.batch)
      && (forall q :: q in s.b.buf && q !in Trimmed(s).b.buf ==> q in s.flight.value.batch)
  }

  lemma {:induction false} TrimsOnlyAccepted(max: nat, acts: seq<Action>)
    requires max >= 1 && Runs(max, acts)
    ensures TrimIsSafe(Run(max, acts))
  {
    InvRun(max, acts);
    HonestRun(max, acts);
    SafeNow(Run(max, acts), max);
  }

  lemma {:induction false} SafeNow(s: Link, max: nat)
    requires Inv(s, max) && HonestState(s)
    ensures TrimIsSafe(s)
  {
    if s.flight.Some? {
      TrimmedIsBatch(s, max);
      TrimmedAreSent(s, Sent(s.b.buf, Last(s.flight.value)));
    }
  }

  lemma {:induction false} TrimmedAreSent(s: Link, k: nat)
    requires HonestState(s) && s.flight.Some? && k <= |s.b.buf|
             && Numbers(s.b.buf[..k]) <= Numbers(s.flight.value.batch)
    ensures forall q :: q in s.b.buf && q !in s.b.buf[k..] ==> q in s.flight.value.batch
  {
    forall q | q in s.b.buf && q !in s.b.buf[k..] ensures q in s.flight.value.batch {
      assert s.b.buf == s.b.buf[..k] + s.b.buf[k..];
      assert q in s.b.buf[..k] && q.seqNo in Numbers(s.b.buf[..k]);
      var p :| p in s.flight.value.batch && p.seqNo == q.seqNo;
      assert p == q;
    }
  }

  ghost predicate Received(s: Link) {
    && Honest(s.arrivals, s.recorded)
    && (forall n :: n in FirstSeen(s.arrivals) ==> 1 <= n <= s.hi)
    && (s.arrivals != [] ==> s.hi in FirstSeen(s.arrivals))
    && (forall n: nat :: 1 <= n <= s.hi ==> n in FirstSeen(s.arrivals) || n in s.dropped || n in s.skipped)
  }

  /** The batch brings a number that is new to the target and below one it has seen. */
  ghost predicate Stale(s: Link, batch: seq<Queued>) {
    exists q :: q in batch && q.seqNo <= s.hi && q.seqNo !in Numbers(s.arrivals)
  }

  ghost predicate NeverStale(max: nat, acts: seq<Action>)
    requires max >= 1
  {
    forall i :: 0 <= i < |acts| ==> NotStale(Run(max, acts[..i]), acts[i])
  }

  ghost predicate NotStale(s: Link, a: Action) {
    a.Late? && a.k < |s.late| ==> !Stale(s, s.late[a.k])
  }

  /** What a target has seen first stays at the front of what it sees. */
  lemma {:induction false} FirstSeenGrows(arrivals: seq<Queued>, batch: seq<Queued>)
    ensures FirstSeen(arrivals) <= FirstSeen(arrivals + batch)
  {
    if batch == [] {
      assert arrivals + batch == arrivals;
    } else {
      var front := batch[..|batch| - 1];
      FirstSeenGrows(arrivals, front);
      assert (arrivals + batch)[..|arrivals + batch| - 1] == arrivals + front;
    }
  }

  lemma {:induction false} RisingFront(a: seq<nat>, b: seq<nat>)
    requires a <= b && Rising(b)
    ensures Rising(a)
  {
    assert forall i :: 0 <= i < |a| ==> a[i] == b[i];
  }

  /** A number that comes after a higher one spoils the order for good. */
  lemma {:induction false} LowerSpoils(arrivals: seq<Queued>, batch: seq<Queued>, q: Queued, high: nat)
    requires q in batch && q.seqNo !in Numbers(arrivals) && high in Numbers(arrivals) && q.seqNo < high
    ensures !Rising(FirstSeen(arrivals + batch))
  {
    FirstSeenElements(arrivals);
    FirstSeenElements(arrivals + batch);
    FirstSeenGrows(arrivals, batch);
    NumbersConcat(arrivals, batch);
    var a, all := FirstSeen(arrivals), FirstSeen(arrivals + batch);
    assert q.seqNo in Numbers(batch);
    var i :| 0 <= i < |a| && a[i] == high;
    var j :| 0 <= j < |all| && all[j] == q.seqNo;
    assert all[i] == high;
  }

  /** A batch all of whose numbers up to hi are known adds only what comes after hi. */
  lemma {:induction false} KnownKeepsOrder(arrivals: seq<Queued>, batch: seq<Queued>, first: nat, hi: nat)
    requires Rising(FirstSeen(arrivals)) && FromOn(batch, first) && Numbers(arrivals) <= Range(1, hi + 1)
    requires forall q :: q in batch && q.seqNo <= hi ==> q.seqNo in Numbers(arrivals)
    ensures Rising(FirstSeen(arrivals + batch))
  {
    if batch == [] {
      assert arrivals + batch == arrivals;
    } else {
      var front, last := batch[..|batch| - 1], batch[|batch| - 1];
      KnownKeepsOrder(arrivals, front, first, hi);
      assert (arrivals + batch)[..|arrivals + batch| - 1] == arrivals + front;
      NumbersConcat(arrivals, front);
      FromOnNumbers(front, first);
      FirstSeenElements(arrivals + front);
      RisingPush(FirstSeen(arrivals + front), last.seqNo);
    }
  }

  lemma {:induction false} OrderStep(s: Link, max: nat, a: Action)
    requires max >= 1 && Inv(s, max) && Enabled(s, a)
    ensures Rising(FirstSeen(Do(s, max, a).arrivals)) <==> Rising(FirstSeen(s.arrivals)) && NotStale(s, a)
  {
    if a.Late? {
      LateOrder(s, max, s.late[a.k]);
    } else if (a.Post? || a.PostFails?) && a.mine && a.arrives {
      var f := s.flight.value;
      FirstSeenGrows(s.arrivals, f.batch);
      if Rising(FirstSeen(s.arrivals)) {
        RisingOn(s.arrivals, f.batch, First(f), s.lo, s.hi);
      } else if Rising(FirstSeen(s.arrivals + f.batch)) {
        RisingFront(FirstSeen(s.arrivals), FirstSeen(s.arrivals + f.batch));
      }
    }
  }

  lemma {:induction false} LateOrder(s: Link, max: nat, qs: seq<Queued>)
    requires Inv(s, max) && LateOk(s, qs)
    ensures Rising(FirstSeen(s.arrivals + qs)) <==> Rising(FirstSeen(s.arrivals)) && !Stale(s, qs)
  {
    FirstSeenGrows(s.arrivals, qs);
    if Rising(FirstSeen(s.arrivals + qs)) { RisingFront(FirstSeen(s.arrivals), FirstSeen(s.arrivals + qs)); }
    if q :| q in qs && q.seqNo <= s.hi && q.seqNo !in Numbers(s.arrivals) {
      var i :| 0 <= i < |qs| && qs[i] == q;
      assert q.seqNo == qs[0].seqNo + i;
      assert s.hi in Range(s.lo, s.hi + 1);
      LowerSpoils(s.arrivals, qs, q, s.hi);
    } else if Rising(FirstSeen(s.arrivals)) {
      KnownKeepsOrder(s.arrivals, qs, qs[0].seqNo, s.hi);
    }
  }

  lemma {:induction false} NeverStalePush(max: nat, front: seq<Action>, a: Action)
    requires max >= 1
    ensures NeverStale(max, front + [a]) <==> NeverStale(max, front) && NotStale(Run(max, front), a)
  {
    var acts := front + [a];
    assert forall i :: 0 <= i <= |front| ==> acts[..i] == front[..i];
    if NeverStale(max, acts) {
      forall i | 0 <= i < |front| ensures NotStale(Run(max, front[..i]), front[i]) {
        assert NotStale(Run(max, acts[..i]), acts[i]);
      }
      assert NotStale(Run(max, acts[..|front|]), acts[|front|]) && front[..|front|] == front;
    } else {
      var i :| 0 <= i < |acts| && !NotStale(Run(max, acts[..i]), acts[i]);
      if i < |front| {
        assert !NotStale(Run(max, front[..i]), front[i]);
      } else {
        assert acts[..i] == front;
      }
    }
  }

  /** First arrivals rise exactly when no batch given up on came so late that a number
      of it, never seen by the target, had been passed. */
  lemma {:induction false} RisingIff(max: nat, acts: seq<Action>)
    requires max >= 1 && Runs(max, acts)
    ensures Rising(FirstSeen(Run(max, acts).arrivals)) <==> NeverStale(max, acts)
  {
    if acts != [] {
      var front, a := acts[..|acts| - 1], acts[|acts| - 1];
      RisingIff(max, front);
      InvRun(max, front);
      OrderStep(Run(max, front), max, a);
      NeverStalePush(max, front, a);
      assert front + [a] == acts;
    }
  }

  /** What a target receives: every event under its own number; first arrivals in
      rising order, whatever failed or was sent again, if and only if nothing came
      stale; and a number missing below the highest that arrived was dropped, or was
      done with by a flush that did not include this target. */
  lemma {:induction false} ReceiverOrder(max: nat, acts: seq<Action>)
    requires max >= 1 && Runs(max, acts)
    ensures Received(Run(max, acts))
    ensures Rising(FirstSeen(Run(max, acts).arrivals)) <==> NeverStale(max, acts)
  {
    InvRun(max, acts);
    HonestRun(max, acts);
    ReceivedNow(Run(max, acts), max);
    RisingIff(max, acts);
  }

  /** Only what was dropped from a full buffer, or done with by a flush that did not
      include this target, ever comes stale. */
  lemma {:induction false} StaleWasGivenUp(max: nat, acts: seq<Action>, k: nat, q: Queued)
    requires max >= 1 && Runs(max, acts) && k < |Run(max, acts).late| && q in Run(max, acts).late[k]
    requires q.seqNo <= Run(max, acts).hi && q.seqNo !in Numbers(Run(max, acts).arrivals)
    ensures q.seqNo in Run(max, acts).dropped || q.seqNo in Run(max, acts).skipped
  {
    var s := Run(max, acts);
    InvRun(max, acts);
    ReceiverOrder(max, acts);
    FirstSeenElements(s.arrivals);
    assert LateOk(s, s.late[k]);
  }

  lemma {:induction false} ReceivedNow(s: Link, max: nat)
    requires Inv(s, max) && HonestState(s)
    ensures Received(s)
  {
    FirstSeenElements(s.arrivals);
    forall n: nat | 1 <= n <= s.hi ensures n in FirstSeen(s.arrivals) || n in s.dropped || n in s.skipped {
      assert n in Range(1, Front(s.b)) || n in Range(s.lo, s.hi + 1);
    }
  }

  /** Where every flush that succeeds was posted to the target, as it is for a node
      agent with its one controller, only dropped events ever go missing. */
  lemma {:induction false} OneTargetMissesOnlyDropped(max: nat, acts: seq<Action>)
    requires max >= 1 && Runs(max, acts)
    requires forall k :: 0 <= k < |acts| && acts[k].Trim? ==> ReachedAt(max, acts, k)
    ensures Run(max, acts).skipped == {}
    ensures forall n: nat :: 1 <= n <= Run(max, acts).hi ==>
            n in FirstSeen(Run(max, acts).arrivals) || n in Run(max, acts).dropped
  {
    NothingSkipped(max, acts);
    ReceiverOrder(max, acts);
  }

  predicate ReachedAt(max: nat, acts: seq<Action>, k: nat)
    requires max >= 1 && k < |acts|
  {
    var f := Run(max, acts[..k]).flight;
    f.Some? && f.value.reached
  }

  lemma {:induction false} NothingSkipped(max: nat, acts: seq<Action>)
    requires max >= 1 && forall k :: 0 <= k < |acts| && acts[k].Trim? ==> ReachedAt(max, acts, k)
    ensures Run(max, acts).skipped == {}
  {
    if acts != [] {
      var front := acts[..|acts| - 1];
      forall k | 0 <= k < |front| && front[k].Trim? ensures ReachedAt(max, front, k) {
        assert ReachedAt(max, acts, k);
        assert front[..k] == acts[..k];
      }
      NothingSkipped(max, front);
      if acts[|acts| - 1].Trim? {
        assert ReachedAt(max, acts, |acts| - 1);
      }
    }
  }
}
