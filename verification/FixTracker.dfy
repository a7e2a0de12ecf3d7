/** internal/kube/fixtracker.go: whether what the agent did helped. An action waits
    until its workload has stayed healthy for a minute, or for a quarter of an hour
    in vain; new actions keep arriving while a pass checks the old ones. */
module FixTrackers {
  import opened Prelude

  const SETTLE_AFTER := 30 * SECOND
  const STABLE_FOR := MINUTE
  const GIVE_UP_AFTER := 15 * MINUTE
  const DEFAULT_LENGTH := 200

  datatype Status = Pending | Fixed | NotFixed

  /** What was done, when and to which workload. */
  datatype Deed = Deed(at: int, namespace: string, workload: string, pod: string, reason: string, action: string)

  datatype FixRecord = FixRecord(deed: Deed, status: Status, verifiedAt: int, healthySince: Option<int>)

  /** What a pass reads for one record: the clock, the health of the workload, and
      the clock again when the record is settled. */
  datatype Check = Check(now: int, healthy: bool, again: int)

  datatype Verdict = Still(r: FixRecord) | Done(r: FixRecord) | GaveUp(r: FixRecord)

  function NewRecord(d: Deed): FixRecord {
    FixRecord(d, Pending, 0, None)
  }

  function Records(ds: seq<Deed>): (rs: seq<FixRecord>)
    ensures |rs| == |ds|
  {
    seq(|ds|, i requires 0 <= i < |ds| => NewRecord(ds[i]))
  }

  lemma {:induction false} RecordsConcat(before: seq<FixRecord>, a: seq<Deed>, b: seq<Deed>)
    ensures before + Records(a) + Records(b) == before + Records(a + b)
  {
  }

  function Judge(r: FixRecord, k: Check): Verdict {
    if k.now - r.deed.at > GIVE_UP_AFTER then GaveUp(r.(status := NotFixed, verifiedAt := k.again))
    else if k.now - r.deed.at < SETTLE_AFTER then Still(r)
    else
      var since := if !k.healthy then None else if r.healthySince.None? then Some(k.now) else r.healthySince;
      var r' := r.(healthySince := since);
      if k.healthy && k.now - since.value >= STABLE_FOR then Done(r'.(status := Fixed, verifiedAt := k.again))
      else Still(r')
  }

  // ---- One pass over a list ----

  function Verdicts(rs: seq<FixRecord>, ks: seq<Check>): (vs: seq<Verdict>)
    requires |ks| >= |rs|
    ensures |vs| == |rs|
  {
    seq(|rs|, i requires 0 <= i < |rs| => Judge(rs[i], ks[i]))
  }

  /** The records of each verdict, in order. */
  function StillOf(vs: seq<Verdict>): seq<FixRecord> {
    if vs == [] then [] else StillOf(vs[..|vs| - 1]) + if vs[|vs| - 1].Still? then [vs[|vs| - 1].r] else []
  }

  function DoneOf(vs: seq<Verdict>): seq<FixRecord> {
    if vs == [] then [] else DoneOf(vs[..|vs| - 1]) + if vs[|vs| - 1].Done? then [vs[|vs| - 1].r] else []
  }

  function GaveUpOf(vs: seq<Verdict>): seq<FixRecord> {
    if vs == [] then [] else GaveUpOf(vs[..|vs| - 1]) + if vs[|vs| - 1].GaveUp? then [vs[|vs| - 1].r] else []
  }

  /** How many of the records are of that deed. */
  function CountOf(rs: seq<FixRecord>, d: Deed): nat {
    if rs == [] then 0 else CountOf(rs[..|rs| - 1], d) + if rs[|rs| - 1].deed == d then 1 else 0
  }

  lemma {:induction false} CountConcat(a: seq<FixRecord>, b: seq<FixRecord>, d: Deed)
    ensures CountOf(a + b, d) == CountOf(a, d) + CountOf(b, d)
  {
    if b == [] {
      assert a + b == a;
    } else {
      CountConcat(a, b[..|b| - 1], d);
      assert (a + b)[..|a + b| - 1] == a + b[..|b| - 1];
    }
  }

  lemma {:induction false} CountPush(rs: seq<FixRecord>, r: FixRecord, d: Deed)
    ensures CountOf(rs + [r], d) == CountOf(rs, d) + if r.deed == d then 1 else 0
  {
  }

  /** A pass sorts what it saw into three, losing and doubling nothing. */
  lemma {:induction false} PassPartitions(rs: seq<FixRecord>, ks: seq<Check>, d: Deed)
    requires |ks| >= |rs|
    ensures var vs := Verdicts(rs, ks);
            CountOf(StillOf(vs), d) + CountOf(DoneOf(vs), d) + CountOf(GaveUpOf(vs), d) == CountOf(rs, d)
  {
    if rs != [] {
      var front, vs := rs[..|rs| - 1], Verdicts(rs, ks);
      PassPartitions(front, ks, d);
      var v := Judge(rs[|rs| - 1], ks[|rs| - 1]);
      assert vs == Verdicts(front, ks) + [v];
      OneMore(Verdicts(front, ks), v, d);
      SameDeed(rs[|rs| - 1], ks[|rs| - 1]);
    }
  }

  lemma {:induction false} SameDeed(r: FixRecord, k: Check)
    ensures Judge(r, k).r.deed == r.deed
  {
  }

  lemma {:induction false} OneMore(vs: seq<Verdict>, v: Verdict, d: Deed)
    ensures CountOf(StillOf(vs + [v]), d) + CountOf(DoneOf(vs + [v]), d) + CountOf(GaveUpOf(vs + [v]), d)
            == CountOf(StillOf(vs), d) + CountOf(DoneOf(vs), d) + CountOf(GaveUpOf(vs), d)
               + if v.r.deed == d then 1 else 0
  {
    NextVerdict(vs, v);
    CountPush(StillOf(vs), v.r, d);
    CountPush(DoneOf(vs), v.r, d);
    CountPush(GaveUpOf(vs), v.r, d);
  }

  lemma {:induction false} NextVerdict(vs: seq<Verdict>, v: Verdict)
    ensures StillOf(vs + [v]) == if v.Still? then StillOf(vs) + [v.r] else StillOf(vs)
    ensures DoneOf(vs + [v]) == if v.Done? then DoneOf(vs) + [v.r] else DoneOf(vs)
    ensures GaveUpOf(vs + [v]) == if v.GaveUp? then GaveUpOf(vs) + [v.r] else GaveUpOf(vs)
  {
  }

  /** Nothing a pass keeps, or calls fixed, was too old when it was looked at. */
  lemma {:induction false} PassDropsTheOld(rs: seq<FixRecord>, ks: seq<Check>, start: int)
    requires |ks| >= |rs| && forall i :: 0 <= i < |ks| ==> ks[i].now >= start
    ensures var vs := Verdicts(rs, ks);
            forall r :: r in StillOf(vs) || r in DoneOf(vs) ==> start - r.deed.at <= 15 * MINUTE
  {
    if rs != [] {
      var front, vs := rs[..|rs| - 1], Verdicts(rs, ks);
      PassDropsTheOld(front, ks, start);
      assert vs[..|rs| - 1] == Verdicts(front, ks);
    }
  }

  // ---- The code ----

  class FixTracker {
    const maxLen: nat
    var pending: seq<FixRecord>
    var fixed: seq<FixRecord>
    var failed: seq<FixRecord>

    ghost predicate Valid()
      reads this
    {
      maxLen >= 1 && |fixed| <= maxLen && |failed| <= maxLen
    }

    constructor (maxLen: int)
      ensures Valid() && pending == [] && fixed == [] && failed == []
      ensures this.maxLen == if maxLen <= 0 then 200 else maxLen
    {
      this.maxLen := if maxLen <= 0 then DEFAULT_LENGTH else maxLen;
      pending, fixed, failed := [], [], [];
    }

    method RecordAction(d: Deed)
      modifies this`pending
      ensures pending == old(pending) + [NewRecord(d)]
    {
      pending := pending + [NewRecord(d)];
    }

    method AddFixed(r: FixRecord)
      requires Valid()
      modifies this`fixed
      ensures Valid() && fixed == LastN(old(fixed) + [r], maxLen)
    {
      if |fixed| >= maxLen {
        fixed := fixed[1..];
      }
      fixed := fixed + [r];
    }

    method AddFailed(r: FixRecord)
      requires Valid()
      modifies this`failed
      ensures Valid() && failed == LastN(old(failed) + [r], maxLen)
    {
      if |failed| >= maxLen {
        failed := failed[1..];
      }
      failed := failed + [r];
    }

    /** Other handlers record what they do, at any time. */
    method OthersRecord() returns (ghost arrivals: seq<Deed>)
      modifies this`pending
      ensures pending == old(pending) + Records(arrivals)
    {
      arrivals := [];
      var more :| 0 <= more;
      for i := 0 to more
        invariant pending == old(pending) + Records(arrivals)
      {
        var d: Deed := *;
        RecordAction(d);
        arrivals := arrivals + [d];
      }
    }

    /** VerifyFixes: a copy of the list is checked record by record, while new ones
        arrive; what is still open goes back in front of them. */
    method VerifyFixes(ks: seq<Check>) returns (ghost arrivals: seq<Deed>)
      requires Valid() && |ks| >= |pending|
      modifies this
      ensures pending == StillOf(Verdicts(old(pending), ks)) + Records(arrivals)
      ensures Tallied(old(fixed), old(failed), Verdicts(old(pending), ks))
    {
      var snapshot := pending;
      var still: seq<FixRecord> := [];
      arrivals := [];
      ghost var vs := Verdicts(snapshot, ks);
      assert fixed + [] == fixed && failed + [] == failed;
      for i := 0 to |snapshot|
        invariant pending == snapshot + Records(arrivals)
        invariant still == StillOf(vs[..i]) && Tallied(old(fixed), old(failed), vs[..i])
      {
        ghost var more;
        more := OthersRecord();
        RecordsConcat(snapshot, arrivals, more);
        arrivals := arrivals + more;
        assert vs[..i + 1] == vs[..i] + [vs[i]];
        var v := Examine(snapshot[i], ks[i]);
        assert v == vs[i];
        Settle(v, old(fixed), old(failed), vs[..i]);
        NextVerdict(vs[..i], v);
        if v.Still? {
          still := still + [v.r];
        }
      }
      assert vs[..|snapshot|] == vs;
      pending := still + pending[|snapshot|..];
    }

    /** The rings hold the tails of what was there before and of these verdicts. */
    ghost predicate Tallied(fixed0: seq<FixRecord>, failed0: seq<FixRecord>, vs: seq<Verdict>)
      reads this
    {
      && Valid()
      && fixed == LastN(fixed0 + DoneOf(vs), maxLen)
      && failed == LastN(failed0 + GaveUpOf(vs), maxLen)
    }

    method Settle(v: Verdict, ghost fixed0: seq<FixRecord>, ghost failed0: seq<FixRecord>, ghost vs: seq<Verdict>)
      requires Tallied(fixed0, failed0, vs)
      modifies this`fixed, this`failed
      ensures Tallied(fixed0, failed0, vs + [v])
    {
      NextVerdict(vs, v);
      if v.Done? {
        TailPush(fixed0, DoneOf(vs), v.r, maxLen);
        AddFixed(v.r);
      } else if v.GaveUp? {
        TailPush(failed0, GaveUpOf(vs), v.r, maxLen);
        AddFailed(v.r);
      }
    }

    /** One record of a pass. */
    method Examine(r: FixRecord, k: Check) returns (v: Verdict)
      ensures v == Judge(r, k)
    {
      var rec := r;
      if k.now - rec.deed.at > GIVE_UP_AFTER {
        return GaveUp(rec.(status := NotFixed, verifiedAt := k.again));
      }
      if k.now - rec.deed.at < SETTLE_AFTER { return Still(rec); }
      if !k.healthy {
        rec := rec.(healthySince := None);
      } else if rec.healthySince.None? {
        rec := rec.(healthySince := Some(k.now));
      }
      if k.healthy && k.now - rec.healthySince.value >= STABLE_FOR {
        return Done(rec.(status := Fixed, verifiedAt := k.again));
      }
      v := Still(rec);
    }
  }

  lemma {:induction false} TailPush(a: seq<FixRecord>, b: seq<FixRecord>, r: FixRecord, n: nat)
    requires n >= 1
    ensures LastN(LastN(a + b, n) + [r], n) == LastN(a + (b + [r]), n)
  {
  }

  // ---- The life of one record ----

  /** A record after checks, none of which settled it. */
  function Lives(d: Deed, ks: seq<Check>): Verdict {
    if ks == [] then Still(NewRecord(d))
    else
      var v := Lives(d, ks[..|ks| - 1]);
      if v.Still? then Judge(v.r, ks[|ks| - 1]) else v
  }

  predicate TimesRise(ks: seq<Check>) {
    forall i, j :: 0 <= i < j < |ks| ==> ks[i].now <= ks[j].now
  }

  /** Samples i to the last were all taken, after the workload had time to settle,
      and all healthy. */
  predicate HealthyFrom(d: Deed, ks: seq<Check>, i: int) {
    0 <= i < |ks| && ks[i].now - d.at >= 30 * SECOND && forall j :: i <= j < |ks| ==> ks[j].healthy
  }

  /** healthySince is when the healthy streak that is still going on began. */
  ghost predicate Streak(d: Deed, ks: seq<Check>, since: Option<int>) {
    match since
    case None => forall i :: !HealthyFrom(d, ks, i)
    case Some(t) => exists i :: HealthyFrom(d, ks, i) && ks[i].now == t && forall j :: HealthyFrom(d, ks, j) ==> i <= j
  }

  lemma {:induction false} HealthyFromPush(d: Deed, ks: seq<Check>, k: Check)
    requires TimesRise(ks + [k])
    ensures forall i :: HealthyFrom(d, ks + [k], i) <==>
                          k.healthy && (HealthyFrom(d, ks, i) || (i == |ks| && k.now - d.at >= SETTLE_AFTER))
  {
    var ls := ks + [k];
    forall i ensures HealthyFrom(d, ls, i)
      <==> k.healthy && (HealthyFrom(d, ks, i) || (i == |ks| && k.now - d.at >= SETTLE_AFTER))
    {
      if 0 <= i < |ks| {
        assert ls[i] == ks[i] && ls[|ks|] == k;
        if HealthyFrom(d, ls, i) {
          assert forall j :: i <= j < |ks| ==> ks[j] == ls[j];
        }
      }
    }
  }

  lemma {:induction false} StreakKept(d: Deed, ks: seq<Check>)
    requires TimesRise(ks) && Lives(d, ks).Still?
    ensures Streak(d, ks, Lives(d, ks).r.healthySince) && Lives(d, ks).r.deed == d
  {
    if ks != [] {
      var front, k := ks[..|ks| - 1], ks[|ks| - 1];
      assert ks == front + [k];
      StreakKept(d, front);
      HealthyFromPush(d, front, k);
      StreakStep(d, front, k, Lives(d, front).r);
    }
  }

  lemma {:induction false} StreakStep(d: Deed, ks: seq<Check>, k: Check, r: FixRecord)
    requires TimesRise(ks + [k]) && Streak(d, ks, r.healthySince) && r.deed == d && Judge(r, k).Still?
    ensures Streak(d, ks + [k], Judge(r, k).r.healthySince)
  {
    HealthyFromPush(d, ks, k);
    var ls := ks + [k];
    if k.now - d.at < SETTLE_AFTER {
      forall i ensures !HealthyFrom(d, ls, i) {
        if 0 <= i < |ls| { assert ls[|ks|] == k && ls[i].now <= k.now; }
      }
      forall i ensures !HealthyFrom(d, ks, i) {
        if 0 <= i < |ks| { assert ls[i] == ks[i] && ls[|ks|] == k && ls[i].now <= k.now; }
      }
    } else if k.healthy {
      if r.healthySince.None? {
        assert HealthyFrom(d, ls, |ks|) && ls[|ks|].now == k.now;
      } else {
        var i :| HealthyFrom(d, ks, i) && ks[i].now == r.healthySince.value
          && forall j :: HealthyFrom(d, ks, j) ==> i <= j;
        assert HealthyFrom(d, ls, i) && ls[i].now == ks[i].now;
      }
    }
  }

  /** A record becomes fixed at a check exactly when, no later than a quarter of an
      hour after the action, every sample over at least the last minute was healthy,
      the first of them taken no sooner than half a minute after it. */
  lemma {:induction false} FixedIffHealthyForAMinute(d: Deed, ks: seq<Check>)
    requires ks != [] && TimesRise(ks) && Lives(d, ks[..|ks| - 1]).Still?
    ensures Lives(d, ks).Done? <==>
              && ks[|ks| - 1].now - d.at <= 15 * MINUTE
              && exists i :: HealthyFrom(d, ks, i) && ks[|ks| - 1].now - ks[i].now >= MINUTE
  {
    var front, k := ks[..|ks| - 1], ks[|ks| - 1];
    assert ks == front + [k];
    StreakKept(d, front);
    if Lives(d, ks).Done? {
      DoneIsHealthy(d, front, k, Lives(d, front).r);
    } else if k.now - d.at <= GIVE_UP_AFTER && exists i :: HealthyFrom(d, ks, i) && k.now - ks[i].now >= STABLE_FOR {
      var i :| HealthyFrom(d, ks, i) && k.now - ks[i].now >= STABLE_FOR;
      EarliestIsEarlier(d, front, k, i, Lives(d, front).r.healthySince);
    }
  }

  lemma {:induction false} DoneIsHealthy(d: Deed, ks: seq<Check>, k: Check, r: FixRecord)
    requires TimesRise(ks + [k]) && Streak(d, ks, r.healthySince) && r.deed == d && Judge(r, k).Done?
    ensures k.now - d.at <= GIVE_UP_AFTER
    ensures exists i :: HealthyFrom(d, ks + [k], i) && k.now - (ks + [k])[i].now >= STABLE_FOR
  {
    HealthyFromPush(d, ks, k);
    var i :| HealthyFrom(d, ks, i) && ks[i].now == r.healthySince.value && forall j :: HealthyFrom(d, ks, j) ==> i <= j;
    assert HealthyFrom(d, ks + [k], i) && (ks + [k])[i].now == ks[i].now;
  }

  /** The streak a sample belongs to began no later than the sample. */
  lemma {:induction false} EarliestIsEarlier(d: Deed, ks: seq<Check>, k: Check, i: nat, since: Option<int>)
    requires TimesRise(ks + [k]) && Streak(d, ks, since) && HealthyFrom(d, ks + [k], i) && i < |ks|
    ensures since.Some? && since.value <= ks[i].now
  {
    HealthyFromPush(d, ks, k);
    assert HealthyFrom(d, ks, i);
    assert since.Some?;
    var first :| HealthyFrom(d, ks, first) && ks[first].now == since.value
      && forall j :: HealthyFrom(d, ks, j) ==> first <= j;
    assert (ks + [k])[first] == ks[first] && (ks + [k])[i] == ks[i];
  }

  // ---- Runs ----

  /** The tracker with all it ever recorded, fixed and gave up on. */
  datatype Books = Books(pending: seq<FixRecord>, recorded: seq<FixRecord>, fixed: seq<FixRecord>,
    failed: seq<FixRecord>)

  datatype Action = Record(d: Deed) | Pass(ks: seq<Check>, arrivals: seq<Deed>)

  function Do(s: Books, a: Action): Books {
    match a
    case Record(d) => s.(pending := s.pending + [NewRecord(d)], recorded := s.recorded + [NewRecord(d)])
    case Pass(ks, arrivals) =>
      if |ks| < |s.pending| then s
      else
        Books(StillOf(Verdicts(s.pending, ks)) + Records(arrivals), s.recorded + Records(arrivals),
              s.fixed + DoneOf(Verdicts(s.pending, ks)), s.failed + GaveUpOf(Verdicts(s.pending, ks)))
  }

  function Run(acts: seq<Action>): Books {
    if acts == [] then Books([], [], [], []) else Do(Run(acts[..|acts| - 1]), acts[|acts| - 1])
  }

  ghost predicate Conserved(s: Books) {
    forall d :: CountOf(s.pending, d) + CountOf(s.fixed, d) + CountOf(s.failed, d) == CountOf(s.recorded, d)
  }

  /** Every recorded action is in exactly one of pending, fixed so far and failed so
      far, as often as it was recorded, also those recorded during a pass. */
  lemma {:induction false} NothingLost(acts: seq<Action>)
    ensures Conserved(Run(acts))
  {
    if acts != [] {
      NothingLost(acts[..|acts| - 1]);
      ConservedStep(Run(acts[..|acts| - 1]), acts[|acts| - 1]);
    }
  }

  lemma {:induction false} ConservedStep(s: Books, a: Action)
    requires Conserved(s)
    ensures Conserved(Do(s, a))
  {
    var s' := Do(s, a);
    forall d ensures CountOf(s'.pending, d) + CountOf(s'.fixed, d) + CountOf(s'.failed, d) == CountOf(s'.recorded, d) {
      match a {
        case Record(new_) =>
          CountPush(s.pending, NewRecord(new_), d);
          CountPush(s.recorded, NewRecord(new_), d);
        case Pass(ks, arrivals) =>
          if |ks| >= |s.pending| {
            CountedPass(s, ks, arrivals, d);
          }
      }
    }
  }

  lemma {:induction false} CountedPass(s: Books, ks: seq<Check>, arrivals: seq<Deed>, d: Deed)
    requires |ks| >= |s.pending|
    ensures var s' := Do(s, Pass(ks, arrivals));
            CountOf(s'.pending, d) + CountOf(s'.fixed, d) + CountOf(s'.failed, d) - CountOf(s'.recorded, d)
            == CountOf(s.pending, d) + CountOf(s.fixed, d) + CountOf(s.failed, d) - CountOf(s.recorded, d)
  {
    PassPartitions(s.pending, ks, d);
    CountConcat(StillOf(Verdicts(s.pending, ks)), Records(arrivals), d);
    CountConcat(s.recorded, Records(arrivals), d);
    CountConcat(s.fixed, DoneOf(Verdicts(s.pending, ks)), d);
    CountConcat(s.failed, GaveUpOf(Verdicts(s.pending, ks)), d);
  }

  ghost predicate AllAre(rs: seq<FixRecord>, status: Status) {
    forall i :: 0 <= i < |rs| ==> rs[i].status == status
  }

  ghost predicate Labelled(s: Books) {
    AllAre(s.pending, Pending) && AllAre(s.fixed, Fixed) && AllAre(s.failed, NotFixed)
  }

  lemma {:induction false} PassLabels(rs: seq<FixRecord>, ks: seq<Check>)
    requires |ks| >= |rs| && AllAre(rs, Pending)
    ensures var vs := Verdicts(rs, ks);
            AllAre(StillOf(vs), Pending) && AllAre(DoneOf(vs), Fixed) && AllAre(GaveUpOf(vs), NotFixed)
  {
    if rs != [] {
      PassLabels(rs[..|rs| - 1], ks);
      assert Verdicts(rs, ks)[..|rs| - 1] == Verdicts(rs[..|rs| - 1], ks);
    }
  }

  /** Over every run each record says of itself where it is: waiting, fixed, or given
      up on as not fixed. */
  lemma {:induction false} RecordsSayWhereTheyAre(acts: seq<Action>)
    ensures Labelled(Run(acts))
  {
    if acts != [] {
      var s, a := Run(acts[..|acts| - 1]), acts[|acts| - 1];
      RecordsSayWhereTheyAre(acts[..|acts| - 1]);
      if a.Pass? && |a.ks| >= |s.pending| {
        PassLabels(s.pending, a.ks);
      }
    }
  }
}
