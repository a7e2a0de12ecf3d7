/** internal/kube/reload.go: what a wave makes of the health of the workload it waits
    for, over the whole life of the wave. */
module ReloadVerdicts {
  import opened Prelude
  import opened Text
  import opened ReloadRefs
  import opened ReloadWaves

  /** The restart has been seen to end well. Of a Deployment past its progress deadline
      it has not, however many of its pods are up. */
  predicate Ready(kind: string, seen: Seen) {
    seen.Status? && seen.ready && (kind == "Deployment" ==> !seen.stuck)
  }

  /** The restart is given up on: a Deployment that can be read when it is past its
      deadline, a Rollout also when it is degraded, anything else when ten minutes have
      passed without its being ready. */
  predicate Hopeless(kind: string, seen: Seen, elapsed: int) {
    match seen
    case Unreadable => elapsed > 10 * MINUTE
    case Status(stuck, ready) =>
      if kind == "Deployment" then stuck
      else !ready && (elapsed > 10 * MINUTE || (kind == "Rollout" && stuck))
  }

  predicate Undecided(w: Progress, t: Turn)
    requires w.current.Some?
  {
    !Ready(w.current.value.kind, t.seen) && !Hopeless(w.current.value.kind, t.seen, t.at - w.startedAt)
  }

  function AllSkipped(rest: seq<WorkloadRef>): seq<Outcome> {
    seq(|rest|, i requires 0 <= i < |rest| => Outcome(rest[i], Skipped))
  }

  lemma {:induction false} SkipAllRecords(w: Progress, rest: seq<WorkloadRef>)
    ensures SkipAll(w, rest) == w.(record := w.record + AllSkipped(rest))
  {
    if rest != [] {
      SkipAllRecords(w, rest[..|rest| - 1]);
      assert AllSkipped(rest) == AllSkipped(rest[..|rest| - 1]) + [Outcome(rest[|rest| - 1], Skipped)];
    } else {
      assert w.record + AllSkipped(rest) == w.record;
    }
  }

  /** What a turn does to the workload in flight. Hopeless, it ends the wave as failed,
      with the rest skipped and its version blocked, and nothing else blocked. Ready, it
      is recorded healthy, and nothing is blocked. Otherwise the turn changes nothing. */
  ghost predicate Judges(c: Change, w: Progress, t: Turn, cur: WorkloadRef) {
    var (w', b') := Turned(c, w, t);
    if Hopeless(cur.kind, t.seen, t.at - w.startedAt) then
      && w'.done && w'.todo == [] && w'.current.None?
      && w'.record == w.record + [Outcome(cur, Failed)] + AllSkipped(w.todo)
      && b'.blocked == t.books.blocked + {BlockKey(c.ns, cur, w.hash)}
    else if Ready(cur.kind, t.seen) then
      w.record + [Outcome(cur, Healthy)] <= w'.record && b'.blocked == t.books.blocked
    else
      (w', b') == (w, t.books)
  }

  lemma {:induction false} EveryTurnJudges(c: Change, w: Progress, t: Turn, cur: WorkloadRef)
    requires w.current == Some(cur)
    ensures Judges(c, w, t, cur)
    ensures !(Ready(cur.kind, t.seen) && Hopeless(cur.kind, t.seen, t.at - w.startedAt))
  {
    if Hopeless(cur.kind, t.seen, t.at - w.startedAt) {
      SkipAllRecords(Recorded(w, cur, Failed), w.todo);
    } else if Ready(cur.kind, t.seen) {
      WorkOnAdds(c, Recorded(w, cur, Healthy).(current := None), t.books, t.looks);
    }
  }

  // ---- What the loop over the workloads adds ----

  /** No entry from n on is a healthy one. */
  predicate NoneHealthy(record: seq<Outcome>, n: nat) {
    forall i :: n <= i < |record| ==> record[i].result != Healthy
  }

  /** That look found the version, had the gate apply the restart, and was over then. */
  ghost predicate WasRestarted(c: Change, k: Look, hash: string, at: int) {
    k.template.Some? && k.answer == GateApplied && VersionFor(c, k.template.value) == hash && k.at == at
  }

  ghost predicate RestartedIn(c: Change, looks: seq<Look>, hash: string, at: int) {
    exists i :: 0 <= i < |looks| && WasRestarted(c, looks[i], hash, at)
  }

  /** What has been sent is in the journal, and nothing has stalled meanwhile. */
  ghost predicate OnlySent(before: seq<Entry>, after: seq<Entry>) {
    before <= after && forall i :: |before| <= i < |after| ==> after[i].Sent?
  }

  lemma {:induction false} WorkOnAdds(c: Change, w: Progress, b: Books, looks: seq<Look>)
    requires w.current.None?
    ensures var (w', b') := WorkOn(c, w, b, looks);
            && w.record <= w'.record && NoneHealthy(w'.record, |w.record|)
            && b'.blocked == b.blocked && OnlySent(b.journal, b'.journal)
            && w'.done == w.done
            && (w'.current.Some? ==>
                  RestartedIn(c, looks, w'.hash, w'.startedAt)
                  && Sent(BlockKey(c.ns, w'.current.value, w'.hash)) in b'.journal)
  {
    if looks != [] {
      var front, k := looks[..|looks| - 1], looks[|looks| - 1];
      WorkOnAdds(c, w, b, front);
      var (w', b') := WorkOn(c, w, b, front);
      if w'.todo != [] && w'.current.None? {
        RestartingAdds(c, w'.(todo := w'.todo[1..]), b', w'.todo[0], k);
        assert looks[|looks| - 1] == k;
      }
    }
  }

  lemma {:induction false} RestartingAdds(c: Change, w: Progress, b: Books, wl: WorkloadRef, k: Look)
    requires w.current.None?
    ensures var (w', b') := Restarting(c, w, b, wl, k);
            && w.record <= w'.record && NoneHealthy(w'.record, |w.record|)
            && b'.blocked == b.blocked && OnlySent(b.journal, b'.journal)
            && w'.done == w.done
            && (w'.current.Some? ==>
                  WasRestarted(c, k, w'.hash, w'.startedAt)
                  && Sent(BlockKey(c.ns, w'.current.value, w'.hash)) in b'.journal)
  {
    if k.template.Some? {
      var key := BlockKey(c.ns, wl, VersionFor(c, k.template.value));
      assert (b.journal + [Sent(key)])[|b.journal|] == Sent(key);
    }
  }

  // ---- The whole life of a wave ----

  /** The j-th turn of the wave found it waiting for that workload, and that one ready. */
  ghost predicate ReadyAt(c: Change, targets: seq<WorkloadRef>, turns: seq<Turn>, j: int, wl: WorkloadRef) {
    && 0 <= j < |turns| && Life(c, targets, turns[..j]).current == Some(wl)
    && Ready(wl.kind, turns[j].seen)
  }

  ghost predicate HopelessAt(c: Change, targets: seq<WorkloadRef>, turns: seq<Turn>, j: int, wl: WorkloadRef) {
    && 0 <= j < |turns| && Life(c, targets, turns[..j]).current == Some(wl)
    && Hopeless(wl.kind, turns[j].seen, turns[j].at - Life(c, targets, turns[..j]).startedAt)
  }

  ghost predicate SeenReady(c: Change, targets: seq<WorkloadRef>, turns: seq<Turn>, wl: WorkloadRef) {
    exists j :: ReadyAt(c, targets, turns, j, wl)
  }

  ghost predicate SeenHopeless(c: Change, targets: seq<WorkloadRef>, turns: seq<Turn>, wl: WorkloadRef) {
    exists j :: HopelessAt(c, targets, turns, j, wl)
  }

  /** One more turn keeps what was seen before it. */
  lemma {:induction false} ReadyLonger(
      c: Change, targets: seq<WorkloadRef>, turns: seq<Turn>, t: Turn, j: int, wl: WorkloadRef)
    requires ReadyAt(c, targets, turns, j, wl)
    ensures ReadyAt(c, targets, turns + [t], j, wl)
  {
    assert (turns + [t])[..j] == turns[..j];
  }

  lemma {:induction false} HopelessLonger(
      c: Change, targets: seq<WorkloadRef>, turns: seq<Turn>, t: Turn, j: int, wl: WorkloadRef)
    requires HopelessAt(c, targets, turns, j, wl)
    ensures HopelessAt(c, targets, turns + [t], j, wl)
  {
    assert (turns + [t])[..j] == turns[..j];
  }

  /** And shows what it sees itself. */
  lemma {:induction false} LastSees(c: Change, targets: seq<WorkloadRef>, turns: seq<Turn>, t: Turn, wl: WorkloadRef)
    requires Life(c, targets, turns).current == Some(wl)
    ensures Ready(wl.kind, t.seen) ==> ReadyAt(c, targets, turns + [t], |turns|, wl)
    ensures Hopeless(wl.kind, t.seen, t.at - Life(c, targets, turns).startedAt)
            ==> HopelessAt(c, targets, turns + [t], |turns|, wl)
  {
    assert (turns + [t])[..|turns|] == turns;
  }

  /** Every outcome that speaks of health was seen: a workload recorded as healthy was
      read as ready, and one recorded as failed after its restart was read as hopeless,
      each while the wave waited for it. */
  ghost predicate Earned(c: Change, targets: seq<WorkloadRef>, turns: seq<Turn>, record: seq<Outcome>, i: int)
    requires 0 <= i < |record|
  {
    && (record[i].result == Healthy ==> SeenReady(c, targets, turns, record[i].workload))
    && (Breaks(record, i) ==> SeenHopeless(c, targets, turns, record[i].workload))
  }

  ghost predicate AllEarned(c: Change, targets: seq<WorkloadRef>, turns: seq<Turn>, record: seq<Outcome>) {
    forall i :: 0 <= i < |record| ==> Earned(c, targets, turns, record, i)
  }

  lemma {:induction false} EarnedLonger(
      c: Change, targets: seq<WorkloadRef>, turns: seq<Turn>, t: Turn, record: seq<Outcome>, i: int)
    requires 0 <= i < |record| && Earned(c, targets, turns, record, i)
    ensures Earned(c, targets, turns + [t], record, i)
  {
    var wl := record[i].workload;
    if SeenReady(c, targets, turns, wl) {
      var j :| ReadyAt(c, targets, turns, j, wl);
      ReadyLonger(c, targets, turns, t, j, wl);
    }
    if SeenHopeless(c, targets, turns, wl) {
      var j :| HopelessAt(c, targets, turns, j, wl);
      HopelessLonger(c, targets, turns, t, j, wl);
    }
  }

  lemma {:induction false} OutcomesAreEarned(c: Change, targets: seq<WorkloadRef>, turns: seq<Turn>)
    requires Distinct(targets)
    ensures AllEarned(c, targets, turns, Life(c, targets, turns).record)
  {
    if turns != [] {
      var front, t := turns[..|turns| - 1], turns[|turns| - 1];
      OutcomesAreEarned(c, targets, front);
      assert turns == front + [t];
      TurnEarns(c, targets, front, t);
      assert Life(c, targets, turns) == Turned(c, Life(c, targets, front), t).0;
    }
  }

  lemma {:induction false} TurnEarns(c: Change, targets: seq<WorkloadRef>, turns: seq<Turn>, t: Turn)
    requires Distinct(targets) && AllEarned(c, targets, turns, Life(c, targets, turns).record)
    ensures AllEarned(c, targets, turns + [t], Turned(c, Life(c, targets, turns), t).0.record)
  {
    WaveSafety(c, targets, turns);
    TurnRecords(c, Life(c, targets, turns), t, targets);
    AddsEarned(c, targets, turns, t, Turned(c, Life(c, targets, turns), t).0.record);
  }

  lemma {:induction false} AddsEarned(
      c: Change, targets: seq<WorkloadRef>, turns: seq<Turn>, t: Turn, record: seq<Outcome>)
    requires AllEarned(c, targets, turns, Life(c, targets, turns).record) && Adds(Life(c, targets, turns), t, record)
    ensures AllEarned(c, targets, turns + [t], record)
  {
    var before := Life(c, targets, turns).record;
    forall i | 0 <= i < |record| ensures Earned(c, targets, turns + [t], record, i) {
      if i < |before| {
        assert record[..i] == before[..i];
        EarnedLonger(c, targets, turns, t, before, i);
      } else {
        NewEarned(c, targets, turns, t, record, i);
      }
    }
  }

  lemma {:induction false} NewEarned(
      c: Change, targets: seq<WorkloadRef>, turns: seq<Turn>, t: Turn, record: seq<Outcome>, i: int)
    requires Adds(Life(c, targets, turns), t, record) && |Life(c, targets, turns).record| <= i < |record|
    ensures Earned(c, targets, turns + [t], record, i)
  {
    if Life(c, targets, turns).current == Some(record[i].workload) {
      LastSees(c, targets, turns, t, record[i].workload);
    }
  }

  /** What a turn adds to the record is healthy only for the workload in flight, seen
      ready, and breaks only for that one, seen hopeless. */
  ghost predicate Adds(w: Progress, t: Turn, record: seq<Outcome>) {
    && w.record <= record
    && forall i :: |w.record| <= i < |record| ==>
         && (record[i].result == Healthy ==>
               w.current == Some(record[i].workload) && Ready(record[i].workload.kind, t.seen))
         && (Breaks(record, i) ==>
               w.current == Some(record[i].workload)
               && Hopeless(record[i].workload.kind, t.seen, t.at - w.startedAt))
  }

  lemma {:induction false} TurnRecords(c: Change, w: Progress, t: Turn, targets: seq<WorkloadRef>)
    requires Sound(w, targets)
    ensures Adds(w, t, Turned(c, w, t).0.record)
  {
    if w.done {
      FinishedStays(c, w, t, targets);
    } else if w.current.None? {
      WorkingRecords(c, w, t.books, t.looks, targets);
    } else if Hopeless(w.current.value.kind, t.seen, t.at - w.startedAt) {
      EveryTurnJudges(c, w, t, w.current.value);
      FailedRecords(w, t, w.current.value);
    } else if Ready(w.current.value.kind, t.seen) {
      SoundHealthy(w, targets);
      HealthyRecords(c, w, t, w.current.value, targets);
    }
  }

  lemma {:induction false} FailedRecords(w: Progress, t: Turn, cur: WorkloadRef)
    requires w.current == Some(cur) && Hopeless(cur.kind, t.seen, t.at - w.startedAt)
    ensures Adds(w, t, w.record + [Outcome(cur, Failed)] + AllSkipped(w.todo))
  {
  }

  lemma {:induction false} HealthyRecords(c: Change, w: Progress, t: Turn, cur: WorkloadRef, targets: seq<WorkloadRef>)
    requires w.current == Some(cur) && Ready(cur.kind, t.seen) && !w.done
    requires !Hopeless(cur.kind, t.seen, t.at - w.startedAt)
    requires Sound(Recorded(w, cur, Healthy).(current := None), targets)
    ensures Adds(w, t, Turned(c, w, t).0.record)
  {
    WorkingRecords(c, Recorded(w, cur, Healthy).(current := None), t.books, t.looks, targets);
  }

  /** The loop over the workloads adds no healthy one and leaves no break. */
  lemma {:induction false} WorkingRecords(c: Change, w: Progress, b: Books, looks: seq<Look>, targets: seq<WorkloadRef>)
    requires Sound(w, targets) && !w.done && w.current.None?
    ensures var record := Working(c, w, b, looks).0.record;
            w.record <= record && NoneHealthy(record, |w.record|) && Unbroken(record)
  {
    SoundWorkOn(c, w, b, looks, targets);
    WorkOnAdds(c, w, b, looks);
  }

  /** A finished wave has nothing left to do. */
  lemma {:induction false} FinishedStays(c: Change, w: Progress, t: Turn, targets: seq<WorkloadRef>)
    requires Sound(w, targets) && w.done
    ensures Turned(c, w, t) == (w, t.books)
  {
    NothingToDo(c, w, t.books, t.looks);
  }

  // ---- How long a wave waits ----

  /** Some turn restarted the workload in flight, for the version it is waited for in,
      at the time its ten minutes are counted from. */
  lemma {:induction false} InFlightSinceRestart(c: Change, targets: seq<WorkloadRef>, turns: seq<Turn>)
    returns (i: nat)
    requires Distinct(targets) && Life(c, targets, turns).current.Some?
    ensures var w := Life(c, targets, turns);
            i < |turns| && RestartedIn(c, turns[i].looks, w.hash, w.startedAt)
  {
    var front, t := turns[..|turns| - 1], turns[|turns| - 1];
    var w := Life(c, targets, front);
    if w.current.Some? && Undecided(w, t) {
      EveryTurnJudges(c, w, t, w.current.value);
      i := InFlightSinceRestart(c, targets, front);
    } else {
      i := |turns| - 1;
      if w.current.Some? {
        EveryTurnJudges(c, w, t, w.current.value);
        WorkOnAdds(c, Recorded(w, w.current.value, Healthy).(current := None), t.books, t.looks);
      } else {
        WorkOnAdds(c, w, t.books, t.looks);
      }
    }
  }

  /** Nothing in these turns decides about the workload in flight. */
  predicate AllUndecided(w: Progress, turns: seq<Turn>)
    requires w.current.Some?
  {
    forall i :: 0 <= i < |turns| ==> Undecided(w, turns[i])
  }

  /** The wave is past that workload. */
  predicate Past(w: Progress, wl: WorkloadRef) {
    w.current != Some(wl) && wl !in w.todo
  }

  lemma {:induction false} WorkOnTakes(c: Change, w: Progress, b: Books, looks: seq<Look>)
    requires w.current.None?
    ensures var w' := WorkOn(c, w, b, looks).0;
            && (forall x :: x in w'.todo ==> x in w.todo)
            && (w'.current.Some? ==> w'.current.value in w.todo)
  {
    if looks != [] {
      WorkOnTakes(c, w, b, looks[..|looks| - 1]);
    }
  }

  lemma {:induction false} StaysPast(c: Change, w: Progress, t: Turn, wl: WorkloadRef)
    requires Past(w, wl)
    ensures Past(Turned(c, w, t).0, wl)
  {
    if w.current.Some? {
      EveryTurnJudges(c, w, t, w.current.value);
      WorkOnTakes(c, Recorded(w, w.current.value, Healthy).(current := None), t.books, t.looks);
    } else {
      WorkOnTakes(c, w, t.books, t.looks);
    }
  }

  lemma {:induction false} DecidedIsPast(c: Change, w: Progress, t: Turn, targets: seq<WorkloadRef>, wl: WorkloadRef)
    requires Sound(w, targets) && w.current == Some(wl)
    ensures if Undecided(w, t) then Turned(c, w, t).0 == w else Past(Turned(c, w, t).0, wl)
  {
    EveryTurnJudges(c, w, t, wl);
    assert wl !in w.todo by {
      var i :| 0 <= i < |Firsts(w.record)| && Firsts(w.record)[i] == wl;
      assert targets[i] == wl;
      assert forall j :: 0 <= j < |w.todo| ==> w.todo[j] == targets[|Firsts(w.record)| + j];
    }
    if !Undecided(w, t) {
      WorkOnTakes(c, Recorded(w, wl, Healthy).(current := None), t.books, t.looks);
    }
  }

  /** A workload is waited for exactly as long as nothing decides about it: while it is
      not ready and not yet given up on. Meanwhile the wave stands still, and then it
      never comes back to it. */
  lemma {:induction false} WaitsWhileUndecided(
      c: Change, targets: seq<WorkloadRef>, turns: seq<Turn>, more: seq<Turn>, wl: WorkloadRef)
    requires Distinct(targets) && Life(c, targets, turns).current == Some(wl)
    ensures var w, w' := Life(c, targets, turns), Life(c, targets, turns + more);
            if AllUndecided(w, more) then w' == w else Past(w', wl)
  {
    var w := Life(c, targets, turns);
    if more == [] {
      assert turns + more == turns;
    } else {
      var front, t := more[..|more| - 1], more[|more| - 1];
      WaitsWhileUndecided(c, targets, turns, front, wl);
      assert (turns + more)[..|turns + more| - 1] == turns + front && more == front + [t];
      WaveSafety(c, targets, turns);
      if AllUndecided(w, front) {
        DecidedIsPast(c, w, t, targets, wl);
      } else {
        StaysPast(c, Life(c, targets, turns + front), t, wl);
      }
    }
  }

  /** A Deployment that can be read, is not up and is not past its own deadline is waited
      for without end. */
  lemma {:induction false} DeploymentsWaitWithoutEnd(
      c: Change, targets: seq<WorkloadRef>, turns: seq<Turn>, more: seq<Turn>, wl: WorkloadRef)
    requires Distinct(targets) && Life(c, targets, turns).current == Some(wl) && wl.kind == "Deployment"
    requires forall i :: 0 <= i < |more| ==> more[i].seen == Status(false, false)
    ensures Life(c, targets, turns + more) == Life(c, targets, turns)
  {
    WaitsWhileUndecided(c, targets, turns, more, wl);
  }

  /** A StatefulSet or a DaemonSet that is never seen ready is waited for exactly until a
      turn comes more than ten minutes after its restart; so is anything that cannot be
      read. */
  lemma {:induction false} OthersWaitTenMinutes(
      c: Change, targets: seq<WorkloadRef>, turns: seq<Turn>, more: seq<Turn>, wl: WorkloadRef)
    requires Distinct(targets) && Life(c, targets, turns).current == Some(wl)
    requires forall i :: 0 <= i < |more| ==>
               more[i].seen.Unreadable?
               || (wl.kind != "Deployment" && !more[i].seen.ready && !(wl.kind == "Rollout" && more[i].seen.stuck))
    ensures var w, w' := Life(c, targets, turns), Life(c, targets, turns + more);
            w'.current == Some(wl) <==> forall i :: 0 <= i < |more| ==> more[i].at <= w.startedAt + 10 * MINUTE
  {
    WaitsWhileUndecided(c, targets, turns, more, wl);
  }

  // ---- What stalled had been sent ----

  ghost predicate StalledWasSent(journal: seq<Entry>) {
    forall j :: 0 <= j < |journal| && journal[j].Stalled? ==> Sent(journal[j].key) in journal[..j]
  }

  /** The version in flight of every wave has been sent. */
  ghost predicate FlyingWasSent(s: System) {
    forall i :: 0 <= i < |s.waves| && s.waves[i].1.current.Some? ==>
      Sent(BlockKey(s.waves[i].0.ns, s.waves[i].1.current.value, s.waves[i].1.hash)) in s.books.journal
  }

  lemma {:induction false} TurnSends(c: Change, w: Progress, t: Turn)
    requires StalledWasSent(t.books.journal)
    requires w.current.Some? ==> Sent(BlockKey(c.ns, w.current.value, w.hash)) in t.books.journal
    ensures var (w', b') := Turned(c, w, t);
            && t.books.journal <= b'.journal && StalledWasSent(b'.journal)
            && (w'.current.Some? ==> Sent(BlockKey(c.ns, w'.current.value, w'.hash)) in b'.journal)
  {
    if w.current.Some? {
      EveryTurnJudges(c, w, t, w.current.value);
      WorkOnAdds(c, Recorded(w, w.current.value, Healthy).(current := None), t.books, t.looks);
    } else {
      WorkOnAdds(c, w, t.books, t.looks);
    }
  }

  /** In every run a version is blocked for a workload only after that very version was
      sent to it. */
  lemma {:induction false} OnlySentVersionsStall(acts: seq<Action>)
    ensures StalledWasSent(Run(acts).books.journal) && FlyingWasSent(Run(acts))
  {
    if acts != [] {
      OnlySentVersionsStall(acts[..|acts| - 1]);
      var s, a := Run(acts[..|acts| - 1]), acts[|acts| - 1];
      if a.Advance? && a.wave < |s.waves| {
        TurnSends(s.waves[a.wave].0, s.waves[a.wave].1, Turn(s.books, a.seen, a.at, a.looks));
      }
    }
  }

  // ---- What is recorded and sent ----

  /** The record tells the gate's answers apart. */
  lemma {:induction false} FatesTellAnswers(a: Answer, b: Answer)
    ensures FateOf(a) == FateOf(b) <==> a == b
    ensures (FateOf(a) == Fate.Failed <==> a == GateFailed) && (FateOf(a) == Fate.Restarted <==> a == GateApplied)
    ensures FateOf(a) != Healthy && FateOf(a) != UpToDate
  {
  }

  /** A workload that only names an object is restarted for every other content of it: its
      version stands for all of the object. */
  lemma {:induction false} NamedVersionIsExact(c: Change, d: Change, recorded: string)
    requires c.digest == d.digest && (forall x, y :: c.digest(x) == c.digest(y) ==> x == y)
    requires Plain(c.data) && Plain(d.data)
    ensures VersionFor(c, Template(None, recorded)) == VersionFor(d, Template(None, recorded)) <==> c.data == d.data
  {
    var all := Use(true, {}, false);
    HashInputExact(all, all, c.data, d.data);
    assert Used(all, c.data) == c.data && Used(all, d.data) == d.data;
  }
}
