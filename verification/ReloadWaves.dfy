/** internal/kube/reload.go: the wave of restarts that follows a change. The gate is
    asked for the affected workloads in turn, the next only once the last one is
    healthy; one that fails ends the wave and is not sent that version again. */
module ReloadWaves {
  import opened Prelude
  import opened Text
  import opened ReloadRefs

  const VERIFY_TIMEOUT := 10 * MINUTE

  datatype WorkloadRef = WorkloadRef(kind: string, name: string)

  function Name(w: WorkloadRef): string {
    Lower(w.kind) + "/" + w.name
  }

  datatype Fate = UpToDate | Simulated | Suggested | Blocked | Restarted | Healthy | Failed | Skipped

  datatype Outcome = Outcome(workload: WorkloadRef, result: Fate)

  /** How the gate answered. */
  datatype Answer = GateSkipped | GateSuggested | GateSimulated | GateBlocked | GateFailed | GateApplied

  function FateOf(a: Answer): Fate {
    match a
    case GateSkipped => Skipped
    case GateSuggested => Suggested
    case GateSimulated => Simulated
    case GateBlocked => Blocked
    case GateFailed => Failed
    case GateApplied => Restarted
  }

  /** The change a wave carries out; digest is the hash of the used content. */
  datatype Change = Change(ns: string, ref: ObjRef, data: Data, digest: string -> string)

  /** A wave: the workloads left, the one it waits for with the version that one was
      restarted for and when, and the outcomes so far. */
  datatype Progress = Progress(
    todo: seq<WorkloadRef>, current: Option<WorkloadRef>, hash: string, startedAt: int, record: seq<Outcome>,
    done: bool)

  /** What restarting a workload finds: its template, with the version it last
      restarted for, when it can be read; the gate's answer; and the clock after it. */
  datatype Template = Template(use: Option<Use>, recorded: string)
  datatype Look = Look(template: Option<Template>, answer: Answer, at: int)

  /** A version sent to the gate for a workload, or found not to become healthy. */
  datatype Entry = Sent(key: string) | Stalled(key: string)

  datatype Books = Books(blocked: set<string>, journal: seq<Entry>)

  // ---- Whether a restart has finished ----

  datatype Seen = Unreadable | Status(stuck: bool, ready: bool)

  datatype Verdict = Waiting | Recovered | Broken

  function RolloutDone(ready: bool, timedOut: bool): Verdict {
    if ready then Recovered else if timedOut then Broken else Waiting
  }

  /** verifyReload. A Deployment has its own progress deadline and no timeout here. */
  function Verify(kind: string, seen: Seen, elapsed: int): Verdict {
    var timedOut := elapsed > VERIFY_TIMEOUT;
    if seen.Unreadable? then RolloutDone(false, timedOut)
    else if kind == "Deployment" then if seen.stuck then Broken else RolloutDone(seen.ready, false)
    else if kind == "Rollout" then
      if seen.ready then Recovered else if seen.stuck then Broken else RolloutDone(false, timedOut)
    else RolloutDone(seen.ready, timedOut)
  }

  // ---- The steps of a wave ----

  function Recorded(w: Progress, wl: WorkloadRef, r: Fate): Progress {
    w.(record := w.record + [Outcome(wl, r)])
  }

  ghost function VersionFor(c: Change, t: Template): string {
    c.digest(HashInput(if t.use.Some? then t.use.value else Use(true, {}, false), c.data))
  }

  function BlockKey(ns: string, wl: WorkloadRef, hash: string): string {
    ns + ['/'] + (Name(wl) + ['/'] + hash)
  }

  /** restartForReload: the wave and the books afterwards. The wave waits for the
      workload when it has a current one. */
  ghost function Restarting(c: Change, w: Progress, b: Books, wl: WorkloadRef, k: Look): (Progress, Books) {
    if k.template.None? then (Recorded(w, wl, Failed), b)
    else
      var hash := VersionFor(c, k.template.value);
      var key := BlockKey(c.ns, wl, hash);
      if key in b.blocked then (Recorded(w, wl, Blocked), b)
      else if k.template.value.recorded == hash then (Recorded(w, wl, UpToDate), b)
      else
        var w' := Recorded(w, wl, FateOf(k.answer));
        (if k.answer == GateApplied && wl.kind != "CronJob"
         then w'.(current := Some(wl), hash := hash, startedAt := k.at) else w',
         b.(journal := b.journal + [Sent(key)]))
  }

  /** The loop of advanceWave: workloads one after another until one is waited for. */
  ghost function WorkOn(c: Change, w: Progress, b: Books, looks: seq<Look>): (Progress, Books) {
    if looks == [] then (w, b)
    else
      var (w', b') := WorkOn(c, w, b, looks[..|looks| - 1]);
      if w'.todo == [] || w'.current.Some? then (w', b')
      else Restarting(c, w'.(todo := w'.todo[1..]), b', w'.todo[0], looks[|looks| - 1])
  }

  /** With nothing left to do and nothing in flight the wave is done. */
  ghost function Working(c: Change, w: Progress, b: Books, looks: seq<Look>): (Progress, Books) {
    var (w', b') := WorkOn(c, w, b, looks);
    (if w'.todo == [] && w'.current.None? then w'.(done := true) else w', b')
  }

  function SkipAll(w: Progress, rest: seq<WorkloadRef>): Progress {
    if rest == [] then w else Recorded(SkipAll(w, rest[..|rest| - 1]), rest[|rest| - 1], Skipped)
  }

  /** failWave. */
  function Failing(c: Change, w: Progress, b: Books): (Progress, Books)
    requires w.current.Some?
  {
    var key := BlockKey(c.ns, w.current.value, w.hash);
    (SkipAll(Recorded(w, w.current.value, Failed), w.todo).(todo := [], current := None, done := true),
     Books(b.blocked + {key}, b.journal + [Stalled(key)]))
  }

  /** advanceWave. */
  ghost function Advancing(c: Change, w: Progress, b: Books, v: Verdict, looks: seq<Look>): (Progress, Books) {
    if w.current.Some? && v.Waiting? then (w, b)
    else if w.current.Some? && v.Broken? then Failing(c, w, b)
    else
      Working(c, if w.current.Some? then Recorded(w, w.current.value, Healthy).(current := None) else w, b, looks)
  }

  /** One call of advanceWave: what the books held, what it saw of the workload in
      flight and when, and what each restart it tries will find. */
  datatype Turn = Turn(books: Books, seen: Seen, at: int, looks: seq<Look>)

  function Judged(w: Progress, seen: Seen, at: int): Verdict {
    if w.current.Some? then Verify(w.current.value.kind, seen, at - w.startedAt) else Waiting
  }

  ghost function Turned(c: Change, w: Progress, t: Turn): (Progress, Books) {
    Advancing(c, w, t.books, Judged(w, t.seen, t.at), t.looks)
  }

  function Starting(targets: seq<WorkloadRef>): Progress {
    Progress(targets, None, "", 0, [], false)
  }

  // ---- What the record says ----

  /** The workloads in the order they first appear. */
  function Firsts(record: seq<Outcome>): seq<WorkloadRef> {
    if record == [] then []
    else
      var front, last := record[..|record| - 1], record[|record| - 1].workload;
      if last in Firsts(front) then Firsts(front) else Firsts(front) + [last]
  }

  /** Restarted, not a CronJob, and neither healthy nor failed since. */
  function Unverified(record: seq<Outcome>): set<WorkloadRef> {
    if record == [] then {}
    else
      var front, last := Unverified(record[..|record| - 1]), record[|record| - 1];
      match last.result
      case Restarted => if last.workload.kind == "CronJob" then front else front + {last.workload}
      case Healthy => front - {last.workload}
      case Failed => front - {last.workload}
      case _ => front
  }

  /** The outcome at i is the failure of a workload restarted earlier in the wave. */
  predicate Breaks(record: seq<Outcome>, i: nat)
    requires i < |record|
  {
    record[i].result == Failed && record[i].workload in Unverified(record[..i])
  }

  /** What comes after one is only skipped. */
  ghost predicate StopsAtBreak(record: seq<Outcome>) {
    forall i, j :: 0 <= i < j < |record| && Breaks(record, i) ==> record[j].result == Skipped
  }

  ghost predicate Unbroken(record: seq<Outcome>) {
    forall i :: 0 <= i < |record| ==> !Breaks(record, i)
  }

  function InFlight(w: Progress): set<WorkloadRef> {
    if w.current.Some? then {w.current.value} else {}
  }

  ghost predicate Sound(w: Progress, targets: seq<WorkloadRef>) {
    && Distinct(targets) && Firsts(w.record) + w.todo == targets
    && Unverified(w.record) == InFlight(w) && (w.current.Some? ==> w.current.value in Firsts(w.record))
    && StopsAtBreak(w.record) && (!w.done ==> Unbroken(w.record))
    && (w.done ==> w.todo == [] && w.current.None?)
  }

  lemma {:induction false} FirstsPush(record: seq<Outcome>, o: Outcome)
    ensures Firsts(record + [o]) == if o.workload in Firsts(record) then Firsts(record)
            else Firsts(record) + [o.workload]
    ensures Unverified(record + [o]) ==
              match o.result
              case Restarted => if o.workload.kind == "CronJob" then Unverified(record)
                else Unverified(record) + {o.workload}
              case Healthy => Unverified(record) - {o.workload}
              case Failed => Unverified(record) - {o.workload}
              case _ => Unverified(record)
  {
  }

  lemma {:induction false} BreaksPush(record: seq<Outcome>, o: Outcome)
    ensures Unbroken(record) && !(o.result == Failed && o.workload in Unverified(record)) ==> Unbroken(record + [o])
    ensures StopsAtBreak(record) && (Unbroken(record) || o.result == Skipped) ==> StopsAtBreak(record + [o])
  {
    var r := record + [o];
    assert r[..|record|] == record;
    forall i | 0 <= i < |record| ensures Breaks(r, i) <==> Breaks(record, i) {
      assert r[..i] == record[..i];
    }
  }

  /** The workload that comes next has not appeared before. */
  lemma {:induction false} NextIsNew(seen: seq<WorkloadRef>, todo: seq<WorkloadRef>)
    requires Distinct(seen + todo) && todo != []
    ensures todo[0] !in seen && seen + todo == seen + [todo[0]] + todo[1..]
  {
    forall i | 0 <= i < |seen| ensures seen[i] != todo[0] {
      assert (seen + todo)[i] == seen[i] && (seen + todo)[|seen|] == todo[0];
    }
  }

  /** The wave after the next workload had this outcome, and is waited for or not. */
  function Tried(w: Progress, o: Outcome, hash: string, at: int): Progress
    requires w.todo != []
  {
    var waits := o.result == Restarted && o.workload.kind != "CronJob";
    Progress(w.todo[1..], if waits then Some(o.workload) else None, if waits then hash else w.hash,
             if waits then at else w.startedAt, w.record + [o], w.done)
  }

  lemma {:induction false} SoundTried(w: Progress, o: Outcome, hash: string, at: int, targets: seq<WorkloadRef>)
    requires Sound(w, targets) && !w.done && w.current.None? && w.todo != []
    requires o.workload == w.todo[0] && o.result != Healthy
    ensures Sound(Tried(w, o, hash, at), targets)
  {
    NextIsNew(Firsts(w.record), w.todo);
    FirstsPush(w.record, o);
    BreaksPush(w.record, o);
  }

  /** What trying the next workload comes to, branch by branch. */
  lemma {:induction false} RestartingTries(c: Change, w: Progress, b: Books, k: Look) returns (o: Outcome, hash: string)
    requires w.current.None? && w.todo != []
    ensures o.workload == w.todo[0] && o.result != Healthy
    ensures Restarting(c, w.(todo := w.todo[1..]), b, w.todo[0], k).0 == Tried(w, o, hash, k.at)
  {
    if k.template.None? {
      return Outcome(w.todo[0], Failed), "";
    }
    hash := VersionFor(c, k.template.value);
    if BlockKey(c.ns, w.todo[0], hash) in b.blocked {
      o := Outcome(w.todo[0], Blocked);
    } else if k.template.value.recorded == hash {
      o := Outcome(w.todo[0], UpToDate);
    } else {
      o := Outcome(w.todo[0], FateOf(k.answer));
    }
  }

  /** One workload taken off the list and tried. */
  lemma {:induction false} SoundRestart(c: Change, w: Progress, b: Books, k: Look, targets: seq<WorkloadRef>)
    requires Sound(w, targets) && !w.done && w.current.None? && w.todo != []
    ensures var w' := Restarting(c, w.(todo := w.todo[1..]), b, w.todo[0], k).0;
            Sound(w', targets) && !w'.done && w'.todo == w.todo[1..]
  {
    var o, hash := RestartingTries(c, w, b, k);
    SoundTried(w, o, hash, k.at, targets);
  }

  lemma {:induction false} SoundWorkOn(c: Change, w: Progress, b: Books, looks: seq<Look>, targets: seq<WorkloadRef>)
    requires Sound(w, targets) && w.current.None?
    ensures var w' := WorkOn(c, w, b, looks).0;
            && Sound(w', targets) && w'.done == w.done
            && (w'.current.Some? ==> |w'.todo| < |w.todo|)
            && (w'.current.None? ==> |w'.todo| == if |looks| <= |w.todo| then |w.todo| - |looks| else 0)
  {
    if looks != [] {
      SoundWorkOn(c, w, b, looks[..|looks| - 1], targets);
      var (w', b') := WorkOn(c, w, b, looks[..|looks| - 1]);
      if w'.todo != [] && w'.current.None? {
        SoundRestart(c, w', b', looks[|looks| - 1], targets);
      }
    }
  }

  lemma {:induction false} SoundWorking(c: Change, w: Progress, b: Books, looks: seq<Look>, targets: seq<WorkloadRef>)
    requires Sound(w, targets) && w.current.None?
    ensures var w' := Working(c, w, b, looks).0;
            && Sound(w', targets) && |w'.todo| <= |w.todo| && (w'.current.Some? ==> |w'.todo| < |w.todo|)
            && (|looks| >= |w.todo| ==> w'.done || w'.current.Some?)
            && (w.todo != [] && |looks| >= |w.todo| ==> |w'.todo| < |w.todo|)
            && (w.todo == [] ==> w' == w.(done := true))
  {
    SoundWorkOn(c, w, b, looks, targets);
    if w.todo == [] { NothingToDo(c, w, b, looks); }
  }

  lemma {:induction false} NothingToDo(c: Change, w: Progress, b: Books, looks: seq<Look>)
    requires w.todo == []
    ensures WorkOn(c, w, b, looks) == (w, b)
  {
    if looks != [] { NothingToDo(c, w, b, looks[..|looks| - 1]); }
  }

  lemma {:induction false} SoundSkip(w: Progress, rest: seq<WorkloadRef>)
    requires StopsAtBreak(w.record) && Unverified(w.record) == {}
    requires Distinct(Firsts(w.record) + rest)
    ensures var w' := SkipAll(w, rest);
            && Firsts(w'.record) == Firsts(w.record) + rest && Unverified(w'.record) == {} && StopsAtBreak(w'.record)
            && w'.todo == w.todo && w'.current == w.current && w'.done == w.done
  {
    if rest != [] {
      var front, last := rest[..|rest| - 1], rest[|rest| - 1];
      assert Firsts(w.record) + rest == (Firsts(w.record) + front) + [last];
      assert Distinct(Firsts(w.record) + front) by {
        assert forall i :: 0 <= i < |Firsts(w.record) + front| ==>
               (Firsts(w.record) + front)[i] == (Firsts(w.record) + rest)[i];
      }
      SoundSkip(w, front);
      var w' := SkipAll(w, front);
      NextIsNew(Firsts(w.record) + front, [last]);
      FirstsPush(w'.record, Outcome(last, Skipped));
      BreaksPush(w'.record, Outcome(last, Skipped));
    }
  }

  lemma {:induction false} SoundFailing(c: Change, w: Progress, b: Books, targets: seq<WorkloadRef>)
    requires Sound(w, targets) && w.current.Some?
    ensures Sound(Failing(c, w, b).0, targets)
  {
    var o := Outcome(w.current.value, Failed);
    FirstsPush(w.record, o);
    BreaksPush(w.record, o);
    SoundSkip(Recorded(w, w.current.value, Failed), w.todo);
    assert Firsts(w.record) + w.todo + [] == targets;
  }

  lemma {:induction false} SoundHealthy(w: Progress, targets: seq<WorkloadRef>)
    requires Sound(w, targets) && w.current.Some?
    ensures Sound(Recorded(w, w.current.value, Healthy).(current := None), targets)
  {
    FirstsPush(w.record, Outcome(w.current.value, Healthy));
    BreaksPush(w.record, Outcome(w.current.value, Healthy));
  }

  lemma {:induction false} SoundAdvance(
      c: Change, w: Progress, b: Books, v: Verdict, looks: seq<Look>, targets: seq<WorkloadRef>)
    requires Sound(w, targets)
    ensures Sound(Advancing(c, w, b, v, looks).0, targets)
  {
    if w.current.Some? && v.Broken? {
      SoundFailing(c, w, b, targets);
    } else if w.current.Some? && v.Recovered? {
      SoundHealthy(w, targets);
      SoundWorking(c, Recorded(w, w.current.value, Healthy).(current := None), b, looks, targets);
    } else if w.current.None? {
      SoundWorking(c, w, b, looks, targets);
    }
  }

  // ---- The whole life of a wave ----

  ghost function Life(c: Change, targets: seq<WorkloadRef>, turns: seq<Turn>): Progress {
    if turns == [] then Starting(targets)
    else Turned(c, Life(c, targets, turns[..|turns| - 1]), turns[|turns| - 1]).0
  }

  /** In every state a wave can reach: its targets are those that have an outcome,
      in order, followed by those still to do; at most one restart, and none of a
      CronJob, has not been verified, the one in flight; nothing is restarted after
      a restart fails its verification; and a finished wave has nothing left. */
  lemma {:induction false} WaveSafety(c: Change, targets: seq<WorkloadRef>, turns: seq<Turn>)
    requires Distinct(targets)
    ensures Sound(Life(c, targets, turns), targets)
  {
    if turns == [] {
      assert Firsts([]) + targets == targets;
    } else {
      WaveSafety(c, targets, turns[..|turns| - 1]);
      var t := turns[|turns| - 1];
      var w := Life(c, targets, turns[..|turns| - 1]);
      SoundAdvance(c, w, t.books, Judged(w, t.seen, t.at), t.looks, targets);
    }
  }

  function Flying(w: Progress): nat {
    if w.current.Some? then 1 else 0
  }

  /** Each call of advanceWave that finds everything it asks for either waits, the
      wave untouched, or brings it nearer its end: fewer workloads to do, or as many
      and one fewer in flight, or done. */
  lemma {:induction false} AdvanceProgresses(
      c: Change, w: Progress, b: Books, v: Verdict, looks: seq<Look>, targets: seq<WorkloadRef>)
    requires Sound(w, targets) && |looks| >= |w.todo|
    ensures var w' := Advancing(c, w, b, v, looks).0;
            || (w' == w && (w.done || (w.current.Some? && v.Waiting?)))
            || (w'.done && !w.done)
            || |w'.todo| < |w.todo| || (|w'.todo| == |w.todo| && Flying(w') < Flying(w))
    ensures var w' := Advancing(c, w, b, v, looks).0;
            w'.done || w'.current.Some?
  {
    if w.current.Some? && v.Broken? {
      SoundFailing(c, w, b, targets);
    } else if w.current.Some? && v.Recovered? {
      SoundHealthy(w, targets);
      var w0 := Recorded(w, w.current.value, Healthy).(current := None);
      SoundWorking(c, w0, b, looks, targets);
    } else if w.current.None? {
      SoundWorking(c, w, b, looks, targets);
    }
  }

  // ---- Blocked versions ----

  /** No version is sent to a workload after it stalled there. */
  ghost predicate NeverResent(journal: seq<Entry>) {
    forall i, j :: 0 <= i < j < |journal| && journal[i].Stalled? && journal[j].Sent?
      ==> journal[i].key != journal[j].key
  }

  ghost predicate Kept(b: Books) {
    NeverResent(b.journal) && forall i :: 0 <= i < |b.journal| && b.journal[i].Stalled? ==>
      b.journal[i].key in b.blocked
  }

  lemma {:induction false} KeptWorking(c: Change, w: Progress, b: Books, looks: seq<Look>)
    requires Kept(b)
    ensures Kept(WorkOn(c, w, b, looks).1) && b.blocked <= WorkOn(c, w, b, looks).1.blocked
  {
    if looks != [] {
      KeptWorking(c, w, b, looks[..|looks| - 1]);
    }
  }

  lemma {:induction false} KeptAdvance(c: Change, w: Progress, b: Books, v: Verdict, looks: seq<Look>)
    requires Kept(b)
    ensures Kept(Advancing(c, w, b, v, looks).1) && b.blocked <= Advancing(c, w, b, v, looks).1.blocked
  {
    if !(w.current.Some? && !v.Recovered?) {
      KeptWorking(c, if w.current.Some? then Recorded(w, w.current.value, Healthy).(current := None) else w, b, looks);
    }
  }

  /** The reloader of one process: its waves, past and present, and its books. */
  datatype System = System(waves: seq<(Change, Progress)>, books: Books)

  datatype Action =
    | Start(change: Change, targets: seq<WorkloadRef>)
    | Advance(wave: nat, seen: Seen, at: int, looks: seq<Look>)

  ghost function Do(s: System, a: Action): System {
    match a
    case Start(c, targets) => s.(waves := s.waves + [(c, Starting(targets))])
    case Advance(i, seen, at, looks) =>
      if i >= |s.waves| then s
      else
        var (c, w) := s.waves[i];
        var (w', b') := Turned(c, w, Turn(s.books, seen, at, looks));
        System(s.waves[i := (c, w')], b')
  }

  /** The first waves advanced in turn, one call each. */
  ghost function AdvanceEach(s: System, turns: seq<Turn>): System {
    if turns == [] then s
    else
      var t, n := turns[|turns| - 1], |turns| - 1;
      Do(AdvanceEach(s, turns[..n]), Advance(n, t.seen, t.at, t.looks))
  }

  ghost function Run(acts: seq<Action>): System {
    if acts == [] then System([], Books({}, [])) else Do(Run(acts[..|acts| - 1]), acts[|acts| - 1])
  }

  /** Blocked versions stay blocked: whatever waves start and advance, in any order
      and for any changes, a version that stalled on a workload is never again sent
      through the gate for it. */
  lemma {:induction false} BlockedStayBlocked(acts: seq<Action>)
    ensures Kept(Run(acts).books)
  {
    if acts != [] {
      BlockedStayBlocked(acts[..|acts| - 1]);
      var s, a := Run(acts[..|acts| - 1]), acts[|acts| - 1];
      if a.Advance? && a.wave < |s.waves| {
        var (c, w) := s.waves[a.wave];
        KeptAdvance(c, w, s.books, Judged(w, a.seen, a.at), a.looks);
      }
    }
  }

  /** Namespaces and workloads hold no slash, so a blocked key names one version of
      one workload of one namespace. */
  lemma {:induction false} BlockKeyExact(
      ns: string, wl: WorkloadRef, hash: string, ns': string, wl': WorkloadRef, hash': string)
    requires '/' !in ns && '/' !in ns' && '/' !in wl.name && '/' !in wl'.name && '/' !in Lower(wl.kind)
             && '/' !in Lower(wl'.kind)
    ensures BlockKey(ns, wl, hash) == BlockKey(ns', wl', hash') <==>
              ns == ns' && Lower(wl.kind) == Lower(wl'.kind) && wl.name == wl'.name && hash == hash'
  {
    if BlockKey(ns, wl, hash) == BlockKey(ns', wl', hash') {
      var rest, rest' := wl.name + ['/'] + hash, wl'.name + ['/'] + hash';
      assert Name(wl) + ['/'] + hash == Lower(wl.kind) + ['/'] + rest;
      assert Name(wl') + ['/'] + hash' == Lower(wl'.kind) + ['/'] + rest';
      CutUnique(ns, Lower(wl.kind) + ['/'] + rest, ns', Lower(wl'.kind) + ['/'] + rest', '/');
      CutUnique(Lower(wl.kind), rest, Lower(wl'.kind), rest', '/');
      CutUnique(wl.name, hash, wl'.name, hash', '/');
    }
  }
}
