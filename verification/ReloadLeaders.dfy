/** internal/kube/reload.go:120-171 across controllers: each queues every change and
    drops it at its first tick once it is due; only one that leads then acts on it. */
module ReloadLeaders {
  import opened Prelude
  import opened ReloadRefs

  /** A tick of one controller: what its clock says, and whether it leads. */
  datatype Tick = Tick(controller: nat, now: int, leads: bool)

  /** A change a controller started waves for. */
  datatype Act = Act(controller: nat, change: Pending)

  /** What each controller has waiting for one object, and everything acted on. */
  datatype Controllers = Controllers(waiting: seq<Option<Pending>>, acts: seq<Act>)

  predicate Due(p: Option<Pending>, now: int) {
    p.Some? && now >= p.value.dueAt
  }

  function AfterTick(s: Controllers, k: Tick): (s': Controllers)
    requires k.controller < |s.waiting|
    ensures |s'.waiting| == |s.waiting|
  {
    var p := s.waiting[k.controller];
    if !Due(p, k.now) then s
    else Controllers(s.waiting[k.controller := None], if k.leads then s.acts + [Act(k.controller, p.value)] else s.acts)
  }

  predicate Among(ticks: seq<Tick>, n: nat) {
    forall i :: 0 <= i < |ticks| ==> ticks[i].controller < n
  }

  function AfterTicks(s: Controllers, ticks: seq<Tick>): (s': Controllers)
    requires Among(ticks, |s.waiting|)
    ensures |s'.waiting| == |s.waiting|
  {
    if ticks == [] then s else AfterTick(AfterTicks(s, ticks[..|ticks| - 1]), ticks[|ticks| - 1])
  }

  /** Whether the controller leads at its first tick from dueAt on, if it has one. */
  function FirstDue(ticks: seq<Tick>, c: nat, dueAt: int): Option<bool> {
    if ticks == [] then None
    else
      var k, earlier := ticks[|ticks| - 1], FirstDue(ticks[..|ticks| - 1], c, dueAt);
      if earlier.Some? then earlier else if k.controller == c && k.now >= dueAt then Some(k.leads) else None
  }

  function ActsOf(acts: seq<Act>, c: nat): seq<Act> {
    if acts == [] then []
    else ActsOf(acts[..|acts| - 1], c) + if acts[|acts| - 1].controller == c then [acts[|acts| - 1]] else []
  }

  lemma {:induction false} ActsPush(acts: seq<Act>, a: Act, c: nat)
    ensures ActsOf(acts + [a], c) == if a.controller == c then ActsOf(acts, c) + [a] else ActsOf(acts, c)
  {
  }

  /** A controller acts on the change that waits, once, when it leads at its first
      tick from the due time on; led by another then, it drops the change for good. */
  lemma {:induction false} EachActsAtFirstDue(s: Controllers, ticks: seq<Tick>, c: nat)
    requires Among(ticks, |s.waiting|) && c < |s.waiting|
    ensures var s', p := AfterTicks(s, ticks), s.waiting[c];
            var first := if p.Some? then FirstDue(ticks, c, p.value.dueAt) else None;
            && s'.waiting[c] == (if first.Some? then None else p)
            && ActsOf(s'.acts, c) == if first == Some(true) then ActsOf(s.acts, c) + [Act(c, p.value)]
               else ActsOf(s.acts, c)
  {
    if ticks != [] {
      var front, k := ticks[..|ticks| - 1], ticks[|ticks| - 1];
      EachActsAtFirstDue(s, front, c);
      var m := AfterTicks(s, front);
      if Due(m.waiting[k.controller], k.now) && k.leads {
        ActsPush(m.acts, Act(k.controller, m.waiting[k.controller].value), c);
      }
    }
  }

  /** The versions are the same for every controller; the moment each heard is its own. */
  predicate SameVersions(us: seq<Update>, vs: seq<Update>) {
    |us| == |vs| && forall i :: 0 <= i < |us| ==> us[i].before == vs[i].before && us[i].after == vs[i].after
  }

  /** Every controller has heard the same series of updates, all of them watched. */
  predicate Heard(s: Controllers, heard: seq<seq<Update>>, us: seq<Update>, debounce: int) {
    && us != [] && Chained(us) && |heard| == |s.waiting|
    && forall c :: 0 <= c < |heard| ==>
         && SameVersions(us, heard[c]) && (forall i :: 0 <= i < |heard[c]| ==> heard[c][i].watched)
         && s.waiting[c] == AfterUpdates(None, heard[c], debounce)
  }

  /** Controller c leads at its first tick from the time its change is due. */
  predicate ActsFirst(s: Controllers, ticks: seq<Tick>, c: nat)
    requires c < |s.waiting|
  {
    s.waiting[c].Some? && FirstDue(ticks, c, s.waiting[c].value.dueAt) == Some(true)
  }

  /** A change that every controller queued is acted on if and only if some controller
      leads at its own first tick from the due time on, and each that does acts once,
      on keys that cover the net change and on the last values. A leader that stops
      before that tick, while the others drop the change at theirs, loses it. */
  lemma {:induction false} ActedOnIffLeaderTicksFirst(
      s: Controllers, heard: seq<seq<Update>>, us: seq<Update>, debounce: int, ticks: seq<Tick>)
    requires Heard(s, heard, us, debounce) && s.acts == [] && Among(ticks, |s.waiting|)
    ensures var acts := AfterTicks(s, ticks).acts;
            && (acts != [] <==> exists c: nat :: c < |s.waiting| && ActsFirst(s, ticks, c))
            && (forall c: nat :: c < |s.waiting| ==> |ActsOf(acts, c)| == if ActsFirst(s, ticks, c) then 1 else 0)
            && (forall a :: a in acts ==> a.controller < |s.waiting| && Covers(Some(a.change), First(us), Final(us)))
  {
    var acts := AfterTicks(s, ticks).acts;
    forall c: nat | c < |s.waiting|
      ensures |ActsOf(acts, c)| == if ActsFirst(s, ticks, c) then 1 else 0
      ensures forall a :: a in ActsOf(acts, c) ==> Covers(Some(a.change), First(us), Final(us))
    {
      EachActsAtFirstDue(s, ticks, c);
      WaitingCovers(s, heard, us, debounce, c);
    }
    ActorsAreControllers(s, ticks);
    forall a | a in acts ensures a.controller < |s.waiting| && Covers(Some(a.change), First(us), Final(us)) {
      Listed(acts, a);
    }
    if acts != [] {
      Listed(acts, acts[0]);
      assert ActsFirst(s, ticks, acts[0].controller);
    }
  }

  lemma {:induction false} WaitingCovers(
      s: Controllers, heard: seq<seq<Update>>, us: seq<Update>, debounce: int, c: nat)
    requires Heard(s, heard, us, debounce) && c < |s.waiting|
    ensures Covers(s.waiting[c], First(us), Final(us))
  {
    var vs := heard[c];
    assert SameVersions(us, vs);
    assert forall i :: 0 <= i < |us| - 1 ==> us[i].after == us[i + 1].before;
    DebounceLosesNothing(vs, debounce);
  }

  lemma {:induction false} ActorsAreControllers(s: Controllers, ticks: seq<Tick>)
    requires Among(ticks, |s.waiting|) && s.acts == []
    ensures forall a :: a in AfterTicks(s, ticks).acts ==> a.controller < |s.waiting|
  {
    if ticks != [] { ActorsAreControllers(s, ticks[..|ticks| - 1]); }
  }

  lemma {:induction false} Listed(acts: seq<Act>, a: Act)
    requires a in acts
    ensures a in ActsOf(acts, a.controller)
  {
    if a != acts[|acts| - 1] { Listed(acts[..|acts| - 1], a); }
  }
}
