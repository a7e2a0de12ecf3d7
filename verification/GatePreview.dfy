/** internal/kube/gate_preview.go and dryrun.go against gate.go: what a preview, and
    what a dry run, says of the gate it does not run. */
module GatePreviews {
  import opened Prelude
  import opened Gate
  import PolicyScope
  import CircuitBreakers
  import ActionLimiters
  import BlastRadii

  predicate AllPass(checks: seq<Check>) {
    forall c :: c in checks ==> c.pass
  }

  /** A call with n steps to go, all at one moment. */
  function Ends(t: Trackers, r: Request, pc: Pc, k: Tick, n: nat): Pc {
    Alone(t, r, pc, Copies(k, n)).1
  }

  lemma {:induction false} EndsStep(t: Trackers, r: Request, pc: Pc, k: Tick, n: nat)
    requires !pc.Done?
    ensures var (t', pc') := Step(t, r, pc, k); Ends(t, r, pc, k, n + 1) == Ends(t', r, pc', k, n)
  {
    CopiesMore(k, n);
    AloneStep(t, r, pc, Copies(k, n + 1));
  }

  lemma {:induction false} EndsDone(t: Trackers, r: Request, o: Outcome, k: Tick, n: nat)
    ensures Ends(t, r, Done(o), k, n) == Done(o)
  {
  }

  predicate LimiterLets(t: Trackers, now: int) {
    t.limiter.Some? && ActionLimiters.AfterAllow(t.limiter.value, now, now).1
  }

  predicate BreakerLets(t: Trackers, r: Request, now: int)
    requires r.Change?
  {
    t.breaker.Some? ==> CircuitBreakers.AfterRecord(t.breaker.value, CircuitBreakers.Key(r.ns, r.workload), now).1
  }

  predicate PolicyLets(t: Trackers, r: Request, now: int)
    requires r.Change?
  {
    PolicyRefusal(t.budget, r.crd, r.actionType, now).1.None?
  }

  predicate BlastLets(t: Trackers, r: Request, now: int) {
    t.blast.Some? ==> BlastRadii.AfterAction(t.blast.value, r.ns, now, now).1
  }

  /** A change that the API server would accept, with one clock reading throughout. */
  predicate Steady(r: Request, k: Tick) {
    r.Change? && k.now == k.again && k.accepted
  }

  predicate Plain(r: Request, k: Tick) {
    Steady(r, k) && !r.housekeeping
  }

  // ---- What the gate answers, from each of its points on ----

  lemma {:induction false} FromApply(t: Trackers, r: Request, k: Tick, granted: int)
    requires Steady(r, k)
    ensures Ends(t, r, AtApply(granted), k, 2) == Done(Applied)
  {
    EndsStep(t, r, AtApply(granted), k, 1);
    EndsStep(t, r, AtRecord, k, 0);
  }

  /** The limiter of the kind of change. */
  predicate OwnLimiterLets(t: Trackers, r: Request, now: int)
    requires r.Change?
  {
    LimiterLets(if r.housekeeping then t.(limiter := t.cleanup) else t, now)
  }

  lemma {:induction false} FromLimiter(t: Trackers, r: Request, k: Tick)
    requires Steady(r, k)
    ensures Ends(t, r, AtLimiter, k, 3) == Done(if OwnLimiterLets(t, r, k.now) then Applied else Blocked(RateLimited))
  {
    EndsStep(t, r, AtLimiter, k, 2);
    var (t', pc') := Step(t, r, AtLimiter, k);
    if pc'.AtApply? { FromApply(t', r, k, pc'.granted); } else { EndsDone(t', r, pc'.outcome, k, 2); }
  }

  lemma {:induction false} FromBreaker(t: Trackers, r: Request, k: Tick)
    requires Steady(r, k)
    ensures Ends(t, r, AtBreaker, k, 4)
            == if r.housekeeping || BreakerLets(t, r, k.now) then Ends(t, r, AtLimiter, k, 3)
               else Done(Blocked(BreakerTripped))
  {
    EndsStep(t, r, AtBreaker, k, 3);
    var (t', pc') := Step(t, r, AtBreaker, k);
    if pc'.AtLimiter? {
      FromLimiter(t, r, k);
      FromLimiter(t', r, k);
    } else {
      EndsDone(t', r, pc'.outcome, k, 3);
    }
  }

  lemma {:induction false} FromPolicy(t: Trackers, r: Request, k: Tick)
    requires Steady(r, k)
    ensures Ends(t, r, AtPolicy, k, 5)
            == if PolicyLets(t, r, k.now) then Ends(t, r, AtBreaker, k, 4)
               else Done(Blocked(PolicyRefusal(t.budget, r.crd, r.actionType, k.now).1.value))
  {
    EndsStep(t, r, AtPolicy, k, 4);
    var (t', pc') := Step(t, r, AtPolicy, k);
    if pc'.AtBreaker? {
      SameBeyond(t, t', r, k);
    } else {
      EndsDone(t', r, pc'.outcome, k, 4);
    }
  }

  /** Past the policy the answer depends on the breaker and the limiters alone. */
  lemma {:induction false} SameBeyond(t: Trackers, t': Trackers, r: Request, k: Tick)
    requires Steady(r, k) && t'.breaker == t.breaker && t'.limiter == t.limiter && t'.cleanup == t.cleanup
    ensures Ends(t', r, AtBreaker, k, 4) == Ends(t, r, AtBreaker, k, 4)
  {
    FromBreaker(t, r, k);
    FromBreaker(t', r, k);
    FromLimiter(t, r, k);
    FromLimiter(t', r, k);
  }

  /** From quiet hours on: each check in turn, and what the first to refuse is called. */
  lemma {:induction false} FromQuiet(t: Trackers, r: Request, k: Tick)
    requires Steady(r, k)
    ensures Ends(t, r, AtQuiet, k, 7)
            == if k.quiet then Done(Blocked(QuietHours))
               else if !r.housekeeping && !BlastLets(t, r, k.now) then Done(Blocked(BlastRadius))
               else Ends(t, r, AtPolicy, k, 5)
  {
    EndsStep(t, r, AtQuiet, k, 6);
    if k.quiet {
      EndsDone(t, r, Blocked(QuietHours), k, 6);
    } else {
      EndsStep(t, r, AtBlast, k, 5);
      var (t', pc') := Step(t, r, AtBlast, k);
      if pc'.AtPolicy? {
        FromPolicy(t, r, k);
        FromPolicy(t', r, k);
        SameBeyond(t, t', r, k);
      } else {
        EndsDone(t', r, pc'.outcome, k, 5);
      }
    }
  }

  lemma {:induction false} AppliedIff(t: Trackers, r: Request, k: Tick)
    requires Plain(r, k)
    ensures Ends(t, r, AtQuiet, k, 7) == Done(Applied)
            <==> !k.quiet && BlastLets(t, r, k.now) && PolicyLets(t, r, k.now) && BreakerLets(t, r, k.now)
                 && LimiterLets(t, k.now)
  {
    FromQuiet(t, r, k);
    FromPolicy(t, r, k);
    FromBreaker(t, r, k);
    FromLimiter(t, r, k);
  }

  /** The lines of a preview but the last, which is about the policies. */
  function Lines(t: Trackers, v: Request, quiet: bool, policies: seq<CrdPolicy>, k: Tick): seq<Check> {
    var checks := Shown(t, v, quiet, policies, [k, k, k]);
    checks[..|checks| - 1]
  }

  function PolicyLine(policies: seq<CrdPolicy>): Check {
    PolicyCheck(!NeedsApprovals(policies), Limiting(policies))
  }

  /** What those lines come to, all of them. */
  lemma {:induction false} LinesPass(t: Trackers, v: Request, quiet: bool, policies: seq<CrdPolicy>, k: Tick)
    ensures Shown(t, v, quiet, policies, [k, k, k]) == Lines(t, v, quiet, policies, k) + [PolicyLine(policies)]
    ensures AllPass(Lines(t, v, quiet, policies, k))
            <==> v.pol.mode == PolicyScope.Fix && PolicyScope.Fixable(v.pol, v.ns) && !quiet && BlastLets(t, v, k.now)
                 && LimiterLets(t, k.now)
  {
    var first := [ModeCheck(v.pol.mode == PolicyScope.Fix, v.pol.mode),
                  ScopeCheck(PolicyScope.Fixable(v.pol, v.ns)), QuietCheck(!quiet)];
    var b, l := BlastChecks(t.blast, v.ns, k.now), RateChecks(t.limiter, k.now);
    var c := BreakerChecks(t.breaker, v.ns, k.now);
    assert Lines(t, v, quiet, policies, k) == first + b + l + c;
    AllPassParts(first, b, l, c);
    assert AllPass(first) <==> first[0].pass && first[1].pass && first[2].pass;
    assert l[0] in l;
  }

  lemma {:induction false} AllPassParts(a: seq<Check>, b: seq<Check>, l: seq<Check>, c: seq<Check>)
    ensures AllPass(a + b + l + c) <==> AllPass(a) && AllPass(b) && AllPass(l) && AllPass(c)
  {
    assert forall x :: x in a + b + l + c <==> x in a || x in b || x in l || x in c;
  }

  /** The preview foretells the gate. A change of a namespace, asked for at that moment
      and accepted by the API server, is applied if and only if every line but the last
      passes and what the preview cannot know lets it through: the policy that selects
      the workload, and the breaker, which counts this attempt too. */
  lemma {:induction false} PreviewForetellsTheGate(t: Trackers, r: Request, k: Tick, policies: seq<CrdPolicy>)
    requires Plain(r, k) && r.ns != "" && (r.crd.Some? ==> r.crd.value in policies)
    ensures Ends(t, r, AtScope, k, 8) == Done(Applied)
            <==> AllPass(Lines(t, Preview(r.pol, r.ns), k.quiet, policies, k))
                 && PolicyLets(t, r, k.now) && BreakerLets(t, r, k.now)
  {
    LinesPass(t, Preview(r.pol, r.ns), k.quiet, policies, k);
    EndsStep(t, r, AtScope, k, 7);
    match RouteOf(r.pol, r.ns) {
      case Ignore => EndsDone(t, r, Skipped, k, 7);
      case Describe => EndsDone(t, r, Suggested, k, 7);
      case Simulate => NeverApplied(t, r, SimQuiet, k, 7);
      case Act => AppliedIff(t, r, k);
    }
  }

  /** The change is refused because its policy wants a person to approve it. */
  predicate WantsApproval(t: Trackers, r: Request, now: int)
    requires r.Change?
  {
    PolicyRefusal(t.budget, r.crd, r.actionType, now).1 == Some(NeedsApproval)
  }

  /** The last line never passes where the change wants approval; and it tells whether
      this change does exactly when it does not fail for the sake of another policy. */
  lemma {:induction false} PolicyLineIsExactIff(t: Trackers, r: Request, now: int, policies: seq<CrdPolicy>)
    requires r.Change? && (r.crd.Some? ==> r.crd.value in policies)
    ensures PolicyLine(policies).pass ==> !WantsApproval(t, r, now)
    ensures (PolicyLine(policies).pass <==> !WantsApproval(t, r, now))
            <==> PolicyLine(policies).pass || (r.crd.Some? && r.crd.value.requireApproval)
  {
  }

  /** Over all the changes that one of the policies, or none, may select: the last line
      is right of every one of them if and only if no policy wants approval. */
  lemma {:induction false} PolicyLineRightOfAllIff(t: Trackers, r: Request, now: int, policies: seq<CrdPolicy>)
    requires r.Change?
    ensures (forall crd: Option<CrdPolicy> :: (crd.Some? ==> crd.value in policies) ==>
               (PolicyLine(policies).pass <==> !WantsApproval(t, r.(crd := crd), now)))
            <==> forall p :: p in policies ==> !p.requireApproval
  {
    if NeedsApprovals(policies) {
      assert !WantsApproval(t, r.(crd := None), now);
    }
  }

  // ---- What single lines say ----

  lemma {:induction false} NameUnder(keys: set<string>, ns: string, workload: string)
    ensures workload in NamesUnder(keys, ns) <==> CircuitBreakers.Key(ns, workload) in keys
  {
    var key := CircuitBreakers.Key(ns, workload);
    assert ns + "/" <= key && key[|ns| + 1..] == workload;
    if workload in NamesUnder(keys, ns) {
      var k :| k in keys && ns + "/" <= k && k[|ns| + 1..] == workload;
      assert k == ns + "/" + k[|ns| + 1..];
    }
  }

  /** The breaker's line names a workload of the namespace exactly when it is tripped. */
  lemma {:induction false} BreakerLineTells(t: Trackers, ns: string, now: int, workload: string)
    requires t.breaker.Some?
    ensures var line := BreakerChecks(t.breaker, ns, now);
            && |line| == 1 && line[0].BreakerCheck?
            && (workload in line[0].tripped
                <==> CircuitBreakers.Blocking(t.breaker.value, CircuitBreakers.Key(ns, workload), now))
  {
    var b := t.breaker.value;
    var keys := set key | key in b.tripped && CircuitBreakers.Blocking(b, key, now);
    NameUnder(keys, ns, workload);
  }

  /** A limiter after it was asked k times at one moment. */
  function Asked(l: ActionLimiters.Limiter, now: int, k: nat): ActionLimiters.Limiter {
    if k == 0 then l else ActionLimiters.AfterAllow(Asked(l, now, k - 1), now, now).0
  }

  lemma {:induction false} DroppedOnce(events: seq<int>, cutoff: int, now: int)
    requires cutoff <= now
    ensures var kept := ActionLimiters.Dropped(events, cutoff);
            && ActionLimiters.Dropped(kept, cutoff) == kept
            && ActionLimiters.Dropped(kept + [now], cutoff) == kept + [now]
  {
    if events != [] && events[0] < cutoff {
      DroppedOnce(events[1..], cutoff, now);
    }
  }

  lemma {:induction false} AskedHolds(l: ActionLimiters.Limiter, now: int, k: nat)
    requires l.window >= 0
    ensures var p, a := ActionLimiters.Pruned(l, now), ActionLimiters.Pruned(Asked(l, now, k), now);
            && a.max == l.max && a.window == l.window && ActionLimiters.Pruned(a, now) == a
            && |a.events| == if |p.events| + k <= l.max then |p.events| + k
                             else if |p.events| <= l.max then l.max else |p.events|
  {
    if k == 0 {
      DroppedOnce(l.events, now - l.window, now);
    } else {
      AskedHolds(l, now, k - 1);
      var before := Asked(l, now, k - 1);
      DroppedOnce(before.events, now - l.window, now);
    }
  }

  /** The limiter's line counts what is left: so many more requests at that moment would
      be granted, and not one more. */
  lemma {:induction false} RateLineTells(l: ActionLimiters.Limiter, now: int, k: nat)
    requires l.window >= 0
    ensures var line := RateChecks(Some(l), now);
            && |line| == 1 && line[0].RateCheck? && line[0].left.Some?
            && (ActionLimiters.AfterAllow(Asked(l, now, k), now, now).1 <==> k < line[0].left.value)
  {
    AskedHolds(l, now, k);
  }

  predicate Simulating(pc: Pc) {
    pc.SimQuiet? || pc.SimBlast? || pc.SimPolicy? || pc.SimBreaker? || (pc.Done? && pc.outcome.Simulated?)
  }

  lemma {:induction false} NeverApplied(t: Trackers, r: Request, pc: Pc, k: Tick, n: nat)
    requires r.Change? && Simulating(pc)
    ensures Simulating(Ends(t, r, pc, k, n))
    decreases n
  {
    if n > 0 && !pc.Done? {
      EndsStep(t, r, pc, k, n - 1);
      NeverApplied(Step(t, r, pc, k).0, r, Step(t, r, pc, k).1, k, n - 1);
    }
  }

  // ---- What a dry run says ----

  /** The workload tripped the breaker less than a window ago. */
  predicate Tripped(t: Trackers, r: Request, now: int)
    requires r.Change?
  {
    t.breaker.Some? && CircuitBreakers.Blocking(t.breaker.value, CircuitBreakers.Key(r.ns, r.workload), now)
  }

  /** It did not, but has by now acted so often that one more attempt trips it. */
  predicate TripsNow(t: Trackers, r: Request, now: int)
    requires r.Change?
  {
    && t.breaker.Some? && !Tripped(t, r, now)
    && var b, key := t.breaker.value, CircuitBreakers.Key(r.ns, r.workload);
       var since := if key in b.tripped then [] else CircuitBreakers.ActionsOf(b, key);
       |After(since, now - b.window)| + 1 >= b.threshold
  }

  lemma {:induction false} BreakerLetsIff(t: Trackers, r: Request, now: int)
    requires r.Change?
    ensures BreakerLets(t, r, now) <==> !Tripped(t, r, now) && !TripsNow(t, r, now)
  {
  }

  lemma {:induction false} SimFromPolicy(t: Trackers, r: Request, k: Tick)
    requires r.Change?
    ensures Ends(t, r, SimPolicy, k, 2)
            == Done(Simulated(if !PolicyLets(t, r, k.now) then PolicyRefusal(t.budget, r.crd, r.actionType, k.now).1
                              else if Tripped(t, r, k.now) then Some(BreakerTripped) else None))
  {
    EndsStep(t, r, SimPolicy, k, 1);
    var (t', pc') := Step(t, r, SimPolicy, k);
    if pc'.SimBreaker? {
      EndsStep(t', r, SimBreaker, k, 0);
    } else {
      EndsDone(t', r, pc'.outcome, k, 1);
    }
  }

  lemma {:induction false} SimFromQuiet(t: Trackers, r: Request, k: Tick)
    requires r.Change?
    ensures Ends(t, r, SimQuiet, k, 4)
            == if k.quiet then Done(Simulated(Some(QuietHours)))
               else if !BlastLets(t, r, k.now) then Done(Simulated(Some(BlastRadius)))
               else Ends(t, r, SimPolicy, k, 2)
  {
    EndsStep(t, r, SimQuiet, k, 3);
    if k.quiet {
      EndsDone(t, r, Simulated(Some(QuietHours)), k, 3);
    } else {
      EndsStep(t, r, SimBlast, k, 2);
      var (t', pc') := Step(t, r, SimBlast, k);
      if pc'.Done? { EndsDone(t', r, pc'.outcome, k, 2); }
    }
  }

  /** A dry run foretells the gate. Of a fix asked for at that moment and accepted by the
      API server, the gate is stopped by the guard that the dry run names. When it names
      none the gate applies the fix, unless this very attempt trips the breaker, or the
      limiter, of which a dry run does not ask, is used up. */
  lemma {:induction false} DryRunForetellsTheGate(t: Trackers, r: Request, k: Tick)
    requires Plain(r, k)
    ensures var said := Ends(t, r, SimQuiet, k, 4);
            && said.Done? && said.outcome.Simulated?
            && Ends(t, r, AtQuiet, k, 7)
               == match said.outcome.would
                  case Some(guard) => Done(Blocked(guard))
                  case None =>
                    if TripsNow(t, r, k.now) then Done(Blocked(BreakerTripped))
                    else if !LimiterLets(t, k.now) then Done(Blocked(RateLimited))
                    else Done(Applied)
    ensures Ends(t, r, SimQuiet, k, 4) == Done(Simulated(None)) ==> !Tripped(t, r, k.now)
  {
    SimFromQuiet(t, r, k);
    SimFromPolicy(t, r, k);
    FromQuiet(t, r, k);
    FromPolicy(t, r, k);
    FromBreaker(t, r, k);
    FromLimiter(t, r, k);
    BreakerLetsIff(t, r, k.now);
  }

  /** Housekeeping is held neither to the blast radius nor to the breaker, though its dry
      run asks both. So what its dry run says is right of every other guard, and where it
      names one of those two the gate goes on as if it had not. */
  lemma {:induction false} DryRunOfHousekeeping(t: Trackers, r: Request, k: Tick)
    requires Steady(r, k) && r.housekeeping
    ensures var said, got := Ends(t, r, SimQuiet, k, 4), Ends(t, r, AtQuiet, k, 7);
            && said.Done? && said.outcome.Simulated?
            && match said.outcome.would
               case Some(BlastRadius) => got == Ends(t.(blast := None), r, AtQuiet, k, 7)
                 && (got == Done(Applied) <==> PolicyLets(t, r, k.now) && OwnLimiterLets(t, r, k.now))
               case Some(BreakerTripped) =>
                 got == if OwnLimiterLets(t, r, k.now) then Done(Applied) else Done(Blocked(RateLimited))
               case Some(guard) => got == Done(Blocked(guard))
               case None => got == if OwnLimiterLets(t, r, k.now) then Done(Applied) else Done(Blocked(RateLimited))
  {
    SimFromQuiet(t, r, k);
    SimFromPolicy(t, r, k);
    FromQuiet(t, r, k);
    FromPolicy(t, r, k);
    FromBreaker(t, r, k);
    FromLimiter(t, r, k);
    FromQuiet(t.(blast := None), r, k);
    SameBeyond(t, t.(blast := None), r, k);
    FromPolicy(t.(blast := None), r, k);
  }
}
