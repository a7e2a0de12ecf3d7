/** internal/kube/approval_fixes.go: the changes that wait for a person, as data,
    and the change each one is turned back into when it is applied. */
module ApprovalFixes {
  import opened Prelude
  import opened Text
  import opened PolicyScope

  /** What the queue stores of a change: enough to build it again. */
  datatype FixSpec = FixSpec(
    action: string, namespace: string, name: string, kind: string, target: string,
    from: int32, to: int32, size: string, pods: seq<string>, container: string, cpu: string, job: string)

  const NO_FIX := FixSpec("", "", "", "", "", 0, 0, "", [], "", "", "")

  /** What Apply sends to the API server. */
  datatype Effect =
    | SetMaxReplicas(namespace: string, autoscaler: string, to: int32)
    | ResumeDeployment(namespace: string, name: string)
    | ExpandClaim(namespace: string, claim: string, size: string)
    | DeletePods(namespace: string, pods: seq<string>)
    | CreateJob(namespace: string, cronJob: string, job: string)
    | SetCPULimit(namespace: string, kind: string, name: string, container: string, cpu: string)

  /** The fields of a mutation the queue reads; effect is None where there is no Apply. */
  datatype Mutation = Mutation(
    namespace: string, workload: string, reason: string, actionType: string, suggestMsg: string,
    effect: Option<Effect>, approvedBy: string, fix: Option<FixSpec>)

  const RAISE_HPA := "raise_hpa_max"
  const RESUME := "resume_deployment"
  const EXPAND := "expand_pvc"
  const DELETE_STUCK := "delete_stuck_pods"
  const RUN_NOW := "run_cronjob_now"
  const RAISE_CPU := "raise_cpu_limit"

  predicate KnownKind(kind: string) {
    kind == "Deployment" || kind == "StatefulSet" || kind == "DaemonSet"
  }

  /** The lower-case kind; no other kind is ever built. */
  function KindWord(kind: string): string {
    if kind == "Deployment" then "deployment" else if kind == "StatefulSet" then "statefulset" else "daemonset"
  }

  function Workload(s: FixSpec): string {
    if s.action == RAISE_HPA then s.target
    else if s.action == RESUME then "deployment/" + s.name
    else if s.action == EXPAND then "pvc/" + s.name
    else if s.action == DELETE_STUCK then "daemonset/" + s.name
    else if s.action == RUN_NOW then "cronjob/" + s.name
    else KindWord(s.kind) + "/" + s.name
  }

  function Reason(action: string): string {
    if action == RAISE_HPA then "HPAMaxedOut"
    else if action == RESUME then "DeploymentPaused"
    else if action == EXPAND then "VolumeAlmostFull"
    else if action == DELETE_STUCK then "DaemonSetMissing"
    else if action == RUN_NOW then "CronJobMissed"
    else "CPUThrottled"
  }

  function Suggestion(s: FixSpec): string {
    if s.action == RAISE_HPA then
      "raise maxReplicas of autoscaler " + (s.name + [' ']
        + ("from " + (Decimal(s.from as int) + [' '] + ("to " + Decimal(s.to as int)))))
    else if s.action == RESUME then "resume deployment " + s.name
    else if s.action == EXPAND then "expand claim " + (s.name + [' '] + ("to " + s.size))
    else if s.action == DELETE_STUCK then
      "delete stuck pods " + (Join(s.pods, ", ") + " so the DaemonSet recreates them")
    else if s.action == RUN_NOW then "start job " + s.job + " from cronjob " + s.name + " now"
    else
      "raise the CPU limit of container " + (s.container + [' ']
        + ("in " + (Workload(s) + (" to " + (s.cpu + " (rolls the pods)")))))
  }

  function EffectOf(s: FixSpec): Effect {
    if s.action == RAISE_HPA then SetMaxReplicas(s.namespace, s.name, s.to)
    else if s.action == RESUME then ResumeDeployment(s.namespace, s.name)
    else if s.action == EXPAND then ExpandClaim(s.namespace, s.name, s.size)
    else if s.action == DELETE_STUCK then DeletePods(s.namespace, s.pods)
    else if s.action == RUN_NOW then CreateJob(s.namespace, s.name, s.job)
    else SetCPULimit(s.namespace, s.kind, s.name, s.container, s.cpu)
  }

  predicate Known(s: FixSpec) {
    || s.action == RAISE_HPA || s.action == RESUME || s.action == EXPAND || s.action == DELETE_STUCK
    || s.action == RUN_NOW
    || (s.action == RAISE_CPU && KnownKind(s.kind))
  }

  /** The change a spec stands for; None where the action or the kind is unknown. */
  function BuildFix(s: FixSpec): Option<Mutation> {
    if !Known(s) then None
    else Some(Mutation(s.namespace, Workload(s), Reason(s.action), s.action, Suggestion(s), Some(EffectOf(s)), "",
      Some(s)))
  }

  /** sameChange: what the queue compares before it takes a proposal in. Of a run-now
      the text is left out, because it names the Job and with it the moment of asking. */
  predicate SameChange(a: Mutation, b: Mutation) {
    && a.actionType == b.actionType && a.namespace == b.namespace && a.workload == b.workload
    && (a.actionType == RUN_NOW || a.suggestMsg == b.suggestMsg)
  }

  // ---- Two proposals are taken for one exactly when they are one ----

  /** What a spec's action reads of it, everything else cleared. */
  function Essence(s: FixSpec): FixSpec {
    var base := NO_FIX.(action := s.action, namespace := s.namespace, name := s.name);
    if s.action == RAISE_HPA then base.(target := s.target, from := s.from, to := s.to)
    else if s.action == EXPAND then base.(size := s.size)
    else if s.action == DELETE_STUCK then base.(pods := s.pods)
    else if s.action == RAISE_CPU then base.(kind := s.kind, container := s.container, cpu := s.cpu)
    else base
  }

  /** Kubernetes names hold no spaces, commas or slashes and are never empty. */
  predicate Plain(s: string) {
    s != "" && ' ' !in s && ',' !in s && '/' !in s
  }

  predicate WellNamed(s: FixSpec) {
    && Plain(s.name) && (s.action == RAISE_CPU ==> Plain(s.container))
    && forall p :: p in s.pods ==> Plain(p)
  }

  /** The queue's test for a duplicate, which compares printed text, is exact:
      two well-named specs are the same change if and only if they agree on
      everything their action reads, the Job name of a run-now apart. */
  lemma {:induction false} DuplicateIsExact(s: FixSpec, t: FixSpec)
    requires Known(s) && Known(t) && WellNamed(s) && WellNamed(t)
    ensures SameChange(BuildFix(s).value, BuildFix(t).value) <==> Essence(s) == Essence(t)
  {
    if Essence(s) == Essence(t) {
      EssenceDecides(s, t);
    }
    if SameChange(BuildFix(s).value, BuildFix(t).value) {
      if s.action == RAISE_HPA {
        HpaExact(s, t);
      } else if s.action == RESUME {
        CancelPrefix("deployment/", s.name, t.name);
      } else if s.action == EXPAND {
        CancelPrefix("pvc/", s.name, t.name);
        CancelPrefix("expand claim ", s.name + [' '] + ("to " + s.size), t.name + [' '] + ("to " + t.size));
        CutUnique(s.name, "to " + s.size, t.name, "to " + t.size, ' ');
        CancelPrefix("to ", s.size, t.size);
      } else if s.action == DELETE_STUCK {
        CancelPrefix("daemonset/", s.name, t.name);
        PodsExact(s, t);
      } else if s.action == RUN_NOW {
        CancelPrefix("cronjob/", s.name, t.name);
      } else {
        CpuExact(s, t);
      }
    }
  }

  /** So what a deduplicated approval applies is what the second proposal asked
      for, run-now's Job name apart. */
  lemma {:induction false} DuplicateSameEffect(s: FixSpec, t: FixSpec)
    requires Known(s) && Known(t) && WellNamed(s) && WellNamed(t) && s.action != RUN_NOW
    requires SameChange(BuildFix(s).value, BuildFix(t).value)
    ensures BuildFix(s).value.effect == BuildFix(t).value.effect
  {
    DuplicateIsExact(s, t);
    EssenceDecides(s, t);
  }

  lemma {:induction false} EssenceDecides(s: FixSpec, t: FixSpec)
    requires Known(s) && Known(t) && Essence(s) == Essence(t)
    ensures SameChange(BuildFix(s).value, BuildFix(t).value)
    ensures s.action != RUN_NOW ==> EffectOf(s) == EffectOf(t)
  {
  }

  lemma {:induction false} HpaExact(s: FixSpec, t: FixSpec)
    requires s.action == RAISE_HPA == t.action && Plain(s.name) && Plain(t.name)
    requires Suggestion(s) == Suggestion(t)
    ensures s.name == t.name && s.from == t.from && s.to == t.to
  {
    var rest1, rest2 := "to " + Decimal(s.to as int), "to " + Decimal(t.to as int);
    var mid1, mid2 := Decimal(s.from as int) + [' '] + rest1, Decimal(t.from as int) + [' '] + rest2;
    CancelPrefix("raise maxReplicas of autoscaler ", s.name + [' '] + ("from " + mid1),
      t.name + [' '] + ("from " + mid2));
    CutUnique(s.name, "from " + mid1, t.name, "from " + mid2, ' ');
    CancelPrefix("from ", mid1, mid2);
    DecimalPlain(s.from as int);
    DecimalPlain(t.from as int);
    CutUnique(Decimal(s.from as int), rest1, Decimal(t.from as int), rest2, ' ');
    CancelPrefix("to ", Decimal(s.to as int), Decimal(t.to as int));
    DecimalInjective(s.from as int, t.from as int);
    DecimalInjective(s.to as int, t.to as int);
  }

  lemma {:induction false} PodsExact(s: FixSpec, t: FixSpec)
    requires s.action == DELETE_STUCK == t.action && WellNamed(s) && WellNamed(t)
    requires Suggestion(s) == Suggestion(t)
    ensures s.pods == t.pods
  {
    var tail := " so the DaemonSet recreates them";
    CancelPrefix("delete stuck pods ", Join(s.pods, ", ") + tail, Join(t.pods, ", ") + tail);
    CancelSuffix(Join(s.pods, ", "), Join(t.pods, ", "), tail);
    JoinExact(s.pods, t.pods);
  }

  /** Joined lists of names are told apart. */
  lemma {:induction false} JoinExact(a: seq<string>, b: seq<string>)
    requires (forall p :: p in a ==> Plain(p)) && (forall p :: p in b ==> Plain(p))
    requires Join(a, ", ") == Join(b, ", ")
    ensures a == b
  {
    JoinShape(a);
    JoinShape(b);
    if |a| >= 1 && |b| >= 1 {
      assert Plain(a[0]) && Plain(b[0]);
      assert a == [a[0]] + a[1..] && b == [b[0]] + b[1..];
      if |a| > 1 {
        CutUnique(a[0], [' '] + Join(a[1..], ", "), b[0], [' '] + Join(b[1..], ", "), ',');
        CancelPrefix([' '], Join(a[1..], ", "), Join(b[1..], ", "));
        JoinExact(a[1..], b[1..]);
      }
    }
  }

  lemma {:induction false} JoinShape(a: seq<string>)
    requires forall p :: p in a ==> Plain(p)
    ensures Join(a, ", ") == "" <==> a == []
    ensures ',' in Join(a, ", ") <==> |a| > 1
    ensures |a| > 1 ==> Join(a, ", ") == a[0] + [','] + ([' '] + Join(a[1..], ", "))
  {
    if |a| == 1 { assert Plain(a[0]); }
    if |a| > 1 {
      assert Join(a, ", ") == a[0] + [','] + ([' '] + Join(a[1..], ", "));
      assert Join(a, ", ")[|a[0]|] == ',';
    }
  }

  lemma {:induction false} CpuExact(s: FixSpec, t: FixSpec)
    requires s.action == RAISE_CPU == t.action && Known(s) && Known(t) && WellNamed(s) && WellNamed(t)
    requires Workload(s) == Workload(t) && Suggestion(s) == Suggestion(t)
    ensures s.kind == t.kind && s.name == t.name && s.container == t.container && s.cpu == t.cpu
  {
    assert Workload(s) == KindWord(s.kind) + ['/'] + s.name && Workload(t) == KindWord(t.kind) + ['/'] + t.name;
    CutUnique(KindWord(s.kind), s.name, KindWord(t.kind), t.name, '/');
    var tail := " (rolls the pods)";
    var end1, end2 := Workload(s) + (" to " + (s.cpu + tail)), Workload(t) + (" to " + (t.cpu + tail));
    CancelPrefix("raise the CPU limit of container ", s.container + [' '] + ("in " + end1),
      t.container + [' '] + ("in " + end2));
    CutUnique(s.container, "in " + end1, t.container, "in " + end2, ' ');
    CancelPrefix("in ", end1, end2);
    CancelPrefix(Workload(s), " to " + (s.cpu + tail), " to " + (t.cpu + tail));
    CancelPrefix(" to ", s.cpu + tail, t.cpu + tail);
    CancelSuffix(s.cpu, t.cpu, tail);
  }
}
