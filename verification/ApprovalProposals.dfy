/** internal/kube/approval_fixes.go: the specs that findings propose. Each is one the
    store can build again, so nothing that was proposed is lost in the queue. */
module ApprovalProposals {
  import opened Prelude
  import opened Text
  import opened PolicyScope
  import opened ApprovalFixes
  import opened ApprovalEffects

  /** An owner reference of a pod; controller says that it is the managing one. */
  datatype Owner = Owner(kind: string, name: string, controller: bool)

  const HASH_LABEL := "pod-template-hash"

  predicate EndsWith(s: string, suffix: string) {
    |suffix| <= |s| && s[|s| - |suffix|..] == suffix
  }

  /** The workload an owner stands for: itself, or of a ReplicaSet the Deployment its
      name begins with. */
  function WorkloadOf(o: Owner, hash: string): Option<(string, string)> {
    if !o.controller then None
    else if o.kind == "StatefulSet" || o.kind == "DaemonSet" then Some((o.kind, o.name))
    else if o.kind == "ReplicaSet" && hash != "" && EndsWith(o.name, "-" + hash)
    then Some(("Deployment", o.name[..|o.name| - |hash| - 1]))
    else None
  }

  /** templateOwner: the first owner that stands for a workload decides. */
  function TemplateOwner(owners: seq<Owner>, hash: string): Option<(string, string)> {
    if owners == [] then None
    else if WorkloadOf(owners[0], hash).Some? then WorkloadOf(owners[0], hash)
    else TemplateOwner(owners[1..], hash)
  }

  // ---- The name of a Job ----

  const CUT := 45

  function TrimTail(s: string): string {
    if s != "" && (s[|s| - 1] == '-' || s[|s| - 1] == '.') then TrimTail(s[..|s| - 1]) else s
  }

  /** manualJobName: a long CronJob name is cut so that ten digits still fit. */
  function ManualJobName(cron: string, unix: int): string {
    (if |cron| > CUT then TrimTail(cron[..CUT]) else cron) + "-manual-" + Decimal(unix)
  }

  function Tens(k: nat): (n: nat)
    ensures n >= 1 && (k >= 1 ==> n >= 10)
  {
    if k == 0 then 1 else 10 * Tens(k - 1)
  }

  lemma {:induction false} Digits(n: nat, k: nat)
    requires k >= 1
    ensures |DecimalNat(n)| <= k <==> n < Tens(k)
  {
    if n >= 10 && k > 1 {
      Digits(n / 10, k - 1);
    }
  }

  lemma {:induction false} TrimTailShorter(s: string)
    ensures TrimTail(s) <= s
    ensures TrimTail(s) == s <==> s == "" || (s[|s| - 1] != '-' && s[|s| - 1] != '.')
  {
    if s != "" && (s[|s| - 1] == '-' || s[|s| - 1] == '.') {
      TrimTailShorter(s[..|s| - 1]);
    }
  }

  /** The name is never longer than the 63 characters a label allows, until the clock
      has more than ten digits; then the names that were cut to the limit are. */
  lemma {:induction false} JobNameFits(cron: string, unix: nat)
    ensures unix < 1_0000_0000_00 ==> |ManualJobName(cron, unix)| <= 63
    ensures |cron| >= CUT && cron[CUT - 1] != '-' && cron[CUT - 1] != '.' ==>
              (|ManualJobName(cron, unix)| <= 63 <==> unix < 1_0000_0000_00)
  {
    Digits(unix, 10);
    assert Tens(10) == 1_0000_0000_00;
    if |cron| > CUT {
      TrimTailShorter(cron[..CUT]);
    }
  }

  // ---- The proposals ----

  function ProposeMaximum(ns: string, autoscaler: string, from: int32, target: string, to: int32): FixSpec {
    NO_FIX.(action := RAISE_HPA, namespace := ns, name := autoscaler, target := target, from := from, to := to)
  }

  function ProposeResume(ns: string, name: string): FixSpec {
    NO_FIX.(action := RESUME, namespace := ns, name := name)
  }

  function ProposeExpand(ns: string, claim: string, gi: int): FixSpec {
    NO_FIX.(action := EXPAND, namespace := ns, name := claim, size := Decimal(gi) + "Gi")
  }

  function ProposeDelete(ns: string, daemonSet: string, pods: seq<string>): FixSpec {
    NO_FIX.(action := DELETE_STUCK, namespace := ns, name := daemonSet, pods := pods)
  }

  function ProposeRunNow(ns: string, cron: string, unix: int): FixSpec {
    NO_FIX.(action := RUN_NOW, namespace := ns, name := cron, job := ManualJobName(cron, unix))
  }

  /** None where the pod has no workload whose template could be changed. */
  function ProposeLimit(ns: string, owners: seq<Owner>, hash: string, container: string, cpu: string)
    : Option<FixSpec>
  {
    match TemplateOwner(owners, hash)
    case None => None
    case Some((kind, name)) =>
      Some(NO_FIX.(action := RAISE_CPU, namespace := ns, name := name, kind := kind, container := container,
                   cpu := cpu))
  }

  lemma {:induction false} OwnersAreKnown(owners: seq<Owner>, hash: string)
    ensures TemplateOwner(owners, hash).Some? ==> KnownKind(TemplateOwner(owners, hash).value.0)
  {
    if owners != [] {
      OwnersAreKnown(owners[1..], hash);
    }
  }

  /** The store builds the proposed change again, for the reason it was proposed and for
      that workload, and applying it does what the proposal says. */
  ghost predicate Queueable(s: FixSpec, reason: string, workload: string) {
    && Known(s) && BuildFix(s).Some? && BuildFix(s).value.fix == Some(s) && BuildFix(s).value.namespace == s.namespace
    && BuildFix(s).value.reason == reason && BuildFix(s).value.workload == workload
    && BuildFix(s).value.actionType == s.action && DoesAsAsked(BuildFix(s).value, s)
  }

  /** So no proposal meets the unknown action or kind that a spec from elsewhere may
      name: what is proposed can be stored, built again and applied. */
  lemma {:induction false} ProposalsAreQueueable(
      ns: string, name: string, from: int32, to: int32, target: string, gi: int, pods: seq<string>, unix: int)
    ensures Queueable(ProposeMaximum(ns, name, from, target, to), "HPAMaxedOut", target)
    ensures Queueable(ProposeResume(ns, name), "DeploymentPaused", "deployment/" + name)
    ensures Queueable(ProposeExpand(ns, name, gi), "VolumeAlmostFull", "pvc/" + name)
    ensures Queueable(ProposeDelete(ns, name, pods), "DaemonSetMissing", "daemonset/" + name)
    ensures Queueable(ProposeRunNow(ns, name, unix), "CronJobMissed", "cronjob/" + name)
  {
    BuiltDoesAsAsked(ProposeMaximum(ns, name, from, target, to));
    BuiltDoesAsAsked(ProposeResume(ns, name));
    BuiltDoesAsAsked(ProposeExpand(ns, name, gi));
    BuiltDoesAsAsked(ProposeDelete(ns, name, pods));
    BuiltDoesAsAsked(ProposeRunNow(ns, name, unix));
  }

  lemma {:induction false} LimitsAreQueueable(
      ns: string, owners: seq<Owner>, hash: string, container: string, cpu: string)
    requires TemplateOwner(owners, hash).Some?
    ensures var (kind, name) := TemplateOwner(owners, hash).value;
            var s := ProposeLimit(ns, owners, hash, container, cpu);
            s.Some? && Queueable(s.value, "CPUThrottled", KindWord(kind) + "/" + name)
  {
    OwnersAreKnown(owners, hash);
    BuiltDoesAsAsked(ProposeLimit(ns, owners, hash, container, cpu).value);
  }

  /** The Deployment found through a ReplicaSet is the one whose name, a dash and the
      hash make the ReplicaSet's name. */
  lemma {:induction false} DeploymentOfReplicaSet(name: string, hash: string, others: seq<Owner>)
    requires hash != ""
    ensures TemplateOwner([Owner("ReplicaSet", name + "-" + hash, true)] + others, hash) == Some(("Deployment", name))
  {
    var o := Owner("ReplicaSet", name + "-" + hash, true);
    assert o.name[|name|..] == "-" + hash && o.name[..|name|] == name;
  }
}
