/** internal/kube/approval_fixes.go: what an approved change does to the cluster it
    is sent to. Each kind of change is a patch, a delete or a create; here it meets
    the objects it is about, and the fields it leaves alone. */
module ApprovalEffects {
  import opened Prelude
  import opened Text
  import opened PolicyScope
  import opened ApprovalFixes

  /** A namespace and a name. */
  type Key = (string, string)

  /** What a Job runs, and the CronJob that owns it. */
  datatype Job = Job(template: string, owner: string)

  /** The objects approved changes are about: how far each autoscaler may go, which
      Deployments are paused, what each claim asks for, the pods, the CronJobs with
      their Job templates, the Jobs, and the CPU limits in the pod template of each
      workload, container by container. */
  datatype Cluster = Cluster(
    maxima: map<Key, int32>,
    paused: map<Key, bool>,
    claims: map<Key, string>,
    pods: set<Key>,
    cronJobs: map<Key, string>,
    jobs: map<Key, Job>,
    limits: map<(string, Key), map<string, string>>)

  // ---- Performing a change ----

  /** Pods are deleted one after another; the first that is not there ends it. */
  function DeleteEach(w: Cluster, ns: string, pods: seq<string>): (Cluster, bool)
    decreases |pods|
  {
    if pods == [] then (w, true)
    else if (ns, pods[0]) !in w.pods then (w, false)
    else DeleteEach(w.(pods := w.pods - {(ns, pods[0])}), ns, pods[1..])
  }

  /** The Apply of a change: the cluster afterwards, and whether it was accepted. What
      is not there cannot be patched, and a Job of that name is made only once. */
  function Perform(e: Effect, w: Cluster): (Cluster, bool) {
    match e
    case SetMaxReplicas(ns, name, to) =>
      if (ns, name) !in w.maxima then (w, false) else (w.(maxima := w.maxima[(ns, name) := to]), true)
    case ResumeDeployment(ns, name) =>
      if (ns, name) !in w.paused then (w, false) else (w.(paused := w.paused[(ns, name) := false]), true)
    case ExpandClaim(ns, name, size) =>
      if (ns, name) !in w.claims then (w, false) else (w.(claims := w.claims[(ns, name) := size]), true)
    case DeletePods(ns, pods) => DeleteEach(w, ns, pods)
    case CreateJob(ns, name, job) =>
      if (ns, name) !in w.cronJobs || (ns, job) in w.jobs then (w, false)
      else (w.(jobs := w.jobs[(ns, job) := Job(w.cronJobs[(ns, name)], name)]), true)
    case SetCPULimit(ns, kind, name, container, cpu) =>
      var key := (kind, (ns, name));
      if key !in w.limits || container !in w.limits[key] then (w, false)
      else (w.(limits := w.limits[key := w.limits[key][container := cpu]]), true)
  }

  /** The API server, as far as approved changes reach it. */
  class ApiServer {
    var world: Cluster

    constructor (world: Cluster)
      ensures this.world == world
    {
      this.world := world;
    }

    method DeletePod(ns: string, pod: string) returns (ok: bool)
      modifies this
      ensures ok <==> (ns, pod) in old(world).pods
      ensures world == if ok then old(world).(pods := old(world).pods - {(ns, pod)}) else old(world)
    {
      ok := (ns, pod) in world.pods;
      if ok {
        world := world.(pods := world.pods - {(ns, pod)});
      }
    }

    /** The pods of a change deleted in turn, up to the first that fails. */
    method DeletePods(ns: string, pods: seq<string>) returns (ok: bool)
      modifies this
      ensures (world, ok) == DeleteEach(old(world), ns, pods)
    {
      for i := 0 to |pods|
        invariant DeleteEach(old(world), ns, pods) == DeleteEach(world, ns, pods[i..])
      {
        assert pods[i..][1..] == pods[i + 1..];
        ok := DeletePod(ns, pods[i]);
        if !ok { return; }
      }
      ok := true;
    }

    /** The Apply of a change. One without an effect does nothing. */
    method Apply(m: Mutation) returns (ok: bool)
      modifies this
      ensures (world, ok) == if m.effect.Some? then Perform(m.effect.value, old(world)) else (old(world), false)
    {
      if m.effect.None? { return false; }
      if m.effect.value.DeletePods? {
        ok := DeletePods(m.effect.value.namespace, m.effect.value.pods);
        return;
      }
      var (after, accepted) := Perform(m.effect.value, world);
      world, ok := after, accepted;
    }
  }

  // ---- What a spec asks for ----

  /** One thing that can be read off a cluster, and what is read there. */
  datatype Field =
    | MaxReplicas(ns: string, name: string)
    | Paused(ns: string, name: string)
    | Size(ns: string, name: string)
    | Pod(ns: string, name: string)
    | Template(ns: string, name: string)
    | JobAt(ns: string, name: string)
    | CPULimit(kind: string, ns: string, name: string, container: string)

  datatype Reading = Nothing | Here | Number(n: int32) | Flag(b: bool) | Text(s: string) | JobOf(job: Job)

  function At(w: Cluster, f: Field): Reading {
    match f
    case MaxReplicas(ns, name) => if (ns, name) in w.maxima then Number(w.maxima[(ns, name)]) else Nothing
    case Paused(ns, name) => if (ns, name) in w.paused then Flag(w.paused[(ns, name)]) else Nothing
    case Size(ns, name) => if (ns, name) in w.claims then Text(w.claims[(ns, name)]) else Nothing
    case Pod(ns, name) => if (ns, name) in w.pods then Here else Nothing
    case Template(ns, name) => if (ns, name) in w.cronJobs then Text(w.cronJobs[(ns, name)]) else Nothing
    case JobAt(ns, name) => if (ns, name) in w.jobs then JobOf(w.jobs[(ns, name)]) else Nothing
    case CPULimit(kind, ns, name, container) =>
      var key := (kind, (ns, name));
      if key in w.limits && container in w.limits[key] then Text(w.limits[key][container]) else Nothing
  }

  /** What each known action is for: the fields it may move, and where to. A Job runs
      the template its CronJob has when the change is made. */
  function Asked(s: FixSpec, w: Cluster): map<Field, Reading>
    requires Known(s)
  {
    if s.action == RAISE_HPA then map[MaxReplicas(s.namespace, s.name) := Number(s.to)]
    else if s.action == RESUME then map[Paused(s.namespace, s.name) := Flag(false)]
    else if s.action == EXPAND then map[Size(s.namespace, s.name) := Text(s.size)]
    else if s.action == DELETE_STUCK then map p | p in s.pods :: Pod(s.namespace, p) := Nothing
    else if s.action == RUN_NOW then
      var template := At(w, Template(s.namespace, s.name));
      map[JobAt(s.namespace, s.job) := if template.Text? then JobOf(Job(template.s, s.name)) else Nothing]
    else map[CPULimit(s.kind, s.namespace, s.name, s.container) := Text(s.cpu)]
  }

  /** What it needs: a CronJob to run and no Job of that name yet, or else every field
      it may move, no pod twice. */
  predicate Possible(s: FixSpec, w: Cluster)
    requires Known(s)
  {
    if s.action == RUN_NOW then At(w, Template(s.namespace, s.name)).Text? && At(w, JobAt(s.namespace, s.job)).Nothing?
    else (forall f :: f in Asked(s, w) ==> At(w, f) != Nothing) && (s.action == DELETE_STUCK ==> Distinct(s.pods))
  }

  /** It is accepted exactly where it is possible. Then every field it is about reads
      what was asked and no other field has moved. A refused one moved nothing else
      either, and nothing at all unless it deletes pods, some of which may be gone. */
  ghost predicate DoneAsAsked(s: FixSpec, w: Cluster, w': Cluster, ok: bool)
    requires Known(s)
  {
    && (ok <==> Possible(s, w))
    && (ok ==> forall f :: At(w', f) == if f in Asked(s, w) then Asked(s, w)[f] else At(w, f))
    && (!ok ==> forall f :: At(w', f) == At(w, f) || (f in Asked(s, w) && At(w', f) == Asked(s, w)[f]))
    && (!ok && s.action != DELETE_STUCK ==> w' == w)
  }

  /** The change does to every cluster what the spec asks. */
  ghost predicate DoesAsAsked(m: Mutation, s: FixSpec)
    requires Known(s)
  {
    m.effect.Some? && forall w :: DoneAsAsked(s, w, Perform(m.effect.value, w).0, Perform(m.effect.value, w).1)
  }

  lemma {:induction false} DeletesAll(w: Cluster, ns: string, pods: seq<string>)
    ensures var (w', ok) := DeleteEach(w, ns, pods);
            && w' == w.(pods := w'.pods) && w'.pods <= w.pods
            && (forall key :: key in w.pods && key !in w'.pods ==> key.0 == ns && key.1 in pods)
            && (ok ==> forall p :: p in pods ==> (ns, p) !in w'.pods)
            && (ok <==> Distinct(pods) && forall p :: p in pods ==> (ns, p) in w.pods)
    decreases |pods|
  {
    if pods != [] {
      assert pods == [pods[0]] + pods[1..];
      assert Distinct(pods) <==> Distinct(pods[1..]) && pods[0] !in pods[1..];
      if (ns, pods[0]) in w.pods {
        DeletesAll(w.(pods := w.pods - {(ns, pods[0])}), ns, pods[1..]);
      }
    }
  }

  lemma {:induction false} PodsAsAsked(s: FixSpec, w: Cluster)
    requires s.action == DELETE_STUCK
    ensures DoneAsAsked(s, w, DeleteEach(w, s.namespace, s.pods).0, DeleteEach(w, s.namespace, s.pods).1)
  {
    var (w', ok) := DeleteEach(w, s.namespace, s.pods);
    DeletesAll(w, s.namespace, s.pods);
    var asked := Asked(s, w);
    forall p | p in s.pods ensures Pod(s.namespace, p) in asked {
    }
    forall f
      ensures At(w', f) == At(w, f) || (f in asked && At(w', f) == asked[f])
      ensures ok ==> At(w', f) == if f in asked then asked[f] else At(w, f)
    {
      if f.Pod? && (f.ns, f.name) in w.pods && (f.ns, f.name) !in w'.pods {
        assert f == Pod(s.namespace, f.name);
      }
    }
    assert Possible(s, w) <==> Distinct(s.pods) && forall p :: p in s.pods ==> (s.namespace, p) in w.pods by {
      forall p | p in s.pods ensures At(w, Pod(s.namespace, p)) != Nothing <==> (s.namespace, p) in w.pods {
      }
    }
  }

  lemma {:induction false} OneField(s: FixSpec, w: Cluster, f: Field)
    requires Known(s) && s.action != RUN_NOW && s.action != DELETE_STUCK && Asked(s, w).Keys == {f}
    ensures Possible(s, w) <==> At(w, f) != Nothing
  {
    assert f in Asked(s, w);
  }

  lemma {:induction false} MaximumAsAsked(s: FixSpec, w: Cluster)
    requires s.action == RAISE_HPA
    ensures DoneAsAsked(s, w, Perform(EffectOf(s), w).0, Perform(EffectOf(s), w).1)
  {
    OneField(s, w, MaxReplicas(s.namespace, s.name));
  }

  lemma {:induction false} ResumeAsAsked(s: FixSpec, w: Cluster)
    requires s.action == RESUME
    ensures DoneAsAsked(s, w, Perform(EffectOf(s), w).0, Perform(EffectOf(s), w).1)
  {
    OneField(s, w, Paused(s.namespace, s.name));
  }

  lemma {:induction false} SizeAsAsked(s: FixSpec, w: Cluster)
    requires s.action == EXPAND
    ensures DoneAsAsked(s, w, Perform(EffectOf(s), w).0, Perform(EffectOf(s), w).1)
  {
    OneField(s, w, Size(s.namespace, s.name));
  }

  lemma {:induction false} JobAsAsked(s: FixSpec, w: Cluster)
    requires s.action == RUN_NOW
    ensures DoneAsAsked(s, w, Perform(EffectOf(s), w).0, Perform(EffectOf(s), w).1)
  {
  }

  lemma {:induction false} LimitAsAsked(s: FixSpec, w: Cluster)
    requires Known(s) && s.action == RAISE_CPU
    ensures DoneAsAsked(s, w, Perform(EffectOf(s), w).0, Perform(EffectOf(s), w).1)
  {
    OneField(s, w, CPULimit(s.kind, s.namespace, s.name, s.container));
  }

  /** Every known change does what its spec says, to what its spec names, and nothing
      else: it is the built change that is performed, on any cluster. */
  lemma {:induction false} BuiltDoesAsAsked(s: FixSpec)
    requires Known(s)
    ensures BuildFix(s).Some? && DoesAsAsked(BuildFix(s).value, s)
  {
    forall w ensures DoneAsAsked(s, w, Perform(EffectOf(s), w).0, Perform(EffectOf(s), w).1) {
      if s.action == DELETE_STUCK {
        PodsAsAsked(s, w);
      } else if s.action == RUN_NOW {
        JobAsAsked(s, w);
      } else if s.action == RAISE_CPU {
        LimitAsAsked(s, w);
      } else if s.action == RAISE_HPA {
        MaximumAsAsked(s, w);
      } else if s.action == RESUME {
        ResumeAsAsked(s, w);
      } else {
        SizeAsAsked(s, w);
      }
    }
  }
}
