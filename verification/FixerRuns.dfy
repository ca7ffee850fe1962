/** Fixers run one after the other: a second run has nothing to do, unless another fixer has made work for it. */
module FixerRuns {
  import opened Strings
  import opened Clusters
  import StuckJobs
  import StalePods
  import StuckCertRequests
  import StuckReplicas

  lemma HasTarget(log: seq<Attempt>)
    requires log != []
    ensures log[0].key in Targets(log)
  {
  }

  lemma NothingLeft(log: seq<Attempt>)
    requires Targets(log) == {}
    ensures log == []
  {
    if log != [] { HasTarget(log); }
  }

  lemma HasMember(log: seq<Attempt>)
    requires log != []
    ensures exists a :: a in log
  {
    assert log[0] in log;
  }

  lemma NothingIn(log: seq<Attempt>)
    requires forall a :: a !in log
    ensures log == []
  {
    if log != [] { HasMember(log); }
  }

  lemma AllLandedMeans(log: seq<Attempt>)
    requires AllLanded(log)
    ensures Landed(log) == Targets(log)
  {
  }

  /** If every deletion of the first run is accepted, the second makes none, and both together touch no protected namespace. */
  method StuckJobsTwice(m: Cluster, extra: set<string>) returns (ghost first: seq<Attempt>, ghost second: seq<Attempt>)
    requires m.live
    modifies m
    ensures m.log == old(m.log) + first + second
    ensures forall a :: a in first + second ==> !Protected(a.key.ns, extra)
    ensures AllLanded(first) ==> second == []
  {
    hide Protected, StuckJobs.JobMayGo, Targets, Landed;
    ghost var c, before := m.objs, m.log;
    var _ := StuckJobs.Run(m, extra);
    first := m.log[|before|..];
    ghost var mid, middle := m.objs, m.log;
    var _ := StuckJobs.Run(m, extra);
    second := m.log[|middle|..];
    forall a | a in first ensures !Protected(a.key.ns, extra) { CondemnedIsUnprotected(c, extra, a.key); }
    forall a | a in second ensures !Protected(a.key.ns, extra) { CondemnedIsUnprotected(mid, extra, a.key); }
    if AllLanded(first) && PodKind !in m.dark {
      AllLandedMeans(first);
      forall job ensures !StuckJobs.CondemnedJob(mid, extra, job) {
        StuckJobs.SecondRunFindsNothing(c, extra, Landed(first), job);
      }
      assert Targets(second) == {};
      NothingLeft(second);
    }
  }

  lemma CondemnedIsUnprotected(c: View, extra: set<string>, job: ObjKey)
    requires StuckJobs.CondemnedJob(c, extra, job)
    ensures !Protected(job.ns, extra)
  {
  }

  method StalePodsTwice(m: Cluster, extra: set<string>) returns (ghost first: seq<Attempt>, ghost second: seq<Attempt>)
    requires m.live
    modifies m
    ensures m.log == old(m.log) + first + second
    ensures forall a :: a in first + second ==> !Protected(a.key.ns, extra)
    ensures AllLanded(first) ==> second == []
  {
    hide Protected, Targets, Landed, StalePods.Claimed;
    ghost var c, before := m.objs, m.log;
    var _ := StalePods.Run(m, extra);
    first := m.log[|before|..];
    ghost var mid, middle := m.objs, m.log;
    var _ := StalePods.Run(m, extra);
    second := m.log[|middle|..];
    if AllLanded(first) && PodKind !in m.dark {
      AllLandedMeans(first);
      forall pod ensures !StalePods.Stale(mid, extra, pod) { StalePods.SecondRunFindsNothing(c, extra, Landed(first), pod); }
      assert Targets(second) == {};
      NothingLeft(second);
    }
  }

  /** Nothing is attempted, in any namespace, while the controller is down; otherwise as for the others. */
  method StuckCertRequestsTwice(m: Cluster, extra: set<string>) returns (ghost first: seq<Attempt>, ghost second: seq<Attempt>)
    requires m.live
    modifies m
    ensures m.log == old(m.log) + first + second
    ensures forall a :: a in first + second ==> !Protected(a.key.ns, extra)
    ensures StuckCertRequests.ControllerDown(old(m.objs)) ==> first == [] && second == []
    ensures AllLanded(first) ==> second == []
  {
    hide Protected, Targets, Landed, StuckCertRequests.RequestFailed, StuckCertRequests.OrderFailed;
    ghost var c, before := m.objs, m.log;
    var _ := StuckCertRequests.Run(m, extra);
    first := m.log[|before|..];
    ghost var mid, middle := m.objs, m.log;
    var _ := StuckCertRequests.Run(m, extra);
    second := m.log[|middle|..];
    if AllLanded(first) && !StuckCertRequests.ControllerDown(c) && !StuckCertRequests.ControllerDown(mid) {
      AllLandedMeans(first);
      forall k: ObjKey | k.kind !in m.dark ensures !StuckCertRequests.FailedAny(mid, extra, k) {
        StuckCertRequests.SecondRunFindsNothing(c, extra, Landed(first), k);
      }
      NothingIn(second);
    }
  }

  /**
  The ReplicaSet fixer is no such fixer: on a cluster that has not moved in the
  meantime the second run goes after the same Deployments as the first, and does
  nothing exactly if none was due.
  */
  method StuckReplicasTwice(m: Cluster, extra: set<string>) returns (ghost first: seq<Attempt>, ghost second: seq<Attempt>)
    requires m.live && PodKind !in m.dark
    modifies m`accepts, m`log
    ensures m.log == old(m.log) + first + second
    ensures Targets(second) == Targets(first)
    ensures second == [] <==> forall dep :: !StuckReplicas.DueForRestart(m.objs, extra, dep)
  {
    hide StuckReplicas.DueForRestart, StuckReplicas.RestartAim, Targets, Landed, Done, OnceOnly, Successes, IsListing;
    ghost var before := m.log;
    var _ := StuckReplicas.Run(m, extra);
    first := m.log[|before|..];
    ghost var middle := m.log;
    var _ := StuckReplicas.Run(m, extra);
    second := m.log[|middle|..];
    TheSameAgain(m.objs, extra, first, second);
  }

  lemma TheSameAgain(c: View, extra: set<string>, first: seq<Attempt>, second: seq<Attempt>)
    requires forall dep :: dep in Targets(first) <==> StuckReplicas.DueForRestart(c, extra, dep)
    requires forall dep :: dep in Targets(second) <==> StuckReplicas.DueForRestart(c, extra, dep)
    ensures Targets(second) == Targets(first)
    ensures second == [] <==> forall dep :: !StuckReplicas.DueForRestart(c, extra, dep)
  {
    hide StuckReplicas.DueForRestart;
    if second != [] { HasTarget(second); }
  }

  // ---------- one fixer makes work for another ----------

  /**
  The pod fixer, the Job fixer, and the pod fixer again. Its second run goes after what was
  left of its first and, beyond that, after exactly the pods whose shield the Job fixer took away.
  */
  method StalePodsAroundStuckJobs(m: Cluster, extra: set<string>)
    returns (ghost first: seq<Attempt>, ghost jobs: seq<Attempt>, ghost second: seq<Attempt>)
    requires m.live && PodKind !in m.dark
    modifies m
    ensures m.log == old(m.log) + first + jobs + second
    ensures forall job :: job in Targets(jobs) <==> StuckJobs.CondemnedJob(old(m.objs) - Landed(first), extra, job)
    ensures forall pod :: pod in Targets(second)
              <==> (|| (StalePods.Stale(old(m.objs), extra, pod) && pod !in Landed(first))
                    || (StalePods.Shielded(old(m.objs), extra, pod) && StalePods.JobOf(old(m.objs), pod) in Landed(jobs)))
  {
    hide StalePods.Stale, StalePods.Shielded, StuckJobs.CondemnedJob, StuckJobs.JobAim, Targets, Landed, Protected;
    hide Done, OnceOnly, Successes, IsListing, StalePods.JobOf;
    ghost var c, before := m.objs, m.log;
    var _ := StalePods.Run(m, extra);
    first := m.log[|before|..];
    ghost var c1, log1 := m.objs, m.log;
    var _ := StuckJobs.Run(m, extra);
    jobs := m.log[|log1|..];
    ghost var c2, log2 := m.objs, m.log;
    var _ := StalePods.Run(m, extra);
    second := m.log[|log2|..];
    KindsGone(c, c1, extra, first, jobs);
    WhatIsLeft(c, extra, Landed(first), Landed(jobs), Targets(second));
  }

  lemma WhatIsLeft(c: View, extra: set<string>, pods: set<ObjKey>, jobs: set<ObjKey>, left: set<ObjKey>)
    requires forall k :: k in pods ==> k.kind == PodKind && StalePods.Stale(c, extra, k)
    requires forall k :: k in jobs ==> k.kind == JobKind
    requires forall pod :: pod in left <==> StalePods.Stale((c - pods) - jobs, extra, pod)
    ensures forall pod :: pod in left
              <==> (|| (StalePods.Stale(c, extra, pod) && pod !in pods)
                    || (StalePods.Shielded(c, extra, pod) && StalePods.JobOf(c, pod) in jobs))
  {
    hide StalePods.Stale, Protected, GitOpsManaged;
    forall pod ensures pod in left
              <==> (|| (StalePods.Stale(c, extra, pod) && pod !in pods)
                    || (StalePods.Shielded(c, extra, pod) && StalePods.JobOf(c, pod) in jobs))
    {
      LeftOver(c, extra, pods, jobs, pod);
    }
  }

  lemma KindsGone(c: View, c1: View, extra: set<string>, first: seq<Attempt>, jobs: seq<Attempt>)
    requires forall a :: a in first ==> StalePods.Stale(c, extra, a.key)
    requires forall a :: a in jobs ==> StuckJobs.CondemnedJob(c1, extra, a.key)
    ensures forall k :: k in Landed(first) ==> k.kind == PodKind && StalePods.Stale(c, extra, k)
    ensures forall k :: k in Landed(jobs) ==> k.kind == JobKind
  {
    forall k | k in Landed(first) ensures k.kind == PodKind && StalePods.Stale(c, extra, k) {
      var a :| a in first && a.ok && a.key == k;
    }
    forall k | k in Landed(jobs) ensures k.kind == JobKind {
      var a :| a in jobs && a.ok && a.key == k;
    }
  }

  /** What is stale once pods, all of them stale, and then Jobs have gone. */
  lemma LeftOver(c: View, extra: set<string>, pods: set<ObjKey>, jobs: set<ObjKey>, pod: ObjKey)
    requires forall k :: k in pods ==> k.kind == PodKind && StalePods.Stale(c, extra, k)
    requires forall k :: k in jobs ==> k.kind == JobKind
    ensures StalePods.Stale((c - pods) - jobs, extra, pod)
            <==> (|| (StalePods.Stale(c, extra, pod) && pod !in pods)
                  || (StalePods.Shielded(c, extra, pod) && StalePods.JobOf(c, pod) in jobs))
  {
    StalePods.JobDeletionExposes(c - pods, extra, jobs, pod);
    StalePods.PodDeletionExposesNothing(c, extra, pods, pod);
    if StalePods.Shielded(c, extra, pod) {
      ShieldedIsNotStale(c, extra, pod);
      assert pod !in pods;
    }
    hide StalePods.Stale, StalePods.Shielded;
  }

  lemma ShieldedIsNotStale(c: View, extra: set<string>, pod: ObjKey)
    requires StalePods.Shielded(c, extra, pod)
    ensures !StalePods.Stale(c, extra, pod)
  {
    hide GitOpsManaged, Protected;
  }

  function Bare(owners: seq<OwnerRef>, labels: map<string, string>, phase: string, containers: seq<ContainerState>): Obj {
    Obj(owners, map[], labels, false, phase, containers, 0, "", [], "")
  }

  const SAMPLE_POD := ObjKey(PodKind, "apps", "p")
  const SAMPLE_JOB := ObjKey(JobKind, "apps", "j")
  const SAMPLE_CRON := ObjKey(CronJobKind, "apps", "c")

  /** A failed pod with a missing key, of a Job that Argo CD tracks, of a CronJob that it does not. */
  function SampleCluster(): View {
    map[SAMPLE_POD := Bare([OwnerRef("Job", "j")], map[], "Failed", [ContainerState("", "couldn't find key")]),
        SAMPLE_JOB := Bare([OwnerRef("CronJob", "c")], map["kustomize.toolkit.fluxcd.io/name" := "x"], "", []),
        SAMPLE_CRON := Bare([], map[], "", [])]
  }

  /** So the fixers are not idempotent together: here the Job is condemned and shields its pod. */
  lemma JobDeletionMakesItsPodStale()
    ensures var c := SampleCluster();
            && StalePods.Shielded(c, {}, SAMPLE_POD) && StalePods.JobOf(c, SAMPLE_POD) == SAMPLE_JOB
            && StuckJobs.CondemnedJob(c, {}, SAMPLE_JOB)
            && !StalePods.Stale(c, {}, SAMPLE_POD) && StalePods.Stale(c - {SAMPLE_JOB}, {}, SAMPLE_POD)
  {
    var c := SampleCluster();
    assert !GitOpsManaged(c[SAMPLE_CRON]) && !GitOpsManaged(c[SAMPLE_POD]) by { Unmanaged(c[SAMPLE_CRON]); Unmanaged(c[SAMPLE_POD]); }
    assert Contains("couldn't find key", "couldn't find key");
    assert ContainerState("", "couldn't find key") in c[SAMPLE_POD].containers;
    assert StuckJobs.Blames(c, SAMPLE_POD, SAMPLE_JOB);
  }

  lemma Unmanaged(o: Obj)
    requires o.annotations == map[] && o.labels == map[]
    ensures !GitOpsManaged(o)
  {
  }

  const SAMPLE_RS := ObjKey(ReplicaSetKind, "apps", "r")
  const SAMPLE_DEPLOYMENT := ObjKey(DeploymentKind, "apps", "d")

  /** A pod that cannot start, on the first revision of a Deployment that has come to its second. */
  function StuckSample(): View {
    map[SAMPLE_POD := Bare([OwnerRef("ReplicaSet", "r")], map[], "Pending", [ContainerState("CreateContainerConfigError", "")]),
        SAMPLE_RS := Bare([OwnerRef("Deployment", "d")], map[], "", []).(annotations := map[StuckReplicas.REVISION := "1"]),
        SAMPLE_DEPLOYMENT := Bare([], map[], "", []).(annotations := map[StuckReplicas.REVISION := "2"])]
  }

  /** On this cluster the ReplicaSet fixer acts at every run. */
  lemma ADeploymentIsDue()
    ensures StuckReplicas.DueForRestart(StuckSample(), {}, SAMPLE_DEPLOYMENT)
  {
    var c := StuckSample();
    assert ContainerState("CreateContainerConfigError", "") in c[SAMPLE_POD].containers;
    NoSuchText("couldn't find key");
    NoSuchText("couldnt find key");
    assert !MissingKey(c[SAMPLE_POD]);
    RevisionIsNoMark(c[SAMPLE_DEPLOYMENT]);
    assert StuckReplicas.LeftBehind(c, {}, SAMPLE_POD);
  }

  lemma NoSuchText(sub: string)
    requires sub != ""
    ensures !Contains("", sub)
  {
  }

  lemma RevisionIsNoMark(o: Obj)
    requires o.annotations.Keys == {StuckReplicas.REVISION} && o.labels == map[]
    ensures !GitOpsManaged(o)
  {
    assert |Lower("")| == 0;
    assert StuckReplicas.REVISION[0] == 'd';
    assert forall k :: k in GITOPS_ANNOTATIONS ==> k[0] != 'd';
  }
}
