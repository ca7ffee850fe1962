/**
What the fixers go after, spelled out from the objects themselves: marks, namespaces and
owners by name, without the functions that look them up.
*/
module Gates {
  import opened Strings
  import opened Clusters
  import StuckJobs
  import StuckReplicas
  import StalePods
  import StuckCertRequests

  // ---------- the gates the fixers share ----------

  lemma ProtectedExactly(ns: string, extra: set<string>)
    ensures Protected(ns, extra)
            <==> || ns in {"kube-system", "kube-public", "kube-node-lease", "rook-ceph", "vault", "external-secrets", "cnpg-system"}
                 || (ns != "" && ns in extra)
  {
  }

  predicate Says(m: map<string, string>, k: string) { k in m && m[k] != "" }

  const MARKS := {
    "argocd.argoproj.io/instance", "argocd.argoproj.io/tracking-id", "kustomize.toolkit.fluxcd.io/name",
    "kustomize.toolkit.fluxcd.io/namespace", "meta.helm.sh/release-name", "meta.helm.sh/release-namespace"}

  /** The marks that make an object somebody else's: six annotations, one label, and the managers that say so. */
  predicate Marked(o: Obj) {
    || (exists k :: k in o.annotations && k in MARKS && o.annotations[k] != "")
    || Says(o.labels, "kustomize.toolkit.fluxcd.io/name")
    || ("app.kubernetes.io/managed-by" in o.labels
        && Lower(o.labels["app.kubernetes.io/managed-by"]) in {"helm", "argocd", "argo-cd", "flux", "fluxcd"})
  }

  lemma MarksAre()
    ensures forall k :: k in GITOPS_ANNOTATIONS <==> k in MARKS
  {
  }

  lemma MarkedExactly(o: Obj)
    ensures GitOpsManaged(o) <==> Marked(o)
  {
    MarksAre();
    hide MARKS, GITOPS_ANNOTATIONS;
    assert |Lower("")| == 0;
    assert "" !in GITOPS_MANAGERS;
    if GitOpsManaged(o) && exists k :: k in GITOPS_ANNOTATIONS && ValueOf(o.annotations, k) != "" {
      var k :| k in GITOPS_ANNOTATIONS && ValueOf(o.annotations, k) != "";
      assert k in o.annotations;
    }
    if exists k :: k in o.annotations && k in MARKS && o.annotations[k] != "" {
      var k :| k in o.annotations && k in MARKS && o.annotations[k] != "";
      assert ValueOf(o.annotations, k) != "";
    }
  }

  /** The first owner of the kind has this name. */
  predicate OwnedBy(refs: seq<OwnerRef>, kind: string, name: string) {
    exists i :: 0 <= i < |refs| && refs[i] == OwnerRef(kind, name) && forall j :: 0 <= j < i ==> refs[j].kind != kind
  }

  lemma {:induction false} OwnerExactly(refs: seq<OwnerRef>, kind: string, name: string)
    requires name != ""
    ensures FirstOwner(refs, kind) == name <==> OwnedBy(refs, kind, name)
    decreases |refs|
  {
    if refs != [] {
      var rest := refs[1..];
      OwnerExactly(rest, kind, name);
      if refs[0].kind != kind {
        if OwnedBy(rest, kind, name) {
          var i :| 0 <= i < |rest| && rest[i] == OwnerRef(kind, name) && forall j :: 0 <= j < i ==> rest[j].kind != kind;
          assert refs[i + 1] == OwnerRef(kind, name);
          assert forall j :: 0 < j < i + 1 ==> refs[j] == rest[j - 1];
        }
        if OwnedBy(refs, kind, name) {
          var i :| 0 <= i < |refs| && refs[i] == OwnerRef(kind, name) && forall j :: 0 <= j < i ==> refs[j].kind != kind;
          assert rest[i - 1] == OwnerRef(kind, name);
          assert forall j :: 0 <= j < i - 1 ==> rest[j] == refs[j + 1];
        }
      } else if OwnedBy(refs, kind, name) {
        var i :| 0 <= i < |refs| && refs[i] == OwnerRef(kind, name) && forall j :: 0 <= j < i ==> refs[j].kind != kind;
        assert i == 0;
      }
    }
  }

  predicate LacksKey(o: Obj) {
    exists i :: 0 <= i < |o.containers|
                && (Contains(o.containers[i].waitingMessage, "couldn't find key") || Contains(o.containers[i].waitingMessage, "couldnt find key"))
  }

  predicate Misconfigured(o: Obj) {
    exists i :: 0 <= i < |o.containers| && o.containers[i].waitingReason == "CreateContainerConfigError"
  }

  lemma ContainersExactly(o: Obj)
    ensures MissingKey(o) <==> LacksKey(o)
    ensures ConfigError(o) <==> Misconfigured(o)
  {
    hide Contains;
    if MissingKey(o) {
      var c :| c in o.containers && (Contains(c.waitingMessage, "couldn't find key") || Contains(c.waitingMessage, "couldnt find key"));
      var i :| 0 <= i < |o.containers| && o.containers[i] == c;
    }
    if ConfigError(o) {
      var c :| c in o.containers && c.waitingReason == "CreateContainerConfigError";
      var i :| 0 <= i < |o.containers| && o.containers[i] == c;
    }
  }

  // ---------- Jobs ----------

  /** The CronJob that would start the Job again is there, not suspended and nobody else's. */
  ghost predicate Respawns(c: View, job: ObjKey)
    requires job in c
  {
    exists cron :: cron != "" && OwnedBy(c[job].owners, "CronJob", cron)
                   && var k := ObjKey(CronJobKind, job.ns, cron); k in c && !c[k].frozen && !GitOpsManaged(c[k])
  }

  /** A pod of the Job waits for a key that its Secret does not have. */
  predicate HeldUp(c: View, pod: ObjKey, job: ObjKey) {
    && pod in c && pod.kind == PodKind && pod.ns == job.ns && job.kind == JobKind && job.name != ""
    && MissingKey(c[pod]) && OwnedBy(c[pod].owners, "Job", job.name)
  }

  /** A Job is condemned exactly if a pod of it is held up and its CronJob will start it again. */
  lemma CondemnedExactly(c: View, extra: set<string>, job: ObjKey)
    ensures StuckJobs.CondemnedJob(c, extra, job)
            <==> !Protected(job.ns, extra) && job in c && Respawns(c, job) && exists pod :: HeldUp(c, pod, job)
  {
    hide Protected, GitOpsManaged, MissingKey, OwnedBy;
    forall pod ensures StuckJobs.Blames(c, pod, job) <==> HeldUp(c, pod, job) { BlamedExactly(c, pod, job); }
    if job in c { RespawnedExactly(c, extra, job); }
    hide HeldUp, Respawns, StuckJobs.Blames;
  }

  lemma BlamedExactly(c: View, pod: ObjKey, job: ObjKey)
    ensures StuckJobs.Blames(c, pod, job) <==> HeldUp(c, pod, job)
  {
    hide MissingKey, OwnedBy, FirstOwner;
    if pod in c && job.name != "" { OwnerExactly(c[pod].owners, "Job", job.name); }
  }

  lemma RespawnedExactly(c: View, extra: set<string>, job: ObjKey)
    requires job in c
    ensures StuckJobs.JobMayGo(c, extra, job) <==> !Protected(job.ns, extra) && Respawns(c, job)
  {
    hide Protected, GitOpsManaged, OwnedBy, FirstOwner;
    var cron := FirstOwner(c[job].owners, "CronJob");
    if cron != "" { OwnerExactly(c[job].owners, "CronJob", cron); }
    forall name | name != "" ensures OwnedBy(c[job].owners, "CronJob", name) <==> cron == name { OwnerExactly(c[job].owners, "CronJob", name); }
  }

  // ---------- Deployments ----------

  /** A pod that cannot start and is short of no key, on a ReplicaSet of the Deployment's whose revision is not the Deployment's own. */
  ghost predicate StuckBehind(c: View, extra: set<string>, pod: ObjKey, dep: ObjKey) {
    && pod in c && pod.kind == PodKind && ConfigError(c[pod]) && !MissingKey(c[pod]) && !Protected(pod.ns, extra)
    && dep in c && dep.kind == DeploymentKind && dep.ns == pod.ns && dep.name != ""
    && exists rs :: rs != "" && OwnedBy(c[pod].owners, "ReplicaSet", rs)
                    && var k := ObjKey(ReplicaSetKind, pod.ns, rs);
                       && k in c && OwnedBy(c[k].owners, "Deployment", dep.name)
                       && Says(c[dep].annotations, "deployment.kubernetes.io/revision") && Says(c[k].annotations, "deployment.kubernetes.io/revision")
                       && c[dep].annotations["deployment.kubernetes.io/revision"] != c[k].annotations["deployment.kubernetes.io/revision"]
  }

  /** A Deployment is due exactly if it is neither paused nor somebody else's and some pod is stuck behind it. */
  lemma DueExactly(c: View, extra: set<string>, dep: ObjKey)
    ensures StuckReplicas.DueForRestart(c, extra, dep)
            <==> dep in c && !GitOpsManaged(c[dep]) && !c[dep].frozen && exists pod :: StuckBehind(c, extra, pod, dep)
  {
    hide Protected, GitOpsManaged, MissingKey, ConfigError, OwnedBy, Says;
    forall pod
      ensures dep in c ==>
                (StuckBehind(c, extra, pod, dep)
                 <==> StuckReplicas.LeftBehind(c, extra, pod)
                      && StuckReplicas.DeploymentOf(c, StuckReplicas.ReplicaSetOf(c, pod)) == dep)
    {
      if dep in c { BehindExactly(c, extra, pod, dep); }
    }
    hide StuckBehind, StuckReplicas.LeftBehind;
    LeftBehindHasSet(c, extra);
  }

  lemma LeftBehindHasSet(c: View, extra: set<string>)
    ensures forall pod :: StuckReplicas.LeftBehind(c, extra, pod) ==> pod in c && StuckReplicas.ReplicaSetOf(c, pod) in c
  {
  }

  lemma BehindExactly(c: View, extra: set<string>, pod: ObjKey, dep: ObjKey)
    requires dep in c
    ensures StuckBehind(c, extra, pod, dep)
            <==> StuckReplicas.LeftBehind(c, extra, pod) && StuckReplicas.DeploymentOf(c, StuckReplicas.ReplicaSetOf(c, pod)) == dep
  {
    hide Protected, GitOpsManaged, MissingKey, ConfigError, OwnedBy, FirstOwner;
    if pod in c {
      var rs := FirstOwner(c[pod].owners, "ReplicaSet");
      forall name | name != "" ensures OwnedBy(c[pod].owners, "ReplicaSet", name) <==> rs == name {
        OwnerExactly(c[pod].owners, "ReplicaSet", name);
      }
      var k := ObjKey(ReplicaSetKind, pod.ns, rs);
      if k in c && dep.name != "" { OwnerExactly(c[k].owners, "Deployment", dep.name); }
    }
  }

  // ---------- pods ----------

  /** A failed pod is stale exactly if a Job or nobody owns it first, and neither it nor that Job is somebody else's. */
  lemma StaleExactly(c: View, extra: set<string>, pod: ObjKey)
    ensures StalePods.Stale(c, extra, pod)
            <==> && pod in c && pod.kind == PodKind && c[pod].phase == "Failed" && !Protected(pod.ns, extra) && !GitOpsManaged(c[pod])
                 && (|c[pod].owners| > 0 ==>
                       && c[pod].owners[0].kind == "Job"
                       && var job := ObjKey(JobKind, pod.ns, c[pod].owners[0].name); job in c ==> !GitOpsManaged(c[job]))
  {
    hide Protected, GitOpsManaged;
  }

  // ---------- certificate requests and orders ----------

  /** What has failed for good, by kind: a request with a failure time or a Ready condition that says so, an order in one of two states. */
  lemma FailedExactly(c: View, extra: set<string>, k: ObjKey)
    ensures StuckCertRequests.FailedAny(c, extra, k)
            <==> && k in c && !Protected(k.ns, extra)
                 && (|| (k.kind == RequestKind
                         && (|c[k].failureTime| > 0
                             || exists i :: 0 <= i < |c[k].conditions| && c[k].conditions[i] == StatusCondition("Ready", "False", "Failed")))
                     || (k.kind == OrderKind && c[k].acmeState in {"errored", "invalid"}))
  {
    hide Protected;
  }

  lemma ControllerDownExactly(c: View)
    ensures StuckCertRequests.ControllerDown(c)
            <==> var k := ObjKey(DeploymentKind, "cert-manager", "cert-manager"); k in c && c[k].readyReplicas == 0
  {
  }
}
