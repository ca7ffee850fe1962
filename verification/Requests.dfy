/**
What one reconcile asks for as a whole: which specifications get that far, in what order it asks, where
everything lives, what it asks away, and how it takes it when others get there first.
*/
module Requests {
  import opened Options
  import opened Spec
  import opened Store
  import opened Builders
  import opened Plan
  import opened Convergence
  import opened Naming

  // ---------- what the door lets in, and in what order it is asked for ----------

  /**
  A specification is refused exactly if something built from it would be of no use: images without a tag, an AI watcher without
  an endpoint or model, or with a memory that cannot embed, storage of a size that cannot be read, an Ingress without a host,
  a policy that would let everybody in, or more than one approval pod on a store of its own.
  */
  lemma RefusedExactly(cr: Cr)
    ensures Valid(cr.spec)
            <==> && cr.spec.imageTag != ""
                 && (BuildAiWatch(cr).Some? ==>
                       && cr.spec.ai.value.endpoint != "" && cr.spec.ai.value.model != ""
                       && (BuildRag(cr).Some? ==>
                             exists model :: cr.spec.ai.value.memory.value.embeddingsModel == Some(model) && model != ""))
                 && (BuildRag(cr).Some? ==>
                       forall text, parses :: cr.spec.ai.value.memory.value.size == Some(Quantity(text, parses)) && text != "" ==> parses)
                 && (BuildIngress(cr).Some? ==> BuildIngress(cr).value.body.routes.host != "")
                 && (BuildNetworkPolicy(cr).Some? ==> BuildNetworkPolicy(cr).value.body.gateway != map[])
                 && (BuildApproval(cr).Some? ==>
                       BuildApproval(cr).value.body.replicas <= 1 || exists arg :: arg in StoreArgs(cr))
  {
    hide CommonLabels, ApprovalPod, AiPod, FRONT_DOORS, ReplayConfigMap, RunbookConfigMap;
    if StoreBackend(cr.spec) != "inmemory" { assert StoreArgs(cr)[0] in StoreArgs(cr); }
  }

  /** Comes before it. */
  ghost predicate Precedes(rs: seq<Request>, q: Request, r: Request) { exists i, j :: 0 <= i < j < |rs| && rs[i] == q && rs[j] == r }

  /** The approval pods come last: their key, their account and everything they are allowed are asked for before them. */
  lemma ApprovalPodsComeLast(cr: Cr, r: Request)
    requires ApprovalEnabled(cr.spec) && r in ApprovalStage(cr)
    requires r.EnsureSecret? || (r.Ensure? && r.key.kind in {ServiceAccount, Role, RoleBinding, ClusterRole, ClusterRoleBinding, Service})
    ensures Precedes(ApprovalStage(cr), r, Ensure(Key(Deployment, cr.id.ns, cr.id.name + "-approval-server"), BuildApproval(cr).value))
  {
    hide BuildApproval, BuildApprovalService, BuildNetworkPolicy, BuildIngress, BuildApprovalServiceAccount, FixerRole, FixerBinding,
      PairsRequests, RolePairs;
    ApprovalBuilt(cr);
    var head, pairs, tail := ApprovalHead(cr), PairsRequests(RolePairs(cr)), ApprovalTail(cr);
    var rs, n := ApprovalStage(cr), |head| + |pairs|;
    assert rs == head + pairs + tail && rs[n + 1] == tail[1] && rs[n] == tail[0];
    var i :| 0 <= i < |rs| && rs[i] == r;
    assert i >= n ==> r == tail[i - n];
    assert i < n + 1;
  }

  /** A workload never comes before the account it runs as and the reader's permissions. */
  lemma AccountsComeFirst(cr: Cr, q: Request, r: Request)
    requires q in ServiceAccountStage(cr) || q in ReaderStage(cr)
    requires r in Flatten(Stages(cr)) && r !in ServiceAccountStage(cr) && r !in ReaderStage(cr)
    ensures Precedes(Flatten(Stages(cr)), q, r)
  {
    hide ServiceAccountStage, ReaderStage, WatcherStage, DiagnoseStage, RemediateStage, AiWatchStage, RagStage, ApprovalStage;
    var front := ServiceAccountStage(cr) + ReaderStage(cr);
    var rest := Flatten(Stages(cr)[2..]);
    assert Stages(cr)[1..][1..] == Stages(cr)[2..] && Stages(cr)[1..][0] == ReaderStage(cr);
    assert Flatten(Stages(cr)) == front + rest;
    hide Stages, Flatten;
    assert q in front && r in rest;
    var i :| 0 <= i < |front| && front[i] == q;
    var j :| 0 <= j < |rest| && rest[j] == r;
    assert (front + rest)[i] == q && (front + rest)[|front| + j] == r;
  }

  /** A store that comes up is asked for after the Service it names, and one that goes is gone before it. */
  lemma StoresComeAfterTheirService(cr: Cr)
    ensures |RagStage(cr)| == 2
    ensures if MemoryEnabled(cr.spec) then RagStage(cr)[0].key.kind == Service && RagStage(cr)[1].key.kind == StatefulSet
            else RagStage(cr)[0].key.kind == StatefulSet && RagStage(cr)[1].key.kind == Service
  {
    hide BuildRag, BuildRagService;
  }

  /** With approval off, everything that approval may have set up at a fixed place is asked away, but for the key, the shared role and the silence-writer. */
  lemma TeardownExactly(cr: Cr, r: Request)
    requires !ApprovalEnabled(cr.spec)
    ensures r in ApprovalStage(cr)
            <==> && r.Purge?
                 && var name, ns, k := cr.id.name + "-approval-server", cr.id.ns, r.key;
                    || (k.kind in {Ingress, NetworkPolicy, Deployment, Service, ServiceAccount} && k.ns == ns && k.name == name)
                    || (k.kind in {Role, RoleBinding} && k.ns == ns && (k.name == name + "-signing-reader" || k.name == name + "-stores"))
                    || (k.kind in {Role, RoleBinding} && k.ns == AuditNamespace(cr.id, cr.spec) && k.name == name + "-events")
                    || k == Key(ClusterRoleBinding, "", "srenix-operator-approval-fixer-" + ns + "-" + cr.id.name)
  {
    var t, name := ApprovalTeardown(cr), cr.id.name + "-approval-server";
    assert SigningReaderName(cr.id) == name + "-signing-reader" && EventsName(cr.id) == name + "-events" && StoresName(cr.id) == name + "-stores";
    assert |t| == 12;
    assert forall i :: 0 <= i < 12 ==> t[i] in t;
    hide SigningReaderName, EventsName, StoresName, AuditNamespace;
    if r in t { var i :| 0 <= i < 12 && t[i] == r; }
    if r.Purge? { TeardownHas(cr, r); }
  }

  lemma TeardownHas(cr: Cr, r: Request)
    requires r.Purge?
    ensures var t, k := ApprovalTeardown(cr), r.key;
            && (k.ns == cr.id.ns && k.name == ApprovalName(cr.id) && k.kind in {Ingress, NetworkPolicy, Deployment, Service, ServiceAccount} ==> r in t)
            && (k.ns == cr.id.ns && k.kind in {Role, RoleBinding} && (k.name == SigningReaderName(cr.id) || k.name == StoresName(cr.id)) ==> r in t)
            && (k.ns == AuditNamespace(cr.id, cr.spec) && k.kind in {Role, RoleBinding} && k.name == EventsName(cr.id) ==> r in t)
            && (k == FixerBindingKey(cr.id) ==> r in t)
  {
    var t := ApprovalTeardown(cr);
    assert t[0] in t && t[1] in t && t[2] in t && t[3] in t && t[4] in t && t[5] in t && t[6] in t && t[7] in t && t[8] in t;
    assert t[9] in t && t[10] in t && t[11] in t;
    hide ApprovalName, SigningReaderName, EventsName, StoresName, FixerBindingName, AuditNamespace;
  }

  // ---------- races ----------

  /**
  Somebody else may get there first. What another has created meanwhile is left as it is and no error, and so is what
  another has deleted before it could be; an update of what has changed meanwhile is an error, and so is one of what is gone.
  */
  lemma RacesAreTold(r: Request, o: Object, cr: Cr, st: State, draw: KeyPair)
    ensures (r.Ensure? || r.EnsureSecret?) && r.key in st.objs ==> Step(r, Missing, cr, st, Served, draw) == Micro(st, Done(None))
    ensures (r.Purge? || r.PurgeBound?) && r.key !in st.objs ==>
              Step(r, Found(o), cr, st, Served, draw) == Micro(st, Done(None)) == Step(r, Fresh, cr, st, Served, draw)
    ensures r.Drop? && r.key !in st.objs ==> Step(r, Fresh, cr, st, Served, draw) == Micro(st, Done(None))
    ensures (r.Ensure? || r.EnsureSecret?) && r.key !in st.objs ==>
              Step(r, Found(o), cr, st, Served, draw) == Micro(st, Done(Some(NotFound)))
    ensures (r.Ensure? || r.EnsureSecret?) && r.key in st.objs && st.objs[r.key].rv != o.rv ==>
              Step(r, Found(o), cr, st, Served, draw) == Micro(st, Done(Some(Conflict)))
    ensures Step(r, Fresh, cr, st, Refused, draw) == Micro(st, Done(Some(Unavailable)))
  {
    hide MergeBody, Admits;
  }

  /** Where everything that is switched on or off lives, and what it is called. */
  lemma PlacesAre(cr: Cr)
    ensures var ns, n := cr.id.ns, cr.id.name;
            && (forall r :: r in WatcherStage(cr) <==>
                  r == EnsureOrPurge(Key(Deployment, ns, n + "-watcher"), BuildWatcher(cr))
                  || r == EnsureOrPurge(Key(Service, ns, n + "-webhook"), BuildWebhookService(cr)))
            && (forall r :: r in DiagnoseStage(cr) <==> r == EnsureOrPurge(Key(CronJob, ns, n + "-diagnose"), BuildDiagnose(cr)))
            && (forall r :: r in RemediateStage(cr) <==> r == EnsureOrPurge(Key(CronJob, ns, n + "-remediate"), BuildRemediate(cr)))
            && (forall r :: r in AiWatchStage(cr) <==>
                  r == EnsureOrPurge(Key(Deployment, ns, n + "-aiwatch"), BuildAiWatch(cr))
                  || r == EnsureOrPurge(Key(Service, ns, n + "-aiwatch-metrics"), BuildMetricsService(cr)))
            && (forall r :: r in RagStage(cr) <==>
                  r == EnsureOrPurge(Key(StatefulSet, ns, n + "-rag"), BuildRag(cr))
                  || r == EnsureOrPurge(Key(Service, ns, n + "-rag"), BuildRagService(cr)))
  {
    hide BuildWatcher, BuildWebhookService, BuildDiagnose, BuildRemediate, BuildAiWatch, BuildMetricsService, BuildRag, BuildRagService;
  }

  predicate Named(r: Request, id: CrId, kinds: set<Kind>, suffixes: set<string>) {
    r.key.kind in kinds && r.key.ns == id.ns && exists s :: s in suffixes && r.key.name == id.name + s
  }

  /** The eight sub-reconciles in their order, told by what they are about. */
  lemma EightInOrder(cr: Cr)
    ensures |Stages(cr)| == 8
    ensures forall r :: r in Stages(cr)[0] ==> r.key.kind == ServiceAccount
    ensures forall r :: r in Stages(cr)[1] ==> r.key in {ReaderRoleKey(), ReaderBindingKey(cr.id)}
    ensures forall r :: r in Stages(cr)[2] ==> Named(r, cr.id, {Deployment, Service}, {"-watcher", "-webhook"})
    ensures forall r :: r in Stages(cr)[3] ==> Named(r, cr.id, {CronJob}, {"-diagnose"})
    ensures forall r :: r in Stages(cr)[4] ==> Named(r, cr.id, {CronJob}, {"-remediate"})
    ensures forall r :: r in Stages(cr)[5] ==> Named(r, cr.id, {Deployment, Service}, {"-aiwatch", "-aiwatch-metrics"})
    ensures forall r :: r in Stages(cr)[6] ==> Named(r, cr.id, {StatefulSet, Service}, {"-rag"})
    ensures Stages(cr)[7] == ApprovalStage(cr) && Stages(cr)[1] != [] && Stages(cr)[2] != [] && Stages(cr)[3] != [] && Stages(cr)[4] != []
    ensures Stages(cr)[5] != [] && Stages(cr)[6] != []
  {
    hide Named, ServiceAccountStage, ReaderStage, WatcherStage, DiagnoseStage, RemediateStage, AiWatchStage, RagStage, ApprovalStage;
    AccountStagesNamed(cr);
    WatchStagesNamed(cr);
    AiStagesNamed(cr);
  }

  lemma AccountStagesNamed(cr: Cr)
    ensures forall r :: r in ServiceAccountStage(cr) ==> r.key.kind == ServiceAccount
    ensures ReaderStage(cr) != [] && forall r :: r in ReaderStage(cr) ==> r.key in {ReaderRoleKey(), ReaderBindingKey(cr.id)}
  {
    hide ReaderRole, ReaderBinding, BuildServiceAccount;
  }

  lemma WatchStagesNamed(cr: Cr)
    ensures WatcherStage(cr) != [] && forall r :: r in WatcherStage(cr) ==> Named(r, cr.id, {Deployment, Service}, {"-watcher", "-webhook"})
    ensures DiagnoseStage(cr) != [] && forall r :: r in DiagnoseStage(cr) ==> Named(r, cr.id, {CronJob}, {"-diagnose"})
    ensures RemediateStage(cr) != [] && forall r :: r in RemediateStage(cr) ==> Named(r, cr.id, {CronJob}, {"-remediate"})
  {
    PlacesAre(cr);
    hide BuildWatcher, BuildWebhookService, BuildDiagnose, BuildRemediate;
  }

  lemma AiStagesNamed(cr: Cr)
    ensures AiWatchStage(cr) != [] && forall r :: r in AiWatchStage(cr) ==> Named(r, cr.id, {Deployment, Service}, {"-aiwatch", "-aiwatch-metrics"})
    ensures RagStage(cr) != [] && forall r :: r in RagStage(cr) ==> Named(r, cr.id, {StatefulSet, Service}, {"-rag"})
  {
    PlacesAre(cr);
    hide BuildAiWatch, BuildMetricsService, BuildRag, BuildRagService;
  }

  /** The shared roles and their bindings are cluster-wide and have the names that everybody knows. */
  lemma ClusterPlacesAre(id: CrId)
    ensures ReaderRoleKey() == Key(ClusterRole, "", "srenix-operator-watcher-reader")
    ensures FixerRoleKey() == Key(ClusterRole, "", "srenix-operator-approval-fixer")
    ensures ReaderBindingKey(id) == Key(ClusterRoleBinding, "", "srenix-operator-watcher-" + id.ns + "-" + id.name)
    ensures FixerBindingKey(id) == Key(ClusterRoleBinding, "", "srenix-operator-approval-fixer-" + id.ns + "-" + id.name)
  {
  }
}
