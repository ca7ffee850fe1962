/**
Who may do what: the accounts the pods run as, the roles bound to them, and what those
roles are about, over everything one reconcile asks for.
*/
module Access {
  import opened Spec
  import opened Store
  import opened Builders
  import opened Plan
  import opened Convergence
  import opened Naming
  import Wiring

  predicate Asks(rs: seq<Request>, r: Request) { r in rs && r.Ensure? }

  /** A role is bound to one account of the resource's namespace, and to nobody else. */
  predicate BoundToOnly(r: Request, id: CrId, account: string) {
    r.Ensure? && r.desired.body.BindingBody? ==> r.desired.body.subjects == [Subject("ServiceAccount", account, id.ns)]
  }

  /** The pods of a workload run as the account. */
  predicate RunsAs(r: Request, account: string) {
    r.Ensure? && Wiring.TemplateOf(r.desired.body).Some? ==> Wiring.TemplateOf(r.desired.body).value.serviceAccount == account
  }

  function ApprovalAccount(id: CrId): string { id.name + "-approval-server" }

  ghost predicate ApprovalConfined(id: CrId, rs: seq<Request>) {
    forall r :: Asks(rs, r) ==> BoundToOnly(r, id, ApprovalAccount(id)) && RunsAs(r, ApprovalAccount(id))
  }

  lemma PairsConfined(id: CrId, ps: seq<RolePair>)
    requires forall p :: p in ps ==>
               p.role.body.RoleBody? && p.binding.body.BindingBody? && p.binding.body.subjects == [Subject("ServiceAccount", ApprovalAccount(id), id.ns)]
    ensures ApprovalConfined(id, PairsRequests(ps))
  {
    if ps != [] {
      assert ps[0] in ps;
      PairsConfined(id, ps[1..]);
    }
  }

  lemma PairsSubjects(cr: Cr)
    ensures forall p :: p in RolePairs(cr) ==>
              && p.role.body.RoleBody? && p.binding.body.BindingBody?
              && p.binding.body.subjects == [Subject("ServiceAccount", ApprovalAccount(cr.id), cr.id.ns)]
  {
    hide SigningReaderName, EventsName, StoresName, SilenceWriterName, CommonLabels, AuditNamespace, StoreNamespace;
  }

  lemma EndsConfined(cr: Cr)
    requires ApprovalEnabled(cr.spec)
    ensures ApprovalConfined(cr.id, ApprovalHead(cr)) && ApprovalConfined(cr.id, ApprovalTail(cr))
  {
    hide CommonLabels, StoreArgs, AuditNamespace, BindingLabels, ClusterLabels;
    assert BuildApproval(cr).value.body.template.serviceAccount == ApprovalAccount(cr.id);
  }

  /**
  With approval on, every role its sub-reconcile binds is bound to exactly one subject: the account that
  the approval pods run as, which the sub-reconcile also asks for.
  */
  lemma FixersAreTheApprovalPods(cr: Cr)
    requires ApprovalEnabled(cr.spec)
    ensures ApprovalConfined(cr.id, ApprovalStage(cr))
    ensures exists r :: Asks(ApprovalStage(cr), r) && r.key == Key(ServiceAccount, cr.id.ns, cr.id.name + "-approval-server")
    ensures exists r :: Asks(ApprovalStage(cr), r) && r.key == Key(Deployment, cr.id.ns, cr.id.name + "-approval-server")
                        && Wiring.TemplateOf(r.desired.body).Some?
    ensures exists r :: Asks(ApprovalStage(cr), r) && r.key.kind == ClusterRoleBinding && r.desired.body.BindingBody?
                        && r.desired.body.roleRef == "srenix-operator-approval-fixer"
  {
    EndsConfined(cr);
    PairsSubjects(cr);
    PairsConfined(cr.id, RolePairs(cr));
    ApprovalParts(cr);
    hide ApprovalConfined, ApprovalStage, ApprovalHead, ApprovalTail, PairsRequests, RolePairs, BoundToOnly, RunsAs;
    AllConfined(cr);
  }

  lemma AllConfined(cr: Cr)
    requires ApprovalEnabled(cr.spec)
    requires ApprovalConfined(cr.id, ApprovalHead(cr)) && ApprovalConfined(cr.id, ApprovalTail(cr))
    requires ApprovalConfined(cr.id, PairsRequests(RolePairs(cr)))
    ensures ApprovalConfined(cr.id, ApprovalStage(cr))
  {
    hide ApprovalHead, ApprovalTail, PairsRequests, RolePairs, BoundToOnly, RunsAs;
  }

  lemma ApprovalParts(cr: Cr)
    requires ApprovalEnabled(cr.spec)
    ensures exists r :: Asks(ApprovalStage(cr), r) && r.key == Key(ServiceAccount, cr.id.ns, cr.id.name + "-approval-server")
    ensures exists r :: Asks(ApprovalStage(cr), r) && r.key == Key(Deployment, cr.id.ns, cr.id.name + "-approval-server")
                        && Wiring.TemplateOf(r.desired.body).Some?
    ensures exists r :: Asks(ApprovalStage(cr), r) && r.key.kind == ClusterRoleBinding && r.desired.body.BindingBody?
                        && r.desired.body.roleRef == "srenix-operator-approval-fixer"
  {
    hide PairsRequests, RolePairs, CommonLabels, StoreArgs, ApprovalPod;
    var head, tail := ApprovalHead(cr), ApprovalTail(cr);
    assert head[1] in head && head[3] in head && tail[1] in tail;
    assert Asks(ApprovalStage(cr), head[1]) && Asks(ApprovalStage(cr), head[3]) && Asks(ApprovalStage(cr), tail[1]);
  }

  /** What of a plan runs as the reader: the watcher, the two cron jobs and the AI watcher. */
  predicate ReaderWorkload(id: CrId, key: Key) {
    || key == Key(Deployment, id.ns, id.name + "-watcher") || key == Key(Deployment, id.ns, id.name + "-aiwatch")
    || key == Key(CronJob, id.ns, id.name + "-diagnose") || key == Key(CronJob, id.ns, id.name + "-remediate")
  }

  function ReaderAccount(cr: Cr): string {
    if cr.spec.serviceAccountName == "" then cr.id.name + "-sa" else cr.spec.serviceAccountName
  }

  lemma WatchersRunAsReader(cr: Cr, r: Request)
    requires (r in WatcherStage(cr) || r in AiWatchStage(cr)) && r.Ensure?
    ensures RunsAs(r, ReaderAccount(cr))
  {
    hide CommonLabels, AlertingArgs, AlertingEnv, ProtectedEnv;
  }

  lemma CronJobsRunAsReader(cr: Cr, r: Request)
    requires (r in DiagnoseStage(cr) || r in RemediateStage(cr)) && r.Ensure?
    ensures RunsAs(r, ReaderAccount(cr))
  {
    hide CommonLabels, HealthInfoArgs, HealthInfoEnv, ProtectedEnv;
  }

  /**
  The reader role is bound to exactly one subject, the account that the watcher, the AI watcher and both cron
  jobs run as. It is asked for unless the specification names one, and it is not the approval pods' account unless that is the one named.
  */
  lemma ReadersAreTheWatchers(cr: Cr)
    ensures forall r :: Asks(ReaderStage(cr), r) ==> BoundToOnly(r, cr.id, ReaderAccount(cr))
    ensures exists r :: Asks(ReaderStage(cr), r) && r.key.kind == ClusterRoleBinding && r.desired.body.BindingBody?
                        && r.desired.body.roleRef == "srenix-operator-watcher-reader"
    ensures forall r :: Asks(Flatten(Stages(cr)), r) && ReaderWorkload(cr.id, r.key) ==>
              Wiring.TemplateOf(r.desired.body).Some? && RunsAs(r, ReaderAccount(cr))
    ensures cr.spec.serviceAccountName == "" <==> exists r :: Asks(ServiceAccountStage(cr), r)
    ensures forall r :: Asks(ServiceAccountStage(cr), r) ==> r.key == Key(ServiceAccount, cr.id.ns, ReaderAccount(cr))
    ensures ReaderAccount(cr) == ApprovalAccount(cr.id) ==> cr.spec.serviceAccountName == ApprovalAccount(cr.id)
  {
    SameStem(cr.id.name, "-sa", "-approval-server");
    ReaderIsBound(cr);
    AccountIsAsked(cr);
    forall r | Asks(Flatten(Stages(cr)), r) && ReaderWorkload(cr.id, r.key)
      ensures Wiring.TemplateOf(r.desired.body).Some? && RunsAs(r, ReaderAccount(cr))
    {
      WorkloadRunsAsReader(cr, r);
    }
    hide Flatten, Stages, ReaderStage, ServiceAccountStage, Wiring.TemplateOf;
  }

  lemma ReaderIsBound(cr: Cr)
    ensures forall r :: Asks(ReaderStage(cr), r) ==> BoundToOnly(r, cr.id, ReaderAccount(cr))
    ensures exists r :: Asks(ReaderStage(cr), r) && r.key.kind == ClusterRoleBinding && r.desired.body.BindingBody?
                        && r.desired.body.roleRef == "srenix-operator-watcher-reader"
  {
    assert Asks(ReaderStage(cr), ReaderStage(cr)[1]);
    hide BindingLabels, ClusterLabels, ReaderBindingName;
  }

  lemma AccountIsAsked(cr: Cr)
    ensures cr.spec.serviceAccountName == "" <==> exists r :: Asks(ServiceAccountStage(cr), r)
    ensures forall r :: Asks(ServiceAccountStage(cr), r) ==> r.key == Key(ServiceAccount, cr.id.ns, ReaderAccount(cr))
  {
    if cr.spec.serviceAccountName == "" { assert Asks(ServiceAccountStage(cr), ServiceAccountStage(cr)[0]); }
    hide CommonLabels;
  }

  lemma WorkloadRunsAsReader(cr: Cr, r: Request)
    requires Asks(Flatten(Stages(cr)), r) && ReaderWorkload(cr.id, r.key)
    ensures Wiring.TemplateOf(r.desired.body).Some? && RunsAs(r, ReaderAccount(cr))
  {
    hide Flatten, Stages, WatcherStage, AiWatchStage, DiagnoseStage, RemediateStage, ReaderAccount;
    PlanIsSound(cr);
    InTheirStages(cr, r);
    hide Wiring.TemplateOf, RunsAs;
    if r in WatcherStage(cr) || r in AiWatchStage(cr) { WatchersRunAsReader(cr, r); } else { CronJobsRunAsReader(cr, r); }
    SoundHasTemplate(r);
  }

  lemma SoundHasTemplate(r: Request)
    requires r.Ensure? && Sound(r) && (r.key.kind == Deployment || r.key.kind == CronJob)
    ensures Wiring.TemplateOf(r.desired.body).Some?
  {
  }

  lemma InTheirStages(cr: Cr, r: Request)
    requires Asks(Flatten(Stages(cr)), r) && ReaderWorkload(cr.id, r.key)
    ensures r in WatcherStage(cr) || r in AiWatchStage(cr) || r in DiagnoseStage(cr) || r in RemediateStage(cr)
  {
    hide WatcherStage, AiWatchStage, DiagnoseStage, RemediateStage, ServiceAccountStage, ReaderStage, RagStage, ApprovalStage;
    FlattenStages(cr);
    NotInOthers(cr, r);
    NotInApproval(cr, r);
    hide Stages, ReaderWorkload;
  }

  lemma NotInOthers(cr: Cr, r: Request)
    requires ReaderWorkload(cr.id, r.key)
    ensures r !in ServiceAccountStage(cr) && r !in ReaderStage(cr) && r !in RagStage(cr)
  {
    hide BuildRag, BuildRagService, ReaderRole, ReaderBinding, BuildServiceAccount;
  }

  lemma NotInApproval(cr: Cr, r: Request)
    requires ReaderWorkload(cr.id, r.key)
    ensures !Asks(ApprovalStage(cr), r)
  {
    SameStem(cr.id.name, "-watcher", "-approval-server");
    SameStem(cr.id.name, "-aiwatch", "-approval-server");
    ApprovalWorkloads(cr);
    hide ApprovalStage;
  }

  /** The only workload of the approval sub-reconcile is its own. */
  lemma ApprovalWorkloads(cr: Cr)
    ensures forall r :: Asks(ApprovalStage(cr), r) ==>
              r.key.kind != CronJob && (r.key.kind == Deployment ==> r.key.name == cr.id.name + "-approval-server")
  {
    hide RolePairs, PairsRequests, ApprovalHead, ApprovalTail, ApprovalTeardown;
    if ApprovalEnabled(cr.spec) {
      forall r | r in PairsRequests(RolePairs(cr)) ensures r.key.kind == Role || r.key.kind == RoleBinding { NotInPairs(RolePairs(cr), r); }
      ApprovalEnds(cr);
    } else {
      TeardownAsksNothing(cr);
    }
  }

  lemma ApprovalEnds(cr: Cr)
    requires ApprovalEnabled(cr.spec)
    ensures forall r :: r in ApprovalHead(cr) ==> r.key.kind != CronJob && r.key.kind != Deployment
    ensures forall r :: r in ApprovalTail(cr) ==>
              r.key.kind != CronJob && (r.key.kind == Deployment ==> r.key.name == cr.id.name + "-approval-server")
  {
    hide BuildApproval, BuildApprovalService, BuildNetworkPolicy, BuildIngress, BuildApprovalServiceAccount, FixerRole, FixerBinding;
    ApprovalBuilt(cr);
  }

  lemma TeardownAsksNothing(cr: Cr)
    ensures forall r :: r in ApprovalTeardown(cr) ==> !r.Ensure?
  {
    hide SigningReaderName, EventsName, StoresName, FixerBindingName, ApprovalName, EventsRoleKey, EventsBindingKey, FixerBindingKey, Child;
  }

  lemma {:induction false} NotInPairs(ps: seq<RolePair>, r: Request)
    ensures r in PairsRequests(ps) ==> r.key.kind == Role || r.key.kind == RoleBinding
    decreases |ps|
  {
    if ps != [] { NotInPairs(ps[1..], r); }
  }
}
