/**
How the children of a plan fit together: every selector finds exactly the pods it
is meant for, ports are declared where they are named, and variables are set
where they are used.
*/
module Wiring {
  import opened Options
  import opened Spec
  import opened Store
  import opened Builders
  import opened Plan
  import opened Convergence
  import opened Naming

  // ---------- pods and selectors ----------

  /** The pod template a workload carries. */
  function TemplateOf(b: Body): Option<Pod> {
    match b
    case DeploymentBody(_, template, _, _) => Some(template)
    case CronJobBody(_, job, _, _, _) => Some(job)
    case StatefulSetBody(_, template, _, _, _, _) => Some(template)
    case _ => None
  }

  /** The pod labels an object selects by. */
  function SelectorOf(b: Body): Option<Labels> {
    match b
    case DeploymentBody(_, _, _, selector) => Some(selector)
    case StatefulSetBody(_, _, _, selector, _, _) => Some(selector)
    case ServiceBody(_, selector, _) => Some(selector)
    case NetworkPolicyBody(podSelector, _, _) => Some(podSelector)
    case _ => None
  }

  const WORKLOAD_ROLES := ["watcher", "diagnose", "remediate", "aiwatch", "rag", "approval-server"]

  function KindOfRole(role: string): Kind {
    if role == "diagnose" || role == "remediate" then CronJob else if role == "rag" then StatefulSet else Deployment
  }

  /** Where the workload of a role lives. */
  function WorkloadKey(id: CrId, role: string): Key { Key(KindOfRole(role), id.ns, id.name + "-" + role) }

  /** The role of the workload an object of the plan is there for. */
  function RoleServed(id: CrId, key: Key): string {
    if key.name == WebhookName(id) || key.name == WatcherName(id) then "watcher"
    else if key.name == MetricsName(id) || key.name == AiWatchName(id) then "aiwatch"
    else if key.name == RagName(id) then "rag"
    else "approval-server"
  }

  /** A workload runs pods labelled for its own role. */
  ghost predicate RunsItsRole(id: CrId, r: Request) {
    r.Ensure? && TemplateOf(r.desired.body).Some? ==>
      exists role :: role in WORKLOAD_ROLES && r.key == WorkloadKey(id, role)
                     && TemplateOf(r.desired.body).value.labels == CommonLabels(id, role)
  }

  /** A selecting object selects the role it is there for. */
  predicate SelectsItsRole(id: CrId, r: Request) {
    r.Ensure? && SelectorOf(r.desired.body).Some? ==>
      && r.key.ns == id.ns && RoleServed(id, r.key) in WORKLOAD_ROLES
      && SelectorOf(r.desired.body).value == CommonLabels(id, RoleServed(id, r.key))
  }

  ghost predicate AllWired(id: CrId, rs: seq<Request>) {
    forall r :: r in rs ==> RunsItsRole(id, r) && SelectsItsRole(id, r)
  }

  lemma WiredWith(id: CrId, r: Request, role: string)
    requires role in WORKLOAD_ROLES
    requires r.Ensure? && TemplateOf(r.desired.body).Some? ==>
               r.key == WorkloadKey(id, role) && TemplateOf(r.desired.body).value.labels == CommonLabels(id, role)
    ensures RunsItsRole(id, r)
  {
  }

  lemma SuffixIs(n: string, role: string)
    ensures n + ("-" + role) == n + "-" + role
  {
  }

  lemma WorkloadNames(id: CrId)
    ensures WorkloadKey(id, "watcher") == Child(Deployment, id, WatcherName(id))
    ensures WorkloadKey(id, "diagnose") == Child(CronJob, id, DiagnoseName(id))
    ensures WorkloadKey(id, "remediate") == Child(CronJob, id, RemediateName(id))
    ensures WorkloadKey(id, "aiwatch") == Child(Deployment, id, AiWatchName(id))
    ensures WorkloadKey(id, "rag") == Child(StatefulSet, id, RagName(id))
    ensures WorkloadKey(id, "approval-server") == Child(Deployment, id, ApprovalName(id))
  {
    SuffixIs(id.name, "watcher"); SuffixIs(id.name, "diagnose"); SuffixIs(id.name, "remediate");
    SuffixIs(id.name, "aiwatch"); SuffixIs(id.name, "rag"); SuffixIs(id.name, "approval-server");
    assert "-" + "watcher" == "-watcher" && "-" + "diagnose" == "-diagnose" && "-" + "remediate" == "-remediate";
    assert "-" + "aiwatch" == "-aiwatch" && "-" + "rag" == "-rag" && "-" + "approval-server" == "-approval-server";
  }

  lemma RolesServed(id: CrId)
    ensures RoleServed(id, Child(Deployment, id, WatcherName(id))) == "watcher"
    ensures RoleServed(id, Child(Service, id, WebhookName(id))) == "watcher"
    ensures RoleServed(id, Child(Deployment, id, AiWatchName(id))) == "aiwatch"
    ensures RoleServed(id, Child(Service, id, MetricsName(id))) == "aiwatch"
    ensures RoleServed(id, Child(StatefulSet, id, RagName(id))) == RoleServed(id, Child(Service, id, RagName(id))) == "rag"
    ensures forall kind :: RoleServed(id, Child(kind, id, ApprovalName(id))) == "approval-server"
  {
    NamesDiffer(id);
    SameStem(id.name, "-webhook", "-aiwatch");
    SameStem(id.name, "-watcher", "-aiwatch-metrics");
    SameStem(id.name, "-watcher", "-rag");
    SameStem(id.name, "-aiwatch", "-rag");
  }

  lemma WatcherWired(cr: Cr)
    ensures AllWired(cr.id, WatcherStage(cr))
  {
    WorkloadNames(cr.id);
    RolesServed(cr.id);
    hide RoleServed, WorkloadKey, WatcherName, WebhookName, CommonLabels, AlertingArgs, AlertingEnv;
    WiredWith(cr.id, WatcherStage(cr)[0], "watcher");
    WiredWith(cr.id, WatcherStage(cr)[1], "watcher");
  }

  lemma CronJobsWired(cr: Cr)
    ensures AllWired(cr.id, DiagnoseStage(cr)) && AllWired(cr.id, RemediateStage(cr))
  {
    DiagnoseWired(cr);
    RemediateWired(cr);
  }

  lemma DiagnoseWired(cr: Cr)
    ensures AllWired(cr.id, DiagnoseStage(cr))
  {
    WorkloadNames(cr.id);
    hide RoleServed, WorkloadKey, DiagnoseName, CommonLabels, HealthInfoArgs, HealthInfoEnv;
    WiredWith(cr.id, DiagnoseStage(cr)[0], "diagnose");
  }

  lemma RemediateWired(cr: Cr)
    ensures AllWired(cr.id, RemediateStage(cr))
  {
    WorkloadNames(cr.id);
    hide RoleServed, WorkloadKey, RemediateName, CommonLabels;
    WiredWith(cr.id, RemediateStage(cr)[0], "remediate");
  }

  lemma AiWatchWired(cr: Cr)
    ensures AllWired(cr.id, AiWatchStage(cr))
  {
    WorkloadNames(cr.id);
    RolesServed(cr.id);
    hide RoleServed, WorkloadKey, AiWatchName, MetricsName, CommonLabels;
    WiredWith(cr.id, AiWatchStage(cr)[0], "aiwatch");
    WiredWith(cr.id, AiWatchStage(cr)[1], "aiwatch");
  }

  lemma RagWired(cr: Cr)
    ensures AllWired(cr.id, RagStage(cr))
  {
    WorkloadNames(cr.id);
    RolesServed(cr.id);
    hide RoleServed, WorkloadKey, RagName, CommonLabels;
    WiredWith(cr.id, RagStage(cr)[0], "rag");
    WiredWith(cr.id, RagStage(cr)[1], "rag");
  }

  lemma NothingToWire(id: CrId, r: Request)
    requires r.Ensure? ==> TemplateOf(r.desired.body).None? && SelectorOf(r.desired.body).None?
    ensures RunsItsRole(id, r) && SelectsItsRole(id, r)
  {
  }

  lemma PairsNeedNoWiring(id: CrId, ps: seq<RolePair>)
    requires forall p :: p in ps ==> p.role.body.RoleBody? && p.binding.body.BindingBody?
    ensures AllWired(id, PairsRequests(ps))
  {
    hide RunsItsRole, SelectsItsRole;
    if ps != [] {
      assert ps[0] in ps;
      NothingToWire(id, PairRequests(ps[0])[0]);
      NothingToWire(id, PairRequests(ps[0])[1]);
      PairsNeedNoWiring(id, ps[1..]);
    }
  }

  lemma ApprovalHeadWired(cr: Cr)
    requires ApprovalEnabled(cr.spec)
    ensures AllWired(cr.id, ApprovalHead(cr))
  {
    hide RunsItsRole, SelectsItsRole;
    forall r | r in ApprovalHead(cr) ensures RunsItsRole(cr.id, r) && SelectsItsRole(cr.id, r) { NothingToWire(cr.id, r); }
  }

  lemma ApprovalTailWired(cr: Cr)
    requires ApprovalEnabled(cr.spec)
    ensures AllWired(cr.id, ApprovalTail(cr))
  {
    WorkloadNames(cr.id);
    RolesServed(cr.id);
    hide RoleServed, WorkloadKey, ApprovalName, CommonLabels, StoreArgs, AuditNamespace;
    forall i | 0 <= i < 4 ensures RunsItsRole(cr.id, ApprovalTail(cr)[i]) && SelectsItsRole(cr.id, ApprovalTail(cr)[i]) {
      WiredWith(cr.id, ApprovalTail(cr)[i], "approval-server");
    }
    assert |ApprovalTail(cr)| == 4;
  }

  lemma ApprovalWired(cr: Cr)
    ensures AllWired(cr.id, ApprovalStage(cr))
  {
    hide RunsItsRole, SelectsItsRole, ApprovalHead, ApprovalTail, PairsRequests;
    if ApprovalEnabled(cr.spec) {
      ApprovalHeadWired(cr);
      PairsNeedNoWiring(cr.id, RolePairs(cr));
      ApprovalTailWired(cr);
    } else {
      forall r | r in ApprovalTeardown(cr) ensures RunsItsRole(cr.id, r) && SelectsItsRole(cr.id, r) { NothingToWire(cr.id, r); }
    }
  }

  lemma AccessWired(cr: Cr)
    ensures AllWired(cr.id, ServiceAccountStage(cr)) && AllWired(cr.id, ReaderStage(cr))
  {
    hide RunsItsRole, SelectsItsRole;
    forall r | r in ServiceAccountStage(cr) + ReaderStage(cr) ensures RunsItsRole(cr.id, r) && SelectsItsRole(cr.id, r) {
      NothingToWire(cr.id, r);
    }
  }

  lemma PlanWired(cr: Cr)
    ensures AllWired(cr.id, Flatten(Stages(cr)))
  {
    hide ServiceAccountStage, ReaderStage, WatcherStage, DiagnoseStage, RemediateStage, AiWatchStage, RagStage, ApprovalStage,
      RunsItsRole, SelectsItsRole;
    AccessWired(cr);
    WatcherWired(cr);
    CronJobsWired(cr);
    AiWatchWired(cr);
    RagWired(cr);
    ApprovalWired(cr);
    FlattenStages(cr);
    hide Stages;
  }

  // ---------- the result on selectors ----------

  lemma LabelsTell(id: CrId, role: string, id': CrId, role': string)
    requires role in WORKLOAD_ROLES && role' in WORKLOAD_ROLES
    ensures Carries(CommonLabels(id', role'), CommonLabels(id, role)) <==> id.name == id'.name && role == role'
  {
    var l, l' := CommonLabels(id, role), CommonLabels(id', role');
    assert INSTANCE_LABEL[|INSTANCE_LABEL| - 1] == 'e' && |INSTANCE_LABEL| != |ROLE_LABEL| && |INSTANCE_LABEL| != |NAME_LABEL|;
    assert l[INSTANCE_LABEL] == id.name && l'[INSTANCE_LABEL] == id'.name;
    assert role != "" && role' != "" && l[ROLE_LABEL] == role && l'[ROLE_LABEL] == role';
  }

  lemma WorkloadKeyTells(id: CrId, role: string, role': string)
    requires WorkloadKey(id, role) == WorkloadKey(id, role')
    ensures role == role'
  {
    var n := id.name + "-";
    assert (n + role)[|n|..] == role && (n + role')[|n|..] == role';
  }

  /**
  Among all the pods that all custom resources of a namespace may run, a selector
  of one resource's plan finds those of the one workload it is meant for, and no others.
  */
  lemma SelectorsFindTheirOwn(cr: Cr, cr': Cr, r: Request, q: Request)
    requires r in Flatten(Stages(cr)) && r.Ensure? && SelectorOf(r.desired.body).Some?
    requires q in Flatten(Stages(cr')) && q.Ensure? && TemplateOf(q.desired.body).Some?
    requires cr.id.ns == cr'.id.ns
    ensures Carries(TemplateOf(q.desired.body).value.labels, SelectorOf(r.desired.body).value)
            <==> cr.id == cr'.id && q.key == WorkloadKey(cr.id, RoleServed(cr.id, r.key))
  {
    hide Flatten, Stages, CommonLabels, RoleServed, WorkloadKey;
    PlanWired(cr);
    PlanWired(cr');
    assert SelectsItsRole(cr.id, r) && RunsItsRole(cr'.id, q);
    var role := RoleServed(cr.id, r.key);
    var role' :| role' in WORKLOAD_ROLES && q.key == WorkloadKey(cr'.id, role')
                 && TemplateOf(q.desired.body).value.labels == CommonLabels(cr'.id, role');
    LabelsTell(cr.id, role, cr'.id, role');
    if cr.id == cr'.id && q.key == WorkloadKey(cr.id, role) { WorkloadKeyTells(cr.id, role, role'); }
  }

  // ---------- what the server would refuse never comes up ----------

  /** The role a binding of the plan is to. */
  function RoleBound(id: CrId, key: Key): string {
    if key == ReaderBindingKey(id) then READER_ROLE else if key == FixerBindingKey(id) then FIXER_ROLE else key.name
  }

  predicate BindsItsRole(id: CrId, r: Request) {
    r.Ensure? && r.desired.body.BindingBody? ==> r.desired.body.roleRef == RoleBound(id, r.key)
  }

  ghost predicate AllBound(id: CrId, rs: seq<Request>) { forall r :: r in rs ==> BindsItsRole(id, r) }

  lemma WorkloadsBindNothing(cr: Cr)
    ensures AllBound(cr.id, ServiceAccountStage(cr)) && AllBound(cr.id, WatcherStage(cr)) && AllBound(cr.id, DiagnoseStage(cr))
    ensures AllBound(cr.id, RemediateStage(cr)) && AllBound(cr.id, AiWatchStage(cr)) && AllBound(cr.id, RagStage(cr))
  {
    hide RoleBound, WatcherPod, AiPod, CronPod, CommonLabels, AlertingArgs, AlertingEnv, HealthInfoArgs, HealthInfoEnv;
  }

  lemma PairsAreBound(id: CrId, ps: seq<RolePair>)
    requires forall p :: p in ps ==> p.role.body.RoleBody? && p.binding.body.BindingBody? && p.binding.body.roleRef == p.name
    ensures AllBound(id, PairsRequests(ps))
  {
    if ps != [] {
      assert ps[0] in ps;
      PairsAreBound(id, ps[1..]);
    }
  }

  lemma AccessIsBound(cr: Cr)
    ensures AllBound(cr.id, ReaderStage(cr))
    ensures ApprovalEnabled(cr.spec) ==> AllBound(cr.id, ApprovalHead(cr))
  {
    assert READER_ROLE != FIXER_ROLE;
    BindingNamesApart(cr.id);
    hide ReaderBindingName, FixerBindingName, CommonLabels, ClusterLabels, BindingLabels, ApprovalName, ServiceAccountName;
  }

  lemma BindingNamesApart(id: CrId)
    ensures ReaderBindingName(id) != FixerBindingName(id)
  {
    assert ReaderBindingName(id)[16] == 'w' && FixerBindingName(id)[16] == 'a';
  }

  lemma PairsBind(cr: Cr)
    ensures forall p :: p in RolePairs(cr) ==> p.role.body.RoleBody? && p.binding.body.BindingBody? && p.binding.body.roleRef == p.name
  {
    hide SigningReaderName, EventsName, StoresName, SilenceWriterName, CommonLabels;
  }

  lemma ApprovalIsBound(cr: Cr)
    ensures AllBound(cr.id, ApprovalStage(cr))
  {
    hide RoleBound, ApprovalHead, PairsRequests, RolePairs, ApprovalPod, CommonLabels;
    if ApprovalEnabled(cr.spec) {
      AccessIsBound(cr);
      PairsBind(cr);
      PairsAreBound(cr.id, RolePairs(cr));
    }
  }

  lemma PlanIsBound(cr: Cr)
    ensures AllBound(cr.id, Flatten(Stages(cr)))
  {
    hide ServiceAccountStage, ReaderStage, WatcherStage, DiagnoseStage, RemediateStage, AiWatchStage, RagStage, ApprovalStage, BindsItsRole;
    WorkloadsBindNothing(cr);
    AccessIsBound(cr);
    ApprovalIsBound(cr);
    FlattenStages(cr);
    hide Stages;
  }

  /** What an update must not change is as it was built. */
  predicate Rooted(live: Body, built: Body) {
    && (built.DeploymentBody? ==> live.DeploymentBody? && live.selector == built.selector)
    && (built.StatefulSetBody? ==> live.StatefulSetBody? && live.selector == built.selector)
    && (built.BindingBody? ==> live.BindingBody? && live.roleRef == built.roleRef)
  }

  lemma ServesItself(id: CrId, role: string)
    requires role in WORKLOAD_ROLES && KindOfRole(role) != CronJob
    ensures RoleServed(id, WorkloadKey(id, role)) == role
  {
    WorkloadNames(id);
    RolesServed(id);
    hide RoleServed, WorkloadKey;
  }

  /**
  However the specification has changed since a child was built, the server lets the
  operator update it, as long as nobody else has changed what cannot be changed.
  */
  lemma SpecChangesAreAllowed(built: Cr, cr: Cr, q: Request, r: Request, live: Body)
    requires built.id == cr.id && q in Flatten(Stages(built)) && r in Flatten(Stages(cr)) && q.key == r.key && q.Ensure? && r.Ensure?
    requires BodyFits(r.key.kind, live) && Rooted(live, q.desired.body)
    ensures Admits(live, MergeBody(live, r.desired.body))
  {
    hide Flatten, Stages, CommonLabels, RoleServed, WorkloadKey, RoleBound;
    PlanWired(built);
    PlanWired(cr);
    PlanIsBound(built);
    PlanIsBound(cr);
    PlanIsSound(built);
    PlanIsSound(cr);
    assert SelectsItsRole(built.id, q) && RunsItsRole(cr.id, r) && BindsItsRole(cr.id, r) && BindsItsRole(cr.id, q);
    if r.key.kind == Deployment || r.key.kind == StatefulSet {
      var role :| role in WORKLOAD_ROLES && r.key == WorkloadKey(cr.id, role)
                  && TemplateOf(r.desired.body).value.labels == CommonLabels(cr.id, role);
      KindIsRole(cr.id, role);
      ServesItself(cr.id, role);
    }
  }

  lemma KindIsRole(id: CrId, role: string)
    ensures WorkloadKey(id, role).kind == KindOfRole(role)
  {
  }

  // ---------- ports and the workload behind a Service ----------

  predicate Declares(p: Pod, name: string) { exists port :: port in p.ports && port.name == name }

  predicate PortsDeclared(svc: Desired, pod: Pod) {
    svc.body.ServiceBody? && forall p :: p in svc.body.ports ==> Declares(pod, p.targetPort)
  }

  lemma PortIsDeclared(svc: Desired, pod: Pod, i: nat)
    requires svc.body.ServiceBody? && |svc.body.ports| == 1 && i < |pod.ports| && pod.ports[i].name == svc.body.ports[0].targetPort
    ensures PortsDeclared(svc, pod)
  {
  }

  lemma RagBackend(cr: Cr)
    requires MemoryEnabled(cr.spec)
    ensures PortsDeclared(BuildRagService(cr).value, BuildRag(cr).value.body.template)
  {
    hide CommonLabels;
  }

  /** Wherever a Service is wanted, so is the workload behind it, and that declares the ports the Service names. */
  lemma ServicesHaveBackends(cr: Cr)
    ensures BuildWebhookService(cr).Some? ==>
              BuildWatcher(cr).Some? && PortsDeclared(BuildWebhookService(cr).value, BuildWatcher(cr).value.body.template)
    ensures BuildMetricsService(cr).Some? ==>
              BuildAiWatch(cr).Some? && PortsDeclared(BuildMetricsService(cr).value, BuildAiWatch(cr).value.body.template)
    ensures BuildRagService(cr).Some? ==>
              BuildRag(cr).Some? && PortsDeclared(BuildRagService(cr).value, BuildRag(cr).value.body.template)
    ensures BuildApprovalService(cr).Some? ==>
              BuildApproval(cr).Some? && PortsDeclared(BuildApprovalService(cr).value, BuildApproval(cr).value.body.template)
  {
    hide CommonLabels, AlertingArgs, AlertingEnv, StoreArgs, PortsDeclared;
    if WebhookServiceOn(cr.spec) { PortIsDeclared(BuildWebhookService(cr).value, WatcherPod(cr), 1); }
    if MetricsOn(cr.spec) { PortIsDeclared(BuildMetricsService(cr).value, AiPod(cr), 0); }
    if MemoryEnabled(cr.spec) { RagBackend(cr); }
    if ApprovalEnabled(cr.spec) { PortIsDeclared(BuildApprovalService(cr).value, ApprovalPod(cr), 0); }
  }

  /** Behind a Service's port of that name, the pod listens. */
  predicate LeadsTo(path: IngressPath, svc: Desired, pod: Pod) {
    svc.body.ServiceBody? && exists p :: p in svc.body.ports && p.name == path.port && Declares(pod, p.targetPort)
  }

  /** All four paths of the Ingress lead through a port of the plan's own Service to its pods, and the policy lets in what they listen on. */
  lemma FrontDoorsLeadIn(cr: Cr)
    ensures BuildIngress(cr).Some? ==>
              && BuildApprovalService(cr).Some? && BuildApproval(cr).Some?
              && var paths := BuildIngress(cr).value.body.routes.paths;
                 && (forall d :: d in ["/approve", "/deny", "/silence", "/healthz"] <==> exists p :: p in paths && p.path == d)
                 && (forall p :: p in paths ==>
                       p.service == ApprovalName(cr.id)
                       && LeadsTo(p, BuildApprovalService(cr).value, BuildApproval(cr).value.body.template))
    ensures BuildNetworkPolicy(cr).Some? ==>
              && BuildApprovalService(cr).Some? && BuildApproval(cr).Some?
              && (exists p :: p in BuildApproval(cr).value.body.template.ports && p.number == BuildNetworkPolicy(cr).value.body.port)
              && (forall s :: s in BuildApprovalService(cr).value.body.ports ==>
                    exists p :: p in BuildApproval(cr).value.body.template.ports
                                && p.name == s.targetPort && p.number == BuildNetworkPolicy(cr).value.body.port)
  {
    hide CommonLabels, StoreArgs;
    if IngressEnabled(cr.spec) {
      var paths := BuildIngress(cr).value.body.routes.paths;
      var svc, pod := BuildApprovalService(cr).value, ApprovalPod(cr);
      assert svc.body.ports[0].name == "http" && pod.ports[0].name == "http";
      assert Declares(pod, svc.body.ports[0].targetPort);
      forall d | d in FRONT_DOORS ensures exists p :: p in paths && p.path == d {
        var i :| 0 <= i < |FRONT_DOORS| && FRONT_DOORS[i] == d;
        assert paths[i] in paths;
      }
      forall p | p in paths ensures p.path in FRONT_DOORS && p.service == ApprovalName(cr.id) && LeadsTo(p, svc, pod) {
        var i :| 0 <= i < |paths| && paths[i] == p;
        assert svc.body.ports[0] in svc.body.ports;
      }
    }
    if NetpolEnabled(cr.spec) {
      var pod := ApprovalPod(cr);
      assert pod.ports[0] in pod.ports;
    }
  }

  // ---------- variables ----------

  function Variables(args: seq<Arg>): set<string> { set a | a in args && a.FromEnv? :: a.variable }

  function Names(env: seq<EnvVar>): set<string> { set e | e in env :: e.name }

  lemma VariablesConcat(a: seq<Arg>, b: seq<Arg>)
    ensures Variables(a + b) == Variables(a) + Variables(b)
  {
  }

  lemma NamesConcat(a: seq<EnvVar>, b: seq<EnvVar>)
    ensures Names(a + b) == Names(a) + Names(b)
  {
  }

  lemma SlackVariables(s: CrSpec)
    ensures Variables(AlertingArgs(s)) == Names(AlertingEnv(s))
    ensures Variables(HealthInfoArgs(s)) == Names(HealthInfoEnv(s))
  {
    if s.slack.Some? {
      var a := if ChannelOn(s.slack.value.alerts) then [FromEnv("--slack-alerts=", "SLACK_ALERTS_URL")] else [];
      var b := if ChannelOn(s.slack.value.critical) then [FromEnv("--slack-critical=", "SLACK_CRITICAL_URL")] else [];
      var c := if ChannelOn(s.slack.value.alerts) then [SecretEnv("SLACK_ALERTS_URL", s.slack.value.alerts.value)] else [];
      var d := if ChannelOn(s.slack.value.critical) then [SecretEnv("SLACK_CRITICAL_URL", s.slack.value.critical.value)] else [];
      VariablesConcat(a, b);
      NamesConcat(c, d);
      OneVariable(a, c, "SLACK_ALERTS_URL");
      OneVariable(b, d, "SLACK_CRITICAL_URL");
      if ChannelOn(s.slack.value.healthInfo) { OneVariable(HealthInfoArgs(s), HealthInfoEnv(s), "SLACK_HEALTHINFO_URL"); }
    }
  }

  lemma OneVariable(a: seq<Arg>, e: seq<EnvVar>, variable: string)
    requires |a| == |e| <= 1
    requires a != [] ==> a[0].FromEnv? && a[0].variable == variable && e[0].name == variable
    ensures Variables(a) == Names(e)
  {
  }

  lemma NoVariables(args: seq<Arg>)
    requires forall i :: 0 <= i < |args| ==> args[i].Text?
    ensures Variables(args) == {}
  {
  }

  /** The variables that carry a Slack address. */
  const SLACK := {"SLACK_ALERTS_URL", "SLACK_CRITICAL_URL", "SLACK_HEALTHINFO_URL"}

  /** What the arguments expand is set, and of the Slack variables nothing else is, unless it was passed through. */
  predicate SetAsUsed(p: Pod, passed: seq<EnvVar>) {
    Variables(p.args) <= Names(p.env) && Names(p.env) * SLACK == Variables(p.args) + Names(passed) * SLACK
  }

  /** The second letter of every Slack variable is an L. */
  lemma NoSlack(env: seq<EnvVar>)
    requires forall i :: 0 <= i < |env| ==> |env[i].name| > 1 && env[i].name[1] != 'L'
    ensures Names(env) !! SLACK
  {
  }

  lemma AllSlack(env: seq<EnvVar>)
    requires forall i :: 0 <= i < |env| ==> env[i].name in SLACK
    ensures Names(env) <= SLACK
  {
  }

  lemma AlertingIsSlack(s: CrSpec)
    ensures Names(AlertingEnv(s)) <= SLACK && Names(HealthInfoEnv(s)) <= SLACK
  {
    AllSlack(AlertingEnv(s));
    AllSlack(HealthInfoEnv(s));
  }

  lemma OthersAreNot(s: CrSpec)
    ensures Names(POD_ENV) !! SLACK && Names(SIGNING_KEY_ENV) !! SLACK && Names(ProtectedEnv(s)) !! SLACK
  {
    hide SLACK, Names;
    NoSlack(POD_ENV);
    NoSlack(SIGNING_KEY_ENV);
    NoSlack(ProtectedEnv(s));
  }

  lemma SlackOnly(s: CrSpec)
    ensures Names(AlertingEnv(s)) <= SLACK && Names(HealthInfoEnv(s)) <= SLACK
    ensures Names(POD_ENV) !! SLACK && Names(SIGNING_KEY_ENV) !! SLACK && Names(ProtectedEnv(s)) !! SLACK
    ensures Names([]) == {}
  {
    AlertingIsSlack(s);
    OthersAreNot(s);
    hide AlertingEnv, HealthInfoEnv, ProtectedEnv;
  }

  lemma WatcherVariables(cr: Cr)
    requires WatcherEnabled(cr.spec)
    ensures SetAsUsed(WatcherPod(cr), cr.spec.watcher.value.env)
  {
    SlackVariables(cr.spec);
    SlackOnly(cr.spec);
    hide AlertingArgs, AlertingEnv, ProtectedEnv, CommonLabels, Variables, Names;
    var first, last := [Text("watch"), Text("--live")], Texts(cr.spec.watcher.value.flags);
    NoVariables(first);
    NoVariables(last);
    VariablesConcat(first + AlertingArgs(cr.spec), last);
    VariablesConcat(first, AlertingArgs(cr.spec));
    var slack, passed := AlertingEnv(cr.spec), cr.spec.watcher.value.env;
    NamesConcat(POD_ENV + slack + passed, ProtectedEnv(cr.spec));
    NamesConcat(POD_ENV + slack, passed);
    NamesConcat(POD_ENV, slack);
  }

  lemma CronJobVariables(cr: Cr)
    ensures BuildDiagnose(cr).Some? ==> SetAsUsed(BuildDiagnose(cr).value.body.job, [])
    ensures BuildRemediate(cr).Some? ==> SetAsUsed(BuildRemediate(cr).value.body.job, [])
  {
    SlackVariables(cr.spec);
    SlackOnly(cr.spec);
    hide HealthInfoArgs, HealthInfoEnv, ProtectedEnv, CommonLabels, Variables, Names;
    if BuildDiagnose(cr).Some? {
      var first := [Text("diagnose"), Text("--live"), Text("--format=daily")];
      NoVariables(first);
      VariablesConcat(first, HealthInfoArgs(cr.spec));
      NamesConcat(HealthInfoEnv(cr.spec), ProtectedEnv(cr.spec));
    }
    if BuildRemediate(cr).Some? {
      NoVariables(BuildRemediate(cr).value.body.job.args);
      NamesConcat([], ProtectedEnv(cr.spec));
    }
  }

  lemma ServerVariables(cr: Cr)
    ensures AiEnabled(cr.spec) ==> SetAsUsed(AiPod(cr), cr.spec.ai.value.env)
    ensures ApprovalEnabled(cr.spec) ==> SetAsUsed(ApprovalPod(cr), [])
  {
    SlackOnly(cr.spec);
    hide ProtectedEnv, CommonLabels, StoreArgs, Variables, Names;
    if AiEnabled(cr.spec) {
      var passed, key := cr.spec.ai.value.env, if ApprovalEnabled(cr.spec) then SIGNING_KEY_ENV else [];
      NoVariables(AiPod(cr).args);
      NamesConcat(POD_ENV + passed + ProtectedEnv(cr.spec), key);
      NamesConcat(POD_ENV + passed, ProtectedEnv(cr.spec));
      NamesConcat(POD_ENV, passed);
    }
    if ApprovalEnabled(cr.spec) { ApprovalArgsAreTexts(cr); NoVariables(ApprovalPod(cr).args); }
  }

  lemma ApprovalArgsAreTexts(cr: Cr)
    ensures forall i :: 0 <= i < |ApprovalPod(cr).args| ==> ApprovalPod(cr).args[i].Text?
  {
    hide CommonLabels;
  }

  /**
  Every variable a container's arguments expand is set in it. The Slack variables set are
  exactly those expanded, so no pod asks for a Slack Secret that it has no use for.
  */
  lemma VariablesAreSet(cr: Cr)
    ensures BuildWatcher(cr).Some? ==> SetAsUsed(BuildWatcher(cr).value.body.template, cr.spec.watcher.value.env)
    ensures BuildDiagnose(cr).Some? ==> SetAsUsed(BuildDiagnose(cr).value.body.job, [])
    ensures BuildRemediate(cr).Some? ==> SetAsUsed(BuildRemediate(cr).value.body.job, [])
    ensures BuildAiWatch(cr).Some? ==> SetAsUsed(BuildAiWatch(cr).value.body.template, cr.spec.ai.value.env)
    ensures BuildApproval(cr).Some? ==> SetAsUsed(BuildApproval(cr).value.body.template, [])
  {
    hide BuildDiagnose, BuildRemediate, WatcherPod, AiPod, ApprovalPod, CommonLabels, SetAsUsed;
    CronJobVariables(cr);
    ServerVariables(cr);
    if WatcherEnabled(cr.spec) { WatcherVariables(cr); }
  }
}
