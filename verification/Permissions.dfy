/**
What the parts of one plan may do and to whom they belong: owners, the rules behind the
roles and the names handed to the pods, and the marks that cleaning up goes by.
*/
module Permissions {
  import opened Options
  import opened Spec
  import opened Store
  import opened Builders
  import opened Plan
  import opened Convergence
  import opened Naming
  import opened Access

  // ---------- who owns what ----------

  /** Exactly what lives in the resource's namespace goes with it. */
  predicate OwnedAtHome(id: CrId, r: Request) {
    r.Ensure? ==> (r.desired.owned <==> r.key.kind != ClusterRole && r.key.kind != ClusterRoleBinding && r.key.ns == id.ns)
  }

  ghost predicate AllAtHome(id: CrId, rs: seq<Request>) { forall r :: r in rs ==> OwnedAtHome(id, r) }

  lemma WorkloadsAtHome(cr: Cr)
    ensures AllAtHome(cr.id, ServiceAccountStage(cr)) && AllAtHome(cr.id, WatcherStage(cr)) && AllAtHome(cr.id, DiagnoseStage(cr))
    ensures AllAtHome(cr.id, RemediateStage(cr)) && AllAtHome(cr.id, AiWatchStage(cr)) && AllAtHome(cr.id, RagStage(cr))
  {
    hide WatcherPod, AiPod, CronPod, CommonLabels;
  }

  lemma PairsAtHome(id: CrId, ps: seq<RolePair>)
    requires forall p :: p in ps ==> (p.role.owned <==> p.ns == id.ns) && (p.binding.owned <==> p.ns == id.ns)
    ensures AllAtHome(id, PairsRequests(ps))
  {
    if ps != [] {
      assert ps[0] in ps;
      PairsAtHome(id, ps[1..]);
    }
  }

  lemma PairsOwned(cr: Cr)
    ensures forall p :: p in RolePairs(cr) ==> (p.role.owned <==> p.ns == cr.id.ns) && (p.binding.owned <==> p.ns == cr.id.ns)
  {
    hide CommonLabels, SigningReaderName, EventsName, StoresName, SilenceWriterName, AuditNamespace, StoreNamespace;
  }

  lemma ApprovalAtHome(cr: Cr)
    ensures AllAtHome(cr.id, ApprovalStage(cr)) && AllAtHome(cr.id, ReaderStage(cr))
  {
    hide CommonLabels, ApprovalPod, BindingLabels, ClusterLabels, RolePairs, PairsRequests;
    if ApprovalEnabled(cr.spec) {
      PairsOwned(cr);
      PairsAtHome(cr.id, RolePairs(cr));
      EndsAtHome(cr);
      hide ApprovalHead, ApprovalTail, OwnedAtHome;
    }
  }

  lemma EndsAtHome(cr: Cr)
    requires ApprovalEnabled(cr.spec)
    ensures AllAtHome(cr.id, ApprovalHead(cr)) && AllAtHome(cr.id, ApprovalTail(cr))
  {
    hide CommonLabels, ApprovalPod, BindingLabels, ClusterLabels;
  }

  /** Of everything a plan asks for, exactly what lives in the resource's namespace is owned by it. */
  lemma PlanIsAtHome(cr: Cr)
    ensures AllAtHome(cr.id, Flatten(Stages(cr)))
  {
    hide ServiceAccountStage, ReaderStage, WatcherStage, DiagnoseStage, RemediateStage, AiWatchStage, RagStage, ApprovalStage, OwnedAtHome;
    WorkloadsAtHome(cr);
    ApprovalAtHome(cr);
    FlattenStages(cr);
    hide Stages;
  }

  /** A new signing key goes with the resource too: it is made of the pair drawn for it, with the labels asked for. */
  lemma NewKeyIsAtHome(r: Request, cr: Cr, st: State, draw: KeyPair)
    requires r.EnsureSecret? && r.key !in st.objs
    ensures var m := Step(r, Missing, cr, st, Served, draw);
            && m.progress == Done(None) && r.key in m.st.objs
            && var o := m.st.objs[r.key]; o.owner == Some(cr.uid) && o.body == SecretBody(draw) && o.labels == r.labels
  {
  }

  // ---------- permissions and the names handed to the pods ----------

  /** The approval pods' role of this kind, wherever it lives. */
  ghost predicate RoleAt(rs: seq<Request>, ns: string, name: string, rules: Rules) {
    exists r :: Asks(rs, r) && r.key == Key(Role, ns, name) && r.desired.body == RoleBody(rules)
  }

  predicate Handed(cr: Cr, text: string)
    requires ApprovalEnabled(cr.spec)
  {
    Text(text) in BuildApproval(cr).value.body.template.args
  }

  /**
  The approval pods may read the very Secret that the sub-reconcile provides, may write events in the very
  namespace they are told to audit to, and may write silences at home.
  */
  lemma PermissionsFit(cr: Cr)
    requires ApprovalEnabled(cr.spec)
    ensures exists secret, labels ::
              && EnsureSecret(Key(Secret, cr.id.ns, secret), labels) in ApprovalStage(cr)
              && RoleAt(ApprovalStage(cr), cr.id.ns, cr.id.name + "-approval-server-signing-reader", SigningReaderRules(secret))
    ensures exists ns ::
              && Handed(cr, "--audit-namespace=" + ns)
              && RoleAt(ApprovalStage(cr), ns, cr.id.name + "-approval-server-events", EventRules)
    ensures RoleAt(ApprovalStage(cr), cr.id.ns, cr.id.name + "-approval-server-silence-writer", SilenceRules)
  {
    hide CommonLabels, SigningSecretName, AuditNamespace, StoreArgs;
    var ps, id := RolePairs(cr), cr.id;
    PairAt(cr, ps, 0);
    PairAt(cr, ps, 1);
    PairAt(cr, ps, |ps| - 1);
    assert EnsureSecret(Key(Secret, id.ns, SigningSecretName(cr.spec)), CommonLabels(id, "approval-server")) == ApprovalHead(cr)[0];
    assert ApprovalStage(cr)[0] == ApprovalHead(cr)[0];
    assert BuildApproval(cr).value.body.template.args[3] == Text("--audit-namespace=" + AuditNamespace(id, cr.spec));
    assert Handed(cr, "--audit-namespace=" + AuditNamespace(id, cr.spec));
    hide ApprovalStage, RolePairs, Handed;
  }

  lemma PairIsAsked(ps: seq<RolePair>, i: nat)
    requires i < |ps|
    ensures Ensure(Key(Role, ps[i].ns, ps[i].name), ps[i].role) in PairsRequests(ps)
  {
    if i > 0 { PairIsAsked(ps[1..], i - 1); }
  }

  lemma PairAt(cr: Cr, ps: seq<RolePair>, i: nat)
    requires ApprovalEnabled(cr.spec) && ps == RolePairs(cr) && i < |ps| && ps[i].role.body.RoleBody?
    ensures RoleAt(ApprovalStage(cr), ps[i].ns, ps[i].name, ps[i].role.body.rules)
  {
    PairIsAsked(ps, i);
    var r := Ensure(Key(Role, ps[i].ns, ps[i].name), ps[i].role);
    hide ApprovalHead, ApprovalTail, RolePairs, PairsRequests;
    assert r in ApprovalStage(cr);
    assert Asks(ApprovalStage(cr), r);
  }

  /**
  A store in config maps comes with a role that covers the very two config maps the pods are told of, in the namespace
  they are told of, or their own if they are told of none. No other backend comes with such a role.
  */
  lemma StoresFit(cr: Cr)
    requires ApprovalEnabled(cr.spec)
    ensures StoreBackend(cr.spec) == "configmap" ==>
              exists ns, replay, runbook ::
                && RoleAt(ApprovalStage(cr), ns, cr.id.name + "-approval-server-stores", StoreRules(replay, runbook))
                && Handed(cr, "--store-backend=configmap")
                && Handed(cr, "--store-replay-configmap=" + replay) && Handed(cr, "--store-runbook-configmap=" + runbook)
                && (Handed(cr, "--store-namespace=" + ns) || ns == cr.id.ns)
    ensures StoreBackend(cr.spec) != "configmap" ==>
              forall r :: Asks(ApprovalStage(cr), r) && r.key.kind == Role ==> r.key.name != cr.id.name + "-approval-server-stores"
  {
    if StoreBackend(cr.spec) == "configmap" {
      StoreIsHanded(cr);
      var ns, replay, runbook := StoreNamespace(cr.id, cr.spec), ReplayConfigMap(cr.spec), RunbookConfigMap(cr.spec);
      StoresPairAt(cr);
      PairAt(cr, RolePairs(cr), 2);
      hide ApprovalStage, RolePairs, Handed, StoreArgs, StoreBackend;
    } else {
      NoStores(cr);
    }
  }

  lemma StoresPairAt(cr: Cr)
    requires StoreBackend(cr.spec) == "configmap"
    ensures |RolePairs(cr)| == 4
    ensures var p := RolePairs(cr)[2];
            && p.ns == StoreNamespace(cr.id, cr.spec) && p.name == cr.id.name + "-approval-server-stores"
            && p.role.body == RoleBody(StoreRules(ReplayConfigMap(cr.spec), RunbookConfigMap(cr.spec)))
  {
    hide CommonLabels, StoreNamespace, ReplayConfigMap, RunbookConfigMap;
  }

  lemma HandedAt(cr: Cr, i: nat)
    requires ApprovalEnabled(cr.spec) && i < |StoreArgs(cr)| && StoreArgs(cr)[i].Text?
    ensures Handed(cr, StoreArgs(cr)[i].text)
  {
    hide CommonLabels, StoreArgs, AuditNamespace;
    var args := BuildApproval(cr).value.body.template.args;
    assert args[4 + i] == StoreArgs(cr)[i];
    assert args[4 + i] in args;
  }

  lemma StoreIsHanded(cr: Cr)
    requires ApprovalEnabled(cr.spec) && StoreBackend(cr.spec) == "configmap"
    ensures Handed(cr, "--store-backend=configmap")
    ensures Handed(cr, "--store-replay-configmap=" + ReplayConfigMap(cr.spec)) && Handed(cr, "--store-runbook-configmap=" + RunbookConfigMap(cr.spec))
    ensures Handed(cr, "--store-namespace=" + StoreNamespace(cr.id, cr.spec)) || StoreNamespace(cr.id, cr.spec) == cr.id.ns
  {
    hide ReplayConfigMap, RunbookConfigMap, Handed;
    var n := |StoreArgs(cr)|;
    HandedAt(cr, 0);
    HandedAt(cr, 1);
    HandedAt(cr, n - 2);
    HandedAt(cr, n - 1);
    assert "--store-backend=" + "configmap" == "--store-backend=configmap";
  }

  lemma NoStores(cr: Cr)
    requires ApprovalEnabled(cr.spec) && StoreBackend(cr.spec) != "configmap"
    ensures forall r :: Asks(ApprovalStage(cr), r) && r.key.kind == Role ==> r.key.name != cr.id.name + "-approval-server-stores"
  {
    RoleNamesDiffer(cr.id);
    PairsNamed(RolePairs(cr), cr.id.name + "-approval-server-stores");
    EndsHaveNoRole(cr);
    hide ApprovalHead, ApprovalTail, PairsRequests, Pair, SigningReaderName, EventsName, StoresName, SilenceWriterName;
  }

  lemma PairsNamed(ps: seq<RolePair>, name: string)
    requires forall p :: p in ps ==> p.name != name
    ensures forall r :: r in PairsRequests(ps) ==> r.key.name != name
  {
    if ps != [] {
      assert ps[0] in ps;
      PairsNamed(ps[1..], name);
    }
  }

  lemma EndsHaveNoRole(cr: Cr)
    requires ApprovalEnabled(cr.spec)
    ensures forall r :: r in ApprovalHead(cr) || r in ApprovalTail(cr) ==> r.key.kind != Role
  {
    hide BuildApproval, BuildApprovalService, BuildNetworkPolicy, BuildIngress, BuildApprovalServiceAccount, FixerRole, FixerBinding;
    ApprovalBuilt(cr);
  }

  // ---------- the marks that cleaning up goes by ----------

  ghost predicate MarkedFor(id: CrId, r: Request) {
    r.Ensure? && r.key.kind == ClusterRoleBinding ==>
      Carries(r.desired.labels, map["srenix.ai/managed-by-cr" := id.name, "srenix.ai/cr-namespace" := id.ns])
  }

  lemma BindingsMarked(cr: Cr)
    ensures forall r :: r in ReaderStage(cr) ==> MarkedFor(cr.id, r)
    ensures ApprovalEnabled(cr.spec) ==> forall r :: r in ApprovalHead(cr) ==> MarkedFor(cr.id, r)
  {
    assert |CR_LABEL| == 23 && |CR_NAMESPACE_LABEL| == 22;
  }

  lemma OthersHaveNoBinding(cr: Cr)
    ensures forall r :: r in ServiceAccountStage(cr) || r in WatcherStage(cr) || r in DiagnoseStage(cr) ==> r.key.kind != ClusterRoleBinding
    ensures forall r :: r in RemediateStage(cr) || r in AiWatchStage(cr) || r in RagStage(cr) ==> r.key.kind != ClusterRoleBinding
  {
    hide BuildWatcher, BuildWebhookService, BuildDiagnose, BuildRemediate, BuildAiWatch, BuildMetricsService, BuildRag, BuildRagService,
      BuildServiceAccount;
  }

  lemma ApprovalMarked(cr: Cr)
    ensures forall r :: r in ApprovalStage(cr) ==> MarkedFor(cr.id, r)
  {
    hide MarkedFor, ApprovalHead, ApprovalTail, PairsRequests, RolePairs;
    if ApprovalEnabled(cr.spec) {
      BindingsMarked(cr);
      TailMarked(cr);
      forall r | r in PairsRequests(RolePairs(cr)) ensures MarkedFor(cr.id, r) { PairMarked(cr.id, RolePairs(cr), r); }
    } else {
      TeardownAsksNothing(cr);
      forall r | r in ApprovalTeardown(cr) ensures MarkedFor(cr.id, r) { NotAsked(cr.id, r); }
    }
  }

  lemma NotAsked(id: CrId, r: Request)
    requires !r.Ensure?
    ensures MarkedFor(id, r)
  {
  }

  lemma PairMarked(id: CrId, ps: seq<RolePair>, r: Request)
    requires r in PairsRequests(ps)
    ensures MarkedFor(id, r)
  {
    NotInPairs(ps, r);
  }

  lemma TailMarked(cr: Cr)
    requires ApprovalEnabled(cr.spec)
    ensures forall r :: r in ApprovalTail(cr) ==> MarkedFor(cr.id, r)
  {
    hide BuildApproval, BuildApprovalService, BuildNetworkPolicy, BuildIngress;
    ApprovalBuilt(cr);
  }

  /** Every cluster-wide binding of a plan is wanted with the marks that the finalizer looks for. */
  lemma PlanIsMarked(cr: Cr, r: Request)
    requires r in Flatten(Stages(cr))
    ensures MarkedFor(cr.id, r)
  {
    hide MarkedFor, ServiceAccountStage, ReaderStage, WatcherStage, DiagnoseStage, RemediateStage, AiWatchStage, RagStage, ApprovalStage;
    FlattenStages(cr);
    BindingsMarked(cr);
    ApprovalMarked(cr);
    OthersHaveNoBinding(cr);
    hide Stages;
    if r.key.kind != ClusterRoleBinding { OfOtherKind(cr.id, r); }
  }

  lemma OfOtherKind(id: CrId, r: Request)
    requires r.key.kind != ClusterRoleBinding
    ensures MarkedFor(id, r)
  {
  }

  /** So what a plan has achieved of its cluster-wide bindings, the finalizer will know as the resource's own. */
  lemma FinalizerKnowsItsBindings(cr: Cr, st: State, r: Request)
    requires r in Flatten(Stages(cr)) && r.Ensure? && r.key.kind == ClusterRoleBinding && Achieved(st, r)
    ensures r.key in st.objs && BoundTo(st.objs[r.key], cr.id)
  {
    PlanIsMarked(cr, r);
    hide Flatten, Stages;
    assert LabelOf(st.objs[r.key].labels, "srenix.ai/managed-by-cr") == cr.id.name;
    assert LabelOf(st.objs[r.key].labels, "srenix.ai/cr-namespace") == cr.id.ns;
  }
}
