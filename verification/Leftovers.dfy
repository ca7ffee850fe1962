/**
Where the operator does less, or more, than its comments say: what switching
features off leaves behind, and whose objects it can take away.
*/
module Leftovers {
  import opened Spec
  import opened Store
  import opened Builders
  import opened Plan
  import opened Convergence
  import opened Naming
  import opened Converged

  predicate RoleLike(key: Key) { key.kind == Role || key.kind == RoleBinding }

  /** The namespaced roles and bindings that the disable path deletes. */
  predicate TornDown(cr: Cr, key: Key) {
    || (key.ns == cr.id.ns && (key.name == SigningReaderName(cr.id) || key.name == StoresName(cr.id)))
    || (key.ns == AuditNamespace(cr.id, cr.spec) && key.name == EventsName(cr.id))
  }

  /** The namespaced roles and bindings a plan can touch. */
  predicate RoleTouched(cr: Cr, key: Key) {
    if ApprovalEnabled(cr.spec) then exists p :: p in RolePairs(cr) && key.ns == p.ns && key.name == p.name else TornDown(cr, key)
  }

  lemma PairsTouch(cr: Cr, ps: seq<RolePair>)
    ensures forall r :: r in PairsRequests(ps) ==> exists p :: p in ps && r.key.ns == p.ns && r.key.name == p.name
  {
    hide Pair;
  }

  lemma EndsTouchNoRole(cr: Cr)
    requires ApprovalEnabled(cr.spec)
    ensures forall r :: r in ApprovalHead(cr) || r in ApprovalTail(cr) ==> !RoleLike(r.key)
  {
    hide BuildApproval, BuildApprovalService, BuildNetworkPolicy, BuildIngress, BuildApprovalServiceAccount, FixerRole, FixerBinding;
  }

  lemma WorkloadsTouchNoRole(cr: Cr)
    ensures forall r :: r in ServiceAccountStage(cr) || r in ReaderStage(cr) || r in WatcherStage(cr) || r in DiagnoseStage(cr) ==> !RoleLike(r.key)
    ensures forall r :: r in RemediateStage(cr) || r in AiWatchStage(cr) || r in RagStage(cr) ==> !RoleLike(r.key)
  {
    hide BuildWatcher, BuildWebhookService, BuildDiagnose, BuildRemediate, BuildAiWatch, BuildMetricsService, BuildRag, BuildRagService,
      BuildServiceAccount, ReaderRole, ReaderBinding;
  }

  lemma TeardownTouches(cr: Cr, r: Request)
    requires r in ApprovalTeardown(cr) && RoleLike(r.key) && !ApprovalEnabled(cr.spec)
    ensures RoleTouched(cr, r.key)
  {
    hide ApprovalName, SigningReaderName, EventsName, StoresName;
  }

  lemma TornDownIsPurged(cr: Cr, key: Key)
    requires RoleLike(key) && !ApprovalEnabled(cr.spec) && TornDown(cr, key)
    ensures Purge(key) in Flatten(Stages(cr))
  {
    hide ServiceAccountStage, ReaderStage, WatcherStage, DiagnoseStage, RemediateStage, AiWatchStage, RagStage,
      SigningReaderName, EventsName, StoresName;
    FlattenStages(cr);
    var t := ApprovalTeardown(cr);
    assert t[5] in t && t[6] in t && t[7] in t && t[8] in t && t[9] in t && t[10] in t;
    assert Purge(key) in ApprovalStage(cr);
    hide Stages, ApprovalStage;
  }

  lemma PlanTouches(cr: Cr, r: Request)
    requires r in Flatten(Stages(cr)) && RoleLike(r.key)
    ensures RoleTouched(cr, r.key)
  {
    hide ServiceAccountStage, ReaderStage, WatcherStage, DiagnoseStage, RemediateStage, AiWatchStage, RagStage;
    FlattenStages(cr);
    WorkloadsTouchNoRole(cr);
    hide Stages, ApprovalHead, ApprovalTail, PairsRequests, ApprovalTeardown, RolePairs;
    assert r in ApprovalStage(cr);
    if ApprovalEnabled(cr.spec) {
      EndsTouchNoRole(cr);
      PairsTouch(cr, RolePairs(cr));
    } else {
      TeardownTouches(cr, r);
    }
  }

  lemma Untouched(cr: Cr, s: State, s': State, key: Key)
    requires Settled(s, s', cr) && RoleLike(key) && !RoleTouched(cr, key)
    ensures (key in s'.objs <==> key in s.objs) && (key in s.objs ==> s'.objs[key] == s.objs[key])
  {
    hide Flatten, Stages, Achieved, Respects, RoleTouched;
    forall r | r in Flatten(Stages(cr)) && r.key == key ensures false { PlanTouches(cr, r); }
    assert !Within(Flatten(Stages(cr)), key);
  }

  /**
  Switching approval off, without any error, deletes the signing-reader and store roles of the
  resource's own namespace and the events roles of the audit namespace, and leaves every other
  role and binding as it was: the silence-writer's, and store roles kept in another namespace.
  */
  lemma DisablingLeavesRolesBehind(id: CrId, now: int, w: World, key: Key)
    requires Quiet(w.script) && WellTyped(w.st) && Reconcilable(w.st, id)
    requires !ApprovalEnabled(w.st.crs[id].spec) && RoleLike(key)
    ensures var o := RunReconcile(id, now, w);
            o.err.None? ==>
              && (key in o.w.st.objs <==> key in w.st.objs && !TornDown(w.st.crs[id], key))
              && (key in o.w.st.objs ==> o.w.st.objs[key] == w.st.objs[key])
    ensures key.name == SilenceWriterName(id) || (key.name == StoresName(id) && key.ns != id.ns) ==> !TornDown(w.st.crs[id], key)
  {
    hide RunReconcile, Settled;
    RoleNamesDiffer(id);
    hide SigningReaderName, EventsName, StoresName, SilenceWriterName;
    if RunReconcile(id, now, w).err.Some? { return; }
    ReconcileConverges(id, now, w);
    FateOfRole(w.st.crs[id], w.st, RunReconcile(id, now, w).w.st, key);
  }

  lemma FateOfRole(cr: Cr, s: State, s': State, key: Key)
    requires Settled(s, s', cr) && RoleLike(key) && !ApprovalEnabled(cr.spec)
    ensures key in s'.objs <==> key in s.objs && !TornDown(cr, key)
    ensures key in s'.objs ==> s'.objs[key] == s.objs[key]
  {
    hide Flatten, Stages, Respects, TornDown;
    if TornDown(cr, key) {
      TornDownIsPurged(cr, key);
      assert Achieved(s', Purge(key));
    } else {
      Untouched(cr, s, s', key);
    }
  }

  /** Moving the replay store out of config maps leaves the store roles in place, in every namespace. */
  lemma LeavingConfigMapsKeepsStoreRoles(id: CrId, now: int, w: World, key: Key)
    requires Quiet(w.script) && WellTyped(w.st) && Reconcilable(w.st, id)
    requires ApprovalEnabled(w.st.crs[id].spec) && StoreBackend(w.st.crs[id].spec) != "configmap"
    requires RoleLike(key) && key.name == StoresName(id)
    ensures var o := RunReconcile(id, now, w);
            o.err.None? ==>
              (key in o.w.st.objs <==> key in w.st.objs) && (key in w.st.objs ==> o.w.st.objs[key] == w.st.objs[key])
  {
    hide RunReconcile, Settled;
    if RunReconcile(id, now, w).err.Some? { return; }
    ReconcileConverges(id, now, w);
    RoleNamesDiffer(id);
    PairNames(w.st.crs[id]);
    hide SigningReaderName, EventsName, StoresName, SilenceWriterName;
    Untouched(w.st.crs[id], w.st, RunReconcile(id, now, w).w.st, key);
  }

  lemma PairNames(cr: Cr)
    requires StoreBackend(cr.spec) != "configmap"
    ensures forall p :: p in RolePairs(cr) ==> p.name == SigningReaderName(cr.id) || p.name == EventsName(cr.id) || p.name == SilenceWriterName(cr.id)
  {
    hide SigningReaderName, EventsName, SilenceWriterName;
  }

  // ---------- other people's bindings ----------

  lemma BindingKeysMeet(id: CrId, other: CrId)
    ensures FixerBindingKey(id) == FixerBindingKey(other) <==> id.ns + "-" + id.name == other.ns + "-" + other.name
  {
    var stem := "srenix-operator-approval-fixer-";
    assert FixerBindingName(id) == stem + (id.ns + "-" + id.name) && FixerBindingName(other) == stem + (other.ns + "-" + other.name);
    assert FixerBindingName(id)[|stem|..] == id.ns + "-" + id.name && FixerBindingName(other)[|stem|..] == other.ns + "-" + other.name;
  }

  lemma FixerBindingPurged(cr: Cr)
    requires !ApprovalEnabled(cr.spec)
    ensures Purge(FixerBindingKey(cr.id)) in Flatten(Stages(cr))
  {
    hide ServiceAccountStage, ReaderStage, WatcherStage, DiagnoseStage, RemediateStage, AiWatchStage, RagStage, FixerBindingKey;
    FlattenStages(cr);
    assert ApprovalStage(cr)[11] == Purge(FixerBindingKey(cr.id));
    hide Stages, ApprovalStage;
  }

  lemma OtherBindingKept(cr: Cr, key: Key)
    requires !ApprovalEnabled(cr.spec) && key.kind == ClusterRoleBinding
    requires key != ReaderBindingKey(cr.id) && key != FixerBindingKey(cr.id)
    ensures !Within(Flatten(Stages(cr)), key)
  {
    hide ServiceAccountStage, ReaderStage, WatcherStage, DiagnoseStage, RemediateStage, AiWatchStage, RagStage, ApprovalStage,
      ReaderBindingKey, FixerBindingKey;
    FlattenStages(cr);
    BindingsOfStages(cr);
    hide Stages;
  }

  lemma BindingsOfStages(cr: Cr)
    requires !ApprovalEnabled(cr.spec)
    ensures forall r :: r in ReaderStage(cr) || r in ApprovalStage(cr) ==>
              r.key.kind == ClusterRoleBinding ==> r.key == ReaderBindingKey(cr.id) || r.key == FixerBindingKey(cr.id)
    ensures forall r :: r in ServiceAccountStage(cr) || r in WatcherStage(cr) || r in DiagnoseStage(cr) ==> r.key.kind != ClusterRoleBinding
    ensures forall r :: r in RemediateStage(cr) || r in AiWatchStage(cr) || r in RagStage(cr) ==> r.key.kind != ClusterRoleBinding
  {
    NoBindingsElsewhere(cr);
    ReaderBindings(cr);
    TeardownBindings(cr);
    hide ServiceAccountStage, ReaderStage, WatcherStage, DiagnoseStage, RemediateStage, AiWatchStage, RagStage, ApprovalTeardown,
      ReaderBindingKey, FixerBindingKey;
  }

  lemma NoBindingsElsewhere(cr: Cr)
    ensures forall r :: r in ServiceAccountStage(cr) || r in WatcherStage(cr) || r in DiagnoseStage(cr) ==> r.key.kind != ClusterRoleBinding
    ensures forall r :: r in RemediateStage(cr) || r in AiWatchStage(cr) || r in RagStage(cr) ==> r.key.kind != ClusterRoleBinding
  {
    hide BuildWatcher, BuildWebhookService, BuildDiagnose, BuildRemediate, BuildAiWatch, BuildMetricsService, BuildRag, BuildRagService,
      BuildServiceAccount;
  }

  lemma ReaderBindings(cr: Cr)
    ensures forall r :: r in ReaderStage(cr) && r.key.kind == ClusterRoleBinding ==> r.key == ReaderBindingKey(cr.id)
  {
    hide ReaderRole, ReaderBinding, ReaderBindingName;
  }

  lemma TeardownBindings(cr: Cr)
    ensures forall r :: r in ApprovalTeardown(cr) && r.key.kind == ClusterRoleBinding ==> r.key == FixerBindingKey(cr.id)
  {
    hide FixerBindingName, ApprovalName, SigningReaderName, EventsName, StoresName;
  }

  /**
  Unlike the finalizer, the disable path does not look at labels: with approval off, the
  approval binding of another resource survives a reconcile exactly if its
  namespace and name, joined by a dash, read differently.
  */
  lemma DisablingTakesCollidingBindings(id: CrId, now: int, w: World, other: CrId)
    requires Quiet(w.script) && WellTyped(w.st) && Reconcilable(w.st, id)
    requires !ApprovalEnabled(w.st.crs[id].spec)
    requires FixerBindingKey(other) in w.st.objs
    ensures var o := RunReconcile(id, now, w);
            o.err.None? ==> (FixerBindingKey(other) in o.w.st.objs <==> id.ns + "-" + id.name != other.ns + "-" + other.name)
  {
    hide RunReconcile, Settled;
    if RunReconcile(id, now, w).err.Some? { return; }
    ReconcileConverges(id, now, w);
    BindingKeysMeet(id, other);
    BindingFamiliesApart(id, other);
    var cr, st := w.st.crs[id], RunReconcile(id, now, w).w.st;
    hide FixerBindingName, ReaderBindingName;
    FixerBindingFate(cr, w.st, st, FixerBindingKey(other));
  }

  lemma FixerBindingFate(cr: Cr, s: State, s': State, key: Key)
    requires Settled(s, s', cr) && !ApprovalEnabled(cr.spec) && key in s.objs
    requires key.kind == ClusterRoleBinding && key != ReaderBindingKey(cr.id)
    ensures key in s'.objs <==> key != FixerBindingKey(cr.id)
  {
    hide Flatten, Stages, Respects, FixerBindingKey, ReaderBindingKey;
    if key == FixerBindingKey(cr.id) {
      FixerBindingPurged(cr);
      assert Achieved(s', Purge(key));
    } else {
      OtherBindingKept(cr, key);
    }
  }

  /** A reader binding and an approval binding never share a name. */
  lemma BindingFamiliesApart(id: CrId, other: CrId)
    ensures FixerBindingKey(other) != ReaderBindingKey(id)
  {
    assert FixerBindingName(other)[16] == 'a' && ReaderBindingName(id)[16] == 'w';
  }

  /** Resources of the same name that audit to one namespace share their events roles there, whatever their own namespaces. */
  lemma EventsRolesMeet(cr: Cr, cr': Cr)
    ensures EventsRoleKey(cr) == EventsRoleKey(cr')
            <==> AuditNamespace(cr.id, cr.spec) == AuditNamespace(cr'.id, cr'.spec) && cr.id.name == cr'.id.name
  {
    if EventsRoleKey(cr) == EventsRoleKey(cr') {
      var suffix := "-approval-server-events";
      var n, n' := cr.id.name, cr'.id.name;
      assert |n| == |n'|;
      assert n == (n + suffix)[..|n|] && n' == (n' + suffix)[..|n'|];
    }
  }
}
