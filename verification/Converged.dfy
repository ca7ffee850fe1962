/** Whole reconciles that nobody interferes with: what they achieve and what they leave alone. */
module Converged {
  import opened Spec
  import opened Store
  import opened Builders
  import opened Conditions
  import opened Plan
  import opened Convergence
  import opened Naming

  lemma WorkloadStagesDependOnSpec(cr: Cr, cr': Cr)
    requires cr.id == cr'.id && cr.spec == cr'.spec
    ensures ServiceAccountStage(cr) == ServiceAccountStage(cr') && ReaderStage(cr) == ReaderStage(cr')
    ensures WatcherStage(cr) == WatcherStage(cr') && DiagnoseStage(cr) == DiagnoseStage(cr')
    ensures RemediateStage(cr) == RemediateStage(cr') && AiWatchStage(cr) == AiWatchStage(cr')
    ensures RagStage(cr) == RagStage(cr')
  {
  }

  lemma ApprovalStageDependsOnSpec(cr: Cr, cr': Cr)
    requires cr.id == cr'.id && cr.spec == cr'.spec
    ensures ApprovalStage(cr) == ApprovalStage(cr')
  {
    assert RolePairs(cr) == RolePairs(cr');
    if ApprovalEnabled(cr.spec) {
      assert ApprovalHead(cr) == ApprovalHead(cr');
      assert ApprovalTail(cr) == ApprovalTail(cr');
    }
  }

  lemma StagesDependOnSpec(cr: Cr, cr': Cr)
    requires cr.id == cr'.id && cr.spec == cr'.spec
    ensures Stages(cr) == Stages(cr')
  {
    hide ServiceAccountStage, ReaderStage, WatcherStage, DiagnoseStage, RemediateStage, AiWatchStage, RagStage, ApprovalStage;
    WorkloadStagesDependOnSpec(cr, cr');
    ApprovalStageDependsOnSpec(cr, cr');
  }

  // ---------- reading and saving touch no child ----------

  lemma ObserveKeepsStore(keys: seq<Key>, seen: map<Key, Got>, w: World)
    requires Quiet(w.script)
    ensures var o := RunObserve(keys, seen, w); o.w.st == w.st && Quiet(o.w.script)
    decreases |keys|
  {
  }

  lemma StagesKeepOthers(stages: seq<seq<Request>>, cr: Cr, w: World)
    requires Quiet(w.script)
    ensures Quiet(RunStages(stages, cr, w).w.script)
  {
    if stages != [] {
      StageStaysQuiet(stages[0], cr, w);
      StagesKeepOthers(stages[1..], cr, RunStage(stages[0], cr, w).w);
    }
  }

  lemma StageStaysQuiet(rs: seq<Request>, cr: Cr, w: World)
    requires Quiet(w.script)
    ensures Quiet(RunStage(rs, cr, w).w.script)
  {
    hide Step;
    if rs != [] {
      RequestStaysQuiet(rs[0], Fresh, cr, w);
      StageStaysQuiet(rs[1..], cr, RunRequest(rs[0], Fresh, cr, w).w);
    }
  }

  lemma RequestStaysQuiet(r: Request, p: Pending, cr: Cr, w: World)
    requires Quiet(w.script)
    ensures Quiet(RunRequest(r, p, cr, w).w.script)
    decreases Rank(p)
  {
    hide Step;
    var m := Step(r, p, cr, Seen(w), Head(w).fault, Head(w).draw);
    StepEnds(r, p, cr, Seen(w), Head(w).fault, Head(w).draw);
    if m.progress.More? { RequestStaysQuiet(r, m.progress.pending, cr, World(m.st, Tail(w))); }
  }

  // ---------- convergence ----------

  /**
  Every request of the plan is achieved without harm to what is not the
  operator's, and every object outside the plan is as it was.
  */
  ghost predicate Settled(s: State, s': State, cr: Cr) {
    && (forall r :: r in Flatten(Stages(cr)) ==> Achieved(s', r))
    && (forall r :: r in Flatten(Stages(cr)) && r.key in s.objs && r.key in s'.objs ==> Respects(s.objs[r.key], s'.objs[r.key], r))
    && (forall k :: !Within(Flatten(Stages(cr)), k) ==> (k in s'.objs <==> k in s.objs))
    && (forall k :: !Within(Flatten(Stages(cr)), k) && k in s.objs ==> s'.objs[k] == s.objs[k])
  }

  lemma NoBoundPurges(cr: Cr)
    ensures forall r :: r in Flatten(Stages(cr)) ==> !r.PurgeBound?
  {
    hide ServiceAccountStage, ReaderStage, WatcherStage, DiagnoseStage, RemediateStage, AiWatchStage, RagStage, ApprovalStage;
    FlattenStages(cr);
    WorkloadsDoNotPurgeBound(cr);
    ApprovalDoesNotPurgeBound(cr);
    hide Stages;
  }

  lemma WorkloadsDoNotPurgeBound(cr: Cr)
    ensures forall r :: r in ServiceAccountStage(cr) || r in ReaderStage(cr) || r in WatcherStage(cr) ==> !r.PurgeBound?
    ensures forall r :: r in DiagnoseStage(cr) || r in RemediateStage(cr) || r in AiWatchStage(cr) || r in RagStage(cr) ==> !r.PurgeBound?
  {
    hide BuildWatcher, BuildWebhookService, BuildDiagnose, BuildRemediate, BuildAiWatch, BuildMetricsService, BuildRag, BuildRagService;
  }

  lemma PairsDoNotPurge(ps: seq<RolePair>)
    ensures forall r :: r in PairsRequests(ps) ==> r.Ensure?
  {
  }

  lemma ApprovalDoesNotPurgeBound(cr: Cr)
    ensures forall r :: r in ApprovalStage(cr) ==> !r.PurgeBound?
  {
    PairsDoNotPurge(RolePairs(cr));
    hide BuildApprovalServiceAccount, BuildApprovalService, BuildApproval, BuildNetworkPolicy, BuildIngress, PairsRequests;
  }

  lemma WorkConverges(cr: Cr, now: int, w: World)
    requires Quiet(w.script) && WellTyped(w.st) && Valid(cr.spec)
    requires RunWork(cr, now, w).err.None?
    ensures Settled(w.st, RunWork(cr, now, w).w.st, cr) && WellTyped(RunWork(cr, now, w).w.st)
  {
    hide Stages, ObservedKeys, Judged, Valid;
    var done := RunStages(Stages(cr), cr, w);
    StagesAsOne(Stages(cr), cr, w);
    PlanIsDistinct(cr);
    PlanIsSound(cr);
    NoBoundPurges(cr);
    StageFits(Flatten(Stages(cr)), cr, w);
    StagesKeepOthers(Stages(cr), cr, w);
    ObserveKeepsStore(ObservedKeys(cr), map[], done.w);
    hide Achieved, Flatten, Respects;
    var obs := RunObserve(ObservedKeys(cr), map[], done.w);
    assert RunWork(cr, now, w).w.st.objs == done.w.st.objs;
    AchievedDependsOnObjects(done.w.st, RunWork(cr, now, w).w.st, Flatten(Stages(cr)));
  }

  lemma AchievedDependsOnObjects(s: State, s': State, rs: seq<Request>)
    requires s.objs == s'.objs
    ensures forall r :: r in rs ==> Achieved(s, r) == Achieved(s', r)
  {
  }

  /** A resource that asks for work and may get it. */
  predicate Reconcilable(st: State, id: CrId) {
    id in st.crs && st.crs[id].id == id && !st.crs[id].deleting && Valid(st.crs[id].spec)
  }

  /**
  From any cluster: if nobody interferes and the reconcile reports no error, every
  child is there exactly when asked for, with its managed fields, and nothing
  else has changed.
  */
  lemma ReconcileConverges(id: CrId, now: int, w: World)
    requires Quiet(w.script) && WellTyped(w.st) && Reconcilable(w.st, id)
    requires RunReconcile(id, now, w).err.None?
    ensures Settled(w.st, RunReconcile(id, now, w).w.st, w.st.crs[id]) && WellTyped(RunReconcile(id, now, w).w.st)
  {
    hide RunWork, Settled;
    var cr := w.st.crs[id];
    var w1 := World(w.st, Tail(w));
    if FINALIZER in cr.finalizers {
      WorkConverges(cr, now, w1);
    } else {
      var saved := SaveCr(cr.(finalizers := cr.finalizers + {FINALIZER}), w1);
      var cr' := saved.1.value;
      WorkConverges(cr', now, saved.0);
      StagesDependOnSpec(cr, cr');
      SettledFrom(saved.0.st, w.st, RunWork(cr', now, saved.0).w.st, cr', cr);
    }
  }

  lemma SettledFrom(s: State, s0: State, s': State, cr: Cr, cr': Cr)
    requires Settled(s, s', cr) && s.objs == s0.objs && Stages(cr) == Stages(cr')
    ensures Settled(s0, s', cr')
  {
    hide Stages, Achieved, Respects;
  }

  // ---------- the second reconcile ----------

  /** A request that is already achieved changes nothing, whatever becomes of its calls. */
  lemma AchievedIsFixed(r: Request, p: Pending, cr: Cr, w: World)
    requires Quiet(w.script) && WellTyped(w.st) && Sound(r) && !r.PurgeBound? && Standing(w.st, r, p)
    requires Achieved(w.st, r) && (r.EnsureSecret? ==> p.Fresh?)
    ensures RunRequest(r, p, cr, w).w.st == w.st
    decreases Rank(p)
  {
    if r.Ensure? && p.Found? { FitsAt(w.st, r.key); ManagedIsMerged(p.o, r.desired, r.key.kind); }
    var m := Step(r, p, cr, Seen(w), Head(w).fault, Head(w).draw);
    StepEnds(r, p, cr, Seen(w), Head(w).fault, Head(w).draw);
    assert m.st == w.st;
    hide WellTyped, Merge, BodyFits, Manages;
    if m.progress.More? { AchievedIsFixed(r, m.progress.pending, cr, World(m.st, Tail(w))); }
  }

  lemma StageIsFixed(rs: seq<Request>, cr: Cr, w: World)
    requires Quiet(w.script) && WellTyped(w.st) && AllSound(rs)
    requires forall r :: r in rs ==> Achieved(w.st, r) && !r.PurgeBound?
    ensures RunStage(rs, cr, w).w.st == w.st && Quiet(RunStage(rs, cr, w).w.script)
  {
    hide RunRequest, WellTyped, Achieved, Sound;
    if rs != [] {
      AchievedIsFixed(rs[0], Fresh, cr, w);
      RequestStaysQuiet(rs[0], Fresh, cr, w);
      StageIsFixed(rs[1..], cr, RunRequest(rs[0], Fresh, cr, w).w);
    }
  }

  lemma StagesAreFixed(stages: seq<seq<Request>>, cr: Cr, w: World)
    requires Quiet(w.script) && WellTyped(w.st) && AllSound(Flatten(stages))
    requires forall r :: r in Flatten(stages) ==> Achieved(w.st, r) && !r.PurgeBound?
    ensures RunStages(stages, cr, w).w.st == w.st && Quiet(RunStages(stages, cr, w).w.script)
  {
    hide RunStage, WellTyped, Achieved, Sound;
    if stages != [] {
      assert Flatten(stages) == stages[0] + Flatten(stages[1..]);
      StageIsFixed(stages[0], cr, w);
      StagesAreFixed(stages[1..], cr, RunStage(stages[0], cr, w).w);
    }
  }

  lemma WorkIsFixed(cr: Cr, now: int, w: World)
    requires Quiet(w.script) && WellTyped(w.st) && Valid(cr.spec)
    requires forall r :: r in Flatten(Stages(cr)) ==> Achieved(w.st, r)
    ensures RunWork(cr, now, w).w.st.objs == w.st.objs
  {
    hide Stages, ObservedKeys, Judged, Valid, Achieved, Flatten;
    PlanIsSound(cr);
    NoBoundPurges(cr);
    StagesAreFixed(Stages(cr), cr, w);
    ObserveKeepsStore(ObservedKeys(cr), map[], RunStages(Stages(cr), cr, w).w);
  }

  lemma SettledStaysSettled(id: CrId, now: int, w: World)
    requires Quiet(w.script) && WellTyped(w.st) && Reconcilable(w.st, id)
    requires forall r :: r in Flatten(Stages(w.st.crs[id])) ==> Achieved(w.st, r)
    ensures RunReconcile(id, now, w).w.st.objs == w.st.objs
  {
    hide RunWork, Achieved;
    var cr := w.st.crs[id];
    var w1 := World(w.st, Tail(w));
    if FINALIZER in cr.finalizers {
      WorkIsFixed(cr, now, w1);
    } else {
      var saved := SaveCr(cr.(finalizers := cr.finalizers + {FINALIZER}), w1);
      if saved.1.Ok? {
        StagesDependOnSpec(cr, saved.1.value);
        AchievedDependsOnObjects(w.st, saved.0.st, Flatten(Stages(cr)));
        hide Flatten, Stages;
        WorkIsFixed(saved.1.value, now, saved.0);
      }
    }
  }

  lemma StepKeepsCrs(r: Request, p: Pending, cr: Cr, st: State, f: Fault, draw: KeyPair)
    ensures var m := Step(r, p, cr, st, f, draw); m.st.crs == st.crs && st.next <= m.st.next
  {
    hide MergeBody;
  }

  lemma StagesKeepCrs(stages: seq<seq<Request>>, cr: Cr, w: World)
    requires Quiet(w.script)
    ensures RunStages(stages, cr, w).w.st.crs == w.st.crs
  {
    if stages != [] {
      StageKeepsCrs(stages[0], cr, w);
      StageStaysQuiet(stages[0], cr, w);
      StagesKeepCrs(stages[1..], cr, RunStage(stages[0], cr, w).w);
    }
  }

  lemma StageKeepsCrs(rs: seq<Request>, cr: Cr, w: World)
    requires Quiet(w.script)
    ensures RunStage(rs, cr, w).w.st.crs == w.st.crs
  {
    hide Step;
    if rs != [] {
      RequestKeepsCrs(rs[0], Fresh, cr, w);
      RequestStaysQuiet(rs[0], Fresh, cr, w);
      StageKeepsCrs(rs[1..], cr, RunRequest(rs[0], Fresh, cr, w).w);
    }
  }

  lemma RequestKeepsCrs(r: Request, p: Pending, cr: Cr, w: World)
    requires Quiet(w.script)
    ensures RunRequest(r, p, cr, w).w.st.crs == w.st.crs
    decreases Rank(p)
  {
    hide Step;
    var m := Step(r, p, cr, Seen(w), Head(w).fault, Head(w).draw);
    StepEnds(r, p, cr, Seen(w), Head(w).fault, Head(w).draw);
    StepKeepsCrs(r, p, cr, Seen(w), Head(w).fault, Head(w).draw);
    if m.progress.More? { RequestKeepsCrs(r, m.progress.pending, cr, World(m.st, Tail(w))); }
  }

  lemma WorkKeepsResource(cr: Cr, now: int, w: World, id: CrId)
    requires Quiet(w.script) && Valid(cr.spec) && cr.id == id && Reconcilable(w.st, id)
    ensures var st := RunWork(cr, now, w).w.st; Reconcilable(st, id) && st.crs[id].spec == w.st.crs[id].spec
  {
    hide Stages, ObservedKeys, Judge, ReadyVerdict, SetAll, Valid;
    StagesKeepCrs(Stages(cr), cr, w);
    StagesKeepOthers(Stages(cr), cr, w);
    ObserveKeepsStore(ObservedKeys(cr), map[], RunStages(Stages(cr), cr, w).w);
  }

  /** Left alone, a reconcile leaves its resource standing with its specification. */
  lemma ReconcileKeepsResource(id: CrId, now: int, w: World)
    requires Quiet(w.script) && Reconcilable(w.st, id)
    ensures var st := RunReconcile(id, now, w).w.st; Reconcilable(st, id) && st.crs[id].spec == w.st.crs[id].spec
  {
    hide RunWork, Valid;
    var cr := w.st.crs[id];
    var w1 := World(w.st, Tail(w));
    if FINALIZER in cr.finalizers {
      WorkKeepsResource(cr, now, w1, id);
    } else {
      var saved := SaveCr(cr.(finalizers := cr.finalizers + {FINALIZER}), w1);
      if saved.1.Ok? { WorkKeepsResource(saved.1.value, now, saved.0, id); }
    }
  }

  /**
  After a reconcile without error a second one, nobody interfering, is a fixpoint on
  all children: it leaves every object as the first made it, even if its own calls go wrong.
  */
  lemma SecondReconcileIsAFixpoint(id: CrId, now: int, now': int, w: World, script: seq<Tick>)
    requires Quiet(w.script) && Quiet(script) && WellTyped(w.st) && Reconcilable(w.st, id)
    ensures var o := RunReconcile(id, now, w);
            o.err.None? ==> RunReconcile(id, now', World(o.w.st, script)).w.st.objs == o.w.st.objs
  {
    hide RunReconcile;
    var o := RunReconcile(id, now, w);
    if o.err.None? {
      ReconcileConverges(id, now, w);
      ReconcileKeepsResource(id, now, w);
      StagesDependOnSpec(w.st.crs[id], o.w.st.crs[id]);
      hide Stages, Achieved, Reconcilable;
      SettledStaysSettled(id, now', World(o.w.st, script));
    }
  }

  // ---------- errors have causes ----------

  predicate AllServed(script: seq<Tick>) { forall t :: t in script ==> t.fault.Served? && t.change.None? }

  /** The server will let the request have its way with what is there now. */
  predicate Allowed(st: State, r: Request) {
    r.Ensure? && r.key in st.objs ==> Admits(st.objs[r.key].body, MergeBody(st.objs[r.key].body, r.desired.body))
  }

  ghost predicate AllAllowed(st: State, rs: seq<Request>) { forall r :: r in rs ==> Allowed(st, r) }

  /**
  In terms of what is there: bindings name the role they should, and the selectors of
  Deployments and StatefulSets find the pods they are about to get.
  */
  lemma AllowedExactly(st: State, r: Request)
    requires WellTyped(st) && Sound(r) && r.Ensure? && r.key in st.objs
    ensures var o, d := st.objs[r.key].body, r.desired.body;
            Allowed(st, r)
            <==> && (o.BindingBody? ==> o.roleRef == d.roleRef)
                 && (o.DeploymentBody? ==> Carries(d.template.labels, o.selector))
                 && (o.StatefulSetBody? ==> Carries(d.template.labels, o.selector))
  {
  }

  lemma RequestSucceeds(r: Request, p: Pending, cr: Cr, w: World)
    requires AllServed(w.script) && WellTyped(w.st) && Sound(r) && Standing(w.st, r, p)
    requires RunRequest(r, p, cr, w).w.script != []
    ensures RunRequest(r, p, cr, w).err.None? <==> Allowed(w.st, r)
    ensures AllServed(RunRequest(r, p, cr, w).w.script)
    decreases Rank(p)
  {
    if r.key in w.st.objs { FitsAt(w.st, r.key); }
    hide MergeBody, Carries, WellTyped;
    var m := Step(r, p, cr, Seen(w), Head(w).fault, Head(w).draw);
    StepEnds(r, p, cr, Seen(w), Head(w).fault, Head(w).draw);
    ScriptShrinks(r, p, cr, w);
    if m.progress.More? { RequestSucceeds(r, m.progress.pending, cr, World(m.st, Tail(w))); }
  }

  lemma ScriptShrinks(r: Request, p: Pending, cr: Cr, w: World)
    ensures w.script == [] ==> RunRequest(r, p, cr, w).w.script == []
    decreases Rank(p)
  {
    hide Step;
    var m := Step(r, p, cr, Seen(w), Head(w).fault, Head(w).draw);
    StepEnds(r, p, cr, Seen(w), Head(w).fault, Head(w).draw);
    if m.progress.More? { ScriptShrinks(r, m.progress.pending, cr, World(m.st, Tail(w))); }
  }

  lemma StageScriptShrinks(rs: seq<Request>, cr: Cr, w: World)
    ensures w.script == [] ==> RunStage(rs, cr, w).w.script == []
  {
    hide RunRequest;
    if rs != [] {
      ScriptShrinks(rs[0], Fresh, cr, w);
      StageScriptShrinks(rs[1..], cr, RunRequest(rs[0], Fresh, cr, w).w);
    }
  }

  lemma AllowedElsewhere(s: State, s': State, rs: seq<Request>)
    requires forall r :: r in rs ==> (r.key in s'.objs <==> r.key in s.objs) && (r.key in s.objs ==> s'.objs[r.key] == s.objs[r.key])
    ensures AllAllowed(s', rs) <==> AllAllowed(s, rs)
  {
    hide Admits, MergeBody;
  }

  lemma ServedIsQuiet(script: seq<Tick>)
    requires AllServed(script)
    ensures Quiet(script)
  {
  }

  lemma {:induction false} StageSucceeds(rs: seq<Request>, cr: Cr, w: World)
    requires AllServed(w.script) && RunStage(rs, cr, w).w.script != []
    requires WellTyped(w.st) && AllSound(rs) && Distinct(rs)
    ensures RunStage(rs, cr, w).err.None? <==> AllAllowed(w.st, rs)
    ensures AllServed(RunStage(rs, cr, w).w.script)
    decreases |rs|
  {
    hide RunRequest, WellTyped, Sound, Allowed, Respects, AllServed;
    if rs != [] {
      var first := RunRequest(rs[0], Fresh, cr, w);
      if first.err.None? { StageScriptShrinks(rs[1..], cr, first.w); }
      RequestSucceeds(rs[0], Fresh, cr, w);
      assert rs[0] in rs && forall r :: r in rs <==> r == rs[0] || r in rs[1..];
      if first.err.None? {
        ServedIsQuiet(w.script);
        RequestFits(rs[0], Fresh, cr, w);
        StageSucceeds(rs[1..], cr, first.w);
        AllowedElsewhere(w.st, first.w.st, rs[1..]);
      }
    }
  }

  lemma StagesScriptShrinks(stages: seq<seq<Request>>, cr: Cr, w: World)
    ensures w.script == [] ==> RunStages(stages, cr, w).w.script == []
  {
  }

  lemma {:induction false} StagesSucceed(stages: seq<seq<Request>>, cr: Cr, w: World)
    requires AllServed(w.script) && RunStages(stages, cr, w).w.script != []
    requires WellTyped(w.st) && AllSound(Flatten(stages)) && Distinct(Flatten(stages))
    ensures FirstError(RunStages(stages, cr, w).errs).None? <==> AllAllowed(w.st, Flatten(stages))
    decreases |stages|
  {
    hide RunStage, WellTyped, Sound, Allowed, Respects, AllServed;
    if stages != [] {
      var rs, rest := stages[0], Flatten(stages[1..]);
      var first := RunStage(rs, cr, w);
      SplitPlan(rs, rest);
      StagesScriptShrinks(stages[1..], cr, first.w);
      StageSucceeds(rs, cr, w);
      ServedIsQuiet(w.script);
      StageFits(rs, cr, w);
      StagesSucceed(stages[1..], cr, first.w);
      AllowedElsewhere(w.st, first.w.st, rest);
      assert RunStages(stages, cr, w).errs[1..] == RunStages(stages[1..], cr, first.w).errs;
    }
  }

  lemma SplitPlan(a: seq<Request>, b: seq<Request>)
    requires AllSound(a + b) && Distinct(a + b)
    ensures AllSound(a) && AllSound(b) && Distinct(a) && Distinct(b)
    ensures forall r :: r in b ==> !Within(a, r.key)
    ensures forall r :: r in a + b <==> r in a || r in b
  {
    hide Sound;
    assert forall i :: 0 <= i < |a| ==> (a + b)[i] == a[i];
    assert forall j :: 0 <= j < |b| ==> (a + b)[|a| + j] == b[j];
    assert forall r :: r in a || r in b ==> r in a + b;
  }

  lemma ObserveScriptShrinks(keys: seq<Key>, seen: map<Key, Got>, w: World)
    ensures w.script == [] ==> RunObserve(keys, seen, w).w.script == []
    decreases |keys|
  {
  }

  /**
  The operator makes no errors of its own: with nobody interfering and every call
  served, the sub-reconciles all succeed exactly if the server allows every update there is to make.
  */
  lemma ErrorsHaveCauses(cr: Cr, now: int, w: World)
    requires AllServed(w.script) && Valid(cr.spec) && WellTyped(w.st)
    ensures RunWork(cr, now, w).w.script != [] ==> (RunWork(cr, now, w).err.None? <==> AllAllowed(w.st, Flatten(Stages(cr))))
  {
    hide Stages, ObservedKeys, Judged, Valid;
    var done := RunStages(Stages(cr), cr, w);
    ObserveScriptShrinks(ObservedKeys(cr), map[], done.w);
    PlanIsDistinct(cr);
    PlanIsSound(cr);
    if done.w.script != [] { StagesSucceed(Stages(cr), cr, w); }
  }

  // ---------- the end of a resource ----------

  /** The checked delete removes exactly what is labelled for the resource. */
  lemma PurgeBoundFits(r: Request, cr: Cr, w: World)
    requires Quiet(w.script) && r.PurgeBound?
    ensures var o := RunRequest(r, Fresh, cr, w);
            && o.w.st.crs == w.st.crs && Quiet(o.w.script)
            && (forall k :: k != r.key ==> (k in o.w.st.objs <==> k in w.st.objs))
            && (forall k :: k in o.w.st.objs ==> o.w.st.objs[k] == w.st.objs[k])
            && (o.err.None? ==> (r.key in o.w.st.objs <==> r.key in w.st.objs && !BoundTo(w.st.objs[r.key], cr.id)))
  {
    RequestStaysQuiet(r, Fresh, cr, w);
    var m := Step(r, Fresh, cr, Seen(w), Head(w).fault, Head(w).draw);
    if m.progress.More? {
      var w' := World(m.st, Tail(w));
      assert RunRequest(r, Fresh, cr, w) == RunRequest(r, m.progress.pending, cr, w');
      assert Head(w').change.None?;
    }
  }

  lemma DropFits(r: Request, cr: Cr, w: World)
    requires Quiet(w.script) && r.Drop?
    ensures var o := RunRequest(r, Fresh, cr, w);
            && o.w.st.crs == w.st.crs && Quiet(o.w.script)
            && (forall k :: k != r.key ==> (k in o.w.st.objs <==> k in w.st.objs))
            && (forall k :: k in o.w.st.objs ==> o.w.st.objs[k] == w.st.objs[k])
            && (o.err.None? ==> r.key !in o.w.st.objs)
  {
  }

  /** What the finalizer's requests leave: nothing new, and of the old everything they have no business with. */
  ghost predicate CleanedUp(s: State, s': State, cr: Cr) {
    && (forall k :: k in s'.objs ==> k in s.objs && s'.objs[k] == s.objs[k])
    && (forall k :: k in s.objs && k !in s'.objs ==>
          || ((k == ReaderBindingKey(cr.id) || k == FixerBindingKey(cr.id)) && BoundTo(s.objs[k], cr.id))
          || (AuditNamespace(cr.id, cr.spec) != cr.id.ns && (k == EventsRoleKey(cr) || k == EventsBindingKey(cr))))
    && (forall k :: (k == ReaderBindingKey(cr.id) || k == FixerBindingKey(cr.id)) && k in s'.objs ==> !BoundTo(s'.objs[k], cr.id))
    && (AuditNamespace(cr.id, cr.spec) != cr.id.ns ==> EventsRoleKey(cr) !in s'.objs && EventsBindingKey(cr) !in s'.objs)
  }

  /** `s'` is `s` without the objects at `gone`. */
  ghost predicate Without(s: State, s': State, gone: set<Key>) {
    s'.crs == s.crs && s'.objs == s.objs - gone
  }

  lemma PurgeBoundRemoves(key: Key, cr: Cr, w: World)
    requires Quiet(w.script)
    requires RunRequest(PurgeBound(key), Fresh, cr, w).err.None?
    ensures var o := RunRequest(PurgeBound(key), Fresh, cr, w);
            && Quiet(o.w.script)
            && Without(w.st, o.w.st, if key in w.st.objs && BoundTo(w.st.objs[key], cr.id) then {key} else {})
  {
    hide RunRequest, BoundTo;
    PurgeBoundFits(PurgeBound(key), cr, w);
  }

  lemma DropRemoves(key: Key, cr: Cr, w: World)
    requires Quiet(w.script)
    requires RunRequest(Drop(key), Fresh, cr, w).err.None?
    ensures var o := RunRequest(Drop(key), Fresh, cr, w);
            Quiet(o.w.script) && Without(w.st, o.w.st, {key})
  {
    hide RunRequest;
    DropFits(Drop(key), cr, w);
  }

  lemma RunStageOfTwo(r: Request, q: Request, cr: Cr, w: World)
    requires RunStage([r, q], cr, w).err.None?
    ensures var o := RunRequest(r, Fresh, cr, w);
            o.err.None? && RunRequest(q, Fresh, cr, o.w).err.None? && RunStage([r, q], cr, w).w == RunRequest(q, Fresh, cr, o.w).w
  {
    hide RunRequest;
    var o := RunRequest(r, Fresh, cr, w);
    assert [r, q][1..] == [q] && [q][1..] == [];
    assert RunStage([q], cr, o.w).w == RunRequest(q, Fresh, cr, o.w).w;
  }

  lemma PurgesOfBindings(cr: Cr, w: World)
    requires Quiet(w.script)
    requires RunStage([PurgeBound(ReaderBindingKey(cr.id)), PurgeBound(FixerBindingKey(cr.id))], cr, w).err.None?
    ensures var o := RunStage([PurgeBound(ReaderBindingKey(cr.id)), PurgeBound(FixerBindingKey(cr.id))], cr, w);
            && Quiet(o.w.script)
            && Without(w.st, o.w.st, set k | k in {ReaderBindingKey(cr.id), FixerBindingKey(cr.id)}
                                             && k in w.st.objs && BoundTo(w.st.objs[k], cr.id))
  {
    NamesDiffer(cr.id);
    var a, b := ReaderBindingKey(cr.id), FixerBindingKey(cr.id);
    hide RunRequest, RunStage, BoundTo, ReaderBindingName, FixerBindingName;
    RunStageOfTwo(PurgeBound(a), PurgeBound(b), cr, w);
    PurgeBoundRemoves(a, cr, w);
    PurgeBoundRemoves(b, cr, RunRequest(PurgeBound(a), Fresh, cr, w).w);
  }

  lemma DropsOfEvents(cr: Cr, w: World)
    requires Quiet(w.script)
    requires RunStage([Drop(EventsBindingKey(cr)), Drop(EventsRoleKey(cr))], cr, w).err.None?
    ensures var o := RunStage([Drop(EventsBindingKey(cr)), Drop(EventsRoleKey(cr))], cr, w);
            Quiet(o.w.script) && Without(w.st, o.w.st, {EventsBindingKey(cr), EventsRoleKey(cr)})
  {
    var a, b := EventsBindingKey(cr), EventsRoleKey(cr);
    hide RunRequest, RunStage, EventsBindingKey, EventsRoleKey;
    RunStageOfTwo(Drop(a), Drop(b), cr, w);
    DropRemoves(a, cr, w);
    DropRemoves(b, cr, RunRequest(Drop(a), Fresh, cr, w).w);
  }

  lemma FinalizeStage(cr: Cr, w: World)
    requires Quiet(w.script)
    requires RunStage(FinalizeRequests(cr), cr, w).err.None?
    ensures var o := RunStage(FinalizeRequests(cr), cr, w);
            o.w.st.crs == w.st.crs && Quiet(o.w.script) && CleanedUp(w.st, o.w.st, cr)
  {
    hide RunRequest, RunStage, BoundTo, ReaderBindingName, FixerBindingName, EventsName;
    var purges := [PurgeBound(ReaderBindingKey(cr.id)), PurgeBound(FixerBindingKey(cr.id))];
    if AuditNamespace(cr.id, cr.spec) != cr.id.ns {
      StageConcat(purges, [Drop(EventsBindingKey(cr)), Drop(EventsRoleKey(cr))], cr, w);
      PurgesOfBindings(cr, w);
      DropsOfEvents(cr, RunStage(purges, cr, w).w);
    } else {
      assert FinalizeRequests(cr) == purges;
      PurgesOfBindings(cr, w);
    }
  }

  /**
  A deletion that goes through removes the operator's finalizer, the bindings that
  are labelled for the resource and the events pair it keeps elsewhere; a binding
  of the same name that is labelled for another resource stays.
  */
  lemma DeletionCompletes(id: CrId, now: int, w: World)
    requires Quiet(w.script) && id in w.st.crs && w.st.crs[id].id == id
    requires w.st.crs[id].deleting && FINALIZER in w.st.crs[id].finalizers
    requires RunReconcile(id, now, w).err.None?
    ensures var st := RunReconcile(id, now, w).w.st;
            && CleanedUp(w.st, st, w.st.crs[id])
            && (id in st.crs ==> st.crs[id].finalizers == w.st.crs[id].finalizers - {FINALIZER})
            && (w.st.crs[id].finalizers == {FINALIZER} ==> id !in st.crs)
            && (forall other :: other != id ==> (other in st.crs <==> other in w.st.crs))
            && (forall other :: other != id && other in st.crs ==> st.crs[other] == w.st.crs[other])
  {
    hide RunStage, FinalizeRequests, CleanedUp;
    var cr := w.st.crs[id];
    var w1 := World(w.st, Tail(w));
    FinalizeStage(cr, w1);
    var o := RunStage(FinalizeRequests(cr), cr, w1);
    assert Head(o.w).change.None?;
    CleanedUpByObjects(w.st, o.w.st, RunReconcile(id, now, w).w.st, cr);
  }

  lemma CleanedUpByObjects(s: State, s1: State, s2: State, cr: Cr)
    requires CleanedUp(s, s1, cr) && s1.objs == s2.objs
    ensures CleanedUp(s, s2, cr)
  {
  }

  /** Nothing but the finalizers and the status of one resource differs. */
  ghost predicate OnlyOwnRecord(s: State, s': State, id: CrId) {
    && s'.objs == s.objs
    && id in s.crs && id in s'.crs
    && s'.crs[id].(finalizers := {}, status := s.crs[id].status, rv := 0) == s.crs[id].(finalizers := {}, rv := 0)
    && (s'.crs[id].finalizers == s.crs[id].finalizers || s'.crs[id].finalizers == s.crs[id].finalizers + {FINALIZER})
    && (forall other :: other != id ==> (other in s'.crs <==> other in s.crs))
    && (forall other :: other != id && other in s'.crs ==> s'.crs[other] == s.crs[other])
  }

  lemma RefusalOnlyReports(cr: Cr, now: int, w: World)
    requires Quiet(w.script) && !Valid(cr.spec) && cr.id in w.st.crs && w.st.crs[cr.id].id == cr.id
    ensures OnlyOwnRecord(w.st, RunWork(cr, now, w).w.st, cr.id)
    ensures RunWork(cr, now, w).w.st.crs[cr.id].finalizers == w.st.crs[cr.id].finalizers
  {
    hide Valid, SetCondition, RunStages;
  }

  /** A refused specification changes nothing but the resource's own finalizers and status. */
  lemma InvalidSpecTouchesNoChild(id: CrId, now: int, w: World)
    requires Quiet(w.script) && id in w.st.crs && w.st.crs[id].id == id
    requires !w.st.crs[id].deleting && !Valid(w.st.crs[id].spec)
    ensures OnlyOwnRecord(w.st, RunReconcile(id, now, w).w.st, id)
  {
    hide Valid, RunWork;
    var cr := w.st.crs[id];
    var w1 := World(w.st, Tail(w));
    if FINALIZER in cr.finalizers {
      RefusalOnlyReports(cr, now, w1);
    } else {
      var saved := SaveCr(cr.(finalizers := cr.finalizers + {FINALIZER}), w1);
      if saved.1.Ok? { RefusalOnlyReports(saved.1.value, now, saved.0); }
    }
  }

  // ---------- what it means for the children ----------

  lemma PresenceFollows(cr: Cr, s: State, s': State, stage: seq<Request>, i: nat)
    requires Settled(s, s', cr) && stage in Stages(cr) && i < |stage|
    ensures Achieved(s', stage[i])
  {
    hide Stages, Achieved, Respects;
    InFlatten(Stages(cr), stage, stage[i]);
  }

  lemma InFlatten(stages: seq<seq<Request>>, stage: seq<Request>, r: Request)
    requires stage in stages && r in stage
    ensures r in Flatten(stages)
  {
  }

  predicate Exists(st: State, cr: Cr, kind: Kind, name: string) { Child(kind, cr.id, name) in st.objs }

  /** Workloads and Services exist exactly when the specification switches them on. */
  lemma WorkloadsExistExactly(id: CrId, now: int, w: World)
    requires Quiet(w.script) && WellTyped(w.st) && Reconcilable(w.st, id)
    requires RunReconcile(id, now, w).err.None?
    ensures var st, cr := RunReconcile(id, now, w).w.st, w.st.crs[id];
            && (Exists(st, cr, Deployment, WatcherName(id)) <==> WatcherEnabled(cr.spec))
            && (Exists(st, cr, Service, WebhookName(id)) <==> WebhookServiceOn(cr.spec))
            && (Exists(st, cr, CronJob, DiagnoseName(id)) <==> cr.spec.diagnose.Some? && cr.spec.diagnose.value.enabled)
            && (Exists(st, cr, CronJob, RemediateName(id)) <==> cr.spec.remediate.Some? && cr.spec.remediate.value.enabled)
            && (Exists(st, cr, Deployment, AiWatchName(id)) <==> AiEnabled(cr.spec))
            && (Exists(st, cr, Service, MetricsName(id)) <==> MetricsOn(cr.spec))
            && (Exists(st, cr, StatefulSet, RagName(id)) <==> MemoryEnabled(cr.spec))
            && (Exists(st, cr, Service, RagName(id)) <==> MemoryEnabled(cr.spec))
            && (Exists(st, cr, Deployment, ApprovalName(id)) <==> ApprovalEnabled(cr.spec))
            && (Exists(st, cr, Service, ApprovalName(id)) <==> ApprovalEnabled(cr.spec))
            && (Exists(st, cr, NetworkPolicy, ApprovalName(id)) <==> NetpolEnabled(cr.spec))
            && (Exists(st, cr, Ingress, ApprovalName(id)) <==> IngressEnabled(cr.spec))
  {
    hide RunReconcile;
    ReconcileConverges(id, now, w);
    var st, cr := RunReconcile(id, now, w).w.st, w.st.crs[id];
    WatcherChildren(cr, w.st, st);
    AiChildren(cr, w.st, st);
    ApprovalChildren(cr, w.st, st);
    hide Settled, Reconcilable, Exists;
  }

  lemma WatcherChildren(cr: Cr, s: State, s': State)
    requires Settled(s, s', cr)
    ensures Exists(s', cr, Deployment, WatcherName(cr.id)) <==> WatcherEnabled(cr.spec)
    ensures Exists(s', cr, Service, WebhookName(cr.id)) <==> WebhookServiceOn(cr.spec)
    ensures Exists(s', cr, CronJob, DiagnoseName(cr.id)) <==> cr.spec.diagnose.Some? && cr.spec.diagnose.value.enabled
    ensures Exists(s', cr, CronJob, RemediateName(cr.id)) <==> cr.spec.remediate.Some? && cr.spec.remediate.value.enabled
  {
    hide Settled;
    PresenceFollows(cr, s, s', WatcherStage(cr), 0);
    PresenceFollows(cr, s, s', WatcherStage(cr), 1);
    PresenceFollows(cr, s, s', DiagnoseStage(cr), 0);
    PresenceFollows(cr, s, s', RemediateStage(cr), 0);
    hide Manages, Stages;
  }

  lemma AiChildren(cr: Cr, s: State, s': State)
    requires Settled(s, s', cr)
    ensures Exists(s', cr, Deployment, AiWatchName(cr.id)) <==> AiEnabled(cr.spec)
    ensures Exists(s', cr, Service, MetricsName(cr.id)) <==> MetricsOn(cr.spec)
    ensures Exists(s', cr, StatefulSet, RagName(cr.id)) <==> MemoryEnabled(cr.spec)
    ensures Exists(s', cr, Service, RagName(cr.id)) <==> MemoryEnabled(cr.spec)
  {
    hide Settled;
    PresenceFollows(cr, s, s', AiWatchStage(cr), 0);
    PresenceFollows(cr, s, s', AiWatchStage(cr), 1);
    PresenceFollows(cr, s, s', RagStage(cr), 0);
    PresenceFollows(cr, s, s', RagStage(cr), 1);
    hide Manages, Stages;
  }

  lemma TailAchieved(cr: Cr, s: State, s': State)
    requires Settled(s, s', cr) && ApprovalEnabled(cr.spec)
    ensures |ApprovalTail(cr)| == 4 && forall i :: 0 <= i < 4 ==> Achieved(s', ApprovalTail(cr)[i])
  {
    hide Settled, Achieved, ApprovalHead, PairsRequests, RolePairs, BuildApproval, BuildApprovalService, BuildNetworkPolicy, BuildIngress;
    ApprovalBuilt(cr);
    var rs, before := ApprovalStage(cr), ApprovalHead(cr) + PairsRequests(RolePairs(cr));
    forall i | 0 <= i < 4 ensures Achieved(s', ApprovalTail(cr)[i]) {
      PresenceFollows(cr, s, s', rs, |before| + i);
      assert rs == before + ApprovalTail(cr) && rs[|before| + i] == ApprovalTail(cr)[i];
    }
  }

  lemma ApprovalPresent(cr: Cr, s: State, s': State)
    requires Settled(s, s', cr) && ApprovalEnabled(cr.spec)
    ensures Exists(s', cr, Deployment, ApprovalName(cr.id)) && Exists(s', cr, Service, ApprovalName(cr.id))
    ensures Exists(s', cr, NetworkPolicy, ApprovalName(cr.id)) <==> NetpolEnabled(cr.spec)
    ensures Exists(s', cr, Ingress, ApprovalName(cr.id)) <==> IngressEnabled(cr.spec)
  {
    hide Settled, Manages, Stages;
    TailAchieved(cr, s, s');
    hide ApprovalName, ApprovalPod, CommonLabels;
    assert Achieved(s', ApprovalTail(cr)[0]) && Achieved(s', ApprovalTail(cr)[1])
        && Achieved(s', ApprovalTail(cr)[2]) && Achieved(s', ApprovalTail(cr)[3]);
  }

  lemma ApprovalAbsent(cr: Cr, s: State, s': State)
    requires Settled(s, s', cr) && !ApprovalEnabled(cr.spec)
    ensures !Exists(s', cr, Deployment, ApprovalName(cr.id)) && !Exists(s', cr, Service, ApprovalName(cr.id))
    ensures !Exists(s', cr, NetworkPolicy, ApprovalName(cr.id)) && !Exists(s', cr, Ingress, ApprovalName(cr.id))
  {
    hide Settled, Manages, ApprovalName, FixerBindingName, SigningReaderName, EventsName, StoresName;
    var rs := ApprovalStage(cr);
    PresenceFollows(cr, s, s', rs, 0);
    PresenceFollows(cr, s, s', rs, 1);
    PresenceFollows(cr, s, s', rs, 2);
    PresenceFollows(cr, s, s', rs, 3);
    hide Stages;
  }

  lemma ApprovalChildren(cr: Cr, s: State, s': State)
    requires Settled(s, s', cr)
    ensures Exists(s', cr, Deployment, ApprovalName(cr.id)) <==> ApprovalEnabled(cr.spec)
    ensures Exists(s', cr, Service, ApprovalName(cr.id)) <==> ApprovalEnabled(cr.spec)
    ensures Exists(s', cr, NetworkPolicy, ApprovalName(cr.id)) <==> NetpolEnabled(cr.spec)
    ensures Exists(s', cr, Ingress, ApprovalName(cr.id)) <==> IngressEnabled(cr.spec)
  {
    hide Settled, Exists;
    if ApprovalEnabled(cr.spec) { ApprovalPresent(cr, s, s'); } else { ApprovalAbsent(cr, s, s'); }
  }
}
