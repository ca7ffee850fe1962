/** How many API calls a reconcile makes, and that this many answered calls are enough for it to succeed. */
module Calls {
  import opened Spec
  import opened Store
  import opened Builders
  import opened Conditions
  import opened Plan
  import opened Convergence
  import opened Naming
  import opened Converged

  // ---------- how large a plan is ----------

  lemma PairsSize(ps: seq<RolePair>)
    ensures |PairsRequests(ps)| == 2 * |ps|
  {
  }

  lemma ApprovalSize(cr: Cr)
    ensures |ApprovalStage(cr)| <= 16
  {
    if ApprovalEnabled(cr.spec) { PairsSize(RolePairs(cr)); }
    hide PairsRequests, BuildApproval, BuildApprovalService, BuildNetworkPolicy, BuildIngress, BuildApprovalServiceAccount;
  }

  lemma PlanSize(cr: Cr)
    ensures |Flatten(Stages(cr))| <= 27
  {
    hide Stages, ApprovalStage, BuildWatcher, BuildWebhookService, BuildDiagnose, BuildRemediate, BuildAiWatch, BuildMetricsService, BuildRag,
      BuildRagService, BuildServiceAccount, ReaderRole, ReaderBinding;
    FlattenStages(cr);
    ApprovalSize(cr);
  }

  lemma ObservedSize(cr: Cr)
    ensures |ObservedKeys(cr)| <= 9
  {
  }

  // ---------- how many calls are made ----------

  lemma RequestCalls(r: Request, p: Pending, cr: Cr, w: World)
    ensures |w.script| <= |RunRequest(r, p, cr, w).w.script| + 1 + Rank(p)
    decreases Rank(p)
  {
    hide Step;
    var m := Step(r, p, cr, Seen(w), Head(w).fault, Head(w).draw);
    StepEnds(r, p, cr, Seen(w), Head(w).fault, Head(w).draw);
    if m.progress.More? { RequestCalls(r, m.progress.pending, cr, World(m.st, Tail(w))); }
  }

  lemma {:induction false} StageCalls(rs: seq<Request>, cr: Cr, w: World)
    ensures |w.script| <= |RunStage(rs, cr, w).w.script| + 2 * |rs|
    decreases |rs|
  {
    hide RunRequest;
    if rs != [] {
      RequestCalls(rs[0], Fresh, cr, w);
      StageCalls(rs[1..], cr, RunRequest(rs[0], Fresh, cr, w).w);
    }
  }

  lemma {:induction false} StagesCalls(stages: seq<seq<Request>>, cr: Cr, w: World)
    ensures |w.script| <= |RunStages(stages, cr, w).w.script| + 2 * |Flatten(stages)|
    decreases |stages|
  {
    hide RunStage;
    if stages != [] {
      StageCalls(stages[0], cr, w);
      StagesCalls(stages[1..], cr, RunStage(stages[0], cr, w).w);
    }
  }

  lemma {:induction false} ObserveCalls(keys: seq<Key>, seen: map<Key, Got>, w: World)
    ensures |w.script| <= |RunObserve(keys, seen, w).w.script| + |keys|
    decreases |keys|
  {
    if keys != [] {
      ObserveCalls(keys[1..], seen[keys[0] := Get(Seen(w), keys[0], Head(w).fault).res], World(Seen(w), Tail(w)));
    }
  }

  /** After the finalizer a reconcile makes at most 64 calls, whatever happens between and to them. */
  lemma WorkCalls(cr: Cr, now: int, w: World)
    ensures |w.script| <= |RunWork(cr, now, w).w.script| + 64
  {
    hide Stages, ObservedKeys, Judged, Valid, Rejected;
    if Valid(cr.spec) {
      var done := RunStages(Stages(cr), cr, w);
      StagesCalls(Stages(cr), cr, w);
      PlanSize(cr);
      ObserveCalls(ObservedKeys(cr), map[], done.w);
      ObservedSize(cr);
      hide RunStages, RunObserve, Flatten;
    }
  }

  /** A reconcile makes at most 66 calls, whatever happens between and to them. */
  lemma ReconcileCalls(id: CrId, now: int, w: World)
    ensures |w.script| <= |RunReconcile(id, now, w).w.script| + 66
  {
    hide RunWork, RunStage;
    var w1 := World(Seen(w), Tail(w));
    var got := GetCr(Seen(w), id, Head(w).fault).res;
    if got.Ok? {
      var cr := got.value;
      if cr.deleting {
        StageCalls(FinalizeRequests(cr), cr, w1);
        assert |FinalizeRequests(cr)| <= 4;
      } else if FINALIZER in cr.finalizers {
        WorkCalls(cr, now, w1);
      } else {
        var saved := SaveCr(cr.(finalizers := cr.finalizers + {FINALIZER}), w1);
        if saved.1.Ok? { WorkCalls(saved.1.value, now, saved.0); }
      }
    }
  }

  // ---------- enough calls, answered, are enough ----------

  lemma WorkSucceeds(cr: Cr, now: int, w: World)
    requires AllServed(w.script) && Valid(cr.spec) && WellTyped(w.st) && |w.script| > 64
    ensures RunWork(cr, now, w).err.None? <==> AllAllowed(w.st, Flatten(Stages(cr)))
  {
    hide RunWork, Valid;
    WorkCalls(cr, now, w);
    ErrorsHaveCauses(cr, now, w);
  }

  /**
  From any store, a reconcile that is given enough answered calls and left alone
  returns no error exactly if the server allows every update the plan has to make of
  what is there, and then it settles every child.
  */
  lemma ReconcileSucceeds(id: CrId, now: int, w: World)
    requires AllServed(w.script) && |w.script| > 66
    requires WellTyped(w.st) && Reconcilable(w.st, id)
    ensures RunReconcile(id, now, w).err.None? <==> AllAllowed(w.st, Flatten(Stages(w.st.crs[id])))
    ensures RunReconcile(id, now, w).err.None? ==> Settled(w.st, RunReconcile(id, now, w).w.st, w.st.crs[id])
  {
    ErrorFree(id, now, w);
    hide RunReconcile, Settled, WellTyped, Reconcilable;
    if RunReconcile(id, now, w).err.None? { ReconcileConverges(id, now, w); }
  }

  lemma ErrorFree(id: CrId, now: int, w: World)
    requires AllServed(w.script) && |w.script| > 66 && WellTyped(w.st) && Reconcilable(w.st, id)
    ensures RunReconcile(id, now, w).err.None? <==> AllAllowed(w.st, Flatten(Stages(w.st.crs[id])))
  {
    hide RunWork, Valid, Flatten, Stages, Allowed;
    assert Head(w) in w.script;
    var cr, w1 := w.st.crs[id], World(w.st, Tail(w));
    if FINALIZER in cr.finalizers {
      WorkSucceeds(cr, now, w1);
    } else {
      assert Head(w1) in w1.script;
      var saved := SaveCr(cr.(finalizers := cr.finalizers + {FINALIZER}), w1);
      WorkSucceeds(saved.1.value, now, saved.0);
      StagesDependOnSpec(cr, saved.1.value);
      AllowedElsewhere(w.st, saved.0.st, Flatten(Stages(cr)));
    }
  }
}
