/** Reconciling one custom resource and the workloads of all the others. */
module Neighbours {
  import opened Options
  import opened Spec
  import opened Store
  import opened Builders
  import opened Conditions
  import opened Plan
  import opened Naming
  import opened Worker
  import opened Runs

  predicate WorkloadKind(kind: Kind) { kind == Deployment || kind == CronJob || kind == StatefulSet || kind == Service }

  ghost predicate AllBelong(id: CrId, rs: seq<Request>) {
    forall r :: r in rs && WorkloadKind(r.key.kind) ==> BelongsTo(r.key, id)
  }

  lemma BelongsWith(key: Key, id: CrId, i: nat)
    requires key.ns == id.ns && i < |Suffixes(key.kind)| && key.name == id.name + Suffixes(key.kind)[i]
    ensures BelongsTo(key, id)
  {
  }

  lemma KeysBelong(id: CrId)
    ensures BelongsTo(Child(Deployment, id, WatcherName(id)), id) && BelongsTo(Child(Deployment, id, AiWatchName(id)), id)
    ensures BelongsTo(Child(Deployment, id, ApprovalName(id)), id) && BelongsTo(Child(StatefulSet, id, RagName(id)), id)
    ensures BelongsTo(Child(CronJob, id, DiagnoseName(id)), id) && BelongsTo(Child(CronJob, id, RemediateName(id)), id)
    ensures BelongsTo(Child(Service, id, WebhookName(id)), id) && BelongsTo(Child(Service, id, MetricsName(id)), id)
    ensures BelongsTo(Child(Service, id, RagName(id)), id) && BelongsTo(Child(Service, id, ApprovalName(id)), id)
  {
    hide BelongsTo;
    BelongsWith(Child(Deployment, id, WatcherName(id)), id, 0);
    BelongsWith(Child(Deployment, id, AiWatchName(id)), id, 1);
    BelongsWith(Child(Deployment, id, ApprovalName(id)), id, 2);
    BelongsWith(Child(StatefulSet, id, RagName(id)), id, 0);
    BelongsWith(Child(CronJob, id, DiagnoseName(id)), id, 0);
    BelongsWith(Child(CronJob, id, RemediateName(id)), id, 1);
    BelongsWith(Child(Service, id, WebhookName(id)), id, 0);
    BelongsWith(Child(Service, id, MetricsName(id)), id, 1);
    BelongsWith(Child(Service, id, RagName(id)), id, 2);
    BelongsWith(Child(Service, id, ApprovalName(id)), id, 3);
  }

  lemma StagesBelong(cr: Cr)
    ensures AllBelong(cr.id, ServiceAccountStage(cr)) && AllBelong(cr.id, ReaderStage(cr)) && AllBelong(cr.id, WatcherStage(cr))
    ensures AllBelong(cr.id, DiagnoseStage(cr)) && AllBelong(cr.id, RemediateStage(cr))
    ensures AllBelong(cr.id, AiWatchStage(cr)) && AllBelong(cr.id, RagStage(cr))
  {
    KeysBelong(cr.id);
    hide BelongsTo, BuildWatcher, BuildWebhookService, BuildDiagnose, BuildRemediate, BuildAiWatch, BuildMetricsService, BuildRag, BuildRagService,
      BuildServiceAccount, ReaderRole, ReaderBinding, WatcherName, WebhookName, DiagnoseName, RemediateName, AiWatchName, MetricsName, RagName;
  }

  lemma PairsBelong(id: CrId, ps: seq<RolePair>)
    ensures AllBelong(id, PairsRequests(ps))
  {
  }

  lemma ApprovalBelongs(cr: Cr)
    ensures AllBelong(cr.id, ApprovalStage(cr))
  {
    KeysBelong(cr.id);
    hide BelongsTo;
    if ApprovalEnabled(cr.spec) {
      ApprovalBuilt(cr);
      PairsBelong(cr.id, RolePairs(cr));
      EndsBelong(cr);
      hide PairsRequests, ApprovalHead, ApprovalTail;
    } else {
      TeardownBelongs(cr);
    }
  }

  lemma EndsBelong(cr: Cr)
    requires ApprovalEnabled(cr.spec)
    ensures AllBelong(cr.id, ApprovalHead(cr)) && AllBelong(cr.id, ApprovalTail(cr))
  {
    HeadBelongs(cr);
    KeysBelong(cr.id);
    ApprovalBuilt(cr);
    hide *;
    FrontsBelong(cr);
  }

  lemma FrontsBelong(cr: Cr)
    requires ApprovalEnabled(cr.spec) && BuildApprovalService(cr).Some? && BuildApproval(cr).Some?
    requires BelongsTo(Child(Deployment, cr.id, ApprovalName(cr.id)), cr.id) && BelongsTo(Child(Service, cr.id, ApprovalName(cr.id)), cr.id)
    ensures AllBelong(cr.id, ApprovalTail(cr))
  {
    hide BelongsTo, ApprovalName, BuildApproval, BuildApprovalService, BuildNetworkPolicy, BuildIngress;
  }

  lemma HeadBelongs(cr: Cr)
    requires ApprovalEnabled(cr.spec)
    ensures AllBelong(cr.id, ApprovalHead(cr))
  {
    hide BelongsTo, BuildApprovalServiceAccount, FixerRole, FixerBinding, CommonLabels;
  }

  lemma TeardownBelongs(cr: Cr)
    ensures AllBelong(cr.id, ApprovalTeardown(cr))
  {
    KeysBelong(cr.id);
    hide BelongsTo, ApprovalName, SigningReaderName, EventsName, StoresName, FixerBindingName;
  }

  // ---------- in every run ----------

  /** What a worker has still to ask for concerns no workload but its own resource's. */
  ghost predicate Minds(id: CrId, w: Worker) {
    && (w.Work? ==> forall rs :: rs in w.stages ==> AllBelong(id, rs))
    && (w.Cleanup? ==> forall r :: r in w.requests ==> !WorkloadKind(r.key.kind))
  }

  lemma ResumeMinds(cr: Cr, now: int, stages: seq<seq<Request>>, err: Option<Error>)
    requires forall rs :: rs in stages ==> AllBelong(cr.id, rs)
    ensures Minds(cr.id, Resume(cr, now, stages, err))
  {
    hide AllBelong;
  }

  lemma EnterMinds(cr: Cr, now: int)
    ensures Minds(cr.id, Enter(cr, now))
  {
    hide Valid, Judged, BelongsTo, ServiceAccountStage, ReaderStage, WatcherStage, DiagnoseStage, RemediateStage, AiWatchStage, RagStage,
      ApprovalStage, AllBelong;
    StagesBelong(cr);
    ApprovalBelongs(cr);
    if Valid(cr.spec) { ResumeMinds(cr, now, Stages(cr), None); }
  }

  lemma FinalizerMinds(cr: Cr)
    ensures forall r :: r in FinalizeRequests(cr) ==> !WorkloadKind(r.key.kind)
  {
  }

  lemma TailBelongs(id: CrId, rs: seq<Request>)
    requires AllBelong(id, rs) && rs != []
    ensures AllBelong(id, rs[1..])
  {
  }

  lemma TurnMinds(id: CrId, w: Worker, st: State, f: Fault, draw: KeyPair)
    requires StoreOk(false, st) && WorkerOk(false, st, id, w) && Minds(id, w)
    ensures Minds(id, Next(id, w, st, f, draw).worker)
  {
    hide Enter, Step, FinalizeRequests, Residue, RequestOk, AllBelong, WorkloadKind;
    match w {
      case Fetch(now) =>
        if id in st.crs { EnterMinds(st.crs[id], now); FinalizerMinds(st.crs[id]); }
      case AddFinalizer(cr, now) =>
        var reply := UpdateCr(st, cr, f);
        if reply.res.Ok? { EnterMinds(reply.res.value, now); }
      case Work(cr, now, stages, p, err) =>
        TailBelongs(id, stages[0]);
        var m := Step(stages[0][0], p, cr, st, f, draw);
        ResumeMinds(cr, now, [stages[0][1..]] + stages[1..], err);
        if m.progress.Done? { ResumeMinds(cr, now, stages[1..], Track(err, m.progress.err)); }
      case _ =>
    }
  }

  ghost predicate AllMind(a: Sys) { forall id :: id in a.workers ==> Minds(id, a.workers[id]) }

  lemma {:induction false} RunMinds(run: seq<Sys>, moves: seq<Move>, n: nat)
    requires IsRun(false, run, moves) && n < |run|
    ensures AllMind(run[n])
    decreases n
  {
    if n > 0 {
      RunMinds(run, moves, n - 1);
      RunOk(false, run, moves, n - 1);
      hide StoreOk, WorkerOk;
      var a, m := run[n - 1], moves[n - 1];
      assert SysStep(false, a, run[n], m);
      if m.Call? { TurnMinds(m.id, a.workers[m.id], a.st, m.fault, m.draw); }
      hide Next;
    }
  }

  lemma StepElsewhere(r: Request, p: Pending, cr: Cr, st: State, f: Fault, draw: KeyPair, key: Key)
    requires key != r.key
    ensures var st' := Step(r, p, cr, st, f, draw).st;
            (key in st'.objs <==> key in st.objs) && (key in st.objs ==> st'.objs[key] == st.objs[key])
  {
    hide MergeBody;
  }

  lemma TurnElsewhere(id: CrId, w: Worker, st: State, f: Fault, draw: KeyPair, other: CrId, key: Key)
    requires WorkerOk(false, st, id, w) && Minds(id, w)
    requires other != id && WorkloadKind(key.kind) && BelongsTo(key, other)
    ensures var st' := Next(id, w, st, f, draw).st;
            (key in st'.objs <==> key in st.objs) && (key in st.objs ==> st'.objs[key] == st.objs[key])
  {
    if BelongsTo(key, id) { WorkloadsAreDisjoint(key, id, other); }
    hide BelongsTo, RequestOk, Residue, Enter, FetchTurn, Step, WorkloadKind;
    match w {
      case Cleanup(cr, rs, p) =>
        assert rs[0] in rs;
        StepElsewhere(rs[0], p, cr, st, f, draw, key);
      case Work(cr, _, stages, p, _) =>
        assert stages[0] in stages && stages[0][0] in stages[0];
        StepElsewhere(stages[0][0], p, cr, st, f, draw, key);
      case _ =>
    }
  }

  /**
  In every run, under any interference and failures, no call of one resource's reconcile
  creates, changes or removes a Deployment, CronJob, StatefulSet or Service that
  another resource may have.
  */
  lemma OthersKeepTheirWorkloads(run: seq<Sys>, moves: seq<Move>, n: nat, id: CrId, f: Fault, draw: KeyPair, other: CrId, key: Key)
    requires IsRun(false, run, moves) && n < |moves| && moves[n] == Call(id, f, draw)
    requires other != id && WorkloadKind(key.kind) && BelongsTo(key, other)
    ensures key in run[n + 1].st.objs <==> key in run[n].st.objs
    ensures key in run[n].st.objs ==> run[n + 1].st.objs[key] == run[n].st.objs[key]
  {
    RunMinds(run, moves, n);
    RunOk(false, run, moves, n);
    assert SysStep(false, run[n], run[n + 1], moves[n]);
    TurnElsewhere(id, run[n].workers[id], run[n].st, f, draw, other, key);
    hide Next, StoreOk, WorkerOk, BelongsTo;
  }
}
