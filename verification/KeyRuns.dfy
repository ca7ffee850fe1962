/**
Two more facts about every run of the operator: signing keys are never touched
once stored, and an approval fleet larger than one shares its replay store.
*/
module KeyRuns {
  import opened Options
  import opened Spec
  import opened Store
  import opened Builders
  import opened Plan
  import opened Worker
  import opened Runs

  // ---------- signing keys ----------

  /** One call never deletes a Secret, replaces it, or changes what it holds. */
  lemma CallKeepsSecrets(r: Request, p: Pending, cr: Cr, st: State, f: Fault, draw: KeyPair, key: Key)
    requires key.kind == Secret && key in st.objs
    requires RequestOk(cr, r) && PendingOk(st, r, p)
    ensures var st' := Step(r, p, cr, st, f, draw).st;
            key in st'.objs && st'.objs[key].uid == st.objs[key].uid && st'.objs[key].body == st.objs[key].body
  {
    hide MergeBody;
  }

  lemma TurnKeepsSecrets(id: CrId, w: Worker, st: State, f: Fault, draw: KeyPair, key: Key)
    requires WorkerOk(false, st, id, w)
    requires key.kind == Secret && key in st.objs
    ensures var st' := Next(id, w, st, f, draw).st;
            key in st'.objs && st'.objs[key].uid == st.objs[key].uid && st'.objs[key].body == st.objs[key].body
  {
    hide FetchTurn, Enter, Step, Residue;
    match w {
      case Work(cr, _, stages, p, _) =>
        assert RequestsOk(cr, stages[0]);
        CallKeepsSecrets(stages[0][0], p, cr, st, f, draw, key);
      case Cleanup(cr, rs, p) => CallKeepsSecrets(rs[0], p, cr, st, f, draw, key);
      case _ =>
    }
  }

  /** Others may delete and create Secrets, under identities never used before, but do not edit them. */
  ghost predicate SecretsKept(s: State, s': State) {
    forall key :: key in s'.objs && key.kind == Secret ==>
      || (key in s.objs && s'.objs[key].uid == s.objs[key].uid && s'.objs[key].body == s.objs[key].body)
      || s.next <= s'.objs[key].uid < s'.next
  }

  ghost predicate KeyedRun(run: seq<Sys>, moves: seq<Move>) {
    && IsRun(false, run, moves)
    && (forall key :: key in run[0].st.objs ==> run[0].st.objs[key].uid < run[0].st.next)
    && (forall i :: 0 <= i < |moves| && moves[i].Others? ==> SecretsKept(run[i].st, run[i + 1].st))
  }

  lemma StepCreatesFresh(r: Request, p: Pending, cr: Cr, st: State, f: Fault, draw: KeyPair, key: Key)
    requires var st' := Step(r, p, cr, st, f, draw).st; key in st'.objs && key !in st.objs
    ensures var st' := Step(r, p, cr, st, f, draw).st; st.next == st'.objs[key].uid < st'.next
  {
    hide MergeBody;
  }

  /** New Secrets of the operator's own are new identities too. */
  lemma TurnCreatesFresh(id: CrId, w: Worker, st: State, f: Fault, draw: KeyPair, key: Key)
    requires StoreOk(false, st)
    requires WorkerOk(false, st, id, w)
    requires key in Next(id, w, st, f, draw).st.objs && key !in st.objs
    ensures st.next == Next(id, w, st, f, draw).st.objs[key].uid < Next(id, w, st, f, draw).st.next
  {
    hide FetchTurn, Enter, Residue, RequestOk, Step, StoreOk;
    match w {
      case Work(cr, _, stages, p, _) => StepCreatesFresh(stages[0][0], p, cr, st, f, draw, key);
      case Cleanup(cr, rs, p) => StepCreatesFresh(rs[0], p, cr, st, f, draw, key);
      case _ =>
    }
  }

  lemma SecretsAcrossStep(a: Sys, b: Sys, m: Move)
    requires SysOk(false, a) && SysStep(false, a, b, m)
    requires m.Others? ==> SecretsKept(a.st, b.st)
    ensures SecretsKept(a.st, b.st) && a.st.next <= b.st.next
  {
    match m {
      case Call(id, f, draw) =>
        var w := a.workers[id];
        forall key | key in b.st.objs && key.kind == Secret
          ensures (key in a.st.objs && b.st.objs[key].uid == a.st.objs[key].uid && b.st.objs[key].body == a.st.objs[key].body)
               || a.st.next <= b.st.objs[key].uid < b.st.next
        {
          if key in a.st.objs { TurnKeepsSecrets(id, w, a.st, f, draw, key); }
          else { TurnCreatesFresh(id, w, a.st, f, draw, key); }
        }
        AnyTurn(false, id, w, a.st, f, draw);
        assert Rely(false, CrId(id.ns, id.name + "x"), a.st, b.st);
      case _ =>
    }
  }

  lemma KeyedStep(run: seq<Sys>, moves: seq<Move>, n: nat)
    requires KeyedRun(run, moves) && n < |moves|
    ensures SecretsKept(run[n].st, run[n + 1].st) && run[n].st.next <= run[n + 1].st.next
  {
    RunOk(false, run, moves, n);
    SecretsAcrossStep(run[n], run[n + 1], moves[n]);
  }

  /** Identities in use stay below the counter, which only grows. */
  lemma {:induction false} UidsStayBelow(run: seq<Sys>, moves: seq<Move>, n: nat, key: Key)
    requires KeyedRun(run, moves) && n < |run|
    requires key.kind == Secret && key in run[n].st.objs
    ensures run[n].st.objs[key].uid < run[n].st.next
    decreases n
  {
    if n > 0 {
      KeyedStep(run, moves, n - 1);
      if key in run[n - 1].st.objs { UidsStayBelow(run, moves, n - 1, key); }
    }
  }

  lemma {:induction false} Later(run: seq<Sys>, moves: seq<Move>, i: nat, j: nat)
    requires KeyedRun(run, moves) && i <= j < |run|
    ensures run[i].st.next <= run[j].st.next
    decreases j
  {
    hide SysStep, StoreOk;
    if i < j {
      Later(run, moves, i, j - 1);
      KeyedStep(run, moves, j - 1);
    }
  }

  lemma RunLength(run: seq<Sys>, moves: seq<Move>)
    requires KeyedRun(run, moves)
    ensures |run| == |moves| + 1
  {
  }

  /** A Secret with an identity that is not new was there before, and the same. */
  lemma SameSecretBefore(run: seq<Sys>, moves: seq<Move>, n: nat, key: Key)
    requires KeyedRun(run, moves) && n < |moves|
    requires key.kind == Secret && key in run[n + 1].st.objs && run[n + 1].st.objs[key].uid < run[n].st.next
    ensures key in run[n].st.objs
    ensures run[n].st.objs[key].uid == run[n + 1].st.objs[key].uid && run[n].st.objs[key].body == run[n + 1].st.objs[key].body
  {
    KeyedStep(run, moves, n);
    hide SysStep, StoreOk;
  }

  /**
  As long as a Secret is the same Secret it holds the same key pair: through
  switching approval off and on, label refreshes, lost create races, repeated
  reconciles, failures and restarts.
  */
  lemma {:induction false} SigningKeysNeverChange(run: seq<Sys>, moves: seq<Move>, i: nat, j: nat, key: Key)
    requires KeyedRun(run, moves) && i <= j < |run|
    requires key.kind == Secret && key in run[i].st.objs && key in run[j].st.objs
    requires run[i].st.objs[key].uid == run[j].st.objs[key].uid
    ensures run[i].st.objs[key].body == run[j].st.objs[key].body
    decreases j
  {
    hide KeyedRun;
    if i < j {
      RunLength(run, moves);
      UidsStayBelow(run, moves, i, key);
      Later(run, moves, i, j - 1);
      SameSecretBefore(run, moves, j - 1, key);
      SigningKeysNeverChange(run, moves, i, j - 1, key);
    }
  }

  /** No call of any reconcile, for any specification, removes or replaces a stored Secret. */
  lemma OperatorNeverDropsSecrets(a: Sys, b: Sys, id: CrId, f: Fault, draw: KeyPair, key: Key)
    requires SysOk(false, a) && SysStep(false, a, b, Call(id, f, draw))
    requires key.kind == Secret && key in a.st.objs
    ensures key in b.st.objs && b.st.objs[key].uid == a.st.objs[key].uid && b.st.objs[key].body == a.st.objs[key].body
  {
    TurnKeepsSecrets(id, a.workers[id], a.st, f, draw, key);
  }

  // ---------- replicas and the replay store ----------

  const APPROVAL_SUFFIX := "-approval-server"

  ghost predicate IsApprovalName(name: string) {
    exists prefix: string :: name == prefix + APPROVAL_SUFFIX
  }

  /** More than one replica only with a replay store the replicas share. */
  ghost predicate SharesReplayStore(b: Body) {
    b.DeploymentBody? && b.replicas > 1 ==> exists backend :: backend != "inmemory" && BackendArg(backend) in b.template.args
  }

  lemma OtherNames(name: string, suffix: string)
    requires suffix == "-watcher" || suffix == "-aiwatch"
    ensures !IsApprovalName(name + suffix)
  {
    forall prefix: string ensures name + suffix != prefix + APPROVAL_SUFFIX {
      var a, b := name + suffix, prefix + APPROVAL_SUFFIX;
      assert b[|b| - 3] == 'v' && a[|a| - 3] != 'v';
    }
  }

  ghost predicate ReplicaSafe(r: Request) {
    r.Ensure? && r.key.kind == Deployment && IsApprovalName(r.key.name) ==>
      r.desired.body.DeploymentBody? && SharesReplayStore(r.desired.body)
  }

  ghost predicate StagesReplicaSafe(stages: seq<seq<Request>>) {
    forall rs, r :: rs in stages && r in rs ==> ReplicaSafe(r)
  }

  lemma PairsKinds(ps: seq<RolePair>)
    ensures forall r :: r in PairsRequests(ps) ==> r.key.kind == Role || r.key.kind == RoleBinding
  {
  }

  lemma FleetIsSafe(cr: Cr)
    requires Valid(cr.spec) && ApprovalEnabled(cr.spec)
    ensures SharesReplayStore(BuildApproval(cr).value.body)
  {
    hide CommonLabels, IsApprovalName;
  }

  lemma OtherRequestsSafe(cr: Cr, r: Request)
    requires ApprovalEnabled(cr.spec) && (r in ApprovalHead(cr) || r in PairsRequests(RolePairs(cr)))
    ensures ReplicaSafe(r)
  {
    PairsKinds(RolePairs(cr));
    hide PairsRequests, IsApprovalName, SharesReplayStore;
  }

  lemma ApprovalReplicaSafe(cr: Cr, r: Request)
    requires Valid(cr.spec) && r in ApprovalStage(cr)
    ensures ReplicaSafe(r)
  {
    hide IsApprovalName, SharesReplayStore, PairsRequests, ApprovalHead, Valid, ReplicaSafe;
    if ApprovalEnabled(cr.spec) {
      if r in ApprovalTail(cr) { TailSafe(cr, r); } else { OtherRequestsSafe(cr, r); }
    } else {
      TeardownSafe(cr, r);
    }
  }

  lemma TailSafe(cr: Cr, r: Request)
    requires Valid(cr.spec) && ApprovalEnabled(cr.spec) && r in ApprovalTail(cr)
    ensures ReplicaSafe(r)
  {
    FleetIsSafe(cr);
    hide IsApprovalName, SharesReplayStore, Valid, CommonLabels, StoreArgs;
  }

  lemma TeardownSafe(cr: Cr, r: Request)
    requires r in ApprovalTeardown(cr)
    ensures ReplicaSafe(r)
  {
    hide IsApprovalName, SharesReplayStore;
  }

  lemma PlanReplicaSafe(cr: Cr)
    requires Valid(cr.spec)
    ensures StagesReplicaSafe(Stages(cr))
  {
    OtherNames(cr.id.name, "-watcher");
    OtherNames(cr.id.name, "-aiwatch");
    hide BuildWatcher, BuildWebhookService, BuildDiagnose, BuildRemediate, BuildAiWatch, BuildMetricsService, BuildRag, BuildRagService,
      BuildServiceAccount, ReaderBinding, ReaderRole, Valid, IsApprovalName, SharesReplayStore, ApprovalStage;
    forall r | r in ApprovalStage(cr) ensures ReplicaSafe(r) { ApprovalReplicaSafe(cr, r); }
  }

  ghost predicate WorkersReplicaSafe(a: Sys) {
    forall id :: id in a.workers && a.workers[id].Work? ==> StagesReplicaSafe(a.workers[id].stages)
  }

  /** Approval deployments as the operator last wrote them. */
  ghost predicate FleetsSafe(st: State) {
    forall key :: key in st.objs && key.kind == Deployment && IsApprovalName(key.name) && st.objs[key].writer.Some? ==>
      SharesReplayStore(st.objs[key].body)
  }

  /** Whoever edits an object becomes its last writer. */
  ghost predicate WritersHonest(s: State, s': State) {
    forall key :: key in s'.objs && s'.objs[key].writer.Some? ==>
      key in s.objs && s.objs[key].writer.Some? && s.objs[key].body == s'.objs[key].body
  }

  lemma MergeShares(cur: Body, d: Body)
    requires d.DeploymentBody? && SharesReplayStore(d)
    ensures SharesReplayStore(MergeBody(cur, d))
  {
  }

  lemma StepReplicas(r: Request, p: Pending, cr: Cr, st: State, f: Fault, draw: KeyPair)
    requires FleetsSafe(st) && ReplicaSafe(r) && (r.key.kind == Deployment ==> !r.EnsureSecret?)
    ensures FleetsSafe(Step(r, p, cr, st, f, draw).st)
  {
    if r.Ensure? && p.Found? && r.key.kind == Deployment && IsApprovalName(r.key.name) {
      MergeShares(p.o.body, r.desired.body);
    }
    hide SharesReplayStore, IsApprovalName, MergeBody;
  }

  lemma ResumeReplicas(cr: Cr, now: int, stages: seq<seq<Request>>, err: Option<Error>)
    requires StagesReplicaSafe(stages)
    ensures var w := Resume(cr, now, stages, err); w.Work? ==> StagesReplicaSafe(w.stages)
  {
  }

  lemma EnterReplicas(cr: Cr, now: int)
    ensures var w := Enter(cr, now); w.Work? ==> StagesReplicaSafe(w.stages)
  {
    hide Stages;
    if Valid(cr.spec) {
      PlanReplicaSafe(cr);
      ResumeReplicas(cr, now, Stages(cr), None);
    }
  }

  lemma TurnReplicas(id: CrId, w: Worker, st: State, f: Fault, draw: KeyPair)
    requires FleetsSafe(st) && (w.Work? ==> StagesReplicaSafe(w.stages))
    requires WorkerOk(false, st, id, w)
    ensures var t := Next(id, w, st, f, draw); FleetsSafe(t.st) && (t.worker.Work? ==> StagesReplicaSafe(t.worker.stages))
  {
    hide Enter, Step, FleetsSafe, ReplicaSafe;
    match w {
      case Fetch(now) => if id in st.crs { EnterReplicas(st.crs[id], now); }
      case AddFinalizer(cr, now) =>
        var reply := UpdateCr(st, cr, f);
        if reply.res.Ok? { EnterReplicas(reply.res.value, now); }
        SameFleets(st, reply.st);
      case Cleanup(cr, rs, p) =>
        CleanupReplicas(rs[0], p, cr, st, f, draw);
      case Work(cr, now, stages, p, err) =>
        assert stages[0] in stages && stages[0][0] in stages[0];
        assert RequestOk(cr, stages[0][0]);
        StepReplicas(stages[0][0], p, cr, st, f, draw);
        var rest := [stages[0][1..]] + stages[1..];
        assert StagesReplicaSafe(rest);
        ResumeReplicas(cr, now, rest, err);
        var e := Step(stages[0][0], p, cr, st, f, draw).progress;
        if e.Done? { ResumeReplicas(cr, now, stages[1..], Track(err, e.err)); }
      case DropFinalizer(cr) => SameFleets(st, UpdateCr(st, cr, f).st);
      case Report(cr, _, _) => SameFleets(st, UpdateStatus(st, cr, f).st);
      case _ =>
    }
  }

  lemma SameFleets(s: State, s': State)
    requires FleetsSafe(s) && s'.objs == s.objs
    ensures FleetsSafe(s')
  {
  }

  lemma CleanupReplicas(r: Request, p: Pending, cr: Cr, st: State, f: Fault, draw: KeyPair)
    requires FleetsSafe(st) && CleanupRequest(r)
    ensures FleetsSafe(Step(r, p, cr, st, f, draw).st)
  {
  }

  /**
  In every state of every run, an approval deployment as the operator wrote it has
  one replica or a replay store that is not the in-memory one.
  */
  lemma {:induction false} FleetsShareTheirStore(run: seq<Sys>, moves: seq<Move>, n: nat)
    requires IsRun(false, run, moves) && n < |run|
    requires FleetsSafe(run[0].st)
    requires forall i :: 0 <= i < |moves| && moves[i].Others? ==> WritersHonest(run[i].st, run[i + 1].st)
    ensures FleetsSafe(run[n].st)
    ensures WorkersReplicaSafe(run[n])
    decreases n
  {
    if n > 0 {
      FleetsShareTheirStore(run, moves, n - 1);
      RunOk(false, run, moves, n - 1);
      hide StoreOk, SharesReplayStore, IsApprovalName, StagesReplicaSafe;
      var a, m := run[n - 1], moves[n - 1];
      assert SysStep(false, a, run[n], m);
      if m.Call? {
        TurnReplicas(m.id, a.workers[m.id], a.st, m.fault, m.draw);
      }
      hide Next;
    }
  }
}
