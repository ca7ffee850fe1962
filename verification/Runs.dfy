/**
The operator as a whole: any number of reconciles, the users and the cluster
itself taking turns, one API call at a time, for any length of time.

`Residue` is what a custom resource may leave behind that nothing would collect.
The results at the end of the file hold in every state of every run.
*/
module Runs {
  import opened Options
  import opened Spec
  import opened Store
  import opened Builders
  import opened Plan
  import opened Worker

  /** Identifiers without a worker are idle. */
  datatype Sys = Sys(st: State, workers: map<CrId, Worker>)

  datatype Move =
    | Others(st: State)
    | Begin(id: CrId, now: int)
    | Call(id: CrId, fault: Fault, draw: KeyPair)
    | Crash(id: CrId)

  // ---------- what everybody else may do ----------

  predicate Guarded(st: State, id: CrId) {
    id in st.crs && FINALIZER in st.crs[id].finalizers
  }

  /**
  Custom resources: a changed one gets a fresh version, nobody strips the operator's
  finalizer, and the API server keeps a resource that carries it. With `pinned`,
  its audit namespace stays what it was.
  */
  ghost predicate CrsEvolve(pinned: bool, s: State, s': State) {
    && (forall id :: id in s'.crs ==> s'.crs[id].id == id)
    && (forall id :: id in s'.crs ==> (id in s.crs && s.crs[id] == s'.crs[id]) || s.next <= s'.crs[id].rv < s'.next)
    && (forall id :: Guarded(s, id) ==> Guarded(s', id) && s'.crs[id].uid == s.crs[id].uid)
    && (pinned ==> forall id :: Guarded(s, id) && Guarded(s', id) ==>
          AuditNamespace(id, s'.crs[id].spec) == AuditNamespace(id, s.crs[id].spec))
  }

  /** Labelled as the cluster-scoped binding of `id`. */
  predicate LabelledBinding(st: State, key: Key, id: CrId) {
    id.name != "" && key in st.objs && key.kind == ClusterRoleBinding && BoundTo(st.objs[key], id)
  }

  /** An events role or binding made for `id` outside its namespace, and owned by nobody. */
  predicate StrayEvents(st: State, key: Key, id: CrId) {
    && key in st.objs
    && (key.kind == Role || key.kind == RoleBinding)
    && key.ns != id.ns
    && key.name == EventsName(id)
    && st.objs[key].maker == Some(id)
    && st.objs[key].owner.None?
  }

  predicate Residue(pinned: bool, st: State, key: Key, id: CrId) {
    LabelledBinding(st, key, id) || (pinned && StrayEvents(st, key, id))
  }

  /** The four places where a reconcile of `cr` can put residue. */
  predicate ResiduePlace(pinned: bool, cr: Cr, key: Key) {
    || key == ReaderBindingKey(cr.id) || key == FixerBindingKey(cr.id)
    || (pinned && AuditNamespace(cr.id, cr.spec) != cr.id.ns && (key == EventsRoleKey(cr) || key == EventsBindingKey(cr)))
  }

  /** Others write no operator label, claim no authorship, and every change has a fresh version. */
  ghost predicate ObjectsEvolve(pinned: bool, s: State, s': State) {
    && (forall key :: key in s'.objs ==> (key in s.objs && s.objs[key] == s'.objs[key]) || s.next <= s'.objs[key].rv < s'.next)
    && (forall key, id :: Residue(pinned, s', key, id) ==> Residue(pinned, s, key, id))
  }

  ghost predicate OthersMay(pinned: bool, s: State, s': State) {
    s.next <= s'.next && CrsEvolve(pinned, s, s') && ObjectsEvolve(pinned, s, s')
  }

  ghost predicate SysStep(pinned: bool, a: Sys, b: Sys, m: Move) {
    match m
    case Others(st) => b == a.(st := st) && OthersMay(pinned, a.st, st)
    case Begin(id, now) => (id !in a.workers || a.workers[id].Finished?) && b == a.(workers := a.workers[id := Fetch(now)])
    case Call(id, fault, draw) =>
      && id in a.workers
      && var turn := Next(id, a.workers[id], a.st, fault, draw);
         b == Sys(turn.st, a.workers[id := turn.worker])
    case Crash(id) => b == a.(workers := a.workers - {id})
  }

  /** Every piece of residue belongs to a resource that carries the finalizer, and lies where its cleanup looks. */
  ghost predicate StoreOk(pinned: bool, st: State) {
    && (forall id :: id in st.crs ==> st.crs[id].id == id && st.crs[id].rv < st.next)
    && (forall key :: key in st.objs ==> st.objs[key].rv < st.next)
    && (forall key, id :: Residue(pinned, st, key, id) ==> Guarded(st, id) && ResiduePlace(pinned, st.crs[id], key))
  }

  /** No reconcile is under way. */
  ghost predicate Initial(pinned: bool, a: Sys) {
    a.workers == map[] && StoreOk(pinned, a.st)
  }

  ghost predicate IsRun(pinned: bool, run: seq<Sys>, moves: seq<Move>) {
    && |run| == |moves| + 1
    && Initial(pinned, run[0])
    && forall i :: 0 <= i < |moves| ==> SysStep(pinned, run[i], run[i + 1], moves[i])
  }

  // ---------- what a request of a plan is like ----------

  ghost predicate RequestOk(cr: Cr, r: Request) {
    && (r.key.kind == Secret ==> r.EnsureSecret?)
    && (r.EnsureSecret? ==> r.key.kind == Secret)
    && (r.Ensure? && r.key.kind == ClusterRoleBinding ==>
          && (r.key == ReaderBindingKey(cr.id) || r.key == FixerBindingKey(cr.id))
          && CR_LABEL in r.desired.labels && r.desired.labels[CR_LABEL] == cr.id.name
          && CR_NAMESPACE_LABEL in r.desired.labels && r.desired.labels[CR_NAMESPACE_LABEL] == cr.id.ns)
    && (r.Ensure? && (r.key.kind == Role || r.key.kind == RoleBinding) && r.key.ns != cr.id.ns && r.key.name == EventsName(cr.id) ==>
          r.key == EventsRoleKey(cr) || r.key == EventsBindingKey(cr))
  }

  ghost predicate RequestsOk(cr: Cr, rs: seq<Request>) {
    forall r :: r in rs ==> RequestOk(cr, r)
  }

  ghost predicate StagesOk(cr: Cr, stages: seq<seq<Request>>) {
    forall rs :: rs in stages ==> RequestsOk(cr, rs)
  }

  lemma PairIsOk(cr: Cr, p: RolePair)
    requires p in RolePairs(cr)
    ensures RequestsOk(cr, PairRequests(p))
  {
    assert |StoresName(cr.id)| == |EventsName(cr.id)|;
    assert StoresName(cr.id)[|cr.id.name| + 17] != EventsName(cr.id)[|cr.id.name| + 17];
  }

  lemma PairsAreOk(cr: Cr, ps: seq<RolePair>)
    requires forall p :: p in ps ==> p in RolePairs(cr)
    ensures RequestsOk(cr, PairsRequests(ps))
  {
    if ps != [] {
      PairIsOk(cr, ps[0]);
      PairsAreOk(cr, ps[1..]);
    }
  }

  lemma ApprovalEndsAreOk(cr: Cr)
    requires ApprovalEnabled(cr.spec)
    ensures RequestsOk(cr, ApprovalHead(cr)) && RequestsOk(cr, ApprovalTail(cr))
  {
    hide BuildApproval, BuildApprovalService, BuildNetworkPolicy, BuildIngress, CommonLabels;
  }

  lemma TeardownIsOk(cr: Cr)
    ensures RequestsOk(cr, ApprovalTeardown(cr))
  {
  }

  lemma ApprovalIsOk(cr: Cr)
    ensures RequestsOk(cr, ApprovalStage(cr))
  {
    hide RequestOk, ApprovalHead, ApprovalTail, PairsRequests;
    if ApprovalEnabled(cr.spec) {
      PairsAreOk(cr, RolePairs(cr));
      ApprovalEndsAreOk(cr);
    } else {
      TeardownIsOk(cr);
    }
  }

  lemma WorkloadsAreOk(cr: Cr)
    ensures RequestsOk(cr, ServiceAccountStage(cr)) && RequestsOk(cr, ReaderStage(cr))
    ensures RequestsOk(cr, WatcherStage(cr)) && RequestsOk(cr, DiagnoseStage(cr)) && RequestsOk(cr, RemediateStage(cr))
    ensures RequestsOk(cr, AiWatchStage(cr)) && RequestsOk(cr, RagStage(cr))
  {
    hide BuildWatcher, BuildWebhookService, BuildDiagnose, BuildRemediate, BuildAiWatch, BuildMetricsService, BuildRag, BuildRagService;
  }

  lemma PlanIsOk(cr: Cr)
    ensures StagesOk(cr, Stages(cr))
  {
    ApprovalIsOk(cr);
    WorkloadsAreOk(cr);
    hide ApprovalStage, ServiceAccountStage, ReaderStage, WatcherStage, DiagnoseStage, RemediateStage, AiWatchStage, RagStage, RequestsOk;
  }

  lemma FinalizerIsOk(cr: Cr)
    ensures RequestsOk(cr, FinalizeRequests(cr))
  {
  }

  // ---------- what a single call can do ----------

  /** `o` is what the store had at `key` when its version was current. */
  predicate Faithful(st: State, key: Key, o: Object) {
    o.rv < st.next && (key in st.objs && st.objs[key].rv == o.rv ==> st.objs[key] == o)
  }

  predicate PendingOk(st: State, r: Request, p: Pending) {
    p.Found? ==> Faithful(st, r.key, p.o)
  }

  /** A call leaves the store alone, deletes its object, or writes its object with a fresh version. */
  ghost predicate Touches(st: State, st': State, key: Key) {
    && st'.crs == st.crs && st.next <= st'.next
    && (forall k :: k != key ==> (k in st'.objs <==> k in st.objs))
    && (forall k :: k != key && k in st.objs ==> st'.objs[k] == st.objs[k])
    && (key in st'.objs ==> (key in st.objs && st'.objs[key] == st.objs[key]) || st.next <= st'.objs[key].rv < st'.next)
  }

  lemma StepTouches(r: Request, p: Pending, cr: Cr, st: State, f: Fault, draw: KeyPair)
    requires forall key :: key in st.objs ==> st.objs[key].rv < st.next
    ensures Touches(st, Step(r, p, cr, st, f, draw).st, r.key)
  {
    hide MergeBody;
  }

  /** Residue appears only for the caller, and only in its places. */
  lemma StepResidue(pinned: bool, r: Request, p: Pending, cr: Cr, st: State, f: Fault, draw: KeyPair, key: Key, id: CrId)
    requires RequestOk(cr, r) && PendingOk(st, r, p)
    requires Residue(pinned, Step(r, p, cr, st, f, draw).st, key, id)
    requires !Residue(pinned, st, key, id)
    ensures id == cr.id && ResiduePlace(pinned, cr, key)
  {
    hide MergeBody;
  }

  /** After a cleanup request ends well, nothing of the resource's is left at its key. */
  lemma CleanupStep(pinned: bool, r: Request, p: Pending, cr: Cr, st: State, f: Fault, draw: KeyPair)
    requires r.PurgeBound? || r.Drop?
    requires r.PurgeBound? ==> r.key.kind == ClusterRoleBinding
    requires !p.Missing?
    ensures var m := Step(r, p, cr, st, f, draw);
            && (m.progress == Done(None) ==> !Residue(pinned, m.st, r.key, cr.id))
            && (m.progress.More? ==> !m.progress.pending.Missing?)
            && (forall key, id :: Residue(pinned, m.st, key, id) ==> Residue(pinned, st, key, id))
  {
  }

  lemma StepPending(r: Request, p: Pending, cr: Cr, st: State, f: Fault, draw: KeyPair)
    requires forall key :: key in st.objs ==> st.objs[key].rv < st.next
    ensures var m := Step(r, p, cr, st, f, draw); m.progress.More? ==> m.st == st && PendingOk(m.st, r, m.progress.pending)
  {
  }

  // ---------- what holds of a worker between its calls ----------

  /** The resource still stands under its finalizer, and is the one the worker fetched. */
  predicate Held(pinned: bool, st: State, id: CrId, cr: Cr) {
    && cr.id == id && Guarded(st, id) && st.crs[id].id == id && st.crs[id].uid == cr.uid
    && (pinned ==> AuditNamespace(id, st.crs[id].spec) == AuditNamespace(id, cr.spec))
  }

  predicate CleanupRequest(r: Request) {
    (r.PurgeBound? && r.key.kind == ClusterRoleBinding) || r.Drop?
  }

  ghost predicate CoveredBy(pinned: bool, st: State, id: CrId, rs: seq<Request>) {
    forall key :: Residue(pinned, st, key, id) ==> exists i :: 0 <= i < |rs| && rs[i].key == key
  }

  ghost predicate WorkerOk(pinned: bool, st: State, id: CrId, w: Worker) {
    match w
    case AddFinalizer(cr, _) => cr.id == id && FINALIZER in cr.finalizers
    case Cleanup(cr, rs, p) =>
      && Held(pinned, st, id, cr) && rs != [] && !p.Missing?
      && (forall r :: r in rs ==> CleanupRequest(r) && RequestOk(cr, r))
      && PendingOk(st, rs[0], p)
      && CoveredBy(pinned, st, id, rs)
    case DropFinalizer(cr) => cr.id == id && CoveredBy(pinned, st, id, [])
    case Work(cr, _, stages, p, _) =>
      && Held(pinned, st, id, cr) && StagesOk(cr, stages)
      && stages != [] && stages[0] != [] && PendingOk(st, stages[0][0], p)
    case Observe(cr, _, _, _, _) => cr.id == id
    case Report(cr, _, _) => cr.id == id
    case _ => true
  }

  ghost predicate SysOk(pinned: bool, a: Sys) {
    StoreOk(pinned, a.st) && forall id :: id in a.workers ==> WorkerOk(pinned, a.st, id, a.workers[id])
  }

  /** What the worker of `id` counts on while others act. */
  ghost predicate Rely(pinned: bool, id: CrId, s: State, s': State) {
    && s.next <= s'.next
    && (forall key :: key in s'.objs ==> (key in s.objs && s.objs[key] == s'.objs[key]) || s.next <= s'.objs[key].rv < s'.next)
    && (Guarded(s, id) ==>
          && Guarded(s', id) && s'.crs[id].id == s.crs[id].id && s'.crs[id].uid == s.crs[id].uid
          && (pinned ==> AuditNamespace(id, s'.crs[id].spec) == AuditNamespace(id, s.crs[id].spec)))
    && (forall key :: Residue(pinned, s', key, id) ==> Residue(pinned, s, key, id))
  }

  lemma RelyKeeps(pinned: bool, id: CrId, w: Worker, s: State, s': State)
    requires WorkerOk(pinned, s, id, w) && Rely(pinned, id, s, s')
    ensures WorkerOk(pinned, s', id, w)
  {
  }

  // ---------- one turn of one worker ----------

  ghost predicate TurnOk(pinned: bool, id: CrId, s: State, t: Turn) {
    && StoreOk(pinned, t.st) && WorkerOk(pinned, t.st, id, t.worker)
    && forall other :: other != id ==> Rely(pinned, other, s, t.st)
  }

  lemma ResumeOk(pinned: bool, st: State, cr: Cr, now: int, stages: seq<seq<Request>>, err: Option<Error>)
    requires Held(pinned, st, cr.id, cr) && StagesOk(cr, stages)
    ensures WorkerOk(pinned, st, cr.id, Resume(cr, now, stages, err))
  {
  }

  lemma EnterOk(pinned: bool, st: State, cr: Cr, now: int)
    requires Held(pinned, st, cr.id, cr)
    ensures WorkerOk(pinned, st, cr.id, Enter(cr, now))
  {
    PlanIsOk(cr);
    if Valid(cr.spec) { ResumeOk(pinned, st, cr, now, Stages(cr), None); }
  }

  lemma FetchOk(pinned: bool, id: CrId, now: int, st: State, f: Fault)
    requires StoreOk(pinned, st)
    ensures WorkerOk(pinned, st, id, FetchTurn(id, now, st, f))
  {
    if GetCr(st, id, f).res.Ok? {
      var cr := st.crs[id];
      if cr.deleting {
        FinalizerIsOk(cr);
        if FINALIZER in cr.finalizers {
          var rs := FinalizeRequests(cr);
          forall key | Residue(pinned, st, key, id)
            ensures exists i :: 0 <= i < |rs| && rs[i].key == key
          {
            assert rs[0].key == ReaderBindingKey(id) && rs[1].key == FixerBindingKey(id);
            if AuditNamespace(id, cr.spec) != id.ns {
              assert rs[2].key == EventsBindingKey(cr) && rs[3].key == EventsRoleKey(cr);
            }
          }
        }
      } else if FINALIZER in cr.finalizers {
        EnterOk(pinned, st, cr, now);
      }
    }
  }

  /** What one call on behalf of a held resource leaves intact. */
  lemma TouchKeeps(pinned: bool, key: Key, cr: Cr, s: State, s': State)
    requires StoreOk(pinned, s) && Held(pinned, s, cr.id, cr) && Touches(s, s', key)
    requires forall k, id :: Residue(pinned, s', k, id) ==> Residue(pinned, s, k, id) || (id == cr.id && ResiduePlace(pinned, cr, k))
    ensures StoreOk(pinned, s') && Held(pinned, s', cr.id, cr)
    ensures forall other :: other != cr.id ==> Rely(pinned, other, s, s')
  {
    hide Residue, EventsName, ReaderBindingName, FixerBindingName;
  }

  /** A request made under the finalizer keeps the store in order and disturbs nobody else. */
  lemma RequestTurn(pinned: bool, r: Request, p: Pending, cr: Cr, st: State, f: Fault, draw: KeyPair)
    requires StoreOk(pinned, st) && Held(pinned, st, cr.id, cr) && RequestOk(cr, r) && PendingOk(st, r, p)
    ensures var m := Step(r, p, cr, st, f, draw);
            && StoreOk(pinned, m.st) && Held(pinned, m.st, cr.id, cr)
            && (m.progress.More? ==> PendingOk(m.st, r, m.progress.pending))
            && forall other :: other != cr.id ==> Rely(pinned, other, st, m.st)
  {
    var m := Step(r, p, cr, st, f, draw);
    StepTouches(r, p, cr, st, f, draw);
    StepPending(r, p, cr, st, f, draw);
    hide Step, Residue;
    forall key, id | Residue(pinned, m.st, key, id)
      ensures Residue(pinned, st, key, id) || (id == cr.id && ResiduePlace(pinned, cr, key))
    {
      if !Residue(pinned, st, key, id) {
        StepResidue(pinned, r, p, cr, st, f, draw, key, id);
      }
    }
    TouchKeeps(pinned, r.key, cr, st, m.st);
  }

  /** Saving one resource is harmless if it keeps the finalizer, or there is nothing left to guard. */
  lemma SaveKeeps(pinned: bool, id: CrId, s: State, s': State)
    requires StoreOk(pinned, s)
    requires s'.objs == s.objs && s.next <= s'.next
    requires forall other :: other != id ==> (other in s'.crs <==> other in s.crs)
    requires forall other :: other != id && other in s.crs ==> s'.crs[other] == s.crs[other]
    requires id in s'.crs ==> id in s.crs && s'.crs[id].id == id && s'.crs[id].rv < s'.next && s'.crs[id].spec == s.crs[id].spec
    requires (Guarded(s, id) ==> Guarded(s', id)) || forall key :: !Residue(pinned, s, key, id)
    ensures StoreOk(pinned, s')
    ensures forall other :: other != id ==> Rely(pinned, other, s, s')
  {
    assert forall key, other :: Residue(pinned, s', key, other) == Residue(pinned, s, key, other);
    hide Residue, EventsName, ReaderBindingName, FixerBindingName;
  }

  lemma AddFinalizerTurn(pinned: bool, id: CrId, cr: Cr, now: int, st: State, f: Fault, draw: KeyPair)
    requires StoreOk(pinned, st) && WorkerOk(pinned, st, id, AddFinalizer(cr, now))
    ensures TurnOk(pinned, id, st, Next(id, AddFinalizer(cr, now), st, f, draw))
  {
    hide Enter, FetchTurn, Step, Residue;
    var reply := UpdateCr(st, cr, f);
    SaveKeeps(pinned, id, st, reply.st);
    if reply.res.Ok? {
      EnterOk(pinned, reply.st, reply.res.value, now);
    }
  }

  lemma DropFinalizerTurn(pinned: bool, id: CrId, cr: Cr, st: State, f: Fault, draw: KeyPair)
    requires StoreOk(pinned, st) && WorkerOk(pinned, st, id, DropFinalizer(cr))
    ensures TurnOk(pinned, id, st, Next(id, DropFinalizer(cr), st, f, draw))
  {
    hide Enter, FetchTurn, Step, Residue;
    assert forall key :: !Residue(pinned, st, key, id);
    SaveKeeps(pinned, id, st, UpdateCr(st, cr, f).st);
  }

  lemma ReportTurn(pinned: bool, id: CrId, cr: Cr, err: Option<Error>, surfaced: bool, st: State, f: Fault, draw: KeyPair)
    requires StoreOk(pinned, st) && cr.id == id
    ensures TurnOk(pinned, id, st, Next(id, Report(cr, err, surfaced), st, f, draw))
  {
    hide Enter, FetchTurn, Step, Residue;
    var st' := UpdateStatus(st, cr, f).st;
    assert id in st'.crs ==> id in st.crs && st'.crs[id].id == id && st'.crs[id].rv < st'.next;
    SaveKeeps(pinned, id, st, st');
    hide StoreOk, Rely;
  }

  lemma CleanupTurnOk(pinned: bool, id: CrId, w: Worker, st: State, f: Fault, draw: KeyPair)
    requires StoreOk(pinned, st) && WorkerOk(pinned, st, id, w) && w.Cleanup?
    ensures TurnOk(pinned, id, st, Next(id, w, st, f, draw))
  {
    hide Enter, FetchTurn, Step, Residue;
    var r := w.requests[0];
    var m := Step(r, w.pending, w.cr, st, f, draw);
    RequestTurn(pinned, r, w.pending, w.cr, st, f, draw);
    CleanupStep(pinned, r, w.pending, w.cr, st, f, draw);
    hide StoreOk, RequestOk;
    if m.progress == Done(None) {
      forall key | Residue(pinned, m.st, key, id)
        ensures exists i :: 0 <= i < |w.requests| - 1 && w.requests[1..][i].key == key
      {
        var i :| 0 <= i < |w.requests| && w.requests[i].key == key;
        assert i > 0 && w.requests[1..][i - 1].key == key;
      }
    }
  }

  lemma WorkTurnOk(pinned: bool, id: CrId, w: Worker, st: State, f: Fault, draw: KeyPair)
    requires StoreOk(pinned, st) && WorkerOk(pinned, st, id, w) && w.Work?
    ensures TurnOk(pinned, id, st, Next(id, w, st, f, draw))
  {
    hide Enter, FetchTurn, Step, Residue;
    var r := w.stages[0][0];
    assert RequestsOk(w.cr, w.stages[0]);
    var m := Step(r, w.pending, w.cr, st, f, draw);
    RequestTurn(pinned, r, w.pending, w.cr, st, f, draw);
    hide StoreOk, RequestOk;
    if m.progress.Done? {
      var rest := [w.stages[0][1..]] + w.stages[1..];
      assert StagesOk(w.cr, rest);
      ResumeOk(pinned, m.st, w.cr, w.now, rest, w.err);
      ResumeOk(pinned, m.st, w.cr, w.now, w.stages[1..], Track(w.err, m.progress.err));
    }
  }

  lemma ReadingTurn(pinned: bool, id: CrId, w: Worker, st: State, f: Fault, draw: KeyPair)
    requires StoreOk(pinned, st) && WorkerOk(pinned, st, id, w) && (w.Fetch? || w.Observe? || w.Finished?)
    ensures TurnOk(pinned, id, st, Next(id, w, st, f, draw))
  {
    hide FetchTurn, Enter, Step, Residue;
    if w.Fetch? { FetchOk(pinned, id, w.now, st, f); }
  }

  lemma AnyTurn(pinned: bool, id: CrId, w: Worker, st: State, f: Fault, draw: KeyPair)
    requires StoreOk(pinned, st) && WorkerOk(pinned, st, id, w)
    ensures TurnOk(pinned, id, st, Next(id, w, st, f, draw))
  {
    hide Next, TurnOk, StoreOk;
    match w {
      case AddFinalizer(cr, now) => AddFinalizerTurn(pinned, id, cr, now, st, f, draw);
      case Cleanup(_, _, _) => CleanupTurnOk(pinned, id, w, st, f, draw);
      case DropFinalizer(cr) => DropFinalizerTurn(pinned, id, cr, st, f, draw);
      case Work(_, _, _, _, _) => WorkTurnOk(pinned, id, w, st, f, draw);
      case Report(cr, err, surfaced) => ReportTurn(pinned, id, cr, err, surfaced, st, f, draw);
      case _ => ReadingTurn(pinned, id, w, st, f, draw);
    }
  }

  lemma OthersKeep(pinned: bool, s: State, s': State)
    requires StoreOk(pinned, s) && OthersMay(pinned, s, s')
    ensures StoreOk(pinned, s')
    ensures forall id :: Rely(pinned, id, s, s')
  {
    forall key, id | Residue(pinned, s', key, id)
      ensures Guarded(s', id) && ResiduePlace(pinned, s'.crs[id], key)
    {
      assert Residue(pinned, s, key, id);
    }
  }

  lemma SystemStep(pinned: bool, a: Sys, b: Sys, m: Move)
    requires SysOk(pinned, a) && SysStep(pinned, a, b, m)
    ensures SysOk(pinned, b)
  {
    match m {
      case Others(st) =>
        OthersKeep(pinned, a.st, st);
        forall id | id in b.workers ensures WorkerOk(pinned, b.st, id, b.workers[id]) {
          RelyKeeps(pinned, id, a.workers[id], a.st, st);
        }
      case Begin(id, now) =>
      case Call(id, fault, draw) =>
        AnyTurn(pinned, id, a.workers[id], a.st, fault, draw);
        hide Next;
        forall other | other in b.workers && other != id ensures WorkerOk(pinned, b.st, other, b.workers[other]) {
          RelyKeeps(pinned, other, a.workers[other], a.st, b.st);
        }
      case Crash(id) =>
    }
  }

  lemma {:induction false} RunOk(pinned: bool, run: seq<Sys>, moves: seq<Move>, n: nat)
    requires IsRun(pinned, run, moves) && n < |run|
    ensures SysOk(pinned, run[n])
    decreases n
  {
    if n > 0 {
      RunOk(pinned, run, moves, n - 1);
      SystemStep(pinned, run[n - 1], run[n], moves[n - 1]);
    }
  }

  // ---------- the results ----------

  /**
  At every moment of every run, whatever fails and wherever reconciles stop, a
  cluster-scoped binding labelled for a resource means that the resource exists
  and carries the finalizer that will have the binding removed. Binding names may collide.
  */
  lemma BindingsAreGuarded(run: seq<Sys>, moves: seq<Move>, n: nat, key: Key, id: CrId)
    requires IsRun(false, run, moves) && n < |run|
    requires LabelledBinding(run[n].st, key, id)
    ensures id in run[n].st.crs && FINALIZER in run[n].st.crs[id].finalizers
    ensures key == ReaderBindingKey(id) || key == FixerBindingKey(id)
  {
    RunOk(false, run, moves, n);
    assert Residue(false, run[n].st, key, id);
  }

  /**
  If audit namespaces stay put, a resource that is gone, or has lost its finalizer,
  has left no events role or binding of its making in another namespace.
  */
  lemma EventsAreGuarded(run: seq<Sys>, moves: seq<Move>, n: nat, key: Key, id: CrId)
    requires IsRun(true, run, moves) && n < |run|
    requires StrayEvents(run[n].st, key, id)
    ensures id in run[n].st.crs && FINALIZER in run[n].st.crs[id].finalizers
    ensures key.ns == AuditNamespace(id, run[n].st.crs[id].spec)
  {
    RunOk(true, run, moves, n);
    assert Residue(true, run[n].st, key, id);
    assert key.kind != ClusterRoleBinding;
  }
}
