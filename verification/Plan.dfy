/**
What one reconcile does, call by call.

Every sub-reconcile issues a fixed list of requests and gives up at its first
error. A request takes one or two calls. `Step` makes a single call; `RunRequest`,
`RunStage` and `RunReconcile` string calls together through a `World`, that is
under any interference between the calls and any pattern of failures.
*/
module Plan {
  import opened Options
  import opened Spec
  import opened Store
  import opened Builders
  import opened Conditions

  /** PurgeBound is the finalizer's checked delete, Drop its unchecked one. */
  datatype Request =
    | Ensure(key: Key, desired: Desired)
    | EnsureSecret(key: Key, labels: Labels)
    | Purge(key: Key)
    | PurgeBound(key: Key)
    | Drop(key: Key)

  /** Where a request stands between two calls. */
  datatype Pending = Fresh | Missing | Found(o: Object)

  datatype Progress = More(pending: Pending) | Done(err: Option<Error>)

  datatype Micro = Micro(st: State, progress: Progress)

  // ---------- the mutate callbacks ----------

  function MergeBody(cur: Body, d: Body): Body {
    match (cur, d)
    case (DeploymentBody(_, _, _, selector), DeploymentBody(replicas, template, strategy, _)) =>
      DeploymentBody(replicas, template, strategy, selector)
    case (CronJobBody(_, _, _, _, suspend), CronJobBody(schedule, job, backoffLimit, concurrency, _)) =>
      CronJobBody(schedule, job, backoffLimit, concurrency, suspend)
    case (StatefulSetBody(_, _, _, selector, serviceName, claim), StatefulSetBody(replicas, template, updateStrategy, _, _, _)) =>
      StatefulSetBody(replicas, template, updateStrategy, selector, serviceName, claim)
    case (ServiceBody(_, _, clusterIp), ServiceBody(ports, selector, _)) => ServiceBody(ports, selector, clusterIp)
    case (RoleBody(_), RoleBody(_)) => d
    case (BindingBody(_, _), BindingBody(_, _)) => d
    case (NetworkPolicyBody(_, _, _), NetworkPolicyBody(_, _, _)) => d
    case (IngressBody(_), IngressBody(_)) => d
    case _ => cur
  }

  function Merge(o: Object, d: Desired): Object {
    o.(labels := o.labels + d.labels,
       annotations := if d.body.IngressBody? then o.annotations + d.annotations else o.annotations,
       body := MergeBody(o.body, d.body))
  }

  predicate LabelsUpToDate(current: Labels, desired: Labels) {
    forall l :: l in desired ==> LabelOf(current, l) == desired[l]
  }

  /** The finalizer's ownership check. */
  predicate BoundTo(o: Object, id: CrId) {
    LabelOf(o.labels, CR_LABEL) == id.name && LabelOf(o.labels, CR_NAMESPACE_LABEL) == id.ns
  }

  function SecretFor(labels: Labels, draw: KeyPair): Desired {
    Desired(labels, map[], true, SecretBody(draw))
  }

  // ---------- one call ----------

  function Forgive(e: Error, tolerated: Error): Option<Error> { if e == tolerated then None else Some(e) }

  function GetStep(r: Request, cr: Cr, st: State, f: Fault): Micro {
    match Get(st, r.key, f).res
    case Ok(o) =>
      if r.EnsureSecret? && LabelsUpToDate(o.labels, r.labels) then Micro(st, Done(None))
      else if r.PurgeBound? && !BoundTo(o, cr.id) then Micro(st, Done(None))
      else Micro(st, More(Found(o)))
    case Err(e) =>
      if e != NotFound then Micro(st, Done(Some(e)))
      else if r.Ensure? || r.EnsureSecret? then Micro(st, More(Missing))
      else Micro(st, Done(None))
  }

  function CreateStep(key: Key, d: Desired, cr: Cr, st: State, f: Fault): Micro {
    var reply := Create(st, key, d, cr.id, cr.uid, f);
    Micro(reply.st, Done(if reply.res.Ok? then None else Forgive(reply.res.error, AlreadyExists)))
  }

  function UpdateStep(key: Key, o: Object, cr: Cr, st: State, f: Fault): Micro {
    var reply := Update(st, key, o, cr.id, f);
    Micro(reply.st, Done(if reply.res.Ok? then None else Some(reply.res.error)))
  }

  function DeleteStep(key: Key, st: State, f: Fault): Micro {
    var reply := Delete(st, key, f);
    Micro(reply.st, Done(if reply.res.Ok? then None else Forgive(reply.res.error, NotFound)))
  }

  /** The next call of a request, made on behalf of `cr`. */
  function Step(r: Request, p: Pending, cr: Cr, st: State, f: Fault, draw: KeyPair): Micro {
    if r.Drop? then DeleteStep(r.key, st, f)
    else
      match p
      case Fresh => GetStep(r, cr, st, f)
      case Missing =>
        (match r
         case Ensure(key, d) => CreateStep(key, d, cr, st, f)
         case EnsureSecret(key, labels) => CreateStep(key, SecretFor(labels, draw), cr, st, f)
         case _ => Micro(st, Done(None)))
      case Found(o) =>
        (match r
         case Ensure(key, d) => UpdateStep(key, Merge(o, d), cr, st, f)
         case EnsureSecret(key, labels) => UpdateStep(key, o.(labels := o.labels + labels), cr, st, f)
         case _ => DeleteStep(r.key, st, f))
  }

  function Rank(p: Pending): nat { if p.Fresh? then 1 else 0 }

  lemma StepEnds(r: Request, p: Pending, cr: Cr, st: State, f: Fault, draw: KeyPair)
    ensures var m := Step(r, p, cr, st, f, draw); m.progress.More? ==> p.Fresh? && !m.progress.pending.Fresh?
  {
  }

  // ---------- many calls ----------

  datatype Outcome = Outcome(w: World, err: Option<Error>)

  function RunRequest(r: Request, p: Pending, cr: Cr, w: World): Outcome
    decreases Rank(p)
  {
    var m := Step(r, p, cr, Seen(w), Head(w).fault, Head(w).draw);
    StepEnds(r, p, cr, Seen(w), Head(w).fault, Head(w).draw);
    match m.progress
    case Done(err) => Outcome(World(m.st, Tail(w)), err)
    case More(p') => RunRequest(r, p', cr, World(m.st, Tail(w)))
  }

  /** A sub-reconcile: request after request until one fails. */
  function RunStage(rs: seq<Request>, cr: Cr, w: World): Outcome {
    if rs == [] then Outcome(w, None)
    else
      var o := RunRequest(rs[0], Fresh, cr, w);
      if o.err.Some? then o else RunStage(rs[1..], cr, o.w)
  }

  datatype Outcomes = Outcomes(w: World, errs: seq<Option<Error>>)

  /** All sub-reconciles in order, each whatever became of the ones before. */
  function RunStages(stages: seq<seq<Request>>, cr: Cr, w: World): (r: Outcomes)
    ensures |r.errs| == |stages|
  {
    if stages == [] then Outcomes(w, [])
    else
      var first := RunStage(stages[0], cr, w);
      var rest := RunStages(stages[1..], cr, first.w);
      Outcomes(rest.w, [first.err] + rest.errs)
  }

  function FirstError(errs: seq<Option<Error>>): Option<Error> {
    if errs == [] then None else if errs[0].Some? then errs[0] else FirstError(errs[1..])
  }

  datatype Observation = Observation(w: World, seen: map<Key, Got>)

  function RunObserve(keys: seq<Key>, seen: map<Key, Got>, w: World): Observation
    decreases |keys|
  {
    if keys == [] then Observation(w, seen)
    else RunObserve(keys[1..], seen[keys[0] := Get(Seen(w), keys[0], Head(w).fault).res], World(Seen(w), Tail(w)))
  }

  // ---------- the sub-reconciles ----------

  function EnsureOrPurge(key: Key, d: Option<Desired>): Request {
    if d.Some? then Ensure(key, d.value) else Purge(key)
  }

  function ServiceAccountStage(cr: Cr): seq<Request> {
    if cr.spec.serviceAccountName != "" then []
    else [Ensure(Child(ServiceAccount, cr.id, ServiceAccountName(cr)), BuildServiceAccount(cr))]
  }

  function ReaderStage(cr: Cr): seq<Request> {
    [Ensure(ReaderRoleKey(), ReaderRole()), Ensure(ReaderBindingKey(cr.id), ReaderBinding(cr))]
  }

  function WatcherStage(cr: Cr): seq<Request> {
    [EnsureOrPurge(Child(Deployment, cr.id, WatcherName(cr.id)), BuildWatcher(cr)),
     EnsureOrPurge(Child(Service, cr.id, WebhookName(cr.id)), BuildWebhookService(cr))]
  }

  function DiagnoseStage(cr: Cr): seq<Request> {
    [EnsureOrPurge(Child(CronJob, cr.id, DiagnoseName(cr.id)), BuildDiagnose(cr))]
  }

  function RemediateStage(cr: Cr): seq<Request> {
    [EnsureOrPurge(Child(CronJob, cr.id, RemediateName(cr.id)), BuildRemediate(cr))]
  }

  function AiWatchStage(cr: Cr): seq<Request> {
    [EnsureOrPurge(Child(Deployment, cr.id, AiWatchName(cr.id)), BuildAiWatch(cr)),
     EnsureOrPurge(Child(Service, cr.id, MetricsName(cr.id)), BuildMetricsService(cr))]
  }

  /** Switched on, the Service comes before the StatefulSet that names it; switched off, after. */
  function RagStage(cr: Cr): seq<Request> {
    var store := EnsureOrPurge(Child(StatefulSet, cr.id, RagName(cr.id)), BuildRag(cr));
    var service := EnsureOrPurge(Child(Service, cr.id, RagName(cr.id)), BuildRagService(cr));
    if MemoryEnabled(cr.spec) then [service, store] else [store, service]
  }

  function PairRequests(p: RolePair): seq<Request> {
    [Ensure(Key(Role, p.ns, p.name), p.role), Ensure(Key(RoleBinding, p.ns, p.name), p.binding)]
  }

  function PairsRequests(ps: seq<RolePair>): seq<Request> {
    if ps == [] then [] else PairRequests(ps[0]) + PairsRequests(ps[1..])
  }

  function ApprovalTeardown(cr: Cr): seq<Request> {
    var name := ApprovalName(cr.id);
    [Purge(Child(Ingress, cr.id, name)), Purge(Child(NetworkPolicy, cr.id, name)),
     Purge(Child(Deployment, cr.id, name)), Purge(Child(Service, cr.id, name)), Purge(Child(ServiceAccount, cr.id, name)),
     Purge(Child(Role, cr.id, SigningReaderName(cr.id))), Purge(Child(RoleBinding, cr.id, SigningReaderName(cr.id))),
     Purge(EventsRoleKey(cr)), Purge(EventsBindingKey(cr)),
     Purge(Child(Role, cr.id, StoresName(cr.id))), Purge(Child(RoleBinding, cr.id, StoresName(cr.id))),
     Purge(FixerBindingKey(cr.id))]
  }

  function ApprovalHead(cr: Cr): seq<Request>
    requires ApprovalEnabled(cr.spec)
  {
    [EnsureSecret(SigningSecretKey(cr), CommonLabels(cr.id, "approval-server")),
     Ensure(Child(ServiceAccount, cr.id, ApprovalName(cr.id)), BuildApprovalServiceAccount(cr).value),
     Ensure(FixerRoleKey(), FixerRole()),
     Ensure(FixerBindingKey(cr.id), FixerBinding(cr))]
  }

  function ApprovalTail(cr: Cr): seq<Request>
    requires ApprovalEnabled(cr.spec)
  {
    [Ensure(Child(Service, cr.id, ApprovalName(cr.id)), BuildApprovalService(cr).value),
     Ensure(Child(Deployment, cr.id, ApprovalName(cr.id)), BuildApproval(cr).value),
     EnsureOrPurge(Child(NetworkPolicy, cr.id, ApprovalName(cr.id)), BuildNetworkPolicy(cr)),
     EnsureOrPurge(Child(Ingress, cr.id, ApprovalName(cr.id)), BuildIngress(cr))]
  }

  function ApprovalStage(cr: Cr): seq<Request> {
    if !ApprovalEnabled(cr.spec) then ApprovalTeardown(cr)
    else ApprovalHead(cr) + PairsRequests(RolePairs(cr)) + ApprovalTail(cr)
  }

  function Stages(cr: Cr): seq<seq<Request>> {
    [ServiceAccountStage(cr), ReaderStage(cr), WatcherStage(cr), DiagnoseStage(cr),
     RemediateStage(cr), AiWatchStage(cr), RagStage(cr), ApprovalStage(cr)]
  }

  /** The finalizer: both cluster bindings if still labelled, then the cross-namespace events pair. */
  function FinalizeRequests(cr: Cr): seq<Request> {
    [PurgeBound(ReaderBindingKey(cr.id)), PurgeBound(FixerBindingKey(cr.id))]
    + (if AuditNamespace(cr.id, cr.spec) != cr.id.ns then [Drop(EventsBindingKey(cr)), Drop(EventsRoleKey(cr))] else [])
  }

  // ---------- the whole reconcile ----------

  function SaveCr(cr: Cr, w: World): (World, Result<Cr, Error>) {
    var reply := UpdateCr(Seen(w), cr, Head(w).fault);
    (World(reply.st, Tail(w)), reply.res)
  }

  function SaveStatus(cr: Cr, w: World): Outcome {
    var reply := UpdateStatus(Seen(w), cr, Head(w).fault);
    Outcome(World(reply.st, Tail(w)), if reply.res.Ok? then None else Some(reply.res.error))
  }

  function RunFinalize(cr: Cr, w: World): Outcome {
    var o := RunStage(FinalizeRequests(cr), cr, w);
    if o.err.Some? then o
    else
      var (w', res) := SaveCr(cr.(finalizers := cr.finalizers - {FINALIZER}), o.w);
      Outcome(w', if res.Ok? then None else Some(res.error))
  }

  /** Everything after the finalizer is known to be in place. */
  function RunWork(cr: Cr, now: int, w: World): Outcome {
    if !Valid(cr.spec) then SaveStatus(Rejected(cr, now), w)
    else
      var done := RunStages(Stages(cr), cr, w);
      var err := FirstError(done.errs);
      var obs := RunObserve(ObservedKeys(cr), map[], done.w);
      Outcome(SaveStatus(Judged(cr, obs.seen, err, now), obs.w).w, err)
  }

  function RunReconcile(id: CrId, now: int, w: World): Outcome {
    var got := GetCr(Seen(w), id, Head(w).fault).res;
    var w1 := World(Seen(w), Tail(w));
    if got.Err? then Outcome(w1, Forgive(got.error, NotFound))
    else
      var cr := got.value;
      if cr.deleting then
        if FINALIZER in cr.finalizers then RunFinalize(cr, w1) else Outcome(w1, None)
      else if FINALIZER in cr.finalizers then RunWork(cr, now, w1)
      else
        var (w2, res) := SaveCr(cr.(finalizers := cr.finalizers + {FINALIZER}), w1);
        if res.Err? then Outcome(w2, Some(res.error)) else RunWork(res.value, now, w2)
  }
}
