/**
What a reconcile that returned no error has achieved when nobody interfered:
every child exists exactly when it is asked for and has its managed fields, and
reconciling once more changes no child.
*/
module Convergence {
  import opened Options
  import opened Spec
  import opened Store
  import opened Plan

  // ---------- what it means for a request to be achieved ----------

  predicate BodyFits(kind: Kind, b: Body) {
    match kind
    case ServiceAccount => b.NoBody?
    case Deployment => b.DeploymentBody?
    case CronJob => b.CronJobBody?
    case StatefulSet => b.StatefulSetBody?
    case Service => b.ServiceBody?
    case Secret => b.SecretBody?
    case Role => b.RoleBody?
    case ClusterRole => b.RoleBody?
    case RoleBinding => b.BindingBody?
    case ClusterRoleBinding => b.BindingBody?
    case NetworkPolicy => b.NetworkPolicyBody?
    case Ingress => b.IngressBody?
  }

  /** Every stored object has the shape of its kind. */
  ghost predicate WellTyped(st: State) {
    forall key :: key in st.objs ==> BodyFits(key.kind, st.objs[key].body)
  }

  predicate RequestTyped(r: Request) {
    (r.Ensure? ==> BodyFits(r.key.kind, r.desired.body)) && (r.EnsureSecret? ==> r.key.kind == Secret)
  }

  /** A body with the fields the operator leaves alone blanked out. */
  function Managed(b: Body): Body {
    match b
    case DeploymentBody(replicas, template, strategy, _) => DeploymentBody(replicas, template, strategy, map[])
    case CronJobBody(schedule, job, backoffLimit, concurrency, _) => CronJobBody(schedule, job, backoffLimit, concurrency, false)
    case StatefulSetBody(replicas, template, updateStrategy, _, _, _) => StatefulSetBody(replicas, template, updateStrategy, map[], "", "")
    case ServiceBody(ports, selector, _) => ServiceBody(ports, selector, "")
    case _ => b
  }

  predicate Manages(o: Object, d: Desired) {
    && Carries(o.labels, d.labels)
    && (d.body.IngressBody? ==> Carries(o.annotations, d.annotations))
    && Managed(o.body) == Managed(d.body)
  }

  predicate Achieved(st: State, r: Request) {
    match r
    case Ensure(key, d) => key in st.objs && Manages(st.objs[key], d)
    case EnsureSecret(key, labels) => key in st.objs && LabelsUpToDate(st.objs[key].labels, labels)
    case _ => r.key !in st.objs
  }

  // ---------- one request ----------

  /** Nobody else acts. Calls may still go wrong. */
  predicate Quiet(script: seq<Tick>) {
    forall t :: t in script ==> t.change.None?
  }

  function WantedLabels(r: Request): Labels {
    match r
    case Ensure(_, d) => d.labels
    case EnsureSecret(_, labels) => labels
    case _ => map[]
  }

  function WantedAnnotations(r: Request): map<string, string> {
    if r.Ensure? && r.desired.body.IngressBody? then r.desired.annotations else map[]
  }

  predicate Keeps(before: map<string, string>, after: map<string, string>, wanted: map<string, string>) {
    forall k :: k in before ==> k in after && (k !in wanted ==> after[k] == before[k])
  }

  /**
  What an update leaves of an object: its identity and owner, the labels and
  annotations that are not the operator's, and the fields outside its care. A
  StatefulSet keeps what the API server would refuse to change.
  */
  predicate Respects(before: Object, after: Object, r: Request) {
    && before.uid == after.uid && before.owner == after.owner
    && Keeps(before.labels, after.labels, WantedLabels(r)) && Keeps(before.annotations, after.annotations, WantedAnnotations(r))
    && (before.body.DeploymentBody? ==> after.body.DeploymentBody? && after.body.selector == before.body.selector)
    && (before.body.CronJobBody? ==> after.body.CronJobBody? && after.body.suspend == before.body.suspend)
    && (before.body.ServiceBody? ==> after.body.ServiceBody? && after.body.clusterIp == before.body.clusterIp)
    && (before.body.SecretBody? ==> after.body == before.body)
    && (before.body.StatefulSetBody? ==>
          && after.body.StatefulSetBody? && after.body.selector == before.body.selector
          && after.body.serviceName == before.body.serviceName && after.body.claim == before.body.claim)
  }

  lemma MergeManages(o: Object, d: Desired, key: Key)
    requires key.kind != Secret && BodyFits(key.kind, o.body) && BodyFits(key.kind, d.body)
    ensures Manages(Merge(o, d), d) && BodyFits(key.kind, MergeBody(o.body, d.body))
    ensures Respects(o, Merge(o, d), Ensure(key, d))
  {
  }

  lemma ManagedIsMerged(o: Object, d: Desired, kind: Kind)
    requires kind != Secret && BodyFits(kind, o.body) && BodyFits(kind, d.body) && Manages(o, d)
    ensures Merge(o, d) == o
  {
  }

  /** The store after one request, elsewhere and at its own key. */
  ghost predicate OnlyTouches(s: State, s': State, r: Request) {
    var key := r.key;
    && s'.crs == s.crs
    && (forall k :: k != key ==> (k in s'.objs <==> k in s.objs))
    && (forall k :: k != key && k in s.objs ==> s'.objs[k] == s.objs[k])
    && (key in s.objs && key in s'.objs ==> Respects(s.objs[key], s'.objs[key], r))
  }

  lemma UntouchedIsRespected(o: Object, r: Request)
    ensures Respects(o, o, r)
  {
  }

  lemma ContentRespected(before: Object, o: Object, o': Object, r: Request)
    requires Respects(before, o, r) && SameContent(o, o') && o'.uid == before.uid
    ensures Respects(before, o', r)
  {
  }

  /** What a write comes to: nothing, or the content put in place of the old. */
  lemma Written(key: Key, o: Object, cr: Cr, st: State, f: Fault)
    requires key in st.objs && st.objs[key].rv == o.rv
    ensures var m := UpdateStep(key, o, cr, st, f);
            && m.progress.Done? && m.st.crs == st.crs && key in m.st.objs && m.st.objs[key].uid == st.objs[key].uid
            && (m.st == st || (m.st.objs == st.objs[key := m.st.objs[key]] && SameContent(m.st.objs[key], o)))
            && (m.progress == Done(None) ==> SameContent(m.st.objs[key], o))
  {
    hide Admits;
  }

  lemma WriteFits(r: Request, o: Object, cr: Cr, st: State, f: Fault)
    requires WellTyped(st) && r.key in st.objs && st.objs[r.key].rv == o.rv
    requires BodyFits(r.key.kind, o.body) && Respects(st.objs[r.key], o, r)
    ensures var m := UpdateStep(r.key, o, cr, st, f);
            && WellTyped(m.st) && OnlyTouches(st, m.st, r) && m.progress.Done?
            && (m.progress == Done(None) ==> r.key in m.st.objs && SameContent(m.st.objs[r.key], o))
  {
    hide Respects, UpdateStep, BodyFits;
    UntouchedIsRespected(st.objs[r.key], r);
    Written(r.key, o, cr, st, f);
    var m := UpdateStep(r.key, o, cr, st, f);
    if m.st != st { ContentRespected(st.objs[r.key], o, m.st.objs[r.key], r); }
  }

  lemma CreateFits(r: Request, d: Desired, cr: Cr, st: State, f: Fault)
    requires WellTyped(st) && r.key !in st.objs && BodyFits(r.key.kind, d.body)
    ensures var m := CreateStep(r.key, d, cr, st, f);
            && WellTyped(m.st) && OnlyTouches(st, m.st, r) && m.progress.Done?
            && (m.progress == Done(None) ==> r.key in m.st.objs && m.st.objs[r.key] == Stored(st, d, cr.id, cr.uid))
  {
  }

  lemma DeleteFits(r: Request, st: State, f: Fault)
    requires WellTyped(st)
    ensures var m := DeleteStep(r.key, st, f);
            && WellTyped(m.st) && OnlyTouches(st, m.st, r) && m.progress.Done?
            && (m.progress == Done(None) ==> r.key !in m.st.objs)
  {
  }

  /** Where a quiet request stands: the store is still what its first call saw. */
  predicate Standing(st: State, r: Request, p: Pending) {
    && (p.Found? ==> r.key in st.objs && st.objs[r.key] == p.o)
    && (p.Missing? ==> r.key !in st.objs && !r.Purge? && !r.PurgeBound?)
  }

  lemma StepFits(r: Request, p: Pending, cr: Cr, st: State, f: Fault, draw: KeyPair)
    requires WellTyped(st) && RequestTyped(r) && (r.Ensure? ==> r.key.kind != Secret) && Standing(st, r, p)
    ensures var m := Step(r, p, cr, st, f, draw);
            && WellTyped(m.st) && OnlyTouches(st, m.st, r)
            && (m.progress == Done(None) ==> Achieved(m.st, r) || (r.PurgeBound? && m.st == st && !BoundTo(st.objs[r.key], cr.id)))
            && (m.progress.More? ==> m.st == st && Standing(m.st, r, m.progress.pending))
  {
    hide MergeBody, BodyFits, WellTyped, Create, Update, Delete, Respects;
    if r.Drop? {
      DeleteFits(r, st, f);
    } else {
      match p {
        case Fresh => if r.key in st.objs { UntouchedIsRespected(st.objs[r.key], r); }
        case Missing =>
          if r.Ensure? { CreateFits(r, r.desired, cr, st, f); }
          else if r.EnsureSecret? { SecretFits(r.labels, draw); CreateFits(r, SecretFor(r.labels, draw), cr, st, f); }
        case Found(o) =>
          FitsAt(st, r.key);
          if r.Ensure? { MergeManages(o, r.desired, r.key); WriteFits(r, Merge(o, r.desired), cr, st, f); }
          else if r.EnsureSecret? { RelabelRespects(o, r); WriteFits(r, o.(labels := o.labels + r.labels), cr, st, f); }
          else { DeleteFits(r, st, f); }
      }
    }
  }

  lemma RelabelRespects(o: Object, r: Request)
    requires r.EnsureSecret?
    ensures Respects(o, o.(labels := o.labels + r.labels), r)
  {
  }

  lemma FitsAt(st: State, key: Key)
    requires WellTyped(st) && key in st.objs
    ensures BodyFits(key.kind, st.objs[key].body)
  {
  }

  lemma SecretFits(labels: Labels, draw: KeyPair)
    ensures BodyFits(Secret, SecretFor(labels, draw).body)
  {
  }

  // ---------- requests in sequence ----------

  predicate Sound(r: Request) { RequestTyped(r) && (r.Ensure? ==> r.key.kind != Secret) }

  ghost predicate AllSound(rs: seq<Request>) { forall r :: r in rs ==> Sound(r) }

  ghost predicate Distinct(rs: seq<Request>) {
    forall i, j :: 0 <= i < j < |rs| ==> rs[i].key != rs[j].key
  }

  ghost predicate Within(rs: seq<Request>, key: Key) { exists r :: r in rs && r.key == key }

  /** Everything outside `rs` is as before; what survives inside keeps what is not the operator's. */
  ghost predicate Framed(s: State, s': State, rs: seq<Request>) {
    && s'.crs == s.crs
    && (forall k :: !Within(rs, k) ==> (k in s'.objs <==> k in s.objs))
    && (forall k :: !Within(rs, k) && k in s.objs ==> s'.objs[k] == s.objs[k])
    && (forall r :: r in rs && r.key in s.objs && r.key in s'.objs ==> Respects(s.objs[r.key], s'.objs[r.key], r))
  }

  lemma RequestFits(r: Request, p: Pending, cr: Cr, w: World)
    requires Quiet(w.script) && WellTyped(w.st) && Sound(r) && Standing(w.st, r, p)
    ensures var o := RunRequest(r, p, cr, w);
            && Quiet(o.w.script) && WellTyped(o.w.st) && OnlyTouches(w.st, o.w.st, r)
            && (o.err.None? ==> Achieved(o.w.st, r)
                                || (r.PurgeBound? && o.w.st == w.st && r.key in w.st.objs && !BoundTo(w.st.objs[r.key], cr.id)))
    decreases Rank(p)
  {
    hide Step, WellTyped, Achieved, Respects;
    var m := Step(r, p, cr, Seen(w), Head(w).fault, Head(w).draw);
    StepEnds(r, p, cr, Seen(w), Head(w).fault, Head(w).draw);
    StepFits(r, p, cr, w.st, Head(w).fault, Head(w).draw);
    if m.progress.More? {
      RequestFits(r, m.progress.pending, cr, World(m.st, Tail(w)));
    } else {
      AchievedOrBound(m.st, r);
    }
  }

  lemma AchievedOrBound(st: State, r: Request)
    ensures r.PurgeBound? && !Achieved(st, r) ==> r.key in st.objs
  {
  }

  /** A stage without error achieves every one of its requests and touches nothing else. */
  lemma {:induction false} StageFits(rs: seq<Request>, cr: Cr, w: World)
    requires Quiet(w.script) && WellTyped(w.st) && AllSound(rs) && Distinct(rs)
    ensures var o := RunStage(rs, cr, w);
            && Quiet(o.w.script) && WellTyped(o.w.st) && Framed(w.st, o.w.st, rs)
            && (o.err.None? ==> forall r :: r in rs && !r.PurgeBound? ==> Achieved(o.w.st, r))
    decreases |rs|
  {
    hide RunRequest, WellTyped, Achieved, Sound, Respects;
    if rs != [] {
      var first := RunRequest(rs[0], Fresh, cr, w);
      RequestFits(rs[0], Fresh, cr, w);
      StageFits(rs[1..], cr, first.w);
      var o := RunStage(rs, cr, w);
      assert forall k :: Within(rs[1..], k) ==> Within(rs, k);
      if first.err.None? {
        assert !Within(rs[1..], rs[0].key);
        AchievedStays(first.w.st, o.w.st, rs[0]);
        forall r | r in rs && !r.PurgeBound? ensures o.err.None? ==> Achieved(o.w.st, r) {
          assert r == rs[0] || r in rs[1..];
        }
      }
      forall r | r in rs && r.key in w.st.objs && r.key in o.w.st.objs ensures Respects(w.st.objs[r.key], o.w.st.objs[r.key], r) {
        FrameOfOne(rs, r, first, o, w.st);
      }
    }
  }

  /** What a request leaves of its object, seen from before and after the whole stage. */
  lemma FrameOfOne(rs: seq<Request>, r: Request, first: Outcome, o: Outcome, s: State)
    requires rs != [] && r in rs && Distinct(rs) && r.key in s.objs && r.key in o.w.st.objs
    requires OnlyTouches(s, first.w.st, rs[0])
    requires first == o || Framed(first.w.st, o.w.st, rs[1..])
    ensures Respects(s.objs[r.key], o.w.st.objs[r.key], r)
  {
    hide Respects;
    UntouchedIsRespected(s.objs[r.key], r);
    if r == rs[0] {
      assert !Within(rs[1..], r.key);
    } else {
      assert r in rs[1..] && r.key != rs[0].key;
    }
  }

  lemma AchievedStays(s: State, s': State, r: Request)
    requires r.key in s'.objs <==> r.key in s.objs
    requires r.key in s.objs ==> s'.objs[r.key] == s.objs[r.key]
    ensures Achieved(s', r) == Achieved(s, r)
  {
  }

  function Flatten(stages: seq<seq<Request>>): seq<Request> {
    if stages == [] then [] else stages[0] + Flatten(stages[1..])
  }

  lemma {:induction false} StageConcat(a: seq<Request>, b: seq<Request>, cr: Cr, w: World)
    ensures var o := RunStage(a, cr, w);
            RunStage(a + b, cr, w) == if o.err.Some? then o else RunStage(b, cr, o.w)
    decreases |a|
  {
    hide RunRequest;
    if a == [] {
      assert a + b == b;
    } else {
      assert (a + b)[1..] == a[1..] + b;
      StageConcat(a[1..], b, cr, RunRequest(a[0], Fresh, cr, w).w);
    }
  }

  /** Without an error the sub-reconciles together are one long stage. */
  lemma {:induction false} StagesAsOne(stages: seq<seq<Request>>, cr: Cr, w: World)
    requires FirstError(RunStages(stages, cr, w).errs).None?
    ensures RunStage(Flatten(stages), cr, w) == Outcome(RunStages(stages, cr, w).w, None)
    decreases |stages|
  {
    if stages != [] {
      var first := RunStage(stages[0], cr, w);
      var rest := RunStages(stages[1..], cr, first.w);
      assert RunStages(stages, cr, w).errs[1..] == rest.errs;
      StageConcat(stages[0], Flatten(stages[1..]), cr, w);
      StagesAsOne(stages[1..], cr, first.w);
    }
  }
}
