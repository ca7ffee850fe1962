/** The fixer for failed pods that nothing will clean up. */
module StalePods {
  import opened Clusters

  /** Owned by a Job or by nothing. Only the first owner counts. */
  predicate NobodyRecovers(o: Obj) { o.owners == [] || o.owners[0].kind == "Job" }

  /** The pod itself or its Job, if that can be read, is somebody else's. */
  predicate Claimed(c: View, pod: ObjKey)
    requires pod in c
  {
    || GitOpsManaged(c[pod])
    || (c[pod].owners != [] && c[pod].owners[0].kind == "Job"
        && var job := ObjKey(JobKind, pod.ns, c[pod].owners[0].name); job in c && GitOpsManaged(c[job]))
  }

  /** The declarative specification. */
  predicate Stale(c: View, extra: set<string>, pod: ObjKey) {
    && pod in c && pod.kind == PodKind
    && c[pod].phase == "Failed" && NobodyRecovers(c[pod]) && !Protected(pod.ns, extra) && !Claimed(c, pod)
  }

  function AllStale(c: View, extra: set<string>): set<ObjKey> { set pod | pod in c && Stale(c, extra, pod) }

  /** The pods still to come read as they did: only earlier pods have gone. */
  lemma ReadsTheSame(c: View, extra: set<string>, gone: set<ObjKey>, pod: ObjKey)
    requires pod in c && pod.kind == PodKind && pod !in gone && forall k :: k in gone ==> k.kind == PodKind
    ensures Stale(c - gone, extra, pod) == Stale(c, extra, pod)
  {
    hide GitOpsManaged, Protected;
  }

  method TryPod(m: Cluster, extra: set<string>, pod: ObjKey) returns (tried: bool, ok: bool)
    requires pod in m.objs && pod.kind == PodKind
    modifies m
    ensures m.dark == old(m.dark)
    ensures tried == Stale(old(m.objs), extra, pod)
    ensures m.log == if tried then old(m.log) + [Attempt(Deletion, pod, ok)] else old(m.log)
    ensures m.objs == if tried && ok then old(m.objs) - {pod} else old(m.objs)
  {
    hide GitOpsManaged, Protected;
    tried, ok := false, false;
    var o := m.objs[pod];
    if o.phase != "Failed" { return; }
    if o.owners != [] && o.owners[0].kind != "Job" { return; }
    if Protected(pod.ns, extra) { return; }
    if GitOpsManaged(o) { return; }
    if o.owners != [] {
      var job := ObjKey(JobKind, pod.ns, o.owners[0].name);
      if job in m.objs && GitOpsManaged(m.objs[job]) { return; }
    }
    tried := true;
    ok := m.Delete(pod);
  }

  /** What has happened once `pods` are behind. */
  ghost predicate Going(c: View, extra: set<string>, pods: seq<ObjKey>, log: seq<Attempt>, objs: View) {
    && Keys(log) == Among(AllStale(c, extra), pods)
    && (forall a :: a in log ==> a.op == Deletion && a.key.kind == PodKind)
    && objs == c - Landed(log)
    && (forall k :: k in Landed(log) ==> k in pods)
  }

  lemma Begin(c: View, extra: set<string>)
    ensures Going(c, extra, [], [], c) && Successes([]) == []
  {
    hide AllStale;
  }

  lemma StillThere(c: View, extra: set<string>, pods: seq<ObjKey>, log: seq<Attempt>, objs: View, pod: ObjKey)
    requires Going(c, extra, pods, log, objs) && pod in c && pod.kind == PodKind && pod !in pods
    ensures pod in objs && Stale(objs, extra, pod) == (pod in AllStale(c, extra))
  {
    hide AllStale, Stale, Keys, Among;
    ReadsTheSame(c, extra, Landed(log), pod);
    StaleIsListed(c, extra, pod);
  }

  lemma StaleIsListed(c: View, extra: set<string>, pod: ObjKey)
    ensures pod in AllStale(c, extra) <==> Stale(c, extra, pod)
  {
  }

  lemma GoesOn(c: View, extra: set<string>, pods: seq<ObjKey>, log: seq<Attempt>, objs: View, pod: ObjKey, ok: bool)
    requires Going(c, extra, pods, log, objs) && pod.kind == PodKind
    ensures pod !in AllStale(c, extra) ==> Going(c, extra, pods + [pod], log, objs)
    ensures pod in AllStale(c, extra) ==>
              Going(c, extra, pods + [pod], log + [Attempt(Deletion, pod, ok)], if ok then objs - {pod} else objs)
  {
    hide AllStale, Stale;
    AmongAppend(AllStale(c, extra), pods, pod);
    KeysAppend(log, Attempt(Deletion, pod, ok));
    Appended(log, Attempt(Deletion, pod, ok));
    hide Keys, Among, Landed;
    assert (c - Landed(log)) - {pod} == c - (Landed(log) + {pod});
  }

  method DeleteStale(m: Cluster, extra: set<string>, pods: seq<ObjKey>) returns (actions: seq<ObjKey>, ghost done: seq<Attempt>)
    requires forall pod :: pod in pods ==> pod in m.objs && pod.kind == PodKind
    requires forall i, j :: 0 <= i < j < |pods| ==> pods[i] != pods[j]
    modifies m
    ensures m.dark == old(m.dark) && m.log == old(m.log) + done && actions == Successes(done)
    ensures Going(old(m.objs), extra, pods, done, m.objs)
  {
    hide Going, Successes, AllStale, Stale;
    ghost var c := m.objs;
    actions, done := [], [];
    Begin(c, extra);
    for i := 0 to |pods|
      invariant m.dark == old(m.dark) && m.log == old(m.log) + done && actions == Successes(done)
      invariant Going(c, extra, pods[..i], done, m.objs)
    {
      var pod := pods[i];
      assert pods[..i + 1] == pods[..i] + [pod];
      StillThere(c, extra, pods[..i], done, m.objs, pod);
      ghost var was := m.objs;
      var tried, ok := TryPod(m, extra, pod);
      GoesOn(c, extra, pods[..i], done, was, pod, ok);
      if tried {
        SuccessesAppend(done, Attempt(Deletion, pod, ok));
        done := done + [Attempt(Deletion, pod, ok)];
        if ok { actions := actions + [pod]; }
      }
    }
    assert pods[..|pods|] == pods;
  }

  lemma Summary(c: View, extra: set<string>, pods: seq<ObjKey>, log: seq<Attempt>, objs: View)
    requires Going(c, extra, pods, log, objs)
    requires forall i, j :: 0 <= i < j < |pods| ==> pods[i] != pods[j]
    ensures forall i, j :: 0 <= i < j < |log| ==> log[i].key != log[j].key
    ensures pods == [] ==> log == []
    ensures IsListing(c, PodKind, pods) ==> forall pod :: pod in Targets(log) <==> Stale(c, extra, pod)
    ensures forall a :: a in log ==> a.op == Deletion && Stale(c, extra, a.key)
    ensures objs == c - Landed(log)
  {
    OnceEach(AllStale(c, extra), pods, log);
    forall a | a in log ensures Stale(c, extra, a.key) { assert a.key in Targets(log); }
    if pods == [] { assert |Keys(log)| == |log|; }
  }

  /** Deletes the stale pods: exactly those, each tried once, in whatever order they are listed. */
  method Run(m: Cluster, extra: set<string>) returns (r: Report)
    modifies m
    ensures !m.live ==> r == Refused && m.objs == old(m.objs) && m.log == old(m.log)
    ensures old(m.log) <= m.log && m.dark == old(m.dark)
    ensures m.live ==>
              var done := m.log[|old(m.log)|..];
              && r == Acted(Successes(done))
              && m.objs == old(m.objs) - Landed(done)
              && (forall i, j :: 0 <= i < j < |done| ==> done[i].key != done[j].key)
              && (forall a :: a in done ==> a.op == Deletion && Stale(old(m.objs), extra, a.key))
              && (PodKind in old(m.dark) ==> done == [])
              && (PodKind !in old(m.dark) ==> forall pod :: pod in Targets(done) <==> Stale(old(m.objs), extra, pod))
  {
    hide Going, Stale, Landed, Targets, Successes;
    if !m.live { return Refused; }
    var pods := m.List(PodKind);
    ghost var c, before := m.objs, m.log;
    assert PodKind in m.dark ==> pods == [] by { if pods != [] { assert pods[0] in pods; } }
    var actions;
    ghost var done;
    actions, done := DeleteStale(m, extra, pods);
    assert m.log[|before|..] == done;
    Summary(c, extra, pods, done, m.objs);
    return Acted(actions);
  }

  /** Nothing is stale in the cluster that a fully accepted run leaves. */
  lemma SecondRunFindsNothing(c: View, extra: set<string>, gone: set<ObjKey>, pod: ObjKey)
    requires forall p :: p in gone <==> Stale(c, extra, p)
    ensures !Stale(c - gone, extra, pod)
  {
    hide GitOpsManaged, Protected;
  }

  // ---------- when a Job goes ----------

  /** The Job a pod's first owner names. */
  function JobOf(c: View, pod: ObjKey): ObjKey
    requires pod in c && c[pod].owners != []
  {
    ObjKey(JobKind, pod.ns, c[pod].owners[0].name)
  }

  /** The mark on its Job is all that keeps the fixer off the pod. */
  predicate Shielded(c: View, extra: set<string>, pod: ObjKey) {
    && pod in c && pod.kind == PodKind && c[pod].phase == "Failed" && !Protected(pod.ns, extra) && !GitOpsManaged(c[pod])
    && c[pod].owners != [] && c[pod].owners[0].kind == "Job"
    && JobOf(c, pod) in c && GitOpsManaged(c[JobOf(c, pod)])
  }

  /** Taking Jobs away makes exactly those pods stale whose shield was among them. */
  lemma JobDeletionExposes(c: View, extra: set<string>, gone: set<ObjKey>, pod: ObjKey)
    requires forall k :: k in gone ==> k.kind == JobKind
    ensures Stale(c - gone, extra, pod) && !Stale(c, extra, pod) <==> Shielded(c, extra, pod) && JobOf(c, pod) in gone
    ensures Stale(c, extra, pod) ==> Stale(c - gone, extra, pod)
  {
    hide GitOpsManaged, Protected;
  }

  /** Taking pods away changes nothing about the others. */
  lemma PodDeletionExposesNothing(c: View, extra: set<string>, gone: set<ObjKey>, pod: ObjKey)
    requires forall k :: k in gone ==> k.kind == PodKind
    ensures Stale(c - gone, extra, pod) <==> Stale(c, extra, pod) && pod !in gone
    ensures Shielded(c - gone, extra, pod) <==> Shielded(c, extra, pod) && pod !in gone
    ensures pod in c && pod !in gone ==> (c - gone)[pod] == c[pod]
  {
    hide GitOpsManaged, Protected;
  }
}
