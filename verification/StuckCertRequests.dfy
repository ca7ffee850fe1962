/** The fixer for certificate requests and ACME orders that have failed for good. */
module StuckCertRequests {
  import opened Clusters

  const CONTROLLER := ObjKey(DeploymentKind, "cert-manager", "cert-manager")

  predicate RequestFailed(o: Obj) {
    o.failureTime != "" || StatusCondition("Ready", "False", "Failed") in o.conditions
  }

  predicate OrderFailed(o: Obj) { o.acmeState == "errored" || o.acmeState == "invalid" }

  /** The declarative specification, one kind at a time. */
  predicate Failed(c: View, extra: set<string>, kind: FixKind, key: ObjKey) {
    && key in c && key.kind == kind && !Protected(key.ns, extra)
    && ((kind == RequestKind && RequestFailed(c[key])) || (kind == OrderKind && OrderFailed(c[key])))
  }

  function AllFailed(c: View, extra: set<string>, kind: FixKind): set<ObjKey> { set k | k in c && Failed(c, extra, kind, k) }

  /** The controller is known, and known to be down. */
  predicate ControllerDown(c: View) { CONTROLLER in c && c[CONTROLLER].readyReplicas == 0 }

  /** What has happened once `items` are behind. */
  ghost predicate Going(c: View, extra: set<string>, kind: FixKind, items: seq<ObjKey>, log: seq<Attempt>, objs: View) {
    && Keys(log) == Among(AllFailed(c, extra, kind), items)
    && (forall a :: a in log ==> a.op == Deletion && a.key.kind == kind)
    && objs == c - Landed(log)
    && (forall k :: k in Landed(log) ==> k in items)
  }

  lemma Begin(c: View, extra: set<string>, kind: FixKind)
    ensures Going(c, extra, kind, [], [], c) && Successes([]) == []
  {
    hide AllFailed;
  }

  lemma StillThere(c: View, extra: set<string>, kind: FixKind, items: seq<ObjKey>, log: seq<Attempt>, objs: View, k: ObjKey)
    requires Going(c, extra, kind, items, log, objs) && k in c && k.kind == kind && k !in items
    ensures k in objs && objs[k] == c[k] && Failed(objs, extra, kind, k) == (k in AllFailed(c, extra, kind))
  {
  }

  lemma GoesOn(c: View, extra: set<string>, kind: FixKind, items: seq<ObjKey>, log: seq<Attempt>, objs: View, k: ObjKey, ok: bool)
    requires Going(c, extra, kind, items, log, objs) && k.kind == kind
    ensures k !in AllFailed(c, extra, kind) ==> Going(c, extra, kind, items + [k], log, objs)
    ensures k in AllFailed(c, extra, kind) ==>
              Going(c, extra, kind, items + [k], log + [Attempt(Deletion, k, ok)], if ok then objs - {k} else objs)
  {
    hide AllFailed;
    AmongAppend(AllFailed(c, extra, kind), items, k);
    KeysAppend(log, Attempt(Deletion, k, ok));
    Appended(log, Attempt(Deletion, k, ok));
    hide Keys, Among, Landed;
    assert (c - Landed(log)) - {k} == c - (Landed(log) + {k});
  }

  lemma Summary(c: View, extra: set<string>, kind: FixKind, items: seq<ObjKey>, log: seq<Attempt>, objs: View)
    requires Going(c, extra, kind, items, log, objs)
    requires forall i, j :: 0 <= i < j < |items| ==> items[i] != items[j]
    ensures forall i, j :: 0 <= i < j < |log| ==> log[i].key != log[j].key
    ensures items == [] ==> log == []
    ensures IsListing(c, kind, items) ==> forall k :: k in Targets(log) <==> Failed(c, extra, kind, k)
    ensures forall a :: a in log ==> a.op == Deletion && Failed(c, extra, kind, a.key)
    ensures objs == c - Landed(log)
  {
    OnceEach(AllFailed(c, extra, kind), items, log);
    forall a | a in log ensures Failed(c, extra, kind, a.key) { assert a.key in Targets(log); }
    if items == [] { assert |Keys(log)| == |log|; }
  }

  /** The loop that both kinds share: the namespace gate first, then the failure test. */
  method DeleteFailed(m: Cluster, extra: set<string>, kind: FixKind) returns (actions: seq<ObjKey>, ghost done: seq<Attempt>)
    requires kind == RequestKind || kind == OrderKind
    modifies m
    ensures m.dark == old(m.dark)
    ensures m.log == old(m.log) + done && actions == Successes(done)
    ensures forall i, j :: 0 <= i < j < |done| ==> done[i].key != done[j].key
    ensures forall a :: a in done ==> a.op == Deletion && Failed(old(m.objs), extra, kind, a.key)
    ensures kind in m.dark ==> done == []
    ensures kind !in m.dark ==> forall k :: k in Targets(done) <==> Failed(old(m.objs), extra, kind, k)
    ensures m.objs == old(m.objs) - Landed(done)
  {
    hide Going, Successes, AllFailed, Failed, Targets, Landed, RequestFailed, OrderFailed;
    ghost var c := m.objs;
    actions, done := [], [];
    Begin(c, extra, kind);
    var items := m.List(kind);
    assert kind in m.dark ==> items == [] by { if items != [] { assert items[0] in items; } }
    for i := 0 to |items|
      invariant m.dark == old(m.dark)
      invariant m.log == old(m.log) + done && actions == Successes(done)
      invariant Going(c, extra, kind, items[..i], done, m.objs)
    {
      var k := items[i];
      assert items[..i + 1] == items[..i] + [k];
      StillThere(c, extra, kind, items[..i], done, m.objs, k);
      FailedMeans(m.objs, extra, kind, k);
      ghost var was := m.objs;
      if Protected(k.ns, extra) || !(if kind == RequestKind then RequestFailed(m.objs[k]) else OrderFailed(m.objs[k])) {
        GoesOn(c, extra, kind, items[..i], done, was, k, false);
        continue;
      }
      var ok := m.Delete(k);
      GoesOn(c, extra, kind, items[..i], done, was, k, ok);
      SuccessesAppend(done, Attempt(Deletion, k, ok));
      done := done + [Attempt(Deletion, k, ok)];
      if ok { actions := actions + [k]; }
    }
    assert items[..|items|] == items;
    Summary(c, extra, kind, items, done, m.objs);
  }

  lemma FailedMeans(c: View, extra: set<string>, kind: FixKind, k: ObjKey)
    requires k in c && k.kind == kind && (kind == RequestKind || kind == OrderKind)
    ensures Failed(c, extra, kind, k) <==> !Protected(k.ns, extra) && if kind == RequestKind then RequestFailed(c[k]) else OrderFailed(c[k])
  {
  }

  predicate FailedAny(c: View, extra: set<string>, k: ObjKey) { Failed(c, extra, RequestKind, k) || Failed(c, extra, OrderKind, k) }

  lemma OrdersUntouched(c: View, extra: set<string>, gone: set<ObjKey>, k: ObjKey)
    requires forall g :: g in gone ==> g.kind == RequestKind
    ensures Failed(c - gone, extra, OrderKind, k) == Failed(c, extra, OrderKind, k)
  {
  }

  lemma SuccessesConcat(a: seq<Attempt>, b: seq<Attempt>)
    ensures Successes(a + b) == Successes(a) + Successes(b)
  {
    if b == [] {
      assert a + b == a;
    } else {
      assert (a + b)[..|a + b| - 1] == a + b[..|b| - 1];
      SuccessesConcat(a, b[..|b| - 1]);
    }
  }

  lemma TwoRounds(c: View, first: seq<Attempt>, second: seq<Attempt>)
    ensures Landed(first + second) == Landed(first) + Landed(second) && Targets(first + second) == Targets(first) + Targets(second)
    ensures (c - Landed(first)) - Landed(second) == c - Landed(first + second)
  {
  }

  /**
  Deletes what has failed for good, requests before orders, each object tried
  once; with the controller down it does nothing at all.
  */
  method Run(m: Cluster, extra: set<string>) returns (r: Report)
    modifies m
    ensures !m.live ==> r == Refused && m.objs == old(m.objs) && m.log == old(m.log)
    ensures m.live && ControllerDown(old(m.objs)) ==> r == Acted([]) && m.objs == old(m.objs) && m.log == old(m.log)
    ensures old(m.log) <= m.log && m.dark == old(m.dark)
    ensures m.live && !ControllerDown(old(m.objs)) ==>
              var done := m.log[|old(m.log)|..];
              && r == Acted(Successes(done))
              && m.objs == old(m.objs) - Landed(done)
              && (forall i, j :: 0 <= i < j < |done| ==> done[i].key != done[j].key)
              && (forall i, j :: 0 <= i < j < |done| && done[i].key.kind == OrderKind ==> done[j].key.kind == OrderKind)
              && (forall a :: a in done ==> a.op == Deletion && a.key.kind !in old(m.dark) && FailedAny(old(m.objs), extra, a.key))
              && (forall k: ObjKey :: k.kind !in old(m.dark) ==> (k in Targets(done) <==> FailedAny(old(m.objs), extra, k)))
  {
    hide Landed, Targets, Successes, RequestFailed, OrderFailed;
    if !m.live { return Refused; }
    ghost var c, before := m.objs, m.log;
    if CONTROLLER in m.objs && m.objs[CONTROLLER].readyReplicas == 0 { return Acted([]); }
    var requests, orders;
    ghost var first, second;
    requests, first := DeleteFailed(m, extra, RequestKind);
    ghost var gone := Landed(first);
    assert forall g :: g in gone ==> g.kind == RequestKind by { LandedAreTargets(first); }
    orders, second := DeleteFailed(m, extra, OrderKind);
    forall k ensures Failed(c - gone, extra, OrderKind, k) == Failed(c, extra, OrderKind, k) { OrdersUntouched(c, extra, gone, k); }
    SuccessesConcat(first, second);
    TwoRounds(c, first, second);
    KindsOfTargets(c, extra, RequestKind, first);
    KindsOfTargets(c, extra, OrderKind, second);
    assert m.log[|before|..] == first + second;
    return Acted(requests + orders);
  }

  lemma LandedAreTargets(log: seq<Attempt>)
    ensures forall k :: k in Landed(log) ==> exists a :: a in log && a.key == k
  {
  }

  lemma KindsOfTargets(c: View, extra: set<string>, kind: FixKind, log: seq<Attempt>)
    requires forall a :: a in log ==> Failed(c, extra, kind, a.key)
    ensures forall k :: k in Targets(log) ==> k.kind == kind
    ensures forall i :: 0 <= i < |log| ==> log[i].key.kind == kind
  {
  }

  /** What a run has deleted of what had failed is not failed any more, and no other failure has come up. */
  lemma SecondRunFindsNothing(c: View, extra: set<string>, gone: set<ObjKey>, k: ObjKey)
    requires FailedAny(c, extra, k) ==> k in gone
    ensures !FailedAny(c - gone, extra, k)
  {
    hide RequestFailed, OrderFailed, Protected;
  }
}
