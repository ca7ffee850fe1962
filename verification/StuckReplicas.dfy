/**
The fixer for pods stuck in a configuration error on an outdated ReplicaSet: which
Deployments it restarts, exactly.
*/
module StuckReplicas {
  import opened Clusters

  const REVISION := "deployment.kubernetes.io/revision"

  function Revision(o: Obj): string { ValueOf(o.annotations, REVISION) }

  function ReplicaSetOf(c: View, pod: ObjKey): ObjKey
    requires pod in c
  {
    ObjKey(ReplicaSetKind, pod.ns, FirstOwner(c[pod].owners, "ReplicaSet"))
  }

  function DeploymentOf(c: View, rs: ObjKey): ObjKey
    requires rs in c
  {
    ObjKey(DeploymentKind, rs.ns, FirstOwner(c[rs].owners, "Deployment"))
  }

  /** A Deployment that neither a GitOps controller nor an operator's pause protects. */
  predicate MayRestart(c: View, dep: ObjKey) {
    dep in c && !GitOpsManaged(c[dep]) && !c[dep].frozen
  }

  /** A restart would help this pod: it cannot start, on a ReplicaSet its Deployment has moved on from. */
  predicate LeftBehind(c: View, extra: set<string>, pod: ObjKey) {
    && pod in c && pod.kind == PodKind
    && ConfigError(c[pod]) && !MissingKey(c[pod]) && !Protected(pod.ns, extra)
    && var rs := ReplicaSetOf(c, pod);
       && rs.name != "" && rs in c
       && var dep := DeploymentOf(c, rs);
          && dep.name != "" && dep in c
          && Revision(c[dep]) != "" && Revision(c[rs]) != "" && Revision(c[dep]) != Revision(c[rs])
  }

  /** The declarative specification: some pod is left behind by the Deployment, which may be restarted. */
  ghost predicate DueForRestart(c: View, extra: set<string>, dep: ObjKey) {
    MayRestart(c, dep) && exists pod :: LeftBehind(c, extra, pod) && DeploymentOf(c, ReplicaSetOf(c, pod)) == dep
  }

  function RestartAim(c: View, extra: set<string>): map<ObjKey, ObjKey> {
    map pod | pod in c && LeftBehind(c, extra, pod) && MayRestart(c, DeploymentOf(c, ReplicaSetOf(c, pod))) ::
      DeploymentOf(c, ReplicaSetOf(c, pod))
  }

  lemma AimIsDue(c: View, extra: set<string>, dep: ObjKey)
    ensures dep in RestartAim(c, extra).Values <==> DueForRestart(c, extra, dep)
  {
    hide LeftBehind;
    LeftBehindIsThere(c, extra);
    if DueForRestart(c, extra, dep) {
      var pod :| LeftBehind(c, extra, pod) && DeploymentOf(c, ReplicaSetOf(c, pod)) == dep;
      assert RestartAim(c, extra)[pod] == dep;
    }
    if dep in RestartAim(c, extra).Values {
      var pod :| pod in RestartAim(c, extra) && RestartAim(c, extra)[pod] == dep;
      assert LeftBehind(c, extra, pod);
    }
  }

  lemma LeftBehindIsThere(c: View, extra: set<string>)
    ensures forall pod :: LeftBehind(c, extra, pod) ==> pod in c && pod.kind == PodKind && ReplicaSetOf(c, pod) in c
  {
  }

  /** One pod: the gates in the order they are tried, then the restart. */
  method TryPod(m: Cluster, extra: set<string>, pod: ObjKey, restarted: set<ObjKey>)
    returns (restarted': set<ObjKey>, dep: ObjKey, tried: bool, ok: bool)
    requires pod in m.objs && pod.kind == PodKind
    modifies m`accepts, m`log
    ensures var aim := RestartAim(m.objs, extra);
            && tried == (pod in aim && aim[pod] !in restarted)
            && (tried ==> dep == aim[pod] && restarted' == if ok then restarted + {dep} else restarted)
            && (!tried ==> restarted' == restarted || (restarted' == restarted + {dep} && dep !in aim.Values))
    ensures m.log == if tried then old(m.log) + [Attempt(Op.Restart, dep, ok)] else old(m.log)
  {
    hide ConfigError, MissingKey, Protected, GitOpsManaged, FirstOwner;
    restarted', dep, tried, ok := restarted, pod, false, false;
    var c := m.objs;
    if !ConfigError(c[pod]) || MissingKey(c[pod]) || Protected(pod.ns, extra) { return; }
    var rs := ReplicaSetOf(c, pod);
    if rs.name == "" || rs !in c { return; }
    dep := DeploymentOf(c, rs);
    if dep.name == "" || dep in restarted || dep !in c { return; }
    if GitOpsManaged(c[dep]) || c[dep].frozen {
      restarted' := restarted + {dep};
      return;
    }
    var current, stuck := Revision(c[dep]), Revision(c[rs]);
    if current == "" || stuck == "" || current == stuck { return; }
    tried := true;
    ok := m.Restart(dep);
    if ok { restarted' := restarted + {dep}; }
  }

  /** The loop over the pods. */
  method RestartLeftBehind(m: Cluster, extra: set<string>, pods: seq<ObjKey>) returns (actions: seq<ObjKey>, ghost done: seq<Attempt>)
    requires forall pod :: pod in pods ==> pod in m.objs && pod.kind == PodKind
    modifies m`accepts, m`log
    ensures m.log == old(m.log) + done && actions == Successes(done)
    ensures Done(RestartAim(m.objs, extra), Op.Restart, pods, done)
  {
    hide RestartAim, Done, Successes;
    ghost var aim := RestartAim(m.objs, extra);
    actions, done := [], [];
    var restarted: set<ObjKey> := {};
    Start(aim, Op.Restart);
    NoSuccesses();
    for i := 0 to |pods|
      invariant m.log == old(m.log) + done && actions == Successes(done)
      invariant Underway(aim, Op.Restart, pods[..i], done, restarted)
    {
      hide Underway;
      var pod := pods[i];
      assert pods[..i + 1] == pods[..i] + [pod];
      var restarted', dep, tried, ok := TryPod(m, extra, pod, restarted);
      if !tried {
        Miss(aim, Op.Restart, pods[..i], done, restarted, pod);
        if restarted' != restarted { Settle(aim, Op.Restart, pods[..i + 1], done, restarted, {dep}); }
      } else {
        Hit(aim, Op.Restart, pods[..i], done, restarted, pod, ok);
        SuccessesAppend(done, Attempt(Op.Restart, dep, ok));
        done := done + [Attempt(Op.Restart, dep, ok)];
        if ok { actions := actions + [dep]; }
      }
      restarted := restarted';
    }
    assert pods[..|pods|] == pods;
  }

  lemma NoSuccesses()
    ensures Successes([]) == []
  {
  }

  /**
  Restarts the Deployments that have left pods behind. It tries exactly those that
  are due, whatever the order of the pods and whichever patches are refused, and
  never again once a patch was taken.
  */
  method Run(m: Cluster, extra: set<string>) returns (r: Report)
    modifies m`accepts, m`log
    ensures !m.live ==> r == Refused && m.log == old(m.log)
    ensures old(m.log) <= m.log
    ensures m.live ==>
              var done := m.log[|old(m.log)|..];
              && r == Acted(Successes(done))
              && OnceOnly(done)
              && (forall a :: a in done ==> a.op == Op.Restart && DueForRestart(m.objs, extra, a.key))
              && (PodKind in m.dark ==> done == [])
              && (PodKind !in m.dark ==> forall dep :: dep in Targets(done) <==> DueForRestart(m.objs, extra, dep))
    ensures m.live && PodKind !in m.dark ==>
              exists pods :: IsListing(m.objs, PodKind, pods)
                             && Done(RestartAim(m.objs, extra), Op.Restart, pods, m.log[|old(m.log)|..])
  {
    hide Done, DueForRestart, RestartAim, OnceOnly, Landed, Targets, Successes, LeftBehind;
    if !m.live { return Refused; }
    var pods := m.List(PodKind);
    ghost var before, aim := m.log, RestartAim(m.objs, extra);
    assert PodKind in m.dark ==> pods == [] by { if pods != [] { assert pods[0] in pods; } }
    var actions;
    ghost var done;
    actions, done := RestartLeftBehind(m, extra, pods);
    assert m.log[|before|..] == done;
    AimsFromPods(m.objs, extra);
    FullListing(m.objs, aim, Op.Restart, pods, done);
    forall dep ensures dep in aim.Values <==> DueForRestart(m.objs, extra, dep) { AimIsDue(m.objs, extra, dep); }
    return Acted(actions);
  }

  lemma AimsFromPods(c: View, extra: set<string>)
    ensures forall pod :: pod in RestartAim(c, extra) ==> pod in c && pod.kind == PodKind
  {
  }
}
