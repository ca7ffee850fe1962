/**
The cluster as the automatic fixers see it: objects of several kinds read as
unstructured records, and mutations that may be refused. Beside it the gates
that the fixers share.
*/
module Clusters {
  import opened Strings

  datatype FixKind = PodKind | JobKind | CronJobKind | ReplicaSetKind | DeploymentKind | RequestKind | OrderKind

  datatype ObjKey = ObjKey(kind: FixKind, ns: string, name: string)

  datatype OwnerRef = OwnerRef(kind: string, name: string)

  datatype ContainerState = ContainerState(waitingReason: string, waitingMessage: string)

  datatype StatusCondition = StatusCondition(kind: string, status: string, reason: string)

  /**
  The fields the fixers look at. `frozen` is `spec.suspend` of a CronJob and
  `spec.paused` of a Deployment; absent fields read as empty, false or zero.
  */
  datatype Obj = Obj(
    owners: seq<OwnerRef>, annotations: map<string, string>, labels: map<string, string>, frozen: bool,
    phase: string, containers: seq<ContainerState>, readyReplicas: int,
    failureTime: string, conditions: seq<StatusCondition>, acmeState: string)

  type View = map<ObjKey, Obj>

  // ---------- gates ----------

  const PROTECTED_NAMESPACES := {"kube-system", "kube-public", "kube-node-lease", "rook-ceph", "vault", "external-secrets", "cnpg-system"}

  predicate Protected(ns: string, extra: set<string>) {
    ns != "" && (ns in PROTECTED_NAMESPACES || ns in extra)
  }

  const GITOPS_ANNOTATIONS := [
    "argocd.argoproj.io/instance", "argocd.argoproj.io/tracking-id", "kustomize.toolkit.fluxcd.io/name",
    "kustomize.toolkit.fluxcd.io/namespace", "meta.helm.sh/release-name", "meta.helm.sh/release-namespace"]

  const GITOPS_MANAGERS := {"helm", "argocd", "flux", "fluxcd", "argo-cd"}

  function ValueOf(m: map<string, string>, k: string): string { if k in m then m[k] else "" }

  predicate GitOpsManaged(o: Obj) {
    || (exists k :: k in GITOPS_ANNOTATIONS && ValueOf(o.annotations, k) != "")
    || Lower(ValueOf(o.labels, "app.kubernetes.io/managed-by")) in GITOPS_MANAGERS
    || ValueOf(o.labels, "kustomize.toolkit.fluxcd.io/name") != ""
  }

  /** The first owner of a kind, or the empty string. */
  function FirstOwner(refs: seq<OwnerRef>, kind: string): string {
    if refs == [] then "" else if refs[0].kind == kind then refs[0].name else FirstOwner(refs[1..], kind)
  }

  predicate ConfigError(o: Obj) {
    exists c :: c in o.containers && c.waitingReason == "CreateContainerConfigError"
  }

  predicate MissingKey(o: Obj) {
    exists c :: c in o.containers && (Contains(c.waitingMessage, "couldn't find key") || Contains(c.waitingMessage, "couldnt find key"))
  }

  // ---------- mutations and their history ----------

  datatype Op = Deletion | Restart

  datatype Attempt = Attempt(op: Op, key: ObjKey, ok: bool)

  function Targets(log: seq<Attempt>): set<ObjKey> { set a | a in log :: a.key }

  function Landed(log: seq<Attempt>): set<ObjKey> { set a | a in log && a.ok :: a.key }

  /** Once an attempt on an object lands, there is no other on it. */
  ghost predicate OnceOnly(log: seq<Attempt>) {
    forall i, j :: 0 <= i < j < |log| && log[i].key == log[j].key ==> !log[i].ok
  }

  ghost predicate AllLanded(log: seq<Attempt>) { forall a :: a in log ==> a.ok }

  function Tally(log: seq<Attempt>, key: ObjKey): nat {
    if log == [] then 0 else Tally(log[..|log| - 1], key) + if log[|log| - 1].key == key then 1 else 0
  }

  lemma OnceMore(log: seq<Attempt>, a: Attempt)
    requires OnceOnly(log) && a.key !in Landed(log)
    ensures OnceOnly(log + [a])
  {
  }

  lemma Appended(log: seq<Attempt>, a: Attempt)
    ensures Targets(log + [a]) == Targets(log) + {a.key}
    ensures Landed(log + [a]) == if a.ok then Landed(log) + {a.key} else Landed(log)
    ensures forall key :: Tally(log + [a], key) == Tally(log, key) + if a.key == key then 1 else 0
  {
  }

  /** `actions` are the objects reported as acted upon, in order. */
  datatype Report = Refused | Acted(actions: seq<ObjKey>)

  function Successes(log: seq<Attempt>): seq<ObjKey> {
    if log == [] then [] else Successes(log[..|log| - 1]) + if log[|log| - 1].ok then [log[|log| - 1].key] else []
  }

  lemma SuccessesAppend(log: seq<Attempt>, a: Attempt)
    ensures Successes(log + [a]) == Successes(log) + if a.ok then [a.key] else []
  {
  }

  ghost predicate IsListing(c: View, kind: FixKind, items: seq<ObjKey>) {
    && (forall k :: k in items <==> k in c && k.kind == kind)
    && (forall i, j :: 0 <= i < j < |items| ==> items[i] != items[j])
  }

  // ---------- fixers that reach a target from a pod ----------

  /** How many of the pods aim at the target. */
  function Votes(aim: map<ObjKey, ObjKey>, pods: seq<ObjKey>, target: ObjKey): nat {
    if pods == [] then 0
    else
      var last := pods[|pods| - 1];
      Votes(aim, pods[..|pods| - 1], target) + if last in aim && aim[last] == target then 1 else 0
  }

  /**
  What a fixer whose pods aim at targets has done after `pods`: it has tried
  exactly the targets aimed at, none again once it landed, and each that has not
  landed as often as pods aim at it.
  */
  ghost predicate Done(aim: map<ObjKey, ObjKey>, op: Op, pods: seq<ObjKey>, log: seq<Attempt>) {
    && (forall a :: a in log ==> a.op == op)
    && OnceOnly(log)
    && (forall target :: target in Targets(log) <==> exists pod :: pod in pods && pod in aim && aim[pod] == target)
    && (forall target :: target !in Landed(log) ==> Tally(log, target) == Votes(aim, pods, target))
  }

  /** `settled` holds what has landed, and otherwise only what no pod aims at. */
  ghost predicate Underway(aim: map<ObjKey, ObjKey>, op: Op, pods: seq<ObjKey>, log: seq<Attempt>, settled: set<ObjKey>) {
    && Done(aim, op, pods, log)
    && Landed(log) <= settled
    && (forall k :: k in settled ==> k in Landed(log) || k !in aim.Values)
  }

  lemma VotesAppend(aim: map<ObjKey, ObjKey>, pods: seq<ObjKey>, pod: ObjKey)
    ensures forall t :: Votes(aim, pods + [pod], t) == Votes(aim, pods, t) + if pod in aim && aim[pod] == t then 1 else 0
  {
  }

  lemma Start(aim: map<ObjKey, ObjKey>, op: Op)
    ensures Underway(aim, op, [], [], {})
  {
  }

  /** A pod that aims at nothing, or at something already settled. */
  lemma Miss(aim: map<ObjKey, ObjKey>, op: Op, pods: seq<ObjKey>, log: seq<Attempt>, settled: set<ObjKey>, pod: ObjKey)
    requires Underway(aim, op, pods, log, settled) && (pod in aim ==> aim[pod] in settled)
    ensures Underway(aim, op, pods + [pod], log, settled)
  {
  }

  /** A pod whose target is not settled yet is acted upon. */
  lemma Hit(aim: map<ObjKey, ObjKey>, op: Op, pods: seq<ObjKey>, log: seq<Attempt>, settled: set<ObjKey>, pod: ObjKey, ok: bool)
    requires Underway(aim, op, pods, log, settled) && pod in aim && aim[pod] !in settled
    ensures Underway(aim, op, pods + [pod], log + [Attempt(op, aim[pod], ok)], if ok then settled + {aim[pod]} else settled)
  {
    Appended(log, Attempt(op, aim[pod], ok));
    OnceMore(log, Attempt(op, aim[pod], ok));
    VotesAppend(aim, pods, pod);
    assert pod in pods + [pod];
    forall t ensures t in Targets(log) + {aim[pod]} <==> exists p :: p in pods + [pod] && p in aim && aim[p] == t {
      if t in Targets(log) {
        var p :| p in pods && p in aim && aim[p] == t;
        assert p in pods + [pod];
      }
    }
  }

  lemma Settle(aim: map<ObjKey, ObjKey>, op: Op, pods: seq<ObjKey>, log: seq<Attempt>, settled: set<ObjKey>, more: set<ObjKey>)
    requires Underway(aim, op, pods, log, settled) && more !! aim.Values
    ensures Underway(aim, op, pods, log, settled + more)
  {
  }

  /** Over a full listing, the targets are all that any pod aims at, whatever the order. */
  lemma FullListing(c: View, aim: map<ObjKey, ObjKey>, op: Op, pods: seq<ObjKey>, log: seq<Attempt>)
    requires Done(aim, op, pods, log)
    requires forall pod :: pod in aim ==> pod in c && pod.kind == PodKind
    ensures OnceOnly(log) && forall a :: a in log ==> a.op == op && a.key in aim.Values
    ensures pods == [] ==> log == []
    ensures IsListing(c, PodKind, pods) ==> Targets(log) == aim.Values
  {
    forall a | a in log ensures a.key in aim.Values { assert a.key in Targets(log); }
    if log != [] { assert log[0] in log && log[0].key in Targets(log); }
    if IsListing(c, PodKind, pods) {
      forall t | t in aim.Values ensures t in Targets(log) {
        var pod :| pod in aim && aim[pod] == t;
        assert pod in pods;
      }
    }
  }

  // ---------- fixers that go through a list once ----------

  /** The listed objects that are wanted, in list order. */
  function Among(wanted: set<ObjKey>, items: seq<ObjKey>): seq<ObjKey> {
    if items == [] then []
    else Among(wanted, items[..|items| - 1]) + if items[|items| - 1] in wanted then [items[|items| - 1]] else []
  }

  function Keys(log: seq<Attempt>): seq<ObjKey> { seq(|log|, i requires 0 <= i < |log| => log[i].key) }

  lemma AmongAppend(wanted: set<ObjKey>, items: seq<ObjKey>, k: ObjKey)
    ensures Among(wanted, items + [k]) == Among(wanted, items) + if k in wanted then [k] else []
  {
  }

  lemma KeysAppend(log: seq<Attempt>, a: Attempt)
    ensures Keys(log + [a]) == Keys(log) + [a.key]
  {
  }

  lemma AmongIn(wanted: set<ObjKey>, items: seq<ObjKey>)
    ensures forall k :: k in Among(wanted, items) <==> k in wanted && k in items
  {
  }

  /** Going once through a full listing tries every wanted object exactly once. */
  lemma {:induction false} OnceEach(wanted: set<ObjKey>, items: seq<ObjKey>, log: seq<Attempt>)
    requires Keys(log) == Among(wanted, items)
    requires forall i, j :: 0 <= i < j < |items| ==> items[i] != items[j]
    ensures forall i, j :: 0 <= i < j < |log| ==> log[i].key != log[j].key
    ensures forall k :: k in Targets(log) <==> k in wanted && k in items
  {
    AmongIn(wanted, items);
    DistinctAmong(wanted, items);
    assert forall i :: 0 <= i < |log| ==> Keys(log)[i] == log[i].key;
    forall k | k in wanted && k in items ensures k in Targets(log) {
      var i :| 0 <= i < |Keys(log)| && Keys(log)[i] == k;
      assert log[i] in log && log[i].key == k;
    }
    forall k | k in Targets(log) ensures k in wanted && k in items {
      var a :| a in log && a.key == k;
      var i :| 0 <= i < |log| && log[i] == a;
      assert Keys(log)[i] == k;
    }
  }

  ghost predicate NoRepeats(s: seq<ObjKey>) { forall i, j :: 0 <= i < j < |s| ==> s[i] != s[j] }

  lemma {:induction false} DistinctAmong(wanted: set<ObjKey>, items: seq<ObjKey>)
    requires NoRepeats(items)
    ensures NoRepeats(Among(wanted, items))
    decreases |items|
  {
    if items != [] {
      var front, last := items[..|items| - 1], items[|items| - 1];
      DistinctAmong(wanted, front);
      AmongIn(wanted, front);
      assert last !in front;
    }
  }

  class Cluster {
    const live: bool
    var objs: View
    /** Whether each coming mutation is accepted; none is once the list is spent. */
    var accepts: seq<bool>
    /** Kinds that cannot be listed. */
    var dark: set<FixKind>
    var log: seq<Attempt>

    constructor (live: bool, objs: View, accepts: seq<bool>, dark: set<FixKind>)
      ensures this.live == live && this.objs == objs && this.accepts == accepts && this.dark == dark && log == []
    {
      this.live, this.objs, this.accepts, this.dark, this.log := live, objs, accepts, dark, [];
    }

    /** Everything of one kind, in whatever order the server likes; nothing if it cannot be listed. */
    method List(kind: FixKind) returns (items: seq<ObjKey>)
      ensures forall k :: k in items <==> kind !in dark && k in objs && k.kind == kind
      ensures forall i, j :: 0 <= i < j < |items| ==> items[i] != items[j]
    {
      items := [];
      if kind in dark { return; }
      var left := set k | k in objs && k.kind == kind;
      while left != {}
        invariant forall k :: k in items || k in left <==> k in objs && k.kind == kind
        invariant forall k :: k in items ==> k !in left
        invariant forall i, j :: 0 <= i < j < |items| ==> items[i] != items[j]
        decreases left
      {
        var k :| k in left;
        items, left := items + [k], left - {k};
      }
    }

    method Mutate(op: Op, key: ObjKey) returns (ok: bool)
      modifies this`accepts, this`log
      ensures log == old(log) + [Attempt(op, key, ok)]
      ensures ok ==> key in objs
    {
      ok := accepts != [] && accepts[0] && key in objs;
      accepts := if accepts == [] then [] else accepts[1..];
      log := log + [Attempt(op, key, ok)];
    }

    method Delete(key: ObjKey) returns (ok: bool)
      modifies this`accepts, this`log, this`objs
      ensures log == old(log) + [Attempt(Deletion, key, ok)]
      ensures objs == if ok then old(objs) - {key} else old(objs)
    {
      ok := Mutate(Deletion, key);
      if ok { objs := objs - {key}; }
    }

    /** A restart annotation on the pod template; none of the fields above shows it. */
    method Restart(key: ObjKey) returns (ok: bool)
      modifies this`accepts, this`log
      ensures log == old(log) + [Attempt(Op.Restart, key, ok)]
    {
      ok := Mutate(Op.Restart, key);
    }
  }
}
