/**
The API server's store and its verbs, as pure functions of the store.

An object carries two history fields that no program reads: `maker`, the custom
resource whose reconcile created it, and `writer`, the one whose reconcile last
changed it. Anything created or changed by somebody else has `None` there.
*/
module Store {
  import opened Options
  import opened Spec

  datatype Kind =
    | ServiceAccount | Deployment | CronJob | StatefulSet | Service | Secret
    | Role | RoleBinding | ClusterRole | ClusterRoleBinding | NetworkPolicy | Ingress

  /** Cluster-scoped kinds use the empty namespace. */
  datatype Key = Key(kind: Kind, ns: string, name: string)

  type Labels = map<string, string>

  datatype Arg = Text(text: string) | FromEnv(flag: string, variable: string)

  datatype Port = Port(name: string, number: int)

  datatype Pod = Pod(labels: Labels, serviceAccount: string, image: string, args: seq<Arg>, env: seq<EnvVar>, ports: seq<Port>)

  datatype Strategy = Recreate | RollingUpdate

  datatype ServicePort = ServicePort(name: string, port: int, targetPort: string)

  datatype Subject = Subject(kind: string, name: string, ns: string)

  /** The fixed rule tables, by name; those that depend on the spec carry what they depend on. */
  datatype Rules =
    | ReaderRules | FixerRules | SigningReaderRules(secretName: string) | EventRules
    | StoreRules(replay: string, runbook: string) | SilenceRules | OtherRules(text: string)

  datatype IngressPath = IngressPath(path: string, service: string, port: string)

  datatype IngressRules = IngressRules(host: string, className: string, paths: seq<IngressPath>, tlsSecret: Option<string>)

  /** Signing key material, private and public half. */
  datatype KeyPair = KeyPair(signingKey: string, signingPub: string)

  datatype Body =
    | NoBody
    | DeploymentBody(replicas: int, template: Pod, strategy: Strategy, selector: Labels)
    | CronJobBody(schedule: string, job: Pod, backoffLimit: int, concurrency: string, suspend: bool)
    | StatefulSetBody(replicas: int, template: Pod, updateStrategy: string, selector: Labels, serviceName: string, claim: string)
    | ServiceBody(ports: seq<ServicePort>, selector: Labels, clusterIp: string)
    | SecretBody(keys: KeyPair)
    | RoleBody(rules: Rules)
    | BindingBody(roleRef: string, subjects: seq<Subject>)
    | NetworkPolicyBody(podSelector: Labels, gateway: Labels, port: int)
    | IngressBody(routes: IngressRules)

  datatype Object = Object(
    uid: nat, rv: nat, labels: Labels, annotations: map<string, string>, owner: Option<nat>, body: Body,
    available: int, maker: Option<CrId>, writer: Option<CrId>)

  /** What a builder returns: an object before it has been stored. */
  datatype Desired = Desired(labels: Labels, annotations: map<string, string>, owned: bool, body: Body)

  /** `next` is a counter above every uid and every resource version in use. */
  datatype State = State(crs: map<CrId, Cr>, objs: map<Key, Object>, next: nat)

  // ---------- answers ----------

  datatype Error = NotFound | AlreadyExists | Conflict | Invalid | Unavailable

  /** Whether a call is served, refused without effect, or served while its answer is lost. */
  datatype Fault = Served | Refused | Lost

  datatype Reply<+T> = Reply(st: State, res: Result<T, Error>)

  function Settle<T>(before: State, served: Reply<T>, f: Fault): Reply<T> {
    match f
    case Served => served
    case Refused => Reply(before, Err(Unavailable))
    case Lost => Reply(served.st, Err(Unavailable))
  }

  // ---------- verbs on children ----------

  function Get(st: State, key: Key, f: Fault): Reply<Object> {
    Settle(st, Reply(st, if key in st.objs then Ok(st.objs[key]) else Err(NotFound)), f)
  }

  function Stored(st: State, d: Desired, who: CrId, owner: nat): Object {
    Object(st.next, st.next, d.labels, d.annotations, if d.owned then Some(owner) else None, d.body, 0, Some(who), Some(who))
  }

  function Create(st: State, key: Key, d: Desired, who: CrId, owner: nat, f: Fault): Reply<Object> {
    var served :=
      if key in st.objs then Reply(st, Err(AlreadyExists))
      else Reply(st.(objs := st.objs[key := Stored(st, d, who, owner)], next := st.next + 1), Ok(Stored(st, d, who, owner)));
    Settle(st, served, f)
  }

  predicate SameContent(a: Object, b: Object) {
    a.labels == b.labels && a.annotations == b.annotations && a.owner == b.owner && a.body == b.body
  }

  predicate Carries(m: map<string, string>, wanted: map<string, string>) {
    forall k :: k in wanted ==> k in m && m[k] == wanted[k]
  }

  /** What the server lets an update do: no new role under a binding, no new selector, and pods that the selector finds. */
  predicate Admits(before: Body, after: Body) {
    match (before, after)
    case (DeploymentBody(_, _, _, selector), DeploymentBody(_, template, _, selector')) =>
      selector' == selector && Carries(template.labels, selector)
    case (StatefulSetBody(_, _, _, selector, serviceName, claim), StatefulSetBody(_, template, _, selector', serviceName', claim')) =>
      selector' == selector && serviceName' == serviceName && claim' == claim && Carries(template.labels, selector)
    case (BindingBody(roleRef, _), BindingBody(roleRef', _)) => roleRef' == roleRef
    case _ => true
  }

  /** A stale version is a conflict; a write that changes nothing leaves the version alone. */
  function Update(st: State, key: Key, o: Object, who: CrId, f: Fault): Reply<Object> {
    var served :=
      if key !in st.objs then Reply(st, Err(NotFound))
      else
        var cur := st.objs[key];
        if cur.rv != o.rv then Reply(st, Err(Conflict))
        else if !Admits(cur.body, o.body) then Reply(st, Err(Invalid))
        else if SameContent(cur, o) then Reply(st, Ok(cur))
        else
          var o' := cur.(labels := o.labels, annotations := o.annotations, owner := o.owner, body := o.body,
                         rv := st.next, writer := Some(who));
          Reply(st.(objs := st.objs[key := o'], next := st.next + 1), Ok(o'));
    Settle(st, served, f)
  }

  function Delete(st: State, key: Key, f: Fault): Reply<()> {
    var served := if key in st.objs then Reply(st.(objs := st.objs - {key}), Ok(())) else Reply(st, Err(NotFound));
    Settle(st, served, f)
  }

  // ---------- verbs on the custom resource ----------

  function GetCr(st: State, id: CrId, f: Fault): Reply<Cr> {
    Settle(st, Reply(st, if id in st.crs then Ok(st.crs[id]) else Err(NotFound)), f)
  }

  /** Writes the finalizers. A resource marked for deletion goes away with its last finalizer. */
  function UpdateCr(st: State, cr: Cr, f: Fault): Reply<Cr> {
    var served :=
      if cr.id !in st.crs then Reply(st, Err(NotFound))
      else
        var cur := st.crs[cr.id];
        if cur.rv != cr.rv then Reply(st, Err(Conflict))
        else
          var cr' := cur.(finalizers := cr.finalizers, rv := st.next);
          if cur.deleting && cr.finalizers == {} then Reply(st.(crs := st.crs - {cr.id}, next := st.next + 1), Ok(cr'))
          else Reply(st.(crs := st.crs[cr.id := cr'], next := st.next + 1), Ok(cr'));
    Settle(st, served, f)
  }

  /** Writes the status subresource only. */
  function UpdateStatus(st: State, cr: Cr, f: Fault): Reply<Cr> {
    var served :=
      if cr.id !in st.crs then Reply(st, Err(NotFound))
      else
        var cur := st.crs[cr.id];
        if cur.rv != cr.rv then Reply(st, Err(Conflict))
        else
          var cr' := cur.(status := cr.status, rv := st.next);
          Reply(st.(crs := st.crs[cr.id := cr'], next := st.next + 1), Ok(cr'));
    Settle(st, served, f)
  }

  // ---------- the server over time ----------

  /**
  One call's circumstances: the store may have been changed by others just before
  the call, the call may go wrong, and a key pair drawn for it comes out as `draw`.
  */
  datatype Tick = Tick(change: Option<State>, fault: Fault, draw: KeyPair)

  /** The store and what is going to happen to the calls made on it. A spent script refuses every call. */
  datatype World = World(st: State, script: seq<Tick>)

  function Head(w: World): Tick {
    if w.script == [] then Tick(None, Refused, KeyPair("", "")) else w.script[0]
  }

  /** The store the next call finds. */
  function Seen(w: World): State {
    if Head(w).change.Some? then Head(w).change.value else w.st
  }

  function Tail(w: World): seq<Tick> {
    if w.script == [] then [] else w.script[1..]
  }
}
