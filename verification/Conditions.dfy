/**
The status conditions: the in-place list update, and the verdicts that
`computeConditions` reaches from what it reads back from the cluster.
*/
module Conditions {
  import opened Options
  import opened Spec
  import opened Store
  import opened Builders

  /** Upsert by type: the first entry of the type is overwritten, a missing one is appended. */
  function SetCondition(cs: seq<Condition>, kind: string, status: ConditionStatus, reason: string, gen: int, now: int): (r: seq<Condition>) {
    if cs == [] then [Condition(kind, status, reason, now, gen)]
    else if cs[0].kind == kind then
      [Condition(kind, status, reason, if cs[0].status != status then now else cs[0].lastTransition, gen)] + cs[1..]
    else [cs[0]] + SetCondition(cs[1..], kind, status, reason, gen, now)
  }

  type Got = Result<Object, Error>

  const WATCHER_RUNNING := "WatcherRunning"
  const READER_RBAC_READY := "ReaderRBACReady"
  const AIWATCH_RUNNING := "AIWatchRunning"
  const MEMORY_READY := "MemoryStoreReady"
  const APPROVAL_READY := "ApprovalServerReady"
  const READY := "Ready"

  datatype Verdict = Verdict(status: ConditionStatus, reason: string)

  function RunningKeys(enabled: bool, key: Key): seq<Key> { if enabled then [key] else [] }

  function RbacKeys(cr: Cr): seq<Key> { [ReaderRoleKey(), ReaderBindingKey(cr.id)] }

  function MemoryKeys(cr: Cr): seq<Key> {
    if MemoryEnabled(cr.spec) then [Child(Service, cr.id, RagName(cr.id)), Child(StatefulSet, cr.id, RagName(cr.id))] else []
  }

  function ApprovalKeys(cr: Cr): seq<Key> {
    if ApprovalEnabled(cr.spec)
    then [SigningSecretKey(cr), Child(Service, cr.id, ApprovalName(cr.id)), Child(Deployment, cr.id, ApprovalName(cr.id))]
    else []
  }

  /** What `computeConditions` reads, in order. */
  function ObservedKeys(cr: Cr): seq<Key> {
    RunningKeys(WatcherEnabled(cr.spec), Child(Deployment, cr.id, WatcherName(cr.id)))
    + (RbacKeys(cr)
       + (RunningKeys(AiEnabled(cr.spec), Child(Deployment, cr.id, AiWatchName(cr.id))) + (MemoryKeys(cr) + ApprovalKeys(cr))))
  }

  function Look(seen: map<Key, Got>, key: Key): Got {
    if key in seen then seen[key] else Err(Unavailable)
  }

  function RunningVerdict(enabled: bool, got: Got): Verdict {
    if !enabled then Verdict(False, "Disabled")
    else if got == Err(NotFound) then Verdict(False, "DeploymentMissing")
    else if got.Err? then Verdict(Unknown, "GetFailed")
    else if got.value.available > 0 then Verdict(True, "AvailableReplicasPositive")
    else Verdict(False, "NoAvailableReplicas")
  }

  predicate TargetsServiceAccount(o: Object, name: string, ns: string) {
    o.body.BindingBody? && Subject("ServiceAccount", name, ns) in o.body.subjects
  }

  function RbacVerdict(cr: Cr, role: Got, binding: Got): Verdict {
    if role == Err(NotFound) then Verdict(False, "ClusterRoleMissing")
    else if binding == Err(NotFound) then Verdict(False, "ClusterRoleBindingMissing")
    else if role.Err? || binding.Err? then Verdict(Unknown, "GetFailed")
    else if !TargetsServiceAccount(binding.value, ServiceAccountName(cr), cr.id.ns) then Verdict(False, "WrongSubject")
    else Verdict(True, "Provisioned")
  }

  function MemoryVerdict(enabled: bool, svc: Got, ss: Got): Verdict {
    if !enabled then Verdict(False, "Disabled")
    else if svc == Err(NotFound) then Verdict(False, "ServiceMissing")
    else if ss == Err(NotFound) then Verdict(False, "StatefulSetMissing")
    else if svc.Err? || ss.Err? then Verdict(Unknown, "GetFailed")
    else if ss.value.available > 0 then Verdict(True, "ReadyReplicasPositive")
    else Verdict(False, "NoReadyReplicas")
  }

  predicate KeyPairComplete(o: Object) {
    o.body.SecretBody? && o.body.keys.signingKey != "" && o.body.keys.signingPub != ""
  }

  function ApprovalVerdict(enabled: bool, secret: Got, svc: Got, dep: Got): Verdict {
    if !enabled then Verdict(False, "Disabled")
    else if secret == Err(NotFound) then Verdict(False, "SigningKeyMissing")
    else if secret.Err? then Verdict(Unknown, "GetFailed")
    else if !KeyPairComplete(secret.value) then Verdict(False, "SigningKeyIncomplete")
    else if svc == Err(NotFound) then Verdict(False, "ServiceMissing")
    else if dep == Err(NotFound) then Verdict(False, "DeploymentMissing")
    else if svc.Err? || dep.Err? then Verdict(Unknown, "GetFailed")
    else if dep.value.available > 0 then Verdict(True, "AvailableReplicasPositive")
    else Verdict(False, "NoAvailableReplicas")
  }

  datatype Verdicts = Verdicts(watcher: Verdict, rbac: Verdict, ai: Verdict, memory: Verdict, approval: Verdict)

  function Judge(cr: Cr, seen: map<Key, Got>): Verdicts {
    Verdicts(
      RunningVerdict(WatcherEnabled(cr.spec), Look(seen, Child(Deployment, cr.id, WatcherName(cr.id)))),
      RbacVerdict(cr, Look(seen, ReaderRoleKey()), Look(seen, ReaderBindingKey(cr.id))),
      RunningVerdict(AiEnabled(cr.spec), Look(seen, Child(Deployment, cr.id, AiWatchName(cr.id)))),
      MemoryVerdict(MemoryEnabled(cr.spec), Look(seen, Child(Service, cr.id, RagName(cr.id))),
                    Look(seen, Child(StatefulSet, cr.id, RagName(cr.id)))),
      ApprovalVerdict(ApprovalEnabled(cr.spec), Look(seen, SigningSecretKey(cr)),
                      Look(seen, Child(Service, cr.id, ApprovalName(cr.id))),
                      Look(seen, Child(Deployment, cr.id, ApprovalName(cr.id)))))
  }

  /** `WatcherRunning` is not among the gates. */
  function ReadyVerdict(spec: CrSpec, v: Verdicts, err: Option<Error>): Verdict {
    if err.Some? then Verdict(False, "ReconcileError")
    else if v.rbac.status != True then Verdict(False, "ReaderRBACNotReady")
    else if AiEnabled(spec) && v.ai.status != True then Verdict(False, "AIWatchNotReady")
    else if MemoryEnabled(spec) && v.memory.status != True then Verdict(False, "MemoryStoreNotReady")
    else if ApprovalEnabled(spec) && v.approval.status != True then Verdict(False, "ApprovalServerNotReady")
    else Verdict(True, "Reconciled")
  }

  function SetAll(cs: seq<Condition>, v: Verdicts, ready: Verdict, gen: int, now: int): seq<Condition> {
    var c1 := SetCondition(cs, WATCHER_RUNNING, v.watcher.status, v.watcher.reason, gen, now);
    var c2 := SetCondition(c1, READER_RBAC_READY, v.rbac.status, v.rbac.reason, gen, now);
    var c3 := SetCondition(c2, AIWATCH_RUNNING, v.ai.status, v.ai.reason, gen, now);
    var c4 := SetCondition(c3, MEMORY_READY, v.memory.status, v.memory.reason, gen, now);
    var c5 := SetCondition(c4, APPROVAL_READY, v.approval.status, v.approval.reason, gen, now);
    SetCondition(c5, READY, ready.status, ready.reason, gen, now)
  }

  /** The resource as it is written back after a full reconcile. */
  function Judged(cr: Cr, seen: map<Key, Got>, err: Option<Error>, now: int): Cr {
    var v := Judge(cr, seen);
    cr.(status := CrStatus(SetAll(cr.status.conditions, v, ReadyVerdict(cr.spec, v, err), cr.generation, now), cr.generation))
  }

  /** The resource as it is written back when its specification is refused. */
  function Rejected(cr: Cr, now: int): Cr {
    cr.(status := cr.status.(conditions := SetCondition(cr.status.conditions, READY, False, "InvalidSpec", cr.generation, now)))
  }
}
