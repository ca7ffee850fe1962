/**
The reconciler as it is written: methods that make one API call after another
and give up, or carry on, as each answers. Every method is proved to do exactly
what the plan says it does, through any interference and any failures.
*/
module Reconcilers {
  import opened Options
  import opened Spec
  import opened Store
  import opened Builders
  import opened Conditions
  import opened Plan
  import opened Naming
  import opened Worker

  /** The world after a call that left the store as `st`. */
  function After(w: World, st: State): World { World(st, Tail(w)) }

  /** The API server as its client sees it. Each call lets one tick of the script happen. */
  class ApiServer {
    var st: State
    var script: seq<Tick>

    constructor (w: World)
      ensures Now() == w
    {
      st, script := w.st, w.script;
    }

    function Now(): World
      reads this
    {
      World(st, script)
    }

    method Get(key: Key) returns (res: Result<Object, Error>)
      modifies this
      ensures Now() == After(old(Now()), Seen(old(Now())))
      ensures res == Store.Get(Seen(old(Now())), key, Head(old(Now())).fault).res
    {
      var reply := Store.Get(Seen(Now()), key, Head(Now()).fault);
      res := reply.res;
      st, script := reply.st, Tail(Now());
    }

    method Create(key: Key, d: Desired, who: CrId, owner: nat) returns (res: Result<Object, Error>)
      modifies this
      ensures var reply := Store.Create(Seen(old(Now())), key, d, who, owner, Head(old(Now())).fault);
              Now() == After(old(Now()), reply.st) && res == reply.res
    {
      var reply := Store.Create(Seen(Now()), key, d, who, owner, Head(Now()).fault);
      res := reply.res;
      st, script := reply.st, Tail(Now());
    }

    method Update(key: Key, o: Object, who: CrId) returns (res: Result<Object, Error>)
      modifies this
      ensures var reply := Store.Update(Seen(old(Now())), key, o, who, Head(old(Now())).fault);
              Now() == After(old(Now()), reply.st) && res == reply.res
    {
      var reply := Store.Update(Seen(Now()), key, o, who, Head(Now()).fault);
      res := reply.res;
      st, script := reply.st, Tail(Now());
    }

    method Delete(key: Key) returns (res: Result<(), Error>)
      modifies this
      ensures var reply := Store.Delete(Seen(old(Now())), key, Head(old(Now())).fault);
              Now() == After(old(Now()), reply.st) && res == reply.res
    {
      var reply := Store.Delete(Seen(Now()), key, Head(Now()).fault);
      res := reply.res;
      st, script := reply.st, Tail(Now());
    }

    method GetCr(id: CrId) returns (res: Result<Cr, Error>)
      modifies this
      ensures Now() == After(old(Now()), Seen(old(Now())))
      ensures res == Store.GetCr(Seen(old(Now())), id, Head(old(Now())).fault).res
    {
      var reply := Store.GetCr(Seen(Now()), id, Head(Now()).fault);
      res := reply.res;
      st, script := reply.st, Tail(Now());
    }

    method UpdateCr(cr: Cr) returns (res: Result<Cr, Error>)
      modifies this
      ensures (Now(), res) == SaveCr(cr, old(Now()))
    {
      var reply := Store.UpdateCr(Seen(Now()), cr, Head(Now()).fault);
      res := reply.res;
      st, script := reply.st, Tail(Now());
    }

    method UpdateStatus(cr: Cr) returns (err: Option<Error>)
      modifies this
      ensures Outcome(Now(), err) == SaveStatus(cr, old(Now()))
    {
      var reply := Store.UpdateStatus(Seen(Now()), cr, Head(Now()).fault);
      err := if reply.res.Ok? then None else Some(reply.res.error);
      st, script := reply.st, Tail(Now());
    }

    /** The key pair this call's randomness comes out as. */
    function Draw(): KeyPair
      reads this
    {
      Head(Now()).draw
    }
  }

  // ---------- labels ----------

  /** Copies every wanted label over the live ones. */
  method MergeLabels(live: Labels, wanted: Labels) returns (merged: Labels)
    ensures merged == live + wanted
  {
    merged := live;
    var left := wanted.Keys;
    while left != {}
      invariant left <= wanted.Keys
      invariant merged == live + (map k | k in wanted && k !in left :: wanted[k])
      decreases left
    {
      var k :| k in left;
      merged := merged[k := wanted[k]];
      left := left - {k};
    }
    assert (map k | k in wanted && k !in left :: wanted[k]) == wanted;
  }

  /** Whether every wanted label is there already. */
  method CheckLabels(current: Labels, wanted: Labels) returns (upToDate: bool)
    ensures upToDate == LabelsUpToDate(current, wanted)
  {
    var left := wanted.Keys;
    while left != {}
      invariant left <= wanted.Keys
      invariant forall k :: k in wanted && k !in left ==> LabelOf(current, k) == wanted[k]
      decreases left
    {
      var k :| k in left;
      if LabelOf(current, k) != wanted[k] { return false; }
      left := left - {k};
    }
    return true;
  }

  // ---------- the resource in memory ----------

  /** Where the upsert lands, for a list whose first `i` entries are of other types. */
  lemma {:induction false} UpsertLands(cs: seq<Condition>, i: nat, kind: string, status: ConditionStatus, reason: string, gen: int, now: int)
    requires i <= |cs| && forall j :: 0 <= j < i ==> cs[j].kind != kind
    requires i < |cs| ==> cs[i].kind == kind
    ensures Conditions.SetCondition(cs, kind, status, reason, gen, now)
            == if i < |cs|
               then cs[i := Condition(kind, status, reason, if cs[i].status != status then now else cs[i].lastTransition, gen)]
               else cs + [Condition(kind, status, reason, now, gen)]
    decreases |cs|
  {
    if i > 0 { UpsertLands(cs[1..], i - 1, kind, status, reason, gen, now); }
  }

  /** The fetched copy of the custom resource, whose finalizers and status the reconciler edits. */
  class Resource {
    var record: Cr

    constructor (cr: Cr)
      ensures record == cr
    {
      record := cr;
    }

    /** Overwrites the first condition of the type in place, or appends one. */
    method SetCondition(kind: string, status: ConditionStatus, reason: string, now: int)
      modifies this
      ensures record == old(record).(status := old(record.status).(conditions :=
                          Conditions.SetCondition(old(record.status.conditions), kind, status, reason, old(record.generation), now)))
    {
      hide Conditions.SetCondition;
      var gen, cs := record.generation, record.status.conditions;
      var i := 0;
      while i < |cs|
        invariant 0 <= i <= |cs| && record == old(record)
        invariant forall j :: 0 <= j < i ==> cs[j].kind != kind
      {
        if cs[i].kind == kind {
          var since := if cs[i].status != status then now else cs[i].lastTransition;
          UpsertLands(cs, i, kind, status, reason, gen, now);
          record := record.(status := record.status.(conditions := cs[i := Condition(kind, status, reason, since, gen)]));
          return;
        }
        i := i + 1;
      }
      UpsertLands(cs, i, kind, status, reason, gen, now);
      record := record.(status := record.status.(conditions := cs + [Condition(kind, status, reason, now, gen)]));
    }
  }

  // ---------- plans, call by call ----------

  lemma OneRequest(r: Request, rest: seq<Request>, cr: Cr, w: World)
    ensures var o := RunRequest(r, Fresh, cr, w);
            RunStage([r] + rest, cr, w) == if o.err.Some? then o else RunStage(rest, cr, o.w)
  {
    hide RunRequest;
  }

  lemma LastRequest(r: Request, cr: Cr, w: World)
    ensures RunStage([r], cr, w) == RunRequest(r, Fresh, cr, w)
  {
    hide RunRequest;
  }

  lemma TwoRequests(r: Request, q: Request, cr: Cr, w: World)
    ensures var o := RunRequest(r, Fresh, cr, w);
            RunStage([r, q], cr, w) == if o.err.Some? then o else RunRequest(q, Fresh, cr, o.w)
  {
    hide RunRequest, RunStage;
    assert [r] + [q] == [r, q];
    OneRequest(r, [q], cr, w);
    LastRequest(q, cr, RunRequest(r, Fresh, cr, w).w);
  }

  /** The entries of a list that are there. */
  function Present(ps: seq<Option<RolePair>>): seq<RolePair> {
    if ps == [] then [] else (if ps[0].Some? then [ps[0].value] else []) + Present(ps[1..])
  }

  function AllPairs(cr: Cr): seq<Option<RolePair>> {
    [Some(SigningReaderPair(cr)), Some(EventsPair(cr)), StoresPair(cr), Some(SilenceWriterPair(cr))]
  }

  lemma PairsPresent(cr: Cr)
    ensures Present(AllPairs(cr)) == RolePairs(cr)
  {
    hide SigningReaderPair, EventsPair, StoresPair, SilenceWriterPair;
    var ps := AllPairs(cr);
    assert ps[1..][1..] == ps[2..] && ps[2..][1..] == ps[3..] && ps[3..][1..] == [];
    assert Present(ps[3..]) == [SilenceWriterPair(cr)];
    assert Present(ps[2..]) == (if StoresPair(cr).Some? then [StoresPair(cr).value] else []) + [SilenceWriterPair(cr)];
    assert Present(ps[1..]) == [EventsPair(cr)] + Present(ps[2..]);
  }

  lemma Regroup<T>(x: T, y: T, xs: seq<T>, ys: seq<T>)
    ensures ([x, y] + xs) + ys == [x] + ([y] + (xs + ys))
  {
  }

  lemma PairsOfOneMore(p: RolePair, later: seq<RolePair>)
    ensures PairsRequests([p] + later) == PairRequests(p) + PairsRequests(later)
  {
    hide PairRequests;
  }

  /** The next pair's two requests come first; a missing pair adds none. */
  lemma PairsStep(ps: seq<Option<RolePair>>, tail: seq<Request>)
    requires ps != []
    ensures ps[0].None? ==> PairsRequests(Present(ps)) + tail == PairsRequests(Present(ps[1..])) + tail
    ensures ps[0].Some? ==>
              PairsRequests(Present(ps)) + tail
              == [Ensure(Key(Role, ps[0].value.ns, ps[0].value.name), ps[0].value.role)]
                 + ([Ensure(Key(RoleBinding, ps[0].value.ns, ps[0].value.name), ps[0].value.binding)]
                    + (PairsRequests(Present(ps[1..])) + tail))
  {
    hide PairsRequests;
    if ps[0].Some? {
      var p, later := ps[0].value, Present(ps[1..]);
      PairsOfOneMore(p, later);
      Regroup(PairRequests(p)[0], PairRequests(p)[1], PairsRequests(later), tail);
    } else {
      assert [] + Present(ps[1..]) == Present(ps[1..]);
    }
  }

  // ---------- the reconciler ----------

  class Reconciler {
    const api: ApiServer

    constructor (api: ApiServer)
      ensures this.api == api
    {
      this.api := api;
    }

    /** Fetch; create what is missing, or merge into what is there and write it back. */
    method CreateOrUpdate(cr: Cr, key: Key, desired: Desired) returns (err: Option<Error>)
      modifies api
      ensures Outcome(api.Now(), err) == RunRequest(Ensure(key, desired), Fresh, cr, old(api.Now()))
    {
      hide MergeBody;
      var got := api.Get(key);
      if got.Err? {
        if got.error != NotFound { return Some(got.error); }
        var made := api.Create(key, desired, cr.id, cr.uid);
        return if made.Err? && made.error != AlreadyExists then Some(made.error) else None;
      }
      var labels := MergeLabels(got.value.labels, desired.labels);
      var annotations := got.value.annotations;
      if desired.body.IngressBody? { annotations := MergeLabels(annotations, desired.annotations); }
      var current := got.value.(labels := labels, annotations := annotations, body := MergeBody(got.value.body, desired.body));
      var updated := api.Update(key, current, cr.id);
      return if updated.Err? then Some(updated.error) else None;
    }

    method DeleteIfExists(cr: Cr, key: Key) returns (err: Option<Error>)
      modifies api
      ensures Outcome(api.Now(), err) == RunRequest(Purge(key), Fresh, cr, old(api.Now()))
    {
      var got := api.Get(key);
      if got.Err? { return Forgive(got.error, NotFound); }
      var gone := api.Delete(key);
      return if gone.Err? then Forgive(gone.error, NotFound) else None;
    }

    /** Creates the key once; afterwards only drifted labels are written. */
    method ReconcileSigningKeySecret(cr: Cr) returns (err: Option<Error>)
      modifies api
      ensures Outcome(api.Now(), err)
           == RunRequest(EnsureSecret(SigningSecretKey(cr), CommonLabels(cr.id, "approval-server")), Fresh, cr, old(api.Now()))
    {
      var key, wanted := SigningSecretKey(cr), CommonLabels(cr.id, "approval-server");
      hide SigningSecretKey, CommonLabels;
      var got := api.Get(key);
      if got.Ok? {
        var fine := CheckLabels(got.value.labels, wanted);
        if fine { return None; }
        var labels := MergeLabels(got.value.labels, wanted);
        var updated := api.Update(key, got.value.(labels := labels), cr.id);
        return if updated.Err? then Some(updated.error) else None;
      }
      if got.error != NotFound { return Some(got.error); }
      var made := api.Create(key, SecretFor(wanted, api.Draw()), cr.id, cr.uid);
      return if made.Err? then Forgive(made.error, AlreadyExists) else None;
    }

    /** Writes a wanted child, or removes one that is not wanted. */
    method Settle(cr: Cr, key: Key, desired: Option<Desired>) returns (err: Option<Error>)
      modifies api
      ensures Outcome(api.Now(), err) == RunRequest(EnsureOrPurge(key, desired), Fresh, cr, old(api.Now()))
    {
      hide RunRequest;
      if desired.None? { err := DeleteIfExists(cr, key); } else { err := CreateOrUpdate(cr, key, desired.value); }
    }

    method ReconcileServiceAccount(cr: Cr) returns (err: Option<Error>)
      modifies api
      ensures Outcome(api.Now(), err) == RunStage(ServiceAccountStage(cr), cr, old(api.Now()))
    {
      hide RunRequest;
      if cr.spec.serviceAccountName != "" { return None; }
      LastRequest(ServiceAccountStage(cr)[0], cr, api.Now());
      err := CreateOrUpdate(cr, Child(ServiceAccount, cr.id, ServiceAccountName(cr)), BuildServiceAccount(cr));
    }

    method ReconcileReaderRbac(cr: Cr) returns (err: Option<Error>)
      modifies api
      ensures Outcome(api.Now(), err) == RunStage(ReaderStage(cr), cr, old(api.Now()))
    {
      hide RunRequest, RunStage;
      TwoRequests(ReaderStage(cr)[0], ReaderStage(cr)[1], cr, api.Now());
      err := CreateOrUpdate(cr, ReaderRoleKey(), ReaderRole());
      if err.Some? { return; }
      err := CreateOrUpdate(cr, ReaderBindingKey(cr.id), ReaderBinding(cr));
    }

    method ReconcileWatcher(cr: Cr) returns (err: Option<Error>)
      modifies api
      ensures Outcome(api.Now(), err) == RunStage(WatcherStage(cr), cr, old(api.Now()))
    {
      var desired, service := BuildWatcher(cr), BuildWebhookService(cr);
      assert desired.None? ==> service.None?;
      hide RunRequest, RunStage, BuildWatcher, BuildWebhookService;
      var key, serviceKey := Child(Deployment, cr.id, WatcherName(cr.id)), Child(Service, cr.id, WebhookName(cr.id));
      TwoRequests(EnsureOrPurge(key, desired), EnsureOrPurge(serviceKey, service), cr, api.Now());
      if desired.None? {
        err := DeleteIfExists(cr, key);
        if err.Some? { return; }
        err := DeleteIfExists(cr, serviceKey);
        return;
      }
      err := CreateOrUpdate(cr, key, desired.value);
      if err.Some? { return; }
      err := Settle(cr, serviceKey, service);
    }

    method ReconcileDiagnose(cr: Cr) returns (err: Option<Error>)
      modifies api
      ensures Outcome(api.Now(), err) == RunStage(DiagnoseStage(cr), cr, old(api.Now()))
    {
      hide RunRequest, BuildDiagnose;
      LastRequest(DiagnoseStage(cr)[0], cr, api.Now());
      err := Settle(cr, Child(CronJob, cr.id, DiagnoseName(cr.id)), BuildDiagnose(cr));
    }

    method ReconcileRemediate(cr: Cr) returns (err: Option<Error>)
      modifies api
      ensures Outcome(api.Now(), err) == RunStage(RemediateStage(cr), cr, old(api.Now()))
    {
      hide RunRequest, BuildRemediate;
      LastRequest(RemediateStage(cr)[0], cr, api.Now());
      err := Settle(cr, Child(CronJob, cr.id, RemediateName(cr.id)), BuildRemediate(cr));
    }

    method ReconcileAiWatch(cr: Cr) returns (err: Option<Error>)
      modifies api
      ensures Outcome(api.Now(), err) == RunStage(AiWatchStage(cr), cr, old(api.Now()))
    {
      var desired, service := BuildAiWatch(cr), BuildMetricsService(cr);
      assert desired.None? ==> service.None?;
      hide RunRequest, RunStage, BuildAiWatch, BuildMetricsService;
      var key, serviceKey := Child(Deployment, cr.id, AiWatchName(cr.id)), Child(Service, cr.id, MetricsName(cr.id));
      TwoRequests(EnsureOrPurge(key, desired), EnsureOrPurge(serviceKey, service), cr, api.Now());
      if desired.None? {
        err := DeleteIfExists(cr, key);
        if err.Some? { return; }
        err := DeleteIfExists(cr, serviceKey);
        return;
      }
      err := CreateOrUpdate(cr, key, desired.value);
      if err.Some? { return; }
      err := Settle(cr, serviceKey, service);
    }

    method ReconcileQdrant(cr: Cr) returns (err: Option<Error>)
      modifies api
      ensures Outcome(api.Now(), err) == RunStage(RagStage(cr), cr, old(api.Now()))
    {
      var desired, service := BuildRag(cr), BuildRagService(cr);
      assert desired.Some? == service.Some? == MemoryEnabled(cr.spec);
      hide RunRequest, RunStage, BuildRag, BuildRagService;
      var key, serviceKey := Child(StatefulSet, cr.id, RagName(cr.id)), Child(Service, cr.id, RagName(cr.id));
      if desired.None? {
        TwoRequests(Purge(key), Purge(serviceKey), cr, api.Now());
        err := DeleteIfExists(cr, key);
        if err.Some? { return; }
        err := DeleteIfExists(cr, serviceKey);
        return;
      }
      TwoRequests(Ensure(serviceKey, service.value), Ensure(key, desired.value), cr, api.Now());
      err := CreateOrUpdate(cr, serviceKey, service.value);
      if err.Some? { return; }
      err := CreateOrUpdate(cr, key, desired.value);
    }

    method TeardownApproval(cr: Cr) returns (err: Option<Error>)
      modifies api
      ensures Outcome(api.Now(), err) == RunStage(ApprovalTeardown(cr), cr, old(api.Now()))
    {
      hide RunRequest, RunStage;
      var name := ApprovalName(cr.id);
      var keys := [
        Child(Ingress, cr.id, name), Child(NetworkPolicy, cr.id, name),
        Child(Deployment, cr.id, name), Child(Service, cr.id, name), Child(ServiceAccount, cr.id, name),
        Child(Role, cr.id, SigningReaderName(cr.id)), Child(RoleBinding, cr.id, SigningReaderName(cr.id)),
        EventsRoleKey(cr), EventsBindingKey(cr),
        Child(Role, cr.id, StoresName(cr.id)), Child(RoleBinding, cr.id, StoresName(cr.id)),
        FixerBindingKey(cr.id)];
      ghost var plan := ApprovalTeardown(cr);
      assert |keys| == |plan| && forall i :: 0 <= i < |keys| ==> plan[i] == Purge(keys[i]);
      hide ApprovalTeardown;
      assert plan[0..] == plan;
      for i := 0 to |keys|
        invariant RunStage(plan, cr, old(api.Now())) == RunStage(plan[i..], cr, api.Now())
      {
        assert plan[i..] == [Purge(keys[i])] + plan[i + 1..];
        OneRequest(Purge(keys[i]), plan[i + 1..], cr, api.Now());
        err := DeleteIfExists(cr, keys[i]);
        if err.Some? { return; }
      }
      assert plan[|keys|..] == [];
      NoRequests(cr, api.Now());
      return None;
    }

    /** The four namespaced role pairs; the one that is not wanted is passed over. */
    method ReconcileRolePairs(cr: Cr, ghost tail: seq<Request>) returns (err: Option<Error>)
      modifies api
      ensures var whole := RunStage(PairsRequests(RolePairs(cr)) + tail, cr, old(api.Now()));
              if err.Some? then Outcome(api.Now(), err) == whole else whole == RunStage(tail, cr, api.Now())
    {
      PairsPresent(cr);
      hide RunRequest, RunStage, PairsRequests, Present, RolePairs;
      var pairs := AllPairs(cr);
      hide AllPairs, SigningReaderPair, EventsPair, StoresPair, SilenceWriterPair;
      assert pairs[0..] == pairs;
      for i := 0 to |pairs|
        invariant RunStage(PairsRequests(RolePairs(cr)) + tail, cr, old(api.Now()))
               == RunStage(PairsRequests(Present(pairs[i..])) + tail, cr, api.Now())
      {
        PairsStep(pairs[i..], tail);
        assert pairs[i..][1..] == pairs[i + 1..];
        if pairs[i].None? { continue; }
        var pair := pairs[i].value;
        ghost var rest := PairsRequests(Present(pairs[i + 1..])) + tail;
        var roleKey, bindingKey := Key(Role, pair.ns, pair.name), Key(RoleBinding, pair.ns, pair.name);
        OneRequest(Ensure(roleKey, pair.role), [Ensure(bindingKey, pair.binding)] + rest, cr, api.Now());
        err := CreateOrUpdate(cr, roleKey, pair.role);
        if err.Some? { return; }
        OneRequest(Ensure(bindingKey, pair.binding), rest, cr, api.Now());
        err := CreateOrUpdate(cr, bindingKey, pair.binding);
        if err.Some? { return; }
      }
      NoPairs(pairs, tail);
      return None;
    }

    /** What the approval server needs before its roles. */
    method ReconcileApprovalHead(cr: Cr, ghost rest: seq<Request>) returns (err: Option<Error>)
      requires ApprovalEnabled(cr.spec)
      modifies api
      ensures var whole := RunStage(ApprovalHead(cr) + rest, cr, old(api.Now()));
              if err.Some? then Outcome(api.Now(), err) == whole else whole == RunStage(rest, cr, api.Now())
    {
      hide RunRequest, RunStage;
      var account := BuildApprovalServiceAccount(cr).value;
      ghost var plan := ApprovalHead(cr);
      var accountKey := Child(ServiceAccount, cr.id, ApprovalName(cr.id));
      assert plan[0] == EnsureSecret(SigningSecretKey(cr), CommonLabels(cr.id, "approval-server"));
      assert plan[1] == Ensure(accountKey, account);
      assert plan[2] == Ensure(FixerRoleKey(), FixerRole());
      assert plan[3] == Ensure(FixerBindingKey(cr.id), FixerBinding(cr));
      hide SigningSecretKey, CommonLabels, FixerRoleKey, FixerRole, FixerBindingKey, FixerBinding;
      assert plan + rest == [plan[0]] + ([plan[1]] + ([plan[2]] + ([plan[3]] + rest)));
      OneRequest(plan[0], [plan[1]] + ([plan[2]] + ([plan[3]] + rest)), cr, api.Now());
      hide ApprovalHead;
      err := ReconcileSigningKeySecret(cr);
      if err.Some? { return; }
      OneRequest(plan[1], [plan[2]] + ([plan[3]] + rest), cr, api.Now());
      err := CreateOrUpdate(cr, accountKey, account);
      if err.Some? { return; }
      OneRequest(plan[2], [plan[3]] + rest, cr, api.Now());
      err := CreateOrUpdate(cr, FixerRoleKey(), FixerRole());
      if err.Some? { return; }
      OneRequest(plan[3], rest, cr, api.Now());
      err := CreateOrUpdate(cr, FixerBindingKey(cr.id), FixerBinding(cr));
    }

    /** Service, Deployment, and the optional policy and ingress. */
    method ReconcileApprovalTail(cr: Cr) returns (err: Option<Error>)
      requires ApprovalEnabled(cr.spec)
      modifies api
      ensures Outcome(api.Now(), err) == RunStage(ApprovalTail(cr), cr, old(api.Now()))
    {
      hide RunRequest, RunStage;
      var name := ApprovalName(cr.id);
      var service, fleet := BuildApprovalService(cr).value, BuildApproval(cr).value;
      var serviceKey, fleetKey := Child(Service, cr.id, name), Child(Deployment, cr.id, name);
      var policy, ingress := BuildNetworkPolicy(cr), BuildIngress(cr);
      var policyKey, ingressKey := Child(NetworkPolicy, cr.id, name), Child(Ingress, cr.id, name);
      ghost var plan := ApprovalTail(cr);
      assert plan == [Ensure(serviceKey, service)] + ([Ensure(fleetKey, fleet)]
                     + [EnsureOrPurge(policyKey, policy), EnsureOrPurge(ingressKey, ingress)]);
      hide ApprovalTail, BuildApprovalService, BuildApproval, BuildNetworkPolicy, BuildIngress;
      OneRequest(Ensure(serviceKey, service),
                 [Ensure(fleetKey, fleet)] + [EnsureOrPurge(policyKey, policy), EnsureOrPurge(ingressKey, ingress)], cr, api.Now());
      err := CreateOrUpdate(cr, serviceKey, service);
      if err.Some? { return; }
      OneRequest(Ensure(fleetKey, fleet), [EnsureOrPurge(policyKey, policy), EnsureOrPurge(ingressKey, ingress)], cr, api.Now());
      err := CreateOrUpdate(cr, fleetKey, fleet);
      if err.Some? { return; }
      TwoRequests(EnsureOrPurge(policyKey, policy), EnsureOrPurge(ingressKey, ingress), cr, api.Now());
      err := Settle(cr, policyKey, policy);
      if err.Some? { return; }
      err := Settle(cr, ingressKey, ingress);
    }

    method ReconcileApprovalServer(cr: Cr) returns (err: Option<Error>)
      modifies api
      ensures Outcome(api.Now(), err) == RunStage(ApprovalStage(cr), cr, old(api.Now()))
    {
      hide RunStage, ApprovalTeardown, ApprovalHead, ApprovalTail, PairsRequests;
      if !ApprovalEnabled(cr.spec) {
        err := TeardownApproval(cr);
        return;
      }
      ghost var rest := PairsRequests(RolePairs(cr)) + ApprovalTail(cr);
      assert ApprovalStage(cr) == ApprovalHead(cr) + rest;
      err := ReconcileApprovalHead(cr, rest);
      if err.Some? { return; }
      err := ReconcileRolePairs(cr, ApprovalTail(cr));
      if err.Some? { return; }
      err := ReconcileApprovalTail(cr);
    }

    // ---------- deletion ----------

    /** Deletes a cluster binding if it is still labelled for the resource. */
    method DeleteIfBound(cr: Cr, key: Key) returns (err: Option<Error>)
      modifies api
      ensures Outcome(api.Now(), err) == RunRequest(PurgeBound(key), Fresh, cr, old(api.Now()))
    {
      var got := api.Get(key);
      if got.Err? { return Forgive(got.error, NotFound); }
      if !BoundTo(got.value, cr.id) { return None; }
      var gone := api.Delete(key);
      return if gone.Err? then Forgive(gone.error, NotFound) else None;
    }

    method DeleteIgnoringNotFound(cr: Cr, key: Key) returns (err: Option<Error>)
      modifies api
      ensures Outcome(api.Now(), err) == RunRequest(Drop(key), Fresh, cr, old(api.Now()))
    {
      var gone := api.Delete(key);
      return if gone.Err? then Forgive(gone.error, NotFound) else None;
    }

    method FinalizeReaderRbac(cr: Cr) returns (err: Option<Error>)
      modifies api
      ensures Outcome(api.Now(), err) == RunStage(FinalizeRequests(cr), cr, old(api.Now()))
    {
      hide RunRequest, RunStage, EventsBindingKey, EventsRoleKey, ReaderBindingKey, FixerBindingKey;
      var bindings := [ReaderBindingKey(cr.id), FixerBindingKey(cr.id)];
      var events := if AuditNamespace(cr.id, cr.spec) != cr.id.ns then [EventsBindingKey(cr), EventsRoleKey(cr)] else [];
      ghost var plan := FinalizeRequests(cr);
      assert |plan| == 2 + |events| && plan[0] == PurgeBound(bindings[0]) && plan[1] == PurgeBound(bindings[1]);
      assert forall i :: 0 <= i < |events| ==> plan[2 + i] == Drop(events[i]);
      hide FinalizeRequests, AuditNamespace;
      assert plan[0..] == plan;
      for i := 0 to 2
        invariant RunStage(plan, cr, old(api.Now())) == RunStage(plan[i..], cr, api.Now())
      {
        assert plan[i..] == [PurgeBound(bindings[i])] + plan[i + 1..];
        OneRequest(PurgeBound(bindings[i]), plan[i + 1..], cr, api.Now());
        err := DeleteIfBound(cr, bindings[i]);
        if err.Some? { return; }
      }
      for i := 0 to |events|
        invariant RunStage(plan, cr, old(api.Now())) == RunStage(plan[2 + i..], cr, api.Now())
      {
        assert plan[2 + i..] == [Drop(events[i])] + plan[2 + i + 1..];
        OneRequest(Drop(events[i]), plan[2 + i + 1..], cr, api.Now());
        err := DeleteIgnoringNotFound(cr, events[i]);
        if err.Some? { return; }
      }
      assert plan[2 + |events|..] == [];
      NoRequests(cr, api.Now());
      return None;
    }

    // ---------- conditions ----------

    method Read(key: Key, ghost rest: seq<Key>, ghost seen: map<Key, Got>) returns (got: Got, ghost seen': map<Key, Got>)
      modifies api
      ensures seen' == seen[key := got]
      ensures RunObserve([key] + rest, seen, old(api.Now())) == RunObserve(rest, seen', api.Now())
    {
      got := api.Get(key);
      seen' := seen[key := got];
      assert ([key] + rest)[1..] == rest;
    }

    method JudgeDeployment(key: Key, enabled: bool, ghost rest: seq<Key>, ghost seen: map<Key, Got>)
      returns (v: Verdict, ghost seen': map<Key, Got>)
      modifies api
      ensures v == RunningVerdict(enabled, Look(seen', key))
      ensures forall k :: k != key ==> Look(seen', k) == Look(seen, k)
      ensures RunObserve(RunningKeys(enabled, key) + rest, seen, old(api.Now())) == RunObserve(rest, seen', api.Now())
    {
      hide RunObserve;
      if !enabled {
        assert [] + rest == rest;
        return Verdict(False, "Disabled"), seen;
      }
      var got;
      got, seen' := Read(key, rest, seen);
      v := RunningVerdict(enabled, got);
    }

    method JudgeRbac(cr: Cr, ghost rest: seq<Key>, ghost seen: map<Key, Got>) returns (v: Verdict, ghost seen': map<Key, Got>)
      modifies api
      ensures v == RbacVerdict(cr, Look(seen', ReaderRoleKey()), Look(seen', ReaderBindingKey(cr.id)))
      ensures forall k :: k != ReaderRoleKey() && k != ReaderBindingKey(cr.id) ==> Look(seen', k) == Look(seen, k)
      ensures RunObserve(RbacKeys(cr) + rest, seen, old(api.Now())) == RunObserve(rest, seen', api.Now())
    {
      hide RunObserve, RbacVerdict;
      var role, binding;
      assert [ReaderRoleKey(), ReaderBindingKey(cr.id)] + rest == [ReaderRoleKey()] + ([ReaderBindingKey(cr.id)] + rest);
      role, seen' := Read(ReaderRoleKey(), [ReaderBindingKey(cr.id)] + rest, seen);
      binding, seen' := Read(ReaderBindingKey(cr.id), rest, seen');
      v := RbacVerdict(cr, role, binding);
    }

    method JudgeMemory(cr: Cr, ghost rest: seq<Key>, ghost seen: map<Key, Got>) returns (v: Verdict, ghost seen': map<Key, Got>)
      modifies api
      ensures var svc, ss := Child(Service, cr.id, RagName(cr.id)), Child(StatefulSet, cr.id, RagName(cr.id));
              && v == MemoryVerdict(MemoryEnabled(cr.spec), Look(seen', svc), Look(seen', ss))
              && (forall k :: k != svc && k != ss ==> Look(seen', k) == Look(seen, k))
              && RunObserve(MemoryKeys(cr) + rest, seen, old(api.Now())) == RunObserve(rest, seen', api.Now())
    {
      hide RunObserve, MemoryEnabled, RagName;
      if !MemoryEnabled(cr.spec) {
        assert [] + rest == rest;
        return Verdict(False, "Disabled"), seen;
      }
      var svc, ss := Child(Service, cr.id, RagName(cr.id)), Child(StatefulSet, cr.id, RagName(cr.id));
      assert [svc, ss] + rest == [svc] + ([ss] + rest);
      var service, store;
      service, seen' := Read(svc, [ss] + rest, seen);
      store, seen' := Read(ss, rest, seen');
      v := MemoryVerdict(true, service, store);
    }

    method JudgeApproval(cr: Cr, ghost seen: map<Key, Got>) returns (v: Verdict, ghost seen': map<Key, Got>)
      modifies api
      ensures var secret, svc, dep := SigningSecretKey(cr), Child(Service, cr.id, ApprovalName(cr.id)), Child(Deployment, cr.id, ApprovalName(cr.id));
              && v == ApprovalVerdict(ApprovalEnabled(cr.spec), Look(seen', secret), Look(seen', svc), Look(seen', dep))
              && (forall k :: k != secret && k != svc && k != dep ==> Look(seen', k) == Look(seen, k))
              && RunObserve(ApprovalKeys(cr), seen, old(api.Now())) == Observation(api.Now(), seen')
    {
      hide ApprovalName, SigningSecretName, ApprovalEnabled;
      var secret, svc, dep := SigningSecretKey(cr), Child(Service, cr.id, ApprovalName(cr.id)), Child(Deployment, cr.id, ApprovalName(cr.id));
      if !ApprovalEnabled(cr.spec) {
        return Verdict(False, "Disabled"), seen;
      }
      hide RunObserve, SigningSecretKey, ApprovalVerdict;
      assert [secret, svc, dep] == [secret] + ([svc] + ([dep] + []));
      var key, service, fleet;
      key, seen' := Read(secret, [svc] + ([dep] + []), seen);
      service, seen' := Read(svc, [dep] + [], seen');
      fleet, seen' := Read(dep, [], seen');
      NothingLeftToRead(seen', api.Now());
      v := ApprovalVerdict(true, key, service, fleet);
    }

    /** The reads of the features that may be off. */
    method JudgeFeatures(cr: Cr, ghost seen: map<Key, Got>)
      returns (ai: Verdict, memory: Verdict, approval: Verdict, ghost seen': map<Key, Got>)
      modifies api
      ensures RunObserve(RunningKeys(AiEnabled(cr.spec), Child(Deployment, cr.id, AiWatchName(cr.id))) + (MemoryKeys(cr) + ApprovalKeys(cr)),
                         seen, old(api.Now()))
           == Observation(api.Now(), seen')
      ensures var v := Judge(cr, seen'); ai == v.ai && memory == v.memory && approval == v.approval
      ensures forall k :: k in {Child(Deployment, cr.id, WatcherName(cr.id)), ReaderRoleKey(), ReaderBindingKey(cr.id)} ==> Look(seen', k) == Look(seen, k)
    {
      KeysDiffer(cr);
      hide Child, ReaderRoleKey, ReaderBindingKey, SigningSecretKey, RunningKeys, MemoryKeys, ApprovalKeys, RunObserve, Look, WatcherEnabled,
        AiEnabled, MemoryEnabled, ApprovalEnabled, WatcherName, AiWatchName, ApprovalName, RagName, RunningVerdict, RbacVerdict, MemoryVerdict, ApprovalVerdict;
      ai, seen' := JudgeDeployment(Child(Deployment, cr.id, AiWatchName(cr.id)), AiEnabled(cr.spec), MemoryKeys(cr) + ApprovalKeys(cr), seen);
      memory, seen' := JudgeMemory(cr, ApprovalKeys(cr), seen');
      approval, seen' := JudgeApproval(cr, seen');
    }

    /** All the reads, in order, and the verdicts they lead to. */
    method JudgeAll(cr: Cr) returns (v: Verdicts)
      modifies api
      ensures var obs := RunObserve(ObservedKeys(cr), map[], old(api.Now())); api.Now() == obs.w && v == Judge(cr, obs.seen)
    {
      ghost var before := api.Now();
      var watcherKey := Child(Deployment, cr.id, WatcherName(cr.id));
      ghost var featureKeys := RunningKeys(AiEnabled(cr.spec), Child(Deployment, cr.id, AiWatchName(cr.id))) + (MemoryKeys(cr) + ApprovalKeys(cr));
      ghost var keys := ObservedKeys(cr);
      assert keys == RunningKeys(WatcherEnabled(cr.spec), watcherKey) + (RbacKeys(cr) + featureKeys);
      KeysDiffer(cr);
      hide Child, ReaderRoleKey, ReaderBindingKey, SigningSecretKey, ObservedKeys, RunningKeys, RbacKeys, MemoryKeys, ApprovalKeys, RunObserve, Look,
        WatcherEnabled, AiEnabled, MemoryEnabled, ApprovalEnabled, WatcherName, AiWatchName, ApprovalName, RagName, RunningVerdict, RbacVerdict,
        MemoryVerdict, ApprovalVerdict;
      ghost var seen: map<Key, Got> := map[];
      var watcher, rbac, ai, memory, approval;
      watcher, seen := JudgeDeployment(watcherKey, WatcherEnabled(cr.spec), RbacKeys(cr) + featureKeys, seen);
      rbac, seen := JudgeRbac(cr, featureKeys, seen);
      ai, memory, approval, seen := JudgeFeatures(cr, seen);
      assert RunObserve(keys, map[], before) == Observation(api.Now(), seen);
      v := Verdicts(watcher, rbac, ai, memory, approval);
    }

    method ComputeConditions(res: Resource, firstErr: Option<Error>, now: int)
      modifies api, res
      ensures var obs := RunObserve(ObservedKeys(old(res.record)), map[], old(api.Now()));
              api.Now() == obs.w && res.record == Judged(old(res.record), obs.seen, firstErr, now)
    {
      hide ObservedKeys, RunObserve, Judge, ReadyVerdict, Conditions.SetCondition;
      var cr := res.record;
      var v := JudgeAll(cr);
      res.SetCondition(WATCHER_RUNNING, v.watcher.status, v.watcher.reason, now);
      res.SetCondition(READER_RBAC_READY, v.rbac.status, v.rbac.reason, now);
      res.SetCondition(AIWATCH_RUNNING, v.ai.status, v.ai.reason, now);
      res.SetCondition(MEMORY_READY, v.memory.status, v.memory.reason, now);
      res.SetCondition(APPROVAL_READY, v.approval.status, v.approval.reason, now);
      var ready := ReadyVerdict(cr.spec, v, firstErr);
      res.SetCondition(READY, ready.status, ready.reason, now);
      res.record := res.record.(status := res.record.status.(observedGeneration := cr.generation));
    }

    // ---------- the whole reconcile ----------

    /** The checks at the door, each with its own return. */
    method CheckSpec(s: CrSpec) returns (ok: bool)
      ensures ok == Valid(s)
    {
      if s.imageTag == "" { return false; }
      if AiEnabled(s) {
        if s.ai.value.endpoint == "" { return false; }
        if s.ai.value.model == "" { return false; }
        var memory := s.ai.value.memory;
        if memory.Some? && memory.value.enabled
          && (memory.value.embeddingsModel.None? || memory.value.embeddingsModel.value == "") { return false; }
      }
      if MemoryEnabled(s) {
        var size := s.ai.value.memory.value.size;
        if size.Some? && size.value.text != "" && !size.value.parses { return false; }
      }
      if IngressEnabled(s) && s.approval.value.ingress.value.host == "" { return false; }
      if NetpolEnabled(s) && |s.approval.value.netpol.value.gatewayNamespaceSelector| == 0 { return false; }
      if ApprovalEnabled(s) && StoreBackend(s) == "inmemory" && ApprovalReplicas(s) > 1 { return false; }
      return true;
    }

    /** All eight sub-reconciles, the first error kept. */
    method ReconcileChildren(cr: Cr) returns (firstErr: Option<Error>)
      modifies api
      ensures var done := RunStages(Stages(cr), cr, old(api.Now())); api.Now() == done.w && firstErr == FirstError(done.errs)
    {
      hide RunStages, RunStage, Stages, ServiceAccountStage, ReaderStage, WatcherStage, DiagnoseStage, RemediateStage, AiWatchStage,
        RagStage, ApprovalStage, Underway, Track, FirstError;
      ghost var plan, w0 := Stages(cr), api.Now();
      StagesAre(cr);
      AtTheStart(plan, cr, w0);
      firstErr := None;
      NextStage(plan, cr, w0, 0, api.Now(), firstErr);
      var err := ReconcileServiceAccount(cr);
      firstErr := Track(firstErr, err);
      NextStage(plan, cr, w0, 1, api.Now(), firstErr);
      err := ReconcileReaderRbac(cr);
      firstErr := Track(firstErr, err);
      NextStage(plan, cr, w0, 2, api.Now(), firstErr);
      err := ReconcileWatcher(cr);
      firstErr := Track(firstErr, err);
      NextStage(plan, cr, w0, 3, api.Now(), firstErr);
      err := ReconcileDiagnose(cr);
      firstErr := Track(firstErr, err);
      NextStage(plan, cr, w0, 4, api.Now(), firstErr);
      err := ReconcileRemediate(cr);
      firstErr := Track(firstErr, err);
      NextStage(plan, cr, w0, 5, api.Now(), firstErr);
      err := ReconcileAiWatch(cr);
      firstErr := Track(firstErr, err);
      NextStage(plan, cr, w0, 6, api.Now(), firstErr);
      err := ReconcileQdrant(cr);
      firstErr := Track(firstErr, err);
      NextStage(plan, cr, w0, 7, api.Now(), firstErr);
      err := ReconcileApprovalServer(cr);
      firstErr := Track(firstErr, err);
      AtTheEnd(plan, cr, w0, api.Now(), firstErr);
    }

    method Work(res: Resource, now: int) returns (err: Option<Error>)
      modifies api, res
      ensures Outcome(api.Now(), err) == RunWork(old(res.record), now, old(api.Now()))
    {
      hide RunStages, RunObserve, Stages, ObservedKeys, Judged, Valid, Conditions.SetCondition;
      var valid := CheckSpec(res.record.spec);
      if !valid {
        res.SetCondition(READY, False, "InvalidSpec", now);
        err := api.UpdateStatus(res.record);
        return;
      }
      err := ReconcileChildren(res.record);
      ComputeConditions(res, err, now);
      var _ := api.UpdateStatus(res.record);
    }

    /** One reconcile from the first call to the last. */
    method Reconcile(id: CrId, now: int) returns (err: Option<Error>)
      modifies api
      ensures Outcome(api.Now(), err) == RunReconcile(id, now, old(api.Now()))
    {
      hide RunStage, RunWork, FinalizeRequests;
      var got := api.GetCr(id);
      if got.Err? { return Forgive(got.error, NotFound); }
      var res := new Resource(got.value);
      if res.record.deleting {
        if FINALIZER in res.record.finalizers {
          err := FinalizeReaderRbac(res.record);
          if err.Some? { return; }
          res.record := res.record.(finalizers := res.record.finalizers - {FINALIZER});
          var cleared := api.UpdateCr(res.record);
          return if cleared.Err? then Some(cleared.error) else None;
        }
        return None;
      }
      if FINALIZER !in res.record.finalizers {
        res.record := res.record.(finalizers := res.record.finalizers + {FINALIZER});
        var saved := api.UpdateCr(res.record);
        if saved.Err? { return Some(saved.error); }
        res.record := saved.value;
      }
      err := Work(res, now);
    }
  }

  lemma StagesAre(cr: Cr)
    ensures var p := Stages(cr);
            && |p| == 8
            && p[0] == ServiceAccountStage(cr) && p[1] == ReaderStage(cr) && p[2] == WatcherStage(cr) && p[3] == DiagnoseStage(cr)
            && p[4] == RemediateStage(cr) && p[5] == AiWatchStage(cr) && p[6] == RagStage(cr) && p[7] == ApprovalStage(cr)
  {
  }

  /** The first `n` sub-reconciles are behind, and `err` is the first error among them. */
  ghost predicate Underway(plan: seq<seq<Request>>, cr: Cr, w0: World, n: nat, w: World, err: Option<Error>) {
    n <= |plan|
    && var whole, rest := RunStages(plan, cr, w0), RunStages(plan[n..], cr, w);
       whole.w == rest.w && FirstError(whole.errs) == Track(err, FirstError(rest.errs))
  }

  lemma AtTheStart(plan: seq<seq<Request>>, cr: Cr, w0: World)
    ensures Underway(plan, cr, w0, 0, w0, None)
  {
  }

  lemma NextStage(plan: seq<seq<Request>>, cr: Cr, w0: World, n: nat, w: World, err: Option<Error>)
    requires n < |plan| && Underway(plan, cr, w0, n, w, err)
    ensures var o := RunStage(plan[n], cr, w); Underway(plan, cr, w0, n + 1, o.w, Track(err, o.err))
  {
    hide RunStage;
  }

  lemma AtTheEnd(plan: seq<seq<Request>>, cr: Cr, w0: World, w: World, err: Option<Error>)
    requires Underway(plan, cr, w0, |plan|, w, err)
    ensures var done := RunStages(plan, cr, w0); done.w == w && FirstError(done.errs) == err
  {
  }

  /** No two of the reads are of one object. */
  lemma KeysDiffer(cr: Cr)
    ensures var watcher, ai, rag, ragStore := Child(Deployment, cr.id, WatcherName(cr.id)), Child(Deployment, cr.id, AiWatchName(cr.id)),
                                              Child(Service, cr.id, RagName(cr.id)), Child(StatefulSet, cr.id, RagName(cr.id));
            var secret, svc, dep := SigningSecretKey(cr), Child(Service, cr.id, ApprovalName(cr.id)), Child(Deployment, cr.id, ApprovalName(cr.id));
            && watcher !in {ReaderRoleKey(), ReaderBindingKey(cr.id), ai, rag, ragStore, secret, svc, dep}
            && ReaderRoleKey() !in {ai, rag, ragStore, secret, svc, dep} && ReaderBindingKey(cr.id) !in {ai, rag, ragStore, secret, svc, dep}
            && ai !in {rag, ragStore, secret, svc, dep} && rag !in {secret, svc, dep} && ragStore !in {secret, svc, dep}
  {
    NamesDiffer(cr.id);
    hide WatcherName, AiWatchName, ApprovalName, RagName;
  }

  lemma NothingLeftToRead(seen: map<Key, Got>, w: World)
    ensures RunObserve([], seen, w) == Observation(w, seen)
  {
  }

  lemma NoRequests(cr: Cr, w: World)
    ensures RunStage([], cr, w) == Outcome(w, None)
  {
  }

  lemma NoPairs(pairs: seq<Option<RolePair>>, tail: seq<Request>)
    ensures PairsRequests(Present(pairs[|pairs|..])) + tail == tail
  {
  }
}
