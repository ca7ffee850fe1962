/**
Names: the requests of one plan go to different objects, and different custom
resources never share a workload or a Service, whatever they are called.
*/
module Naming {
  import opened Spec
  import opened Store
  import opened Builders
  import opened Plan
  import opened Convergence

  // ---------- within one plan ----------

  lemma SameStem(stem: string, s1: string, s2: string)
    requires s1 != s2
    ensures stem + s1 != stem + s2
  {
    assert (stem + s1)[|stem|..] == s1 && (stem + s2)[|stem|..] == s2;
  }

  lemma NamesDiffer(id: CrId)
    ensures WatcherName(id) != AiWatchName(id) && WatcherName(id) != ApprovalName(id) && AiWatchName(id) != ApprovalName(id)
    ensures DiagnoseName(id) != RemediateName(id)
    ensures WebhookName(id) != MetricsName(id) && WebhookName(id) != RagName(id) && WebhookName(id) != ApprovalName(id)
    ensures MetricsName(id) != RagName(id) && MetricsName(id) != ApprovalName(id) && RagName(id) != ApprovalName(id)
    ensures SigningReaderName(id) != EventsName(id) && SigningReaderName(id) != StoresName(id) && SigningReaderName(id) != SilenceWriterName(id)
    ensures EventsName(id) != StoresName(id) && EventsName(id) != SilenceWriterName(id) && StoresName(id) != SilenceWriterName(id)
    ensures id.name + "-sa" != ApprovalName(id)
    ensures READER_ROLE != FIXER_ROLE
    ensures ReaderBindingName(id) != FixerBindingName(id)
  {
    var n := id.name;
    SameStem(n, "-watcher", "-aiwatch");
    SameStem(n, "-watcher", "-approval-server");
    SameStem(n, "-aiwatch", "-approval-server");
    SameStem(n, "-diagnose", "-remediate");
    SameStem(n, "-webhook", "-aiwatch-metrics");
    SameStem(n, "-webhook", "-rag");
    SameStem(n, "-webhook", "-approval-server");
    SameStem(n, "-aiwatch-metrics", "-rag");
    SameStem(n, "-aiwatch-metrics", "-approval-server");
    SameStem(n, "-rag", "-approval-server");
    RoleNamesDiffer(id);
    SameStem(n, "-sa", "-approval-server");
    assert READER_ROLE[16] != FIXER_ROLE[16];
    assert ReaderBindingName(id)[16] == 'w' && FixerBindingName(id)[16] == 'a';
  }

  lemma RoleNamesDiffer(id: CrId)
    ensures SigningReaderName(id) != EventsName(id) && SigningReaderName(id) != StoresName(id) && SigningReaderName(id) != SilenceWriterName(id)
    ensures EventsName(id) != StoresName(id) && EventsName(id) != SilenceWriterName(id) && StoresName(id) != SilenceWriterName(id)
  {
    var n := id.name;
    var e, s: string := "-approval-server-events", "-approval-server-stores";
    assert e[17] != s[17];
    SameStem(n, e, s);
    assert |SigningReaderName(id)| == |n| + 31 && |SilenceWriterName(id)| == |n| + 31;
    var a, b: string := "-approval-server-signing-reader", "-approval-server-silence-writer";
    assert a[19] != b[19];
    SameStem(n, a, b);
  }

  /** A number for each place a plan can touch. */
  function Slot(cr: Cr, key: Key): nat {
    var id := cr.id;
    match key.kind
    case ServiceAccount => if key.name == ApprovalName(id) then 15 else 0
    case ClusterRole => if key.name == READER_ROLE then 1 else 16
    case ClusterRoleBinding => if key.name == ReaderBindingName(id) then 2 else 17
    case Deployment => if key.name == WatcherName(id) then 3 else if key.name == AiWatchName(id) then 7 else 27
    case Service =>
      if key.name == WebhookName(id) then 4 else if key.name == MetricsName(id) then 8
      else if key.name == RagName(id) then 10 else 26
    case CronJob => if key.name == DiagnoseName(id) then 5 else 6
    case StatefulSet => 9
    case Secret => 14
    case Role => RoleSlot(id, key.name)
    case RoleBinding => RoleSlot(id, key.name) + 1
    case NetworkPolicy => 28
    case Ingress => 29
  }

  function RoleSlot(id: CrId, name: string): nat {
    if name == SigningReaderName(id) then 18 else if name == EventsName(id) then 20
    else if name == StoresName(id) then 22 else 24
  }

  ghost predicate Band(cr: Cr, rs: seq<Request>, lo: nat, hi: nat) {
    Distinct(rs) && forall r :: r in rs ==> lo <= Slot(cr, r.key) < hi
  }

  lemma BandConcat(cr: Cr, a: seq<Request>, lo: nat, mid: nat, b: seq<Request>, hi: nat)
    requires Band(cr, a, lo, mid) && Band(cr, b, mid, hi) && lo <= mid <= hi
    ensures Band(cr, a + b, lo, hi)
  {
    hide Slot;
  }

  /** Two requests in a row; one alone. */
  lemma BandOfTwo(cr: Cr, r: Request, q: Request, lo: nat, hi: nat)
    requires Slot(cr, r.key) != Slot(cr, q.key)
    requires lo <= Slot(cr, r.key) < hi && lo <= Slot(cr, q.key) < hi
    ensures Band(cr, [r, q], lo, hi)
  {
    hide Slot;
  }

  lemma WatcherBand(cr: Cr)
    ensures Band(cr, WatcherStage(cr), 3, 5)
  {
    hide BuildWatcher, BuildWebhookService;
  }

  lemma AiWatchBand(cr: Cr)
    ensures Band(cr, AiWatchStage(cr), 7, 9)
  {
    hide BuildAiWatch, BuildMetricsService;
    NamesDiffer(cr.id);
    BandOfTwo(cr, AiWatchStage(cr)[0], AiWatchStage(cr)[1], 7, 9);
  }

  lemma RagBand(cr: Cr)
    ensures Band(cr, RagStage(cr), 9, 11)
  {
    hide BuildRag, BuildRagService;
  }

  lemma FirstBands(cr: Cr)
    ensures Band(cr, ServiceAccountStage(cr), 0, 1)
    ensures Band(cr, ReaderStage(cr), 1, 3)
    ensures Band(cr, DiagnoseStage(cr), 5, 6)
    ensures Band(cr, RemediateStage(cr), 6, 7)
  {
    hide BuildDiagnose, BuildRemediate, BuildServiceAccount, ReaderRole, ReaderBinding;
    NamesDiffer(cr.id);
    BandOfTwo(cr, ReaderStage(cr)[0], ReaderStage(cr)[1], 1, 3);
  }

  lemma PairBand(cr: Cr, p: RolePair, slot: nat)
    requires RoleSlot(cr.id, p.name) == slot
    ensures Band(cr, PairRequests(p), slot, slot + 2)
  {
  }

  lemma PairsBand(cr: Cr)
    requires ApprovalEnabled(cr.spec)
    ensures Band(cr, PairsRequests(RolePairs(cr)), 18, 26)
  {
    RoleNamesDiffer(cr.id);
    var signing, events, silence := SigningReaderPair(cr), EventsPair(cr), SilenceWriterPair(cr);
    assert RoleSlot(cr.id, signing.name) == 18 && RoleSlot(cr.id, events.name) == 20 && RoleSlot(cr.id, silence.name) == 24;
    assert StoresPair(cr).Some? ==> RoleSlot(cr.id, StoresPair(cr).value.name) == 22;
    hide RoleSlot, SigningReaderPair, EventsPair, StoresPair, SilenceWriterPair, Slot, PairRequests;
    PairBand(cr, signing, 18);
    PairBand(cr, events, 20);
    PairBand(cr, silence, 24);
    BandConcat(cr, PairRequests(signing), 18, 20, PairRequests(events), 22);
    var front := PairRequests(signing) + PairRequests(events);
    var tail := PairRequests(silence);
    PairsOfPairs(cr);
    if StoresPair(cr).Some? {
      PairBand(cr, StoresPair(cr).value, 22);
      BandConcat(cr, front, 18, 22, PairRequests(StoresPair(cr).value), 24);
      BandConcat(cr, front + PairRequests(StoresPair(cr).value), 18, 24, tail, 26);
    } else {
      BandWiden(cr, tail, 22, 24, 26);
      BandConcat(cr, front, 18, 22, tail, 26);
    }
  }

  lemma PairsConcat(a: seq<RolePair>, b: seq<RolePair>)
    ensures PairsRequests(a + b) == PairsRequests(a) + PairsRequests(b)
  {
    if a == [] {
      assert a + b == b;
    } else {
      assert (a + b)[1..] == a[1..] + b;
      PairsConcat(a[1..], b);
    }
  }

  lemma PairsOfPairs(cr: Cr)
    ensures PairsRequests(RolePairs(cr))
            == PairRequests(SigningReaderPair(cr)) + PairRequests(EventsPair(cr))
               + (if StoresPair(cr).Some? then PairRequests(StoresPair(cr).value) else [])
               + PairRequests(SilenceWriterPair(cr))
  {
    var stores := if StoresPair(cr).Some? then [StoresPair(cr).value] else [];
    PairsConcat([SigningReaderPair(cr), EventsPair(cr)] + stores, [SilenceWriterPair(cr)]);
    PairsConcat([SigningReaderPair(cr), EventsPair(cr)], stores);
    PairsConcat([SigningReaderPair(cr)], [EventsPair(cr)]);
    Single(SigningReaderPair(cr));
    Single(EventsPair(cr));
    Single(SilenceWriterPair(cr));
    if StoresPair(cr).Some? { Single(StoresPair(cr).value); }
    hide PairRequests, SigningReaderPair, EventsPair, StoresPair, SilenceWriterPair;
  }

  lemma Single(p: RolePair)
    ensures PairsRequests([p]) == PairRequests(p)
  {
  }

  /** Slots given as a list of different numbers. */
  lemma BandOfSlots(cr: Cr, rs: seq<Request>, slots: seq<nat>, lo: nat, hi: nat)
    requires |slots| == |rs| && forall i :: 0 <= i < |rs| ==> Slot(cr, rs[i].key) == slots[i] && lo <= slots[i] < hi
    requires forall i, j :: 0 <= i < j < |slots| ==> slots[i] != slots[j]
    ensures Band(cr, rs, lo, hi)
  {
    hide Slot;
  }

  lemma RoleKeySlots(cr: Cr)
    ensures Slot(cr, Child(Role, cr.id, SigningReaderName(cr.id))) == 18 && Slot(cr, Child(RoleBinding, cr.id, SigningReaderName(cr.id))) == 19
    ensures Slot(cr, EventsRoleKey(cr)) == 20 && Slot(cr, EventsBindingKey(cr)) == 21
    ensures Slot(cr, Child(Role, cr.id, StoresName(cr.id))) == 22 && Slot(cr, Child(RoleBinding, cr.id, StoresName(cr.id))) == 23
  {
    RoleNamesDiffer(cr.id);
  }

  lemma ApprovalKeySlots(cr: Cr)
    ensures Slot(cr, SigningSecretKey(cr)) == 14
    ensures Slot(cr, Child(ServiceAccount, cr.id, ApprovalName(cr.id))) == 15
    ensures Slot(cr, FixerRoleKey()) == 16 && Slot(cr, FixerBindingKey(cr.id)) == 17
    ensures Slot(cr, Child(Service, cr.id, ApprovalName(cr.id))) == 26 && Slot(cr, Child(Deployment, cr.id, ApprovalName(cr.id))) == 27
    ensures Slot(cr, Child(NetworkPolicy, cr.id, ApprovalName(cr.id))) == 28 && Slot(cr, Child(Ingress, cr.id, ApprovalName(cr.id))) == 29
  {
    NamesDiffer(cr.id);
    hide WatcherName, AiWatchName, ApprovalName, WebhookName, MetricsName, RagName, ReaderBindingName, FixerBindingName, SigningSecretName;
  }

  lemma TeardownBand(cr: Cr)
    ensures Band(cr, ApprovalTeardown(cr), 14, 30)
  {
    hide Slot;
    RoleKeySlots(cr);
    ApprovalKeySlots(cr);
    hide ApprovalName, SigningReaderName, StoresName, FixerBindingKey;
    BandOfSlots(cr, ApprovalTeardown(cr), [29, 28, 27, 26, 15, 18, 19, 20, 21, 22, 23, 17], 14, 30);
  }

  lemma HeadBand(cr: Cr)
    requires ApprovalEnabled(cr.spec)
    ensures Band(cr, ApprovalHead(cr), 14, 18)
  {
    hide Slot, BuildApprovalServiceAccount, FixerRole, FixerBinding;
    ApprovalKeySlots(cr);
    ApprovalBuilt(cr);
    BandOfSlots(cr, ApprovalHead(cr), [14, 15, 16, 17], 14, 18);
  }

  lemma TailBand(cr: Cr)
    requires ApprovalEnabled(cr.spec)
    ensures Band(cr, ApprovalTail(cr), 26, 30)
  {
    hide Slot, BuildApprovalService, BuildApproval, BuildNetworkPolicy, BuildIngress;
    ApprovalKeySlots(cr);
    ApprovalBuilt(cr);
    BandOfSlots(cr, ApprovalTail(cr), [26, 27, 28, 29], 26, 30);
  }

  lemma ApprovalBuilt(cr: Cr)
    requires ApprovalEnabled(cr.spec)
    ensures BuildApprovalServiceAccount(cr).Some? && BuildApprovalService(cr).Some? && BuildApproval(cr).Some?
  {
  }

  lemma ApprovalBand(cr: Cr)
    ensures Band(cr, ApprovalStage(cr), 14, 30)
  {
    if ApprovalEnabled(cr.spec) {
      HeadBand(cr);
      PairsBand(cr);
      TailBand(cr);
      hide ApprovalHead, PairsRequests, ApprovalTail;
      BandConcat(cr, ApprovalHead(cr), 14, 18, PairsRequests(RolePairs(cr)), 26);
      BandConcat(cr, ApprovalHead(cr) + PairsRequests(RolePairs(cr)), 14, 26, ApprovalTail(cr), 30);
    } else {
      TeardownBand(cr);
    }
  }

  lemma FlattenOne(head: seq<Request>, tail: seq<seq<Request>>)
    ensures Flatten([head] + tail) == head + Flatten(tail)
  {
  }

  lemma FlattenStages(cr: Cr)
    ensures Flatten(Stages(cr))
            == ServiceAccountStage(cr) + (ReaderStage(cr) + (WatcherStage(cr) + (DiagnoseStage(cr)
               + (RemediateStage(cr) + (AiWatchStage(cr) + (RagStage(cr) + ApprovalStage(cr)))))))
  {
    hide ServiceAccountStage, ReaderStage, WatcherStage, DiagnoseStage, RemediateStage, AiWatchStage, RagStage, ApprovalStage;
    var s := Stages(cr);
    forall i | 0 <= i < 8 ensures s[i..] == [s[i]] + s[i + 1..] { }
    FlattenOne(s[7], s[8..]);
    FlattenOne(s[6], s[7..]);
    FlattenOne(s[5], s[6..]);
    FlattenOne(s[4], s[5..]);
    FlattenOne(s[3], s[4..]);
    FlattenOne(s[2], s[3..]);
    FlattenOne(s[1], s[2..]);
    FlattenOne(s[0], s[1..]);
    assert s[0..] == s && s[8..] == [];
    assert s[7] + [] == s[7];
  }

  /** The requests of a plan go to pairwise different objects. */
  lemma PlanIsDistinct(cr: Cr)
    ensures Distinct(Flatten(Stages(cr)))
  {
    FlattenStages(cr);
    FirstBands(cr); WatcherBand(cr); AiWatchBand(cr); RagBand(cr); ApprovalBand(cr);
    hide ServiceAccountStage, ReaderStage, WatcherStage, DiagnoseStage, RemediateStage, AiWatchStage, RagStage, ApprovalStage, Stages, Band, Slot;
    var a7 := ApprovalStage(cr);
    BandWiden(cr, a7, 11, 14, 30);
    BandConcat(cr, RagStage(cr), 9, 11, a7, 30);
    var a6 := RagStage(cr) + a7;
    BandConcat(cr, AiWatchStage(cr), 7, 9, a6, 30);
    var a5 := AiWatchStage(cr) + a6;
    BandConcat(cr, RemediateStage(cr), 6, 7, a5, 30);
    var a4 := RemediateStage(cr) + a5;
    BandConcat(cr, DiagnoseStage(cr), 5, 6, a4, 30);
    var a3 := DiagnoseStage(cr) + a4;
    BandConcat(cr, WatcherStage(cr), 3, 5, a3, 30);
    var a2 := WatcherStage(cr) + a3;
    BandConcat(cr, ReaderStage(cr), 1, 3, a2, 30);
    var a1 := ReaderStage(cr) + a2;
    BandConcat(cr, ServiceAccountStage(cr), 0, 1, a1, 30);
    BandMeans(cr, ServiceAccountStage(cr) + a1, 0, 30);
  }

  lemma BandWiden(cr: Cr, rs: seq<Request>, lo': nat, lo: nat, hi: nat)
    requires Band(cr, rs, lo, hi) && lo' <= lo
    ensures Band(cr, rs, lo', hi)
  {
  }

  lemma BandMeans(cr: Cr, rs: seq<Request>, lo: nat, hi: nat)
    requires Band(cr, rs, lo, hi)
    ensures Distinct(rs)
  {
  }

  // ---------- the requests of a plan are well formed ----------

  lemma WorkloadBuildersFit(cr: Cr)
    ensures BuildWatcher(cr).Some? ==> BodyFits(Deployment, BuildWatcher(cr).value.body)
    ensures BuildWebhookService(cr).Some? ==> BodyFits(Service, BuildWebhookService(cr).value.body)
    ensures BuildDiagnose(cr).Some? ==> BodyFits(CronJob, BuildDiagnose(cr).value.body)
    ensures BuildRemediate(cr).Some? ==> BodyFits(CronJob, BuildRemediate(cr).value.body)
    ensures BuildAiWatch(cr).Some? ==> BodyFits(Deployment, BuildAiWatch(cr).value.body)
    ensures BuildMetricsService(cr).Some? ==> BodyFits(Service, BuildMetricsService(cr).value.body)
    ensures BuildRag(cr).Some? ==> BodyFits(StatefulSet, BuildRag(cr).value.body)
    ensures BuildRagService(cr).Some? ==> BodyFits(Service, BuildRagService(cr).value.body)
  {
  }

  lemma ApprovalBuildersFit(cr: Cr)
    ensures BuildApprovalServiceAccount(cr).Some? ==> BodyFits(ServiceAccount, BuildApprovalServiceAccount(cr).value.body)
    ensures BuildApprovalService(cr).Some? ==> BodyFits(Service, BuildApprovalService(cr).value.body)
    ensures BuildApproval(cr).Some? ==> BodyFits(Deployment, BuildApproval(cr).value.body)
    ensures BuildNetworkPolicy(cr).Some? ==> BodyFits(NetworkPolicy, BuildNetworkPolicy(cr).value.body)
    ensures BuildIngress(cr).Some? ==> BodyFits(Ingress, BuildIngress(cr).value.body)
  {
  }

  lemma PairsSound(ps: seq<RolePair>)
    requires forall p :: p in ps ==> p.role.body.RoleBody? && p.binding.body.BindingBody?
    ensures AllSound(PairsRequests(ps))
  {
  }

  lemma HeadAndTailSound(cr: Cr)
    requires ApprovalEnabled(cr.spec)
    ensures AllSound(ApprovalHead(cr)) && AllSound(ApprovalTail(cr))
  {
    hide BuildApprovalServiceAccount, BuildApprovalService, BuildApproval, BuildNetworkPolicy, BuildIngress;
    ApprovalBuildersFit(cr);
    ApprovalBuilt(cr);
  }

  lemma ApprovalSound(cr: Cr)
    ensures AllSound(ApprovalStage(cr))
  {
    hide ApprovalHead, ApprovalTail, PairsRequests, Sound;
    if ApprovalEnabled(cr.spec) {
      PairsSound(RolePairs(cr));
      HeadAndTailSound(cr);
    } else {
      TeardownSound(cr);
    }
  }

  lemma TeardownSound(cr: Cr)
    ensures AllSound(ApprovalTeardown(cr))
  {
  }

  lemma WorkloadStagesSound(cr: Cr)
    ensures AllSound(ServiceAccountStage(cr)) && AllSound(ReaderStage(cr)) && AllSound(WatcherStage(cr))
    ensures AllSound(DiagnoseStage(cr)) && AllSound(RemediateStage(cr)) && AllSound(AiWatchStage(cr)) && AllSound(RagStage(cr))
  {
    hide BuildWatcher, BuildWebhookService, BuildDiagnose, BuildRemediate, BuildAiWatch, BuildMetricsService, BuildRag, BuildRagService;
    WorkloadBuildersFit(cr);
  }

  lemma PlanIsSound(cr: Cr)
    ensures AllSound(Flatten(Stages(cr)))
  {
    hide ServiceAccountStage, ReaderStage, WatcherStage, DiagnoseStage, RemediateStage, AiWatchStage, RagStage, ApprovalStage, Sound;
    WorkloadStagesSound(cr);
    ApprovalSound(cr);
    FlattenStages(cr);
    hide Stages;
  }

  // ---------- between custom resources ----------

  const DEPLOYMENT_SUFFIXES := ["-watcher", "-aiwatch", "-approval-server"]
  const SERVICE_SUFFIXES := ["-webhook", "-aiwatch-metrics", "-rag", "-approval-server"]
  const CRONJOB_SUFFIXES := ["-diagnose", "-remediate"]
  const STATEFULSET_SUFFIXES := ["-rag"]

  function Suffixes(kind: Kind): seq<string> {
    match kind
    case Deployment => DEPLOYMENT_SUFFIXES
    case Service => SERVICE_SUFFIXES
    case CronJob => CRONJOB_SUFFIXES
    case StatefulSet => STATEFULSET_SUFFIXES
    case _ => []
  }

  /** The keys of the workloads and Services that can belong to `id`. */
  ghost predicate BelongsTo(key: Key, id: CrId) {
    key.ns == id.ns && exists s :: s in Suffixes(key.kind) && key.name == id.name + s
  }

  /** How far from the end two suffixes of one kind first differ for certain. */
  function Telling(kind: Kind): nat {
    match kind
    case Deployment => 3
    case CronJob => 2
    case _ => 1
  }

  lemma SuffixesTell(kind: Kind, s: string, t: string)
    requires s in Suffixes(kind) && t in Suffixes(kind) && s != t
    ensures |s| >= 3 && |t| >= 3 && s[|s| - Telling(kind)] != t[|t| - Telling(kind)]
  {
  }

  lemma FromTheEnd(stem: string, s: string, k: nat)
    requires 0 < k <= 3 <= |s|
    ensures (stem + s)[|stem + s| - k] == s[|s| - k]
  {
  }

  /**
  Two different custom resources of a namespace never share a Deployment, a
  CronJob, a StatefulSet or a Service, even if one is named like a child of the other.
  */
  lemma WorkloadsAreDisjoint(key: Key, id: CrId, id': CrId)
    requires BelongsTo(key, id) && BelongsTo(key, id')
    ensures id == id'
  {
    var s: string :| s in Suffixes(key.kind) && key.name == id.name + s;
    var t: string :| t in Suffixes(key.kind) && key.name == id'.name + t;
    FromTheEnd(id.name, s, Telling(key.kind));
    FromTheEnd(id'.name, t, Telling(key.kind));
    if s != t {
      SuffixesTell(key.kind, s, t);
      assert false;
    }
    assert id.name == key.name[..|key.name| - |s|] && id'.name == key.name[..|key.name| - |s|];
  }

  /** The cluster-scoped binding names are shared by different resources. */
  lemma BindingNamesCollide()
    ensures ReaderBindingKey(CrId("a-b", "c")) == ReaderBindingKey(CrId("a", "b-c"))
    ensures FixerBindingKey(CrId("a-b", "c")) == FixerBindingKey(CrId("a", "b-c"))
  {
  }
}
