/**
What the status tells: the condition list over time, the meaning of `Ready`, and
which sub-reconciles run and whose error is returned.
*/
module Reporting {
  import opened Options
  import opened Spec
  import opened Store
  import opened Builders
  import opened Conditions
  import opened Plan
  import opened Worker
  import opened Runs
  import opened Convergence
  import opened Converged
  import opened Calls

  // ---------- the condition list ----------

  predicate OnePerType(cs: seq<Condition>) {
    forall i, j :: 0 <= i < j < |cs| ==> cs[i].kind != cs[j].kind
  }

  /** The entry a reader finds for a type. */
  function EntryOf(cs: seq<Condition>, kind: string): Option<Condition> {
    if cs == [] then None else if cs[0].kind == kind then Some(cs[0]) else EntryOf(cs[1..], kind)
  }

  /**
  From one list to the next at time `now`: no entry is lost or moved, an entry's
  transition time is kept when its status is and is `now` when it is not, and new
  entries start at `now`.
  */
  ghost predicate Advances(cs: seq<Condition>, cs': seq<Condition>, now: int) {
    && |cs| <= |cs'|
    && (forall i :: 0 <= i < |cs| ==>
          && cs'[i].kind == cs[i].kind
          && cs'[i].lastTransition == if cs'[i].status == cs[i].status then cs[i].lastTransition else now)
    && (forall i :: |cs| <= i < |cs'| ==> cs'[i].lastTransition == now)
  }

  /** As far as `kinds` have been set, starting from `cs`. */
  ghost predicate SetSoFar(cs: seq<Condition>, cs': seq<Condition>, kinds: set<string>, now: int) {
    && Advances(cs, cs', now)
    && (forall i :: 0 <= i < |cs| && cs[i].kind !in kinds ==> cs'[i] == cs[i])
    && (forall i :: |cs| <= i < |cs'| ==> cs'[i].kind in kinds)
  }

  /** One upsert touches the first entry of its type, or appends one. */
  lemma {:induction false} UpsertTouchesOne(cs: seq<Condition>, kind: string, status: ConditionStatus, reason: string, gen: int, now: int)
    ensures var r := SetCondition(cs, kind, status, reason, gen, now);
            && |cs| <= |r| <= |cs| + 1
            && (forall i :: 0 <= i < |cs| && cs[i].kind != kind ==> r[i] == cs[i])
            && (forall i :: 0 <= i < |cs| ==>
                  && r[i].kind == cs[i].kind
                  && (r[i] == cs[i]
                      || r[i] == Condition(kind, status, reason, if cs[i].status == status then cs[i].lastTransition else now, gen)))
            && (|r| == |cs| + 1 ==> r[|cs|] == Condition(kind, status, reason, now, gen) && forall i :: 0 <= i < |cs| ==> cs[i].kind != kind)
    decreases |cs|
  {
    if cs != [] && cs[0].kind != kind {
      UpsertTouchesOne(cs[1..], kind, status, reason, gen, now);
      var r, rest := SetCondition(cs, kind, status, reason, gen, now), SetCondition(cs[1..], kind, status, reason, gen, now);
      assert forall i :: 0 < i < |r| ==> r[i] == rest[i - 1];
      assert forall i :: 0 < i < |cs| ==> cs[i] == cs[1..][i - 1];
    }
  }

  lemma UpsertAdvances(
    cs: seq<Condition>, cs': seq<Condition>, kinds: set<string>, kind: string, status: ConditionStatus, reason: string, gen: int, now: int)
    requires SetSoFar(cs, cs', kinds, now) && kind !in kinds
    ensures SetSoFar(cs, SetCondition(cs', kind, status, reason, gen, now), kinds + {kind}, now)
  {
    UpsertTouchesOne(cs', kind, status, reason, gen, now);
  }

  lemma UpsertKeepsOnePerType(cs: seq<Condition>, kind: string, status: ConditionStatus, reason: string, gen: int, now: int)
    requires OnePerType(cs)
    ensures OnePerType(SetCondition(cs, kind, status, reason, gen, now))
  {
    UpsertTouchesOne(cs, kind, status, reason, gen, now);
  }

  lemma {:induction false} UpsertIsFound(cs: seq<Condition>, kind: string, status: ConditionStatus, reason: string, gen: int, now: int)
    ensures var e := EntryOf(SetCondition(cs, kind, status, reason, gen, now), kind);
            e.Some? && e.value.status == status && e.value.reason == reason && e.value.observedGeneration == gen
    decreases |cs|
  {
    if cs != [] && cs[0].kind != kind {
      UpsertIsFound(cs[1..], kind, status, reason, gen, now);
      assert SetCondition(cs, kind, status, reason, gen, now)[1..] == SetCondition(cs[1..], kind, status, reason, gen, now);
    }
  }

  /** Six upserts of different types are one advance: no transition time moves twice. */
  lemma ReportAdvances(cs: seq<Condition>, v: Verdicts, ready: Verdict, gen: int, now: int)
    ensures Advances(cs, SetAll(cs, v, ready, gen, now), now)
    ensures OnePerType(cs) ==> OnePerType(SetAll(cs, v, ready, gen, now))
    ensures var e := EntryOf(SetAll(cs, v, ready, gen, now), READY);
            e.Some? && e.value.status == ready.status && e.value.reason == ready.reason
  {
    hide SetCondition, Advances, OnePerType;
    var c1 := SetCondition(cs, WATCHER_RUNNING, v.watcher.status, v.watcher.reason, gen, now);
    var c2 := SetCondition(c1, READER_RBAC_READY, v.rbac.status, v.rbac.reason, gen, now);
    var c3 := SetCondition(c2, AIWATCH_RUNNING, v.ai.status, v.ai.reason, gen, now);
    var c4 := SetCondition(c3, MEMORY_READY, v.memory.status, v.memory.reason, gen, now);
    var c5 := SetCondition(c4, APPROVAL_READY, v.approval.status, v.approval.reason, gen, now);
    NothingSetYet(cs, now);
    TypesDiffer();
    UpsertAdvances(cs, cs, {}, WATCHER_RUNNING, v.watcher.status, v.watcher.reason, gen, now);
    UpsertAdvances(cs, c1, {} + {WATCHER_RUNNING}, READER_RBAC_READY, v.rbac.status, v.rbac.reason, gen, now);
    var k2 := {} + {WATCHER_RUNNING} + {READER_RBAC_READY};
    UpsertAdvances(cs, c2, k2, AIWATCH_RUNNING, v.ai.status, v.ai.reason, gen, now);
    UpsertAdvances(cs, c3, k2 + {AIWATCH_RUNNING}, MEMORY_READY, v.memory.status, v.memory.reason, gen, now);
    var k4 := k2 + {AIWATCH_RUNNING} + {MEMORY_READY};
    UpsertAdvances(cs, c4, k4, APPROVAL_READY, v.approval.status, v.approval.reason, gen, now);
    UpsertAdvances(cs, c5, k4 + {APPROVAL_READY}, READY, ready.status, ready.reason, gen, now);
    UpsertIsFound(c5, READY, ready.status, ready.reason, gen, now);
    if OnePerType(cs) {
      UpsertKeepsOnePerType(cs, WATCHER_RUNNING, v.watcher.status, v.watcher.reason, gen, now);
      UpsertKeepsOnePerType(c1, READER_RBAC_READY, v.rbac.status, v.rbac.reason, gen, now);
      UpsertKeepsOnePerType(c2, AIWATCH_RUNNING, v.ai.status, v.ai.reason, gen, now);
      UpsertKeepsOnePerType(c3, MEMORY_READY, v.memory.status, v.memory.reason, gen, now);
      UpsertKeepsOnePerType(c4, APPROVAL_READY, v.approval.status, v.approval.reason, gen, now);
      UpsertKeepsOnePerType(c5, READY, ready.status, ready.reason, gen, now);
    }
  }

  lemma {:induction false} UpsertHidesNothing(
    cs: seq<Condition>, kind: string, status: ConditionStatus, reason: string, gen: int, now: int, other: string)
    requires other != kind
    ensures EntryOf(SetCondition(cs, kind, status, reason, gen, now), other) == EntryOf(cs, other)
    decreases |cs|
  {
    if cs != [] {
      var r := SetCondition(cs, kind, status, reason, gen, now);
      assert r[1..] == if cs[0].kind == kind then cs[1..] else SetCondition(cs[1..], kind, status, reason, gen, now);
      if cs[0].kind != kind { UpsertHidesNothing(cs[1..], kind, status, reason, gen, now, other); }
    }
  }

  /** The entry of the type is there and says this. */
  predicate Says(cs: seq<Condition>, kind: string, v: Verdict, gen: int) {
    var e := EntryOf(cs, kind);
    e.Some? && e.value.status == v.status && e.value.reason == v.reason && e.value.observedGeneration == gen
  }

  lemma SaysAfter(cs: seq<Condition>, kind: string, v: Verdict, gen: int, now: int)
    ensures var r := SetCondition(cs, kind, v.status, v.reason, gen, now);
            Says(r, kind, v, gen) && forall other, u :: other != kind && Says(cs, other, u, gen) ==> Says(r, other, u, gen)
  {
    UpsertIsFound(cs, kind, v.status, v.reason, gen, now);
    forall other | other != kind
      ensures EntryOf(SetCondition(cs, kind, v.status, v.reason, gen, now), other) == EntryOf(cs, other)
    {
      UpsertHidesNothing(cs, kind, v.status, v.reason, gen, now, other);
    }
    hide EntryOf, SetCondition;
  }

  /** Each of the six types says what its own verdict is. */
  lemma EachSaysItsOwn(cs: seq<Condition>, v: Verdicts, ready: Verdict, gen: int, now: int)
    ensures var r := SetAll(cs, v, ready, gen, now);
            && Says(r, "WatcherRunning", v.watcher, gen) && Says(r, "ReaderRBACReady", v.rbac, gen) && Says(r, "AIWatchRunning", v.ai, gen)
            && Says(r, "MemoryStoreReady", v.memory, gen) && Says(r, "ApprovalServerReady", v.approval, gen) && Says(r, "Ready", ready, gen)
  {
    hide SetCondition, Says;
    TypesDiffer();
    var c1 := SetCondition(cs, WATCHER_RUNNING, v.watcher.status, v.watcher.reason, gen, now);
    var c2 := SetCondition(c1, READER_RBAC_READY, v.rbac.status, v.rbac.reason, gen, now);
    var c3 := SetCondition(c2, AIWATCH_RUNNING, v.ai.status, v.ai.reason, gen, now);
    var c4 := SetCondition(c3, MEMORY_READY, v.memory.status, v.memory.reason, gen, now);
    var c5 := SetCondition(c4, APPROVAL_READY, v.approval.status, v.approval.reason, gen, now);
    SaysAfter(cs, WATCHER_RUNNING, v.watcher, gen, now);
    SaysAfter(c1, READER_RBAC_READY, v.rbac, gen, now);
    SaysAfter(c2, AIWATCH_RUNNING, v.ai, gen, now);
    SaysAfter(c3, MEMORY_READY, v.memory, gen, now);
    SaysAfter(c4, APPROVAL_READY, v.approval, gen, now);
    SaysAfter(c5, READY, ready, gen, now);
  }

  lemma NothingSetYet(cs: seq<Condition>, now: int)
    ensures SetSoFar(cs, cs, {}, now)
  {
  }

  lemma TypesDiffer()
    ensures READER_RBAC_READY !in {WATCHER_RUNNING} && AIWATCH_RUNNING !in {WATCHER_RUNNING, READER_RBAC_READY}
    ensures MEMORY_READY !in {WATCHER_RUNNING, READER_RBAC_READY, AIWATCH_RUNNING}
    ensures APPROVAL_READY !in {WATCHER_RUNNING, READER_RBAC_READY, AIWATCH_RUNNING, MEMORY_READY}
    ensures READY !in {WATCHER_RUNNING, READER_RBAC_READY, AIWATCH_RUNNING, MEMORY_READY, APPROVAL_READY}
  {
  }

  // ---------- the condition lists in every run ----------

  ghost predicate AllOnePerType(st: State) {
    forall id :: id in st.crs ==> OnePerType(st.crs[id].status.conditions)
  }

  /** Nobody but the operator writes a status; a new resource starts with a list in order. */
  ghost predicate StatusLeftAlone(s: State, s': State) {
    && AllOnePerType(s')
    && forall id :: id in s.crs && id in s'.crs && s'.crs[id].uid == s.crs[id].uid ==> s'.crs[id].status == s.crs[id].status
  }

  ghost predicate ReportedRun(run: seq<Sys>, moves: seq<Move>) {
    && IsRun(false, run, moves)
    && AllOnePerType(run[0].st)
    && forall i :: 0 <= i < |moves| && moves[i].Others? ==> StatusLeftAlone(run[i].st, run[i + 1].st)
  }

  ghost predicate AdvancesSometime(cs: seq<Condition>, cs': seq<Condition>) {
    exists now :: Advances(cs, cs', now)
  }

  /** What is to be saved is an advance on what its version stands for. */
  ghost predicate ReportOk(st: State, id: CrId, w: Worker) {
    match w
    case AddFinalizer(cr, _) => StatusFaithful(st, id, cr)
    case Work(cr, _, _, _, _) => StatusFaithful(st, id, cr)
    case Observe(cr, _, _, _, _) => StatusFaithful(st, id, cr)
    case Report(cr, _, _) =>
      && cr.id == id && cr.rv < st.next
      && (id in st.crs && st.crs[id].rv == cr.rv ==> Progresses(st.crs[id].status.conditions, cr.status.conditions))
    case Cleanup(cr, _, _) => cr.id == id
    case DropFinalizer(cr) => cr.id == id
    case _ => true
  }

  ghost predicate Progresses(cs: seq<Condition>, cs': seq<Condition>) {
    AdvancesSometime(cs, cs') && (OnePerType(cs) ==> OnePerType(cs'))
  }

  predicate StatusFaithful(st: State, id: CrId, cr: Cr) {
    cr.id == id && cr.rv < st.next && (id in st.crs && st.crs[id].rv == cr.rv ==> st.crs[id].status == cr.status)
  }

  /** Resources change one at a time and never without a fresh version. */
  ghost predicate CrsKept(s: State, s': State) {
    && s.next <= s'.next
    && forall id :: id in s'.crs ==> (id in s.crs && s'.crs[id] == s.crs[id]) || s.next <= s'.crs[id].rv
  }

  lemma ReportStaysOk(st: State, st': State, id: CrId, w: Worker)
    requires ReportOk(st, id, w) && CrsKept(st, st')
    ensures ReportOk(st', id, w)
  {
    hide Progresses;
  }

  lemma ResumeReports(st: State, id: CrId, cr: Cr, now: int, stages: seq<seq<Request>>, err: Option<Error>)
    requires StatusFaithful(st, id, cr)
    ensures ReportOk(st, id, Resume(cr, now, stages, err))
  {
  }

  lemma EnterReports(st: State, id: CrId, cr: Cr, now: int)
    requires StatusFaithful(st, id, cr)
    ensures ReportOk(st, id, Enter(cr, now))
  {
    hide Valid, Stages, Advances, OnePerType, SetCondition;
    if Valid(cr.spec) {
      ResumeReports(st, id, cr, now, Stages(cr), None);
    } else {
      var cs := cr.status.conditions;
      NothingSetYet(cs, now);
      UpsertAdvances(cs, cs, {}, READY, False, "InvalidSpec", cr.generation, now);
      if OnePerType(cs) { UpsertKeepsOnePerType(cs, READY, False, "InvalidSpec", cr.generation, now); }
      assert Advances(cs, SetCondition(cs, READY, False, "InvalidSpec", cr.generation, now), now);
    }
  }

  lemma JudgedReports(cr: Cr, seen: map<Key, Got>, err: Option<Error>, now: int)
    ensures Judged(cr, seen, err, now).id == cr.id && Judged(cr, seen, err, now).rv == cr.rv
    ensures Progresses(cr.status.conditions, Judged(cr, seen, err, now).status.conditions)
  {
    hide Advances, OnePerType, SetAll, Judge, ReadyVerdict;
    var v := Judge(cr, seen);
    ReportAdvances(cr.status.conditions, v, ReadyVerdict(cr.spec, v, err), cr.generation, now);
    assert Advances(cr.status.conditions, Judged(cr, seen, err, now).status.conditions, now);
  }

  ghost predicate CrsInOrder(st: State) {
    AllOnePerType(st) && forall id :: id in st.crs ==> st.crs[id].id == id && st.crs[id].rv < st.next
  }

  /** What a turn of `id` does to the resources. */
  ghost predicate TurnReported(id: CrId, s: State, t: Turn) {
    && CrsKept(s, t.st) && CrsInOrder(t.st) && ReportOk(t.st, id, t.worker)
    && forall any :: any in s.crs && any in t.st.crs ==> AdvancesSometime(s.crs[any].status.conditions, t.st.crs[any].status.conditions)
  }

  lemma SameAdvances(cs: seq<Condition>)
    ensures AdvancesSometime(cs, cs)
  {
    assert Advances(cs, cs, 0);
  }

  lemma SameCrsReported(id: CrId, s: State, t: Turn)
    requires CrsInOrder(s) && t.st.crs == s.crs && s.next <= t.st.next && ReportOk(t.st, id, t.worker)
    ensures TurnReported(id, s, t)
  {
    hide AdvancesSometime, OnePerType, ReportOk;
    forall any | any in s.crs ensures AdvancesSometime(s.crs[any].status.conditions, s.crs[any].status.conditions) {
      SameAdvances(s.crs[any].status.conditions);
    }
  }

  lemma OneCrReported(id: CrId, s: State, t: Turn)
    requires CrsInOrder(s) && ReportOk(t.st, id, t.worker) && s.next <= t.st.next
    requires forall any :: any != id ==> (any in t.st.crs <==> any in s.crs)
    requires forall any :: any != id && any in s.crs ==> t.st.crs[any] == s.crs[any]
    requires id in t.st.crs ==> id in s.crs && t.st.crs[id].id == id
    requires id in t.st.crs ==> t.st.crs[id] == s.crs[id] || s.next <= t.st.crs[id].rv < t.st.next
    requires id in t.st.crs ==> Progresses(s.crs[id].status.conditions, t.st.crs[id].status.conditions)
    ensures TurnReported(id, s, t)
  {
    hide AdvancesSometime, OnePerType, ReportOk;
    forall any | any in s.crs && any in t.st.crs
      ensures AdvancesSometime(s.crs[any].status.conditions, t.st.crs[any].status.conditions)
    {
      if any != id { SameAdvances(s.crs[any].status.conditions); }
    }
  }

  lemma TurnReports(id: CrId, w: Worker, st: State, f: Fault, draw: KeyPair)
    requires CrsInOrder(st) && ReportOk(st, id, w)
    ensures TurnReported(id, st, Next(id, w, st, f, draw))
  {
    hide Enter, Step, Resume, Judged, Stages, CrsInOrder, TurnReported, AdvancesSometime, OnePerType;
    var t := Next(id, w, st, f, draw);
    match w {
      case Fetch(now) =>
        CrKnown(st, id);
        if id in st.crs { EnterReports(st, id, st.crs[id], now); }
        SameCrsReported(id, st, t);
      case AddFinalizer(cr, now) =>
        CrKnown(st, id);
        var reply := UpdateCr(st, cr, f);
        if reply.res.Ok? { EnterReports(reply.st, id, reply.res.value, now); }
        if id in st.crs { SameAdvances(st.crs[id].status.conditions); }
        OneCrReported(id, st, t);
      case DropFinalizer(cr) =>
        CrKnown(st, id);
        if id in st.crs { SameAdvances(st.crs[id].status.conditions); }
        OneCrReported(id, st, t);
      case Report(cr, _, _) =>
        CrKnown(st, id);
        if id in st.crs { SameAdvances(st.crs[id].status.conditions); }
        OneCrReported(id, st, t);
      case Work(cr, now, stages, p, err) =>
        if stages == [] || stages[0] == [] {
          ResumeReports(st, id, cr, now, stages, err);
        } else {
          StepKeepsCrs(stages[0][0], p, cr, st, f, draw);
          var m := Step(stages[0][0], p, cr, st, f, draw);
          ResumeReports(m.st, id, cr, now, [stages[0][1..]] + stages[1..], err);
          if m.progress.Done? { ResumeReports(m.st, id, cr, now, stages[1..], Track(err, m.progress.err)); }
        }
        SameCrsReported(id, st, t);
      case Observe(cr, now, keys, seen, err) =>
        if keys != [] {
          var seen' := seen[keys[0] := Get(st, keys[0], f).res];
          JudgedReports(cr, seen', err, now);
        } else { JudgedReports(cr, seen, err, now); }
        SameCrsReported(id, st, t);
      case Cleanup(cr, requests, p) =>
        if requests != [] { StepKeepsCrs(requests[0], p, cr, st, f, draw); }
        SameCrsReported(id, st, t);
      case Finished(_) => SameCrsReported(id, st, t);
    }
  }

  lemma CrKnown(st: State, id: CrId)
    requires CrsInOrder(st)
    ensures id in st.crs ==> st.crs[id].id == id && st.crs[id].rv < st.next
  {
  }

  ghost predicate SysReports(a: Sys) {
    CrsInOrder(a.st) && forall id :: id in a.workers ==> ReportOk(a.st, id, a.workers[id])
  }

  /** From one store to the next, every resource that stays the same resource has its list advanced. */
  ghost predicate ListsAdvance(s: State, s': State) {
    forall id :: id in s.crs && id in s'.crs && s'.crs[id].uid == s.crs[id].uid ==>
      AdvancesSometime(s.crs[id].status.conditions, s'.crs[id].status.conditions)
  }

  lemma OthersReport(s: State, s': State)
    requires OthersMay(false, s, s') && StatusLeftAlone(s, s') && CrsInOrder(s)
    ensures CrsKept(s, s') && CrsInOrder(s') && ListsAdvance(s, s')
  {
    hide AdvancesSometime, OnePerType, ObjectsEvolve;
    forall id | id in s.crs && id in s'.crs && s'.crs[id].uid == s.crs[id].uid
      ensures AdvancesSometime(s.crs[id].status.conditions, s'.crs[id].status.conditions)
    {
      SameAdvances(s.crs[id].status.conditions);
    }
  }

  lemma SameListsAdvance(s: State)
    ensures ListsAdvance(s, s)
  {
    hide AdvancesSometime;
    forall id | id in s.crs ensures AdvancesSometime(s.crs[id].status.conditions, s.crs[id].status.conditions) {
      SameAdvances(s.crs[id].status.conditions);
    }
  }

  lemma StepReports(a: Sys, b: Sys, m: Move)
    requires SysReports(a) && SysStep(false, a, b, m) && (m.Others? ==> StatusLeftAlone(a.st, b.st))
    ensures SysReports(b) && ListsAdvance(a.st, b.st)
  {
    hide ReportOk, AdvancesSometime, OnePerType, CrsEvolve, ObjectsEvolve;
    match m {
      case Others(st) =>
        OthersReport(a.st, b.st);
        hide OthersMay, StatusLeftAlone, CrsInOrder, ListsAdvance;
        forall id | id in b.workers ensures ReportOk(b.st, id, b.workers[id]) { ReportStaysOk(a.st, b.st, id, a.workers[id]); }
      case Call(id, f, draw) =>
        TurnReports(id, a.workers[id], a.st, f, draw);
        hide Next, CrsInOrder;
        forall other | other in b.workers && other != id ensures ReportOk(b.st, other, b.workers[other]) {
          ReportStaysOk(a.st, b.st, other, a.workers[other]);
        }
      case Begin(id, now) =>
        SameListsAdvance(a.st);
        assert ReportOk(b.st, id, Fetch(now)) by { FetchReports(b.st, id, now); }
      case Crash(id) => SameListsAdvance(a.st);
    }
  }

  lemma FetchReports(st: State, id: CrId, now: int)
    ensures ReportOk(st, id, Fetch(now))
  {
  }

  lemma {:induction false} RunReports(run: seq<Sys>, moves: seq<Move>, n: nat)
    requires ReportedRun(run, moves) && n < |run|
    ensures SysReports(run[n])
    decreases n
  {
    hide SysStep, SysReports, AllOnePerType, StatusLeftAlone;
    if n > 0 {
      RunReports(run, moves, n - 1);
      StepReports(run[n - 1], run[n], moves[n - 1]);
    } else {
      StartReports(run[0]);
    }
  }

  lemma StartReports(a: Sys)
    requires Initial(false, a) && AllOnePerType(a.st)
    ensures SysReports(a)
  {
  }

  /**
  At every moment of every run no resource has two conditions of one type, and from
  one moment to the next a transition time moves exactly with its status.
  */
  lemma ConditionsThroughEveryRun(run: seq<Sys>, moves: seq<Move>, n: nat)
    requires ReportedRun(run, moves) && n < |run|
    ensures AllOnePerType(run[n].st)
    ensures n < |moves| ==> ListsAdvance(run[n].st, run[n + 1].st)
  {
    hide SysStep, AllOnePerType, StatusLeftAlone, ReportOk, ListsAdvance;
    RunReports(run, moves, n);
    if n < |moves| { StepReports(run[n], run[n + 1], moves[n]); }
  }

  // ---------- who is asked, and whose error comes back ----------

  /** The worlds the sub-reconciles start from: each starts where the one before stopped, error or not. */
  ghost predicate Chain(stages: seq<seq<Request>>, cr: Cr, ws: seq<World>, errs: seq<Option<Error>>) {
    && |ws| == |stages| + 1 && |errs| == |stages|
    && forall i :: 0 <= i < |stages| ==> ws[i + 1] == RunStage(stages[i], cr, ws[i]).w && errs[i] == RunStage(stages[i], cr, ws[i]).err
  }

  lemma {:induction false} AllAreAttempted(stages: seq<seq<Request>>, cr: Cr, w: World) returns (ws: seq<World>)
    ensures var done := RunStages(stages, cr, w);
            Chain(stages, cr, ws, done.errs) && ws[0] == w && ws[|stages|] == done.w
    decreases |stages|
  {
    hide RunStage;
    if stages == [] {
      ws := [w];
    } else {
      var rest := AllAreAttempted(stages[1..], cr, RunStage(stages[0], cr, w).w);
      ws := [w] + rest;
      var done := RunStages(stages, cr, w);
      forall i | 0 <= i < |stages|
        ensures ws[i + 1] == RunStage(stages[i], cr, ws[i]).w && done.errs[i] == RunStage(stages[i], cr, ws[i]).err
      {
        if i > 0 { assert stages[1..][i - 1] == stages[i] && rest[i - 1] == ws[i] && rest[i] == ws[i + 1]; }
      }
    }
  }

  lemma {:induction false} FirstIsFirst(errs: seq<Option<Error>>)
    ensures FirstError(errs).None? <==> forall i :: 0 <= i < |errs| ==> errs[i].None?
    ensures FirstError(errs).Some? ==>
              exists i :: 0 <= i < |errs| && errs[i] == FirstError(errs) && forall j :: 0 <= j < i ==> errs[j].None?
    decreases |errs|
  {
    if errs != [] && errs[0].None? {
      FirstIsFirst(errs[1..]);
      assert forall i :: 1 <= i < |errs| ==> errs[i] == errs[1..][i - 1];
      if FirstError(errs).Some? {
        var i :| 0 <= i < |errs[1..]| && errs[1..][i] == FirstError(errs) && forall j :: 0 <= j < i ==> errs[1..][j].None?;
        assert errs[i + 1] == FirstError(errs);
      }
    }
  }

  /**
  Under any interference and any failures, a valid resource has all eight
  sub-reconciles attempted in order, and what the reconcile returns is the error of the first
  that failed.
  */
  lemma EightAttemptsFirstError(cr: Cr, now: int, w: World) returns (ws: seq<World>, errs: seq<Option<Error>>)
    requires Valid(cr.spec)
    ensures |Stages(cr)| == 8 && Chain(Stages(cr), cr, ws, errs) && ws[0] == w
    ensures RunWork(cr, now, w).err.None? <==> forall i :: 0 <= i < 8 ==> errs[i].None?
    ensures RunWork(cr, now, w).err.Some? ==>
              exists i :: 0 <= i < 8 && errs[i] == RunWork(cr, now, w).err && forall j :: 0 <= j < i ==> errs[j].None?
  {
    ws := AllAreAttempted(Stages(cr), cr, w);
    errs := RunStages(Stages(cr), cr, w).errs;
    FirstIsFirst(errs);
    hide RunStages, RunStage, Judged, ServiceAccountStage, ReaderStage, WatcherStage, DiagnoseStage, RemediateStage, AiWatchStage, RagStage, ApprovalStage;
  }

  // ---------- what Ready means ----------

  predicate Available(st: State, key: Key) { key in st.objs && st.objs[key].available > 0 }

  /** The cluster as a healthy resource would have it. The watcher is not part of it. */
  predicate Healthy(st: State, cr: Cr) {
    && ReaderRoleKey() in st.objs
    && ReaderBindingKey(cr.id) in st.objs
    && TargetsServiceAccount(st.objs[ReaderBindingKey(cr.id)], ServiceAccountName(cr), cr.id.ns)
    && (AiEnabled(cr.spec) ==> Available(st, Child(Deployment, cr.id, AiWatchName(cr.id))))
    && (MemoryEnabled(cr.spec) ==>
          Child(Service, cr.id, RagName(cr.id)) in st.objs && Available(st, Child(StatefulSet, cr.id, RagName(cr.id))))
    && (ApprovalEnabled(cr.spec) ==>
          && SigningSecretKey(cr) in st.objs && KeyPairComplete(st.objs[SigningSecretKey(cr)])
          && Child(Service, cr.id, ApprovalName(cr.id)) in st.objs
          && Available(st, Child(Deployment, cr.id, ApprovalName(cr.id))))
  }

  function Answer(st: State, key: Key): Got { if key in st.objs then Ok(st.objs[key]) else Err(NotFound) }

  /** Reads report the store or an outage, and report everything when the server answers. */
  lemma {:induction false} ReadsAreHonest(keys: seq<Key>, seen: map<Key, Got>, w: World)
    requires Quiet(w.script)
    requires forall k :: k in seen ==> seen[k] == Answer(w.st, k) || seen[k] == Err(Unavailable)
    ensures var o := RunObserve(keys, seen, w);
            && (forall k :: k in o.seen ==> o.seen[k] == Answer(w.st, k) || o.seen[k] == Err(Unavailable))
            && (AllServed(w.script) && |w.script| >= |keys| ==>
                  forall k :: k in keys || (k in seen && seen[k] == Answer(w.st, k)) ==> k in o.seen && o.seen[k] == Answer(w.st, k))
    decreases |keys|
  {
    if keys != [] {
      var seen' := seen[keys[0] := Get(Seen(w), keys[0], Head(w).fault).res];
      assert Head(w).change.None?;
      ReadsAreHonest(keys[1..], seen', World(Seen(w), Tail(w)));
    }
  }

  /** In terms of the answers: Ready needs every gate's answers, and nothing but them. */
  lemma ReadyOnlyIfHealthy(cr: Cr, st: State, seen: map<Key, Got>, err: Option<Error>)
    requires forall k :: k in seen ==> seen[k] == Answer(st, k) || seen[k] == Err(Unavailable)
    requires ReadyVerdict(cr.spec, Judge(cr, seen), err).status == True
    ensures err.None? && Healthy(st, cr)
  {
    hide ReaderBindingName, ServiceAccountName, ApprovalName, RagName, AiWatchName, SigningSecretName, WatcherName, TargetsServiceAccount, KeyPairComplete;
  }

  lemma EveryGateIsRead(cr: Cr)
    ensures ReaderRoleKey() in ObservedKeys(cr) && ReaderBindingKey(cr.id) in ObservedKeys(cr)
    ensures WatcherEnabled(cr.spec) ==> Child(Deployment, cr.id, WatcherName(cr.id)) in ObservedKeys(cr)
    ensures AiEnabled(cr.spec) ==> Child(Deployment, cr.id, AiWatchName(cr.id)) in ObservedKeys(cr)
    ensures MemoryEnabled(cr.spec) ==>
              Child(Service, cr.id, RagName(cr.id)) in ObservedKeys(cr) && Child(StatefulSet, cr.id, RagName(cr.id)) in ObservedKeys(cr)
    ensures ApprovalEnabled(cr.spec) ==>
              && SigningSecretKey(cr) in ObservedKeys(cr) && Child(Service, cr.id, ApprovalName(cr.id)) in ObservedKeys(cr)
              && Child(Deployment, cr.id, ApprovalName(cr.id)) in ObservedKeys(cr)
  {
    hide ReaderBindingName, ApprovalName, RagName, AiWatchName, SigningSecretName, WatcherName;
  }

  lemma ReadyIfHealthy(cr: Cr, st: State, seen: map<Key, Got>)
    requires forall k :: k in ObservedKeys(cr) ==> k in seen && seen[k] == Answer(st, k)
    requires Healthy(st, cr)
    ensures ReadyVerdict(cr.spec, Judge(cr, seen), None).status == True
  {
    hide ObservedKeys;
    EveryGateIsRead(cr);
    hide ReaderBindingName, ServiceAccountName, ApprovalName, RagName, AiWatchName, SigningSecretName, WatcherName, TargetsServiceAccount, KeyPairComplete;
  }

  /** The Ready entry a reader finds on the stored resource. */
  function ReadyEntry(st: State, id: CrId): Option<Condition>
    requires id in st.crs
  {
    EntryOf(st.crs[id].status.conditions, READY)
  }

  lemma HealthByObjects(s: State, s': State, cr: Cr)
    requires s.objs == s'.objs
    ensures Healthy(s, cr) == Healthy(s', cr)
  {
  }

  /**
  However many of its calls fail: if it saved a status and that says Ready, no
  sub-reconcile failed and the cluster it leaves is healthy.
  */
  lemma ReadyNeverLies(cr: Cr, now: int, w: World)
    requires Quiet(w.script) && Valid(cr.spec) && cr.id in w.st.crs
    ensures var o := RunWork(cr, now, w);
            cr.id in o.w.st.crs && o.w.st.crs[cr.id].rv != w.st.crs[cr.id].rv ==>
              && ReadyEntry(o.w.st, cr.id).Some?
              && (ReadyEntry(o.w.st, cr.id).value.status == True ==> o.err.None? && Healthy(o.w.st, cr))
  {
    hide Stages, ObservedKeys, Judge, ReadyVerdict, SetAll, Valid, Healthy;
    var done := RunStages(Stages(cr), cr, w);
    var err := FirstError(done.errs);
    StagesKeepCrs(Stages(cr), cr, w);
    StagesKeepOthers(Stages(cr), cr, w);
    ReadsAreHonest(ObservedKeys(cr), map[], done.w);
    ObserveKeepsStore(ObservedKeys(cr), map[], done.w);
    var obs := RunObserve(ObservedKeys(cr), map[], done.w);
    var v := Judge(cr, obs.seen);
    ReportAdvances(cr.status.conditions, v, ReadyVerdict(cr.spec, v, err), cr.generation, now);
    if ReadyVerdict(cr.spec, v, err).status == True {
      ReadyOnlyIfHealthy(cr, done.w.st, obs.seen, err);
      HealthByObjects(done.w.st, RunWork(cr, now, w).w.st, cr);
    }
  }

  lemma StagesStayServed(stages: seq<seq<Request>>, cr: Cr, w: World)
    requires AllServed(w.script)
    ensures AllServed(RunStages(stages, cr, w).w.script)
  {
    if stages != [] {
      StageStaysServed(stages[0], cr, w);
      StagesStayServed(stages[1..], cr, RunStage(stages[0], cr, w).w);
    }
  }

  lemma StageStaysServed(rs: seq<Request>, cr: Cr, w: World)
    requires AllServed(w.script)
    ensures AllServed(RunStage(rs, cr, w).w.script)
  {
    hide Step;
    if rs != [] {
      RequestStaysServed(rs[0], Fresh, cr, w);
      StageStaysServed(rs[1..], cr, RunRequest(rs[0], Fresh, cr, w).w);
    }
  }

  lemma RequestStaysServed(r: Request, p: Pending, cr: Cr, w: World)
    requires AllServed(w.script)
    ensures AllServed(RunRequest(r, p, cr, w).w.script)
    decreases Rank(p)
  {
    hide Step;
    var m := Step(r, p, cr, Seen(w), Head(w).fault, Head(w).draw);
    StepEnds(r, p, cr, Seen(w), Head(w).fault, Head(w).draw);
    if m.progress.More? { RequestStaysServed(r, m.progress.pending, cr, World(m.st, Tail(w))); }
  }

  lemma ObserveScript(keys: seq<Key>, seen: map<Key, Got>, w: World)
    ensures var o := RunObserve(keys, seen, w); o.w.script != [] ==> |w.script| == |o.w.script| + |keys|
    ensures AllServed(w.script) ==> AllServed(RunObserve(keys, seen, w).w.script)
    decreases |keys|
  {
  }

  /**
  With every call answered, the saved status says Ready exactly when the server allowed every
  update and the cluster left behind is healthy.
  */
  lemma ReadyExactlyWhenHealthy(cr: Cr, now: int, w: World)
    requires AllServed(w.script) && Valid(cr.spec) && WellTyped(w.st)
    requires cr.id in w.st.crs && w.st.crs[cr.id].rv == cr.rv && cr.rv < w.st.next
    requires |w.script| > 64
    ensures var o := RunWork(cr, now, w);
            && (o.err.None? <==> AllAllowed(w.st, Flatten(Stages(cr))))
            && cr.id in o.w.st.crs && ReadyEntry(o.w.st, cr.id).Some?
            && (ReadyEntry(o.w.st, cr.id).value.status == True <==> AllAllowed(w.st, Flatten(Stages(cr))) && Healthy(o.w.st, cr))
  {
    hide Stages, Flatten, Allowed, ObservedKeys, Judge, ReadyVerdict, SetAll, Valid, Healthy;
    var done := RunStages(Stages(cr), cr, w);
    var err := FirstError(done.errs);
    WorkCalls(cr, now, w);
    ErrorsHaveCauses(cr, now, w);
    StagesKeepCrs(Stages(cr), cr, w);
    StagesStayServed(Stages(cr), cr, w);
    ObserveKeepsStore(ObservedKeys(cr), map[], done.w);
    ObserveScript(ObservedKeys(cr), map[], done.w);
    ReadsAreHonest(ObservedKeys(cr), map[], done.w);
    var obs := RunObserve(ObservedKeys(cr), map[], done.w);
    var v := Judge(cr, obs.seen);
    ReportAdvances(cr.status.conditions, v, ReadyVerdict(cr.spec, v, err), cr.generation, now);
    assert |obs.w.script| > 1 && Head(obs.w).fault.Served? && Head(obs.w).change.None?;
    HealthByObjects(done.w.st, RunWork(cr, now, w).w.st, cr);
    if err.None? && Healthy(done.w.st, cr) { ReadyIfHealthy(cr, done.w.st, obs.seen); }
    if ReadyVerdict(cr.spec, v, err).status == True { ReadyOnlyIfHealthy(cr, done.w.st, obs.seen, err); }
  }

  // ---------- what the other conditions mean ----------

  /** The objects each condition is about. */
  predicate WatcherUp(st: State, cr: Cr) { Available(st, Key(Deployment, cr.id.ns, cr.id.name + "-watcher")) }

  predicate ReaderUp(st: State, cr: Cr) {
    var role, binding := Key(ClusterRole, "", "srenix-operator-watcher-reader"),
                         Key(ClusterRoleBinding, "", "srenix-operator-watcher-" + cr.id.ns + "-" + cr.id.name);
    var account := if cr.spec.serviceAccountName == "" then cr.id.name + "-sa" else cr.spec.serviceAccountName;
    && role in st.objs && binding in st.objs && st.objs[binding].body.BindingBody?
    && Subject("ServiceAccount", account, cr.id.ns) in st.objs[binding].body.subjects
  }

  predicate AiUp(st: State, cr: Cr) { Available(st, Key(Deployment, cr.id.ns, cr.id.name + "-aiwatch")) }

  predicate MemoryUp(st: State, cr: Cr) {
    Key(Service, cr.id.ns, cr.id.name + "-rag") in st.objs && Available(st, Key(StatefulSet, cr.id.ns, cr.id.name + "-rag"))
  }

  predicate KeysThere(st: State, cr: Cr) {
    var key := Key(Secret, cr.id.ns, SigningSecretName(cr.spec));
    key in st.objs && st.objs[key].body.SecretBody? && st.objs[key].body.keys.signingKey != "" && st.objs[key].body.keys.signingPub != ""
  }

  predicate ApprovalUp(st: State, cr: Cr) {
    && KeysThere(st, cr) && Key(Service, cr.id.ns, cr.id.name + "-approval-server") in st.objs
    && Available(st, Key(Deployment, cr.id.ns, cr.id.name + "-approval-server"))
  }

  /** True only if the feature is on and its objects are up; "Disabled" exactly if it is off; unknown exactly if a read failed. */
  predicate Honest(v: Verdict, on: bool, up: bool) {
    && (v.status == True ==> on && up) && (v.reason == "Disabled" <==> !on) && (!on ==> v.status == False)
    && (v.status == Unknown <==> v.reason == "GetFailed")
  }

  /** And, with every answer there is, true exactly then. */
  predicate Exact(v: Verdict, on: bool, up: bool) { Honest(v, on, up) && (v.status == if on && up then True else False) }

  ghost predicate AllHonest(v: Verdicts, st: State, cr: Cr) {
    && Honest(v.watcher, WatcherEnabled(cr.spec), WatcherUp(st, cr)) && Honest(v.rbac, true, ReaderUp(st, cr))
    && Honest(v.ai, AiEnabled(cr.spec), AiUp(st, cr)) && Honest(v.memory, MemoryEnabled(cr.spec), MemoryUp(st, cr))
    && Honest(v.approval, ApprovalEnabled(cr.spec), ApprovalUp(st, cr))
  }

  ghost predicate AllExact(v: Verdicts, st: State, cr: Cr) {
    && Exact(v.watcher, WatcherEnabled(cr.spec), WatcherUp(st, cr)) && Exact(v.rbac, true, ReaderUp(st, cr))
    && Exact(v.ai, AiEnabled(cr.spec), AiUp(st, cr)) && Exact(v.memory, MemoryEnabled(cr.spec), MemoryUp(st, cr))
    && Exact(v.approval, ApprovalEnabled(cr.spec), ApprovalUp(st, cr))
  }

  /** Why a condition is true or is not: what is there, or the first thing missing, in the order in which they are looked for. */
  ghost predicate Explained(v: Verdicts, st: State, cr: Cr) {
    var at := (kind, suffix: string) => Key(kind, cr.id.ns, cr.id.name + suffix) in st.objs;
    && (WatcherEnabled(cr.spec) && WatcherUp(st, cr) ==> v.watcher.reason == "AvailableReplicasPositive")
    && (ReaderUp(st, cr) ==> v.rbac.reason == "Provisioned")
    && (AiEnabled(cr.spec) && AiUp(st, cr) ==> v.ai.reason == "AvailableReplicasPositive")
    && (MemoryEnabled(cr.spec) && MemoryUp(st, cr) ==> v.memory.reason == "ReadyReplicasPositive")
    && (ApprovalEnabled(cr.spec) && ApprovalUp(st, cr) ==> v.approval.reason == "AvailableReplicasPositive")
    && (WatcherEnabled(cr.spec) && !WatcherUp(st, cr) ==>
          v.watcher.reason == if !at(Deployment, "-watcher") then "DeploymentMissing" else "NoAvailableReplicas")
    && (!ReaderUp(st, cr) ==>
          v.rbac.reason == if Key(ClusterRole, "", "srenix-operator-watcher-reader") !in st.objs then "ClusterRoleMissing"
                           else if Key(ClusterRoleBinding, "", "srenix-operator-watcher-" + cr.id.ns + "-" + cr.id.name) !in st.objs
                           then "ClusterRoleBindingMissing"
                           else "WrongSubject")
    && (AiEnabled(cr.spec) && !AiUp(st, cr) ==>
          v.ai.reason == if !at(Deployment, "-aiwatch") then "DeploymentMissing" else "NoAvailableReplicas")
    && (MemoryEnabled(cr.spec) && !MemoryUp(st, cr) ==>
          v.memory.reason == if !at(Service, "-rag") then "ServiceMissing"
                             else if !at(StatefulSet, "-rag") then "StatefulSetMissing" else "NoReadyReplicas")
    && (ApprovalEnabled(cr.spec) && !ApprovalUp(st, cr) ==>
          v.approval.reason == if Key(Secret, cr.id.ns, SigningSecretName(cr.spec)) !in st.objs then "SigningKeyMissing"
                               else if !KeysThere(st, cr) then "SigningKeyIncomplete"
                               else if !at(Service, "-approval-server") then "ServiceMissing"
                               else if !at(Deployment, "-approval-server") then "DeploymentMissing" else "NoAvailableReplicas")
  }

  /** What was read of a key, if anything. */
  predicate ReadOf(st: State, key: Key, got: Got) { got == Answer(st, key) || got == Err(Unavailable) }

  lemma RunningTells(st: State, on: bool, key: Key, got: Got)
    requires on ==> ReadOf(st, key, got)
    ensures var v := RunningVerdict(on, got);
            && Honest(v, on, Available(st, key)) && (!on ==> Exact(v, on, Available(st, key)))
            && (on && got == Answer(st, key) ==>
                  && Exact(v, on, Available(st, key))
                  && (Available(st, key) ==> v.reason == "AvailableReplicasPositive")
                  && (!Available(st, key) ==> v.reason == if key !in st.objs then "DeploymentMissing" else "NoAvailableReplicas"))
  {
  }

  lemma RbacTells(st: State, cr: Cr, role: Got, binding: Got)
    requires ReadOf(st, ReaderRoleKey(), role) && ReadOf(st, ReaderBindingKey(cr.id), binding)
    ensures var v := RbacVerdict(cr, role, binding);
            && Honest(v, true, ReaderUp(st, cr))
            && (role == Answer(st, ReaderRoleKey()) && binding == Answer(st, ReaderBindingKey(cr.id)) ==>
                  && Exact(v, true, ReaderUp(st, cr))
                  && (ReaderUp(st, cr) ==> v.reason == "Provisioned")
                  && (!ReaderUp(st, cr) ==>
                        v.reason == if ReaderRoleKey() !in st.objs then "ClusterRoleMissing"
                                    else if ReaderBindingKey(cr.id) !in st.objs then "ClusterRoleBindingMissing"
                                    else "WrongSubject"))
  {
  }

  lemma MemoryTells(st: State, cr: Cr, on: bool, svc: Got, ss: Got)
    requires ReadOf(st, Child(Service, cr.id, RagName(cr.id)), svc) && ReadOf(st, Child(StatefulSet, cr.id, RagName(cr.id)), ss)
    ensures var v := MemoryVerdict(on, svc, ss);
            && Honest(v, on, MemoryUp(st, cr)) && (!on ==> Exact(v, on, MemoryUp(st, cr)))
            && (on && svc == Answer(st, Child(Service, cr.id, RagName(cr.id))) && ss == Answer(st, Child(StatefulSet, cr.id, RagName(cr.id))) ==>
                  && Exact(v, on, MemoryUp(st, cr))
                  && (MemoryUp(st, cr) ==> v.reason == "ReadyReplicasPositive")
                  && (!MemoryUp(st, cr) ==>
                        v.reason == if Child(Service, cr.id, RagName(cr.id)) !in st.objs then "ServiceMissing"
                                    else if Child(StatefulSet, cr.id, RagName(cr.id)) !in st.objs then "StatefulSetMissing"
                                    else "NoReadyReplicas"))
  {
  }

  lemma ApprovalTells(st: State, cr: Cr, on: bool, secret: Got, svc: Got, dep: Got)
    requires ReadOf(st, SigningSecretKey(cr), secret) && ReadOf(st, Child(Service, cr.id, ApprovalName(cr.id)), svc)
    requires ReadOf(st, Child(Deployment, cr.id, ApprovalName(cr.id)), dep)
    ensures var v := ApprovalVerdict(on, secret, svc, dep);
            && Honest(v, on, ApprovalUp(st, cr)) && (!on ==> Exact(v, on, ApprovalUp(st, cr)))
            && (on && secret == Answer(st, SigningSecretKey(cr)) && svc == Answer(st, Child(Service, cr.id, ApprovalName(cr.id)))
                && dep == Answer(st, Child(Deployment, cr.id, ApprovalName(cr.id))) ==>
                  && Exact(v, on, ApprovalUp(st, cr))
                  && (ApprovalUp(st, cr) ==> v.reason == "AvailableReplicasPositive")
                  && (!ApprovalUp(st, cr) ==>
                        v.reason == if SigningSecretKey(cr) !in st.objs then "SigningKeyMissing"
                                    else if !KeysThere(st, cr) then "SigningKeyIncomplete"
                                    else if Child(Service, cr.id, ApprovalName(cr.id)) !in st.objs then "ServiceMissing"
                                    else if Child(Deployment, cr.id, ApprovalName(cr.id)) !in st.objs then "DeploymentMissing"
                                    else "NoAvailableReplicas"))
  {
    hide SigningSecretName;
  }

  lemma SameKeys(cr: Cr)
    ensures Child(Deployment, cr.id, WatcherName(cr.id)) == Key(Deployment, cr.id.ns, cr.id.name + "-watcher")
    ensures Child(Deployment, cr.id, AiWatchName(cr.id)) == Key(Deployment, cr.id.ns, cr.id.name + "-aiwatch")
    ensures Child(Service, cr.id, RagName(cr.id)) == Key(Service, cr.id.ns, cr.id.name + "-rag")
    ensures Child(StatefulSet, cr.id, RagName(cr.id)) == Key(StatefulSet, cr.id.ns, cr.id.name + "-rag")
    ensures Child(Service, cr.id, ApprovalName(cr.id)) == Key(Service, cr.id.ns, cr.id.name + "-approval-server")
    ensures Child(Deployment, cr.id, ApprovalName(cr.id)) == Key(Deployment, cr.id.ns, cr.id.name + "-approval-server")
    ensures ReaderRoleKey() == Key(ClusterRole, "", "srenix-operator-watcher-reader")
    ensures ReaderBindingKey(cr.id) == Key(ClusterRoleBinding, "", "srenix-operator-watcher-" + cr.id.ns + "-" + cr.id.name)
    ensures SigningSecretKey(cr) == Key(Secret, cr.id.ns, SigningSecretName(cr.spec))
  {
  }

  ghost predicate ReadsHonest(st: State, seen: map<Key, Got>) {
    forall k :: k in seen ==> seen[k] == Answer(st, k) || seen[k] == Err(Unavailable)
  }

  lemma Looked(st: State, seen: map<Key, Got>, key: Key)
    requires ReadsHonest(st, seen)
    ensures ReadOf(st, key, Look(seen, key))
    ensures key in seen && seen[key] == Answer(st, key) ==> Look(seen, key) == Answer(st, key)
  {
  }

  ghost predicate AllAnswered(cr: Cr, st: State, seen: map<Key, Got>) {
    forall k :: k in ObservedKeys(cr) ==> k in seen && seen[k] == Answer(st, k)
  }

  lemma EachTells(cr: Cr, st: State, seen: map<Key, Got>)
    requires ReadsHonest(st, seen)
    ensures AllHonest(Judge(cr, seen), st, cr)
    ensures AllAnswered(cr, st, seen) ==> AllExact(Judge(cr, seen), st, cr)
  {
    EveryGateIsRead(cr);
    SameKeys(cr);
    hide ObservedKeys, ReadsHonest, Look, RunningVerdict, RbacVerdict, MemoryVerdict, ApprovalVerdict, ReadOf, Answer, Available, ReaderUp, KeysThere;
    hide ReaderRoleKey, ReaderBindingKey, SigningSecretKey, SigningSecretName, WatcherName, AiWatchName, RagName, ApprovalName, Child;
    hide Honest, Exact, MemoryUp, ApprovalUp, WatcherEnabled, AiEnabled, MemoryEnabled, ApprovalEnabled;
    var id := cr.id;
    var watcher, ai := Child(Deployment, id, WatcherName(id)), Child(Deployment, id, AiWatchName(id));
    var rag, store := Child(Service, id, RagName(id)), Child(StatefulSet, id, RagName(id));
    var front, fleet := Child(Service, id, ApprovalName(id)), Child(Deployment, id, ApprovalName(id));
    Looked(st, seen, watcher); Looked(st, seen, ai); Looked(st, seen, rag); Looked(st, seen, store);
    Looked(st, seen, front); Looked(st, seen, fleet);
    Looked(st, seen, ReaderRoleKey()); Looked(st, seen, ReaderBindingKey(id)); Looked(st, seen, SigningSecretKey(cr));
    RunningTells(st, WatcherEnabled(cr.spec), watcher, Look(seen, watcher));
    RunningTells(st, AiEnabled(cr.spec), ai, Look(seen, ai));
    RbacTells(st, cr, Look(seen, ReaderRoleKey()), Look(seen, ReaderBindingKey(id)));
    MemoryTells(st, cr, MemoryEnabled(cr.spec), Look(seen, rag), Look(seen, store));
    ApprovalTells(st, cr, ApprovalEnabled(cr.spec), Look(seen, SigningSecretKey(cr)), Look(seen, front), Look(seen, fleet));
  }

  lemma EachExplained(cr: Cr, st: State, seen: map<Key, Got>)
    requires ReadsHonest(st, seen) && AllAnswered(cr, st, seen)
    ensures Explained(Judge(cr, seen), st, cr)
  {
    EveryGateIsRead(cr);
    SameKeys(cr);
    hide ObservedKeys, ReadsHonest, Look, RunningVerdict, RbacVerdict, MemoryVerdict, ApprovalVerdict, ReadOf, Answer, Available, ReaderUp, KeysThere;
    hide ReaderRoleKey, ReaderBindingKey, SigningSecretKey, SigningSecretName, WatcherName, AiWatchName, RagName, ApprovalName, Child;
    hide Honest, Exact, MemoryUp, ApprovalUp, WatcherEnabled, AiEnabled, MemoryEnabled, ApprovalEnabled;
    var id := cr.id;
    var watcher, ai := Child(Deployment, id, WatcherName(id)), Child(Deployment, id, AiWatchName(id));
    var rag, store := Child(Service, id, RagName(id)), Child(StatefulSet, id, RagName(id));
    var front, fleet := Child(Service, id, ApprovalName(id)), Child(Deployment, id, ApprovalName(id));
    Looked(st, seen, watcher); Looked(st, seen, ai); Looked(st, seen, rag); Looked(st, seen, store);
    Looked(st, seen, front); Looked(st, seen, fleet);
    Looked(st, seen, ReaderRoleKey()); Looked(st, seen, ReaderBindingKey(id)); Looked(st, seen, SigningSecretKey(cr));
    RunningTells(st, WatcherEnabled(cr.spec), watcher, Look(seen, watcher));
    RunningTells(st, AiEnabled(cr.spec), ai, Look(seen, ai));
    RbacTells(st, cr, Look(seen, ReaderRoleKey()), Look(seen, ReaderBindingKey(id)));
    MemoryTells(st, cr, MemoryEnabled(cr.spec), Look(seen, rag), Look(seen, store));
    ApprovalTells(st, cr, ApprovalEnabled(cr.spec), Look(seen, SigningSecretKey(cr)), Look(seen, front), Look(seen, fleet));
  }

  /** The saved list tells these verdicts. */
  ghost predicate Tells(st: State, id: CrId, v: Verdicts, gen: int)
    requires id in st.crs
  {
    var cs := st.crs[id].status.conditions;
    && st.crs[id].status.observedGeneration == gen
    && Says(cs, "WatcherRunning", v.watcher, gen) && Says(cs, "ReaderRBACReady", v.rbac, gen) && Says(cs, "AIWatchRunning", v.ai, gen)
    && Says(cs, "MemoryStoreReady", v.memory, gen) && Says(cs, "ApprovalServerReady", v.approval, gen)
  }

  lemma RunWorkSaves(cr: Cr, now: int, w: World)
    requires Quiet(w.script) && Valid(cr.spec) && cr.id in w.st.crs
    ensures var done := RunStages(Stages(cr), cr, w);
            var obs := RunObserve(ObservedKeys(cr), map[], done.w);
            var st := RunWork(cr, now, w).w.st;
            && ReadsHonest(done.w.st, obs.seen) && st.objs == done.w.st.objs && cr.id in st.crs
            && (st.crs[cr.id].rv != w.st.crs[cr.id].rv ==> Tells(st, cr.id, Judge(cr, obs.seen), cr.generation))
  {
    hide Stages, ObservedKeys, Judge, ReadyVerdict, SetAll, Valid, Says;
    var done := RunStages(Stages(cr), cr, w);
    StagesKeepCrs(Stages(cr), cr, w);
    StagesKeepOthers(Stages(cr), cr, w);
    ReadsAreHonest(ObservedKeys(cr), map[], done.w);
    ObserveKeepsStore(ObservedKeys(cr), map[], done.w);
    var obs := RunObserve(ObservedKeys(cr), map[], done.w);
    var v := Judge(cr, obs.seen);
    EachSaysItsOwn(cr.status.conditions, v, ReadyVerdict(cr.spec, v, FirstError(done.errs)), cr.generation, now);
  }

  lemma HonestByObjects(v: Verdicts, s: State, s': State, cr: Cr)
    requires s.objs == s'.objs
    ensures AllHonest(v, s, cr) == AllHonest(v, s', cr)
    ensures AllExact(v, s, cr) == AllExact(v, s', cr) && Explained(v, s, cr) == Explained(v, s', cr)
  {
    UpByObjects(s, s', cr);
    ExplainedByObjects(v, s, s', cr);
    hide Honest, Exact, Explained, WatcherUp, ReaderUp, AiUp, MemoryUp, ApprovalUp;
  }

  lemma UpByObjects(s: State, s': State, cr: Cr)
    requires s.objs == s'.objs
    ensures WatcherUp(s, cr) == WatcherUp(s', cr) && ReaderUp(s, cr) == ReaderUp(s', cr) && AiUp(s, cr) == AiUp(s', cr)
    ensures MemoryUp(s, cr) == MemoryUp(s', cr) && ApprovalUp(s, cr) == ApprovalUp(s', cr) && KeysThere(s, cr) == KeysThere(s', cr)
  {
    hide SigningSecretName;
  }

  lemma ExplainedByObjects(v: Verdicts, s: State, s': State, cr: Cr)
    requires s.objs == s'.objs
    ensures Explained(v, s, cr) == Explained(v, s', cr)
  {
    UpByObjects(s, s', cr);
    hide WatcherUp, ReaderUp, AiUp, MemoryUp, ApprovalUp, KeysThere, SigningSecretName;
  }

  /**
  However many of its calls fail: if it saved a status, each of the five conditions is there, is true only if
  its feature is on and its own objects are up in the cluster left behind, and reads "Disabled" exactly if the feature is off.
  */
  lemma ConditionsNeverLie(cr: Cr, now: int, w: World)
    requires Quiet(w.script) && Valid(cr.spec) && cr.id in w.st.crs
    ensures var st := RunWork(cr, now, w).w.st;
            cr.id in st.crs && st.crs[cr.id].rv != w.st.crs[cr.id].rv ==>
              exists v :: Tells(st, cr.id, v, cr.generation) && AllHonest(v, st, cr)
  {
    RunWorkSaves(cr, now, w);
    var done := RunStages(Stages(cr), cr, w);
    var seen := RunObserve(ObservedKeys(cr), map[], done.w).seen;
    hide RunWork, RunStages, RunObserve, Stages, ObservedKeys, Judge, AllHonest, Tells, Valid;
    EachTells(cr, done.w.st, seen);
    HonestByObjects(Judge(cr, seen), done.w.st, RunWork(cr, now, w).w.st, cr);
  }

  /**
  With every call answered the five conditions are true exactly if their feature is on and their own objects are
  up, and otherwise name the first thing that is missing.
  */
  lemma ConditionsExactly(cr: Cr, now: int, w: World)
    requires AllServed(w.script) && Valid(cr.spec)
    requires cr.id in w.st.crs && w.st.crs[cr.id].rv == cr.rv && cr.rv < w.st.next
    requires |w.script| > 64
    ensures var st := RunWork(cr, now, w).w.st;
            && cr.id in st.crs
            && exists v :: Tells(st, cr.id, v, cr.generation) && AllExact(v, st, cr) && Explained(v, st, cr)
  {
    var done := RunStages(Stages(cr), cr, w);
    var seen := RunObserve(ObservedKeys(cr), map[], done.w).seen;
    ServedIsQuiet(w.script);
    SavedWhenServed(cr, now, w);
    RunWorkSaves(cr, now, w);
    hide RunWork, RunStages, RunObserve, Stages, AllAnswered, Judge, AllExact, Explained, Tells, Valid;
    EachTells(cr, done.w.st, seen);
    EachExplained(cr, done.w.st, seen);
    HonestByObjects(Judge(cr, seen), done.w.st, RunWork(cr, now, w).w.st, cr);
  }

  lemma SavedWhenServed(cr: Cr, now: int, w: World)
    requires AllServed(w.script) && Valid(cr.spec)
    requires cr.id in w.st.crs && w.st.crs[cr.id].rv == cr.rv && cr.rv < w.st.next
    requires |w.script| > 64
    ensures var done := RunStages(Stages(cr), cr, w);
            var seen := RunObserve(ObservedKeys(cr), map[], done.w).seen;
            AllAnswered(cr, done.w.st, seen)
    ensures var st := RunWork(cr, now, w).w.st;
            var seen := RunObserve(ObservedKeys(cr), map[], RunStages(Stages(cr), cr, w).w).seen;
            cr.id in st.crs && Tells(st, cr.id, Judge(cr, seen), cr.generation)
  {
    hide Stages, ObservedKeys, Judge, ReadyVerdict, SetAll, Valid, Says;
    var done := RunStages(Stages(cr), cr, w);
    WorkCalls(cr, now, w);
    StagesKeepCrs(Stages(cr), cr, w);
    StagesKeepOthers(Stages(cr), cr, w);
    StagesStayServed(Stages(cr), cr, w);
    ObserveKeepsStore(ObservedKeys(cr), map[], done.w);
    ObserveScript(ObservedKeys(cr), map[], done.w);
    ReadsAreHonest(ObservedKeys(cr), map[], done.w);
    var obs := RunObserve(ObservedKeys(cr), map[], done.w);
    assert |obs.w.script| > 1 && Head(obs.w).fault.Served? && Head(obs.w).change.None?;
    var v := Judge(cr, obs.seen);
    EachSaysItsOwn(cr.status.conditions, v, ReadyVerdict(cr.spec, v, FirstError(done.errs)), cr.generation, now);
  }

  /** The reason that Ready gives: the first of its gates that is not open, in the order in which they are looked at. */
  function ReadyReason(st: State, cr: Cr, err: Option<Error>): string {
    if err.Some? then "ReconcileError"
    else if !ReaderUp(st, cr) then "ReaderRBACNotReady"
    else if AiEnabled(cr.spec) && !AiUp(st, cr) then "AIWatchNotReady"
    else if MemoryEnabled(cr.spec) && !MemoryUp(st, cr) then "MemoryStoreNotReady"
    else if ApprovalEnabled(cr.spec) && !ApprovalUp(st, cr) then "ApprovalServerNotReady"
    else "Reconciled"
  }

  lemma ReadyExplained(v: Verdicts, st: State, cr: Cr, err: Option<Error>)
    requires AllExact(v, st, cr)
    ensures var reason := ReadyReason(st, cr, err);
            ReadyVerdict(cr.spec, v, err) == Verdict(if reason == "Reconciled" then True else False, reason)
  {
    hide ReaderUp, AiUp, MemoryUp, ApprovalUp, WatcherUp, AiEnabled, MemoryEnabled, ApprovalEnabled, WatcherEnabled;
  }

  /** With every call answered, Ready gives the first gate that is not open in the cluster left behind as its reason. */
  lemma ReadyNamesTheGate(cr: Cr, now: int, w: World)
    requires AllServed(w.script) && Valid(cr.spec)
    requires cr.id in w.st.crs && w.st.crs[cr.id].rv == cr.rv && cr.rv < w.st.next
    requires |w.script| > 64
    ensures var o := RunWork(cr, now, w);
            && cr.id in o.w.st.crs && ReadyEntry(o.w.st, cr.id).Some?
            && ReadyEntry(o.w.st, cr.id).value.reason == ReadyReason(o.w.st, cr, o.err)
            && (ReadyEntry(o.w.st, cr.id).value.status == True <==> ReadyReason(o.w.st, cr, o.err) == "Reconciled")
  {
    var done := RunStages(Stages(cr), cr, w);
    var seen := RunObserve(ObservedKeys(cr), map[], done.w).seen;
    ServedIsQuiet(w.script);
    SavedWhenServed(cr, now, w);
    RunWorkSaves(cr, now, w);
    ReadyAsSaved(cr, now, w);
    hide RunWork, RunStages, RunObserve, Stages, AllAnswered, Judge, AllExact, Tells, Valid, ReadyVerdict, ReadyEntry;
    EachTells(cr, done.w.st, seen);
    HonestByObjects(Judge(cr, seen), done.w.st, RunWork(cr, now, w).w.st, cr);
    ReadyExplained(Judge(cr, seen), RunWork(cr, now, w).w.st, cr, RunWork(cr, now, w).err);
  }

  lemma ReadyAsSaved(cr: Cr, now: int, w: World)
    requires AllServed(w.script) && Valid(cr.spec)
    requires cr.id in w.st.crs && w.st.crs[cr.id].rv == cr.rv && cr.rv < w.st.next
    requires |w.script| > 64
    ensures var o := RunWork(cr, now, w);
            var seen := RunObserve(ObservedKeys(cr), map[], RunStages(Stages(cr), cr, w).w).seen;
            var ready := ReadyVerdict(cr.spec, Judge(cr, seen), o.err);
            && cr.id in o.w.st.crs && ReadyEntry(o.w.st, cr.id).Some?
            && ReadyEntry(o.w.st, cr.id).value.reason == ready.reason && ReadyEntry(o.w.st, cr.id).value.status == ready.status
  {
    hide Stages, ObservedKeys, Judge, ReadyVerdict, SetAll, Valid;
    var done := RunStages(Stages(cr), cr, w);
    WorkCalls(cr, now, w);
    StagesKeepCrs(Stages(cr), cr, w);
    StagesStayServed(Stages(cr), cr, w);
    ObserveKeepsStore(ObservedKeys(cr), map[], done.w);
    ObserveScript(ObservedKeys(cr), map[], done.w);
    ServedIsQuiet(w.script);
    StagesKeepOthers(Stages(cr), cr, w);
    var obs := RunObserve(ObservedKeys(cr), map[], done.w);
    ReadsAreHonest(ObservedKeys(cr), map[], done.w);
    assert |obs.w.script| > 1 && Head(obs.w).fault.Served? && Head(obs.w).change.None?;
    var v := Judge(cr, obs.seen);
    ReportAdvances(cr.status.conditions, v, ReadyVerdict(cr.spec, v, FirstError(done.errs)), cr.generation, now);
  }

  /** A refused specification is told as such, and nothing else is said anew. */
  lemma RefusalIsTold(cr: Cr, now: int, w: World)
    requires !Valid(cr.spec) && w.script != [] && Head(w).fault.Served? && Head(w).change.None?
    requires cr.id in w.st.crs && w.st.crs[cr.id].rv == cr.rv
    ensures var o := RunWork(cr, now, w);
            && o.err.None? && cr.id in o.w.st.crs
            && var status := o.w.st.crs[cr.id].status;
               && Says(status.conditions, "Ready", Verdict(False, "InvalidSpec"), cr.generation)
               && status.observedGeneration == cr.status.observedGeneration
               && forall kind :: kind != "Ready" ==> EntryOf(status.conditions, kind) == EntryOf(cr.status.conditions, kind)
  {
    hide Valid;
    UpsertIsFound(cr.status.conditions, READY, False, "InvalidSpec", cr.generation, now);
    forall kind | kind != "Ready"
      ensures EntryOf(SetCondition(cr.status.conditions, READY, False, "InvalidSpec", cr.generation, now), kind) == EntryOf(cr.status.conditions, kind)
    {
      UpsertHidesNothing(cr.status.conditions, READY, False, "InvalidSpec", cr.generation, now, kind);
    }
    hide SetCondition, EntryOf;
  }
}
