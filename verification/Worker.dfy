/**
The same reconcile as a machine that makes one API call per turn. This is the
form in which many reconciles, the users and the cluster itself interleave.
*/
module Worker {
  import opened Options
  import opened Spec
  import opened Store
  import opened Conditions
  import opened Plan

  datatype Worker =
    | Fetch(now: int)
    | AddFinalizer(cr: Cr, now: int)
    | Cleanup(cr: Cr, requests: seq<Request>, pending: Pending)
    | DropFinalizer(cr: Cr)
    | Work(cr: Cr, now: int, stages: seq<seq<Request>>, pending: Pending, err: Option<Error>)
    | Observe(cr: Cr, now: int, keys: seq<Key>, seen: map<Key, Got>, err: Option<Error>)
    | Report(cr: Cr, err: Option<Error>, surfaced: bool)
    | Finished(err: Option<Error>)

  datatype Turn = Turn(worker: Worker, st: State)

  function Track(err: Option<Error>, e: Option<Error>): Option<Error> {
    if err.Some? then err else e
  }

  /** Skips sub-reconciles that have nothing to do. */
  function Resume(cr: Cr, now: int, stages: seq<seq<Request>>, err: Option<Error>): Worker {
    if stages == [] then Observe(cr, now, ObservedKeys(cr), map[], err)
    else if stages[0] == [] then Resume(cr, now, stages[1..], err)
    else Work(cr, now, stages, Fresh, err)
  }

  function Enter(cr: Cr, now: int): Worker {
    if !Valid(cr.spec) then Report(Rejected(cr, now), None, true)
    else Resume(cr, now, Stages(cr), None)
  }

  function FetchTurn(id: CrId, now: int, st: State, f: Fault): Worker {
    match GetCr(st, id, f).res
    case Err(e) => Finished(Forgive(e, NotFound))
    case Ok(cr) =>
      if cr.deleting then
        if FINALIZER in cr.finalizers then Cleanup(cr, FinalizeRequests(cr), Fresh) else Finished(None)
      else if FINALIZER in cr.finalizers then Enter(cr, now)
      else AddFinalizer(cr.(finalizers := cr.finalizers + {FINALIZER}), now)
  }

  function CleanupTurn(w: Worker, m: Micro): Worker
    requires w.Cleanup? && w.requests != []
  {
    match m.progress
    case More(p) => Cleanup(w.cr, w.requests, p)
    case Done(Some(e)) => Finished(Some(e))
    case Done(None) =>
      if |w.requests| == 1 then DropFinalizer(w.cr.(finalizers := w.cr.finalizers - {FINALIZER}))
      else Cleanup(w.cr, w.requests[1..], Fresh)
  }

  function WorkTurn(w: Worker, m: Micro): Worker
    requires w.Work? && w.stages != [] && w.stages[0] != []
  {
    match m.progress
    case More(p) => Work(w.cr, w.now, w.stages, p, w.err)
    case Done(Some(e)) => Resume(w.cr, w.now, w.stages[1..], Track(w.err, Some(e)))
    case Done(None) => Resume(w.cr, w.now, [w.stages[0][1..]] + w.stages[1..], w.err)
  }

  function ObserveDone(w: Worker): Worker
    requires w.Observe?
  {
    if w.keys == [] then Report(Judged(w.cr, w.seen, w.err, w.now), w.err, false) else w
  }

  /** One call by the worker of `id`. A worker that has finished makes none. */
  function Next(id: CrId, w: Worker, st: State, f: Fault, draw: KeyPair): Turn {
    match w
    case Fetch(now) => Turn(FetchTurn(id, now, st, f), st)
    case AddFinalizer(cr, now) =>
      var reply := UpdateCr(st, cr, f);
      Turn(if reply.res.Ok? then Enter(reply.res.value, now) else Finished(Some(reply.res.error)), reply.st)
    case Cleanup(cr, requests, pending) =>
      if requests == [] then Turn(Finished(None), st)
      else
        var m := Step(requests[0], pending, cr, st, f, draw);
        Turn(CleanupTurn(w, m), m.st)
    case DropFinalizer(cr) =>
      var reply := UpdateCr(st, cr, f);
      Turn(Finished(if reply.res.Ok? then None else Some(reply.res.error)), reply.st)
    case Work(cr, now, stages, pending, err) =>
      if stages == [] || stages[0] == [] then Turn(Resume(cr, now, stages, err), st)
      else
        var m := Step(stages[0][0], pending, cr, st, f, draw);
        Turn(WorkTurn(w, m), m.st)
    case Observe(cr, now, keys, seen, err) =>
      if keys == [] then Turn(ObserveDone(w), st)
      else Turn(ObserveDone(Observe(cr, now, keys[1..], seen[keys[0] := Get(st, keys[0], f).res], err)), st)
    case Report(cr, err, surfaced) =>
      var reply := UpdateStatus(st, cr, f);
      Turn(Finished(if surfaced && reply.res.Err? then Some(reply.res.error) else err), reply.st)
    case Finished(_) => Turn(w, st)
  }

  // ---------- the machine run to its end ----------

  function Phase(w: Worker): nat {
    match w
    case Fetch(_) => 6
    case AddFinalizer(_, _) => 5
    case Cleanup(_, _, _) => 4
    case DropFinalizer(_) => 3
    case Work(_, _, _, _, _) => 3
    case Observe(_, _, _, _, _) => 2
    case Report(_, _, _) => 1
    case Finished(_) => 0
  }

  function Total(stages: seq<seq<Request>>): nat {
    if stages == [] then 0 else |stages[0]| + 1 + Total(stages[1..])
  }

  function Left(w: Worker): nat {
    match w
    case Cleanup(_, requests, _) => |requests|
    case Work(_, _, stages, _, _) => Total(stages)
    case Observe(_, _, keys, _, _) => |keys|
    case _ => 0
  }

  function Half(w: Worker): nat {
    match w
    case Cleanup(_, _, p) => Rank(p)
    case Work(_, _, _, p, _) => Rank(p)
    case _ => 0
  }

  ghost predicate Smaller(v: Worker, w: Worker) {
    Phase(v) < Phase(w) || (Phase(v) == Phase(w) && (Left(v) < Left(w) || (Left(v) == Left(w) && Half(v) < Half(w))))
  }

  lemma ResumeShrinks(cr: Cr, now: int, stages: seq<seq<Request>>, err: Option<Error>)
    ensures var w := Resume(cr, now, stages, err); w.Observe? || (w.Work? && Left(w) <= Total(stages))
  {
  }

  lemma WorkTurnShrinks(w: Worker, m: Micro)
    requires w.Work? && w.stages != [] && w.stages[0] != []
    requires m.progress.More? ==> w.pending.Fresh? && !m.progress.pending.Fresh?
    ensures Smaller(WorkTurn(w, m), w)
  {
    if m.progress.Done? {
      ResumeShrinks(w.cr, w.now, w.stages[1..], Track(w.err, m.progress.err));
      ResumeShrinks(w.cr, w.now, [w.stages[0][1..]] + w.stages[1..], w.err);
    }
  }

  lemma EnterShrinks(cr: Cr, now: int)
    ensures Phase(Enter(cr, now)) <= 3
  {
    if Valid(cr.spec) { ResumeShrinks(cr, now, Stages(cr), None); }
  }

  lemma NextShrinks(id: CrId, w: Worker, st: State, f: Fault, draw: KeyPair)
    requires !w.Finished?
    ensures Smaller(Next(id, w, st, f, draw).worker, w)
  {
    hide Stages, Judged, Step;
    match w {
      case Fetch(now) =>
        if GetCr(st, id, f).res.Ok? { EnterShrinks(st.crs[id], now); }
      case AddFinalizer(cr, now) =>
        var reply := UpdateCr(st, cr, f);
        if reply.res.Ok? { EnterShrinks(reply.res.value, now); }
      case Cleanup(cr, requests, pending) =>
        if requests != [] { StepEnds(requests[0], pending, cr, st, f, draw); }
      case Work(cr, now, stages, pending, err) =>
        if stages == [] {
        } else if stages[0] == [] {
          ResumeShrinks(cr, now, stages[1..], err);
        } else {
          StepEnds(stages[0][0], pending, cr, st, f, draw);
          WorkTurnShrinks(w, Step(stages[0][0], pending, cr, st, f, draw));
        }
      case _ =>
    }
  }

  function Drive(id: CrId, w: Worker, world: World): Outcome
    decreases Phase(w), Left(w), Half(w)
  {
    if w.Finished? then Outcome(world, w.err)
    else
      var turn := Next(id, w, Seen(world), Head(world).fault, Head(world).draw);
      NextShrinks(id, w, Seen(world), Head(world).fault, Head(world).draw);
      Drive(id, turn.worker, World(turn.st, Tail(world)))
  }

  // ---------- the machine does what the reconcile does ----------

  /** A cleanup worker finishes its request and goes on, or stops with its error. */
  lemma DriveCleanupRequest(id: CrId, w: Worker, world: World)
    requires w.Cleanup? && w.requests != []
    ensures var o := RunRequest(w.requests[0], w.pending, w.cr, world);
            Drive(id, w, world) == if o.err.Some? then o else Drive(id, CleanupTurn(w, Micro(o.w.st, Done(None))), o.w)
    decreases Rank(w.pending)
  {
    var m := Step(w.requests[0], w.pending, w.cr, Seen(world), Head(world).fault, Head(world).draw);
    StepEnds(w.requests[0], w.pending, w.cr, Seen(world), Head(world).fault, Head(world).draw);
    if m.progress.More? {
      DriveCleanupRequest(id, Cleanup(w.cr, w.requests, m.progress.pending), World(m.st, Tail(world)));
    }
  }

  lemma {:induction false} DriveCleanup(id: CrId, cr: Cr, requests: seq<Request>, world: World)
    requires requests != []
    ensures var o := RunStage(requests, cr, world);
            Drive(id, Cleanup(cr, requests, Fresh), world)
            == if o.err.Some? then o else Drive(id, DropFinalizer(cr.(finalizers := cr.finalizers - {FINALIZER})), o.w)
    decreases |requests|
  {
    var w := Cleanup(cr, requests, Fresh);
    DriveCleanupRequest(id, w, world);
    var o := RunRequest(requests[0], Fresh, cr, world);
    if o.err.None? {
      if |requests| == 1 {
        assert RunStage(requests[1..], cr, o.w) == Outcome(o.w, None);
      } else {
        DriveCleanup(id, cr, requests[1..], o.w);
      }
    }
  }

  lemma DriveWorkRequest(id: CrId, w: Worker, world: World)
    requires w.Work? && w.stages != [] && w.stages[0] != []
    ensures var o := RunRequest(w.stages[0][0], w.pending, w.cr, world);
            Drive(id, w, world) == Drive(id, WorkTurn(w, Micro(o.w.st, Done(o.err))), o.w)
    decreases Rank(w.pending)
  {
    var m := Step(w.stages[0][0], w.pending, w.cr, Seen(world), Head(world).fault, Head(world).draw);
    StepEnds(w.stages[0][0], w.pending, w.cr, Seen(world), Head(world).fault, Head(world).draw);
    if m.progress.More? {
      DriveWorkRequest(id, Work(w.cr, w.now, w.stages, m.progress.pending, w.err), World(m.st, Tail(world)));
    }
  }

  lemma {:induction false} DriveStage(id: CrId, cr: Cr, now: int, stages: seq<seq<Request>>, err: Option<Error>, world: World)
    requires stages != []
    ensures var o := RunStage(stages[0], cr, world);
            Drive(id, Resume(cr, now, stages, err), world) == Drive(id, Resume(cr, now, stages[1..], Track(err, o.err)), o.w)
    decreases |stages[0]|
  {
    if stages[0] != [] {
      var o := RunRequest(stages[0][0], Fresh, cr, world);
      var w := Work(cr, now, stages, Fresh, err);
      DriveWorkRequest(id, w, world);
      if o.err.None? {
        var rest := [stages[0][1..]] + stages[1..];
        assert rest[1..] == stages[1..];
        DriveStage(id, cr, now, rest, err, o.w);
      }
    }
  }

  lemma {:induction false} DriveStages(id: CrId, cr: Cr, now: int, stages: seq<seq<Request>>, err: Option<Error>, world: World)
    ensures var done := RunStages(stages, cr, world);
            Drive(id, Resume(cr, now, stages, err), world)
            == Drive(id, Observe(cr, now, ObservedKeys(cr), map[], Track(err, FirstError(done.errs))), done.w)
    decreases |stages|
  {
    if stages != [] {
      var first := RunStage(stages[0], cr, world);
      DriveStage(id, cr, now, stages, err, world);
      DriveStages(id, cr, now, stages[1..], Track(err, first.err), first.w);
      var done := RunStages(stages, cr, world);
      assert done.errs[1..] == RunStages(stages[1..], cr, first.w).errs;
    }
  }

  lemma DriveReport(id: CrId, cr: Cr, err: Option<Error>, surfaced: bool, world: World)
    ensures var o := SaveStatus(cr, world);
            Drive(id, Report(cr, err, surfaced), world) == Outcome(o.w, if surfaced && o.err.Some? then o.err else err)
  {
  }

  lemma {:induction false} DriveObserve(id: CrId, cr: Cr, now: int, keys: seq<Key>, seen: map<Key, Got>, err: Option<Error>, world: World)
    requires keys != []
    ensures var obs := RunObserve(keys, seen, world);
            Drive(id, Observe(cr, now, keys, seen, err), world)
            == Outcome(SaveStatus(Judged(cr, obs.seen, err, now), obs.w).w, err)
    decreases |keys|
  {
    hide Stages, Judged;
    var seen' := seen[keys[0] := Get(Seen(world), keys[0], Head(world).fault).res];
    var world' := World(Seen(world), Tail(world));
    if |keys| == 1 {
      assert RunObserve(keys[1..], seen', world') == Observation(world', seen');
      DriveReport(id, Judged(cr, seen', err, now), err, false, world');
      assert Next(id, Observe(cr, now, keys, seen, err), Seen(world), Head(world).fault, Head(world).draw).worker
          == Report(Judged(cr, seen', err, now), err, false);
    } else {
      DriveObserve(id, cr, now, keys[1..], seen', err, world');
    }
  }

  lemma DriveWork(id: CrId, cr: Cr, now: int, world: World)
    ensures Drive(id, Enter(cr, now), world) == RunWork(cr, now, world)
  {
    if Valid(cr.spec) {
      DriveStages(id, cr, now, Stages(cr), None, world);
      var done := RunStages(Stages(cr), cr, world);
      assert |ObservedKeys(cr)| >= 2;
      DriveObserve(id, cr, now, ObservedKeys(cr), map[], FirstError(done.errs), done.w);
    }
  }

  /**
  A reconcile is the machine run from its first call to its last, through any
  interference between the calls and any faults.
  */
  lemma ReconcileIsTheMachine(id: CrId, now: int, world: World)
    ensures RunReconcile(id, now, world) == Drive(id, Fetch(now), world)
  {
    hide Stages, Judged, Step;
    var st := Seen(world);
    var world' := World(st, Tail(world));
    match GetCr(st, id, Head(world).fault).res {
      case Err(_) =>
      case Ok(cr) =>
        if cr.deleting {
          if FINALIZER in cr.finalizers {
            DriveCleanup(id, cr, FinalizeRequests(cr), world');
          }
        } else if FINALIZER in cr.finalizers {
          DriveWork(id, cr, now, world');
        } else {
          var cr' := cr.(finalizers := cr.finalizers + {FINALIZER});
          var reply := UpdateCr(Seen(world'), cr', Head(world').fault);
          if reply.res.Ok? {
            DriveWork(id, reply.res.value, now, World(reply.st, Tail(world')));
          } else {
            assert Drive(id, AddFinalizer(cr', now), world') == Outcome(World(reply.st, Tail(world')), Some(reply.res.error));
          }
        }
    }
  }
}
