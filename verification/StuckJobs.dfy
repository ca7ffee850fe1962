/**
The fixer for Jobs frozen on a bad Secret reference: the Jobs it tries to delete,
exactly, whatever order the pods come in and whichever deletions are refused.
*/
module StuckJobs {
  import opened Options
  import opened Clusters

  /** The Job a pod points at, if its containers miss a Secret key. */
  function BlamedJob(c: View, pod: ObjKey): Option<ObjKey>
    requires pod in c
  {
    var job := FirstOwner(c[pod].owners, "Job");
    if job == "" || !MissingKey(c[pod]) then None else Some(ObjKey(JobKind, pod.ns, job))
  }

  /** The CronJob that would respawn a Job. */
  function Respawner(c: View, job: ObjKey): Option<ObjKey>
    requires job in c
  {
    var cron := FirstOwner(c[job].owners, "CronJob");
    if cron == "" then None else Some(ObjKey(CronJobKind, job.ns, cron))
  }

  /** Deleting the Job is allowed and helps: its CronJob is there, not suspended and nobody else's. */
  predicate JobMayGo(c: View, extra: set<string>, job: ObjKey) {
    && !Protected(job.ns, extra)
    && job in c && Respawner(c, job).Some?
    && var cron := Respawner(c, job).value; cron in c && !c[cron].frozen && !GitOpsManaged(c[cron])
  }

  predicate Blames(c: View, pod: ObjKey, job: ObjKey) {
    pod in c && pod.kind == PodKind && BlamedJob(c, pod) == Some(job)
  }

  /** The declarative specification: some pod blames the Job, and it may go. */
  ghost predicate CondemnedJob(c: View, extra: set<string>, job: ObjKey) {
    JobMayGo(c, extra, job) && exists pod :: Blames(c, pod, job)
  }

  /** Where the pods aim: the blamed Job, if it may go. */
  function JobAim(c: View, extra: set<string>): map<ObjKey, ObjKey> {
    map pod | pod in c && pod.kind == PodKind && BlamedJob(c, pod).Some? && JobMayGo(c, extra, BlamedJob(c, pod).value) ::
      BlamedJob(c, pod).value
  }

  lemma AimIsCondemned(c: View, extra: set<string>, job: ObjKey)
    ensures job in JobAim(c, extra).Values <==> CondemnedJob(c, extra, job)
  {
    if CondemnedJob(c, extra, job) {
      var pod :| Blames(c, pod, job);
      assert JobAim(c, extra)[pod] == job;
    }
    if job in JobAim(c, extra).Values {
      var pod :| pod in JobAim(c, extra) && JobAim(c, extra)[pod] == job;
      assert Blames(c, pod, job);
    }
  }

  lemma AimOf(c: View, extra: set<string>, pod: ObjKey, job: ObjKey)
    requires Blames(c, pod, job)
    ensures JobMayGo(c, extra, job) ==> pod in JobAim(c, extra) && JobAim(c, extra)[pod] == job
    ensures !JobMayGo(c, extra, job) ==> pod !in JobAim(c, extra) && job !in JobAim(c, extra).Values
  {
  }

  /** One blamed Job: the gates in the order they are tried, then the deletion. `settled` grows by the Job once nothing more can come of it. */
  method TryJob(m: Cluster, extra: set<string>, job: ObjKey, settled: set<ObjKey>) returns (settled': set<ObjKey>, tried: bool, ok: bool)
    requires job.kind == JobKind
    modifies m
    ensures m.dark == old(m.dark)
    ensures tried == (job !in settled && JobMayGo(old(m.objs), extra, job))
    ensures m.log == if tried then old(m.log) + [Attempt(Deletion, job, ok)] else old(m.log)
    ensures m.objs == if tried && ok then old(m.objs) - {job} else old(m.objs)
    ensures tried ==> settled' == if ok then settled + {job} else settled
    ensures !tried ==> settled' == settled || (settled' == settled + {job} && !JobMayGo(old(m.objs), extra, job))
  {
    hide Protected, GitOpsManaged;
    settled', tried, ok := settled, false, false;
    if Protected(job.ns, extra) || job in settled || job !in m.objs { return; }
    var cron := FirstOwner(m.objs[job].owners, "CronJob");
    if cron == "" { return; }
    var cronKey := ObjKey(CronJobKind, job.ns, cron);
    if cronKey !in m.objs { return; }
    if m.objs[cronKey].frozen || GitOpsManaged(m.objs[cronKey]) {
      settled' := settled + {job};
      return;
    }
    tried := true;
    ok := m.Delete(job);
    if ok { settled' := settled + {job}; }
  }

  /** The run so far; of the cluster only Jobs have gone. */
  ghost predicate Going(c: View, extra: set<string>, pods: seq<ObjKey>, log: seq<Attempt>, objs: View, settled: set<ObjKey>) {
    && Underway(JobAim(c, extra), Deletion, pods, log, settled)
    && objs == c - Landed(log)
    && (forall k :: k in Landed(log) ==> k.kind == JobKind)
  }

  lemma Begin(c: View, extra: set<string>)
    ensures Going(c, extra, [], [], c, {}) && Successes([]) == []
  {
  }

  lemma GateIsTheSame(c: View, extra: set<string>, objs: View, gone: set<ObjKey>, job: ObjKey)
    requires objs == c - gone && job !in gone && forall k :: k in gone ==> k.kind == JobKind
    ensures JobMayGo(objs, extra, job) == JobMayGo(c, extra, job)
  {
    hide Protected, GitOpsManaged, FirstOwner;
  }

  /** A pod that blames a Job, after an attempt on it. */
  lemma Tried(
    c: View, extra: set<string>, pods: seq<ObjKey>, log: seq<Attempt>, objs: View, settled: set<ObjKey>, pod: ObjKey, job: ObjKey, ok: bool)
    requires Going(c, extra, pods, log, objs, settled) && Blames(c, pod, job)
    requires job !in settled && JobMayGo(objs, extra, job)
    ensures Going(c, extra, pods + [pod], log + [Attempt(Deletion, job, ok)], if ok then objs - {job} else objs,
                  if ok then settled + {job} else settled)
  {
    assert job.kind == JobKind;
    hide JobAim, Blames, Done, Landed, JobMayGo;
    AimOf(c, extra, pod, job);
    assert job !in Landed(log);
    GateIsTheSame(c, extra, objs, Landed(log), job);
    hide Underway;
    Appended(log, Attempt(Deletion, job, ok));
    Hit(JobAim(c, extra), Deletion, pods, log, settled, pod, ok);
    MinusOneMore(c, Landed(log), job);
  }

  lemma MinusOneMore(c: View, gone: set<ObjKey>, job: ObjKey)
    ensures (c - gone) - {job} == c - (gone + {job})
  {
  }

  /** A pod that blames a Job, when a gate stood in the way or the Job was settled. */
  lemma Passed(
    c: View, extra: set<string>, pods: seq<ObjKey>, log: seq<Attempt>, objs: View, settled: set<ObjKey>, pod: ObjKey, job: ObjKey,
    settled': set<ObjKey>)
    requires Going(c, extra, pods, log, objs, settled) && Blames(c, pod, job)
    requires job in settled || !JobMayGo(objs, extra, job)
    requires settled' == settled || (settled' == settled + {job} && !JobMayGo(objs, extra, job))
    ensures Going(c, extra, pods + [pod], log, objs, settled')
  {
    AimOf(c, extra, pod, job);
    if job !in Landed(log) { GateIsTheSame(c, extra, objs, Landed(log), job); }
    hide JobAim, JobMayGo, Done;
    Miss(JobAim(c, extra), Deletion, pods, log, settled, pod);
    if job !in Landed(log) && settled' != settled { Settle(JobAim(c, extra), Deletion, pods + [pod], log, settled, {job}); }
    hide Landed;
    if job in Landed(log) { assert settled + {job} == settled; }
  }

  /** A listed pod reads the same throughout. */
  lemma PodReads(c: View, extra: set<string>, pods: seq<ObjKey>, done: seq<Attempt>, objs: View, settled: set<ObjKey>, pod: ObjKey)
    requires Going(c, extra, pods, done, objs, settled) && pod in c && pod.kind == PodKind
    ensures pod in objs && objs[pod] == c[pod]
  {
  }

  lemma Blaming(c: View, pod: ObjKey, name: string)
    requires pod in c && pod.kind == PodKind && name == FirstOwner(c[pod].owners, "Job")
    ensures name != "" && MissingKey(c[pod]) ==> Blames(c, pod, ObjKey(JobKind, pod.ns, name))
    ensures name == "" || !MissingKey(c[pod]) ==> BlamedJob(c, pod) == None
  {
  }

  lemma Blameless(c: View, extra: set<string>, pods: seq<ObjKey>, done: seq<Attempt>, objs: View, settled: set<ObjKey>, pod: ObjKey)
    requires Going(c, extra, pods, done, objs, settled) && pod in c && BlamedJob(c, pod) == None
    ensures Going(c, extra, pods + [pod], done, objs, settled)
  {
    hide Done;
    assert pod !in JobAim(c, extra);
    Miss(JobAim(c, extra), Deletion, pods, done, settled, pod);
  }

  /** The loop over the pods. */
  method DeleteBlamedJobs(m: Cluster, extra: set<string>, pods: seq<ObjKey>) returns (actions: seq<ObjKey>, ghost done: seq<Attempt>)
    requires forall pod :: pod in pods ==> pod in m.objs && pod.kind == PodKind
    modifies m
    ensures m.dark == old(m.dark) && m.log == old(m.log) + done && actions == Successes(done)
    ensures exists settled :: Going(old(m.objs), extra, pods, done, m.objs, settled)
  {
    hide Going, MissingKey, Blames, BlamedJob, Successes, FirstOwner, JobMayGo;
    ghost var c := m.objs;
    actions, done := [], [];
    var settled: set<ObjKey> := {};
    Begin(c, extra);
    for i := 0 to |pods|
      invariant m.dark == old(m.dark) && m.log == old(m.log) + done && actions == Successes(done)
      invariant Going(c, extra, pods[..i], done, m.objs, settled)
    {
      var pod := pods[i];
      assert pods[..i + 1] == pods[..i] + [pod];
      PodReads(c, extra, pods[..i], done, m.objs, settled, pod);
      var name := FirstOwner(m.objs[pod].owners, "Job");
      Blaming(c, pod, name);
      if name == "" || !MissingKey(m.objs[pod]) {
        Blameless(c, extra, pods[..i], done, m.objs, settled, pod);
        continue;
      }
      var job := ObjKey(JobKind, pod.ns, name);
      ghost var was := m.objs;
      var settled', tried, ok := TryJob(m, extra, job, settled);
      if !tried {
        Passed(c, extra, pods[..i], done, was, settled, pod, job, settled');
      } else {
        Tried(c, extra, pods[..i], done, was, settled, pod, job, ok);
        SuccessesAppend(done, Attempt(Deletion, job, ok));
        done := done + [Attempt(Deletion, job, ok)];
        if ok { actions := actions + [job]; }
      }
      settled := settled';
    }
    assert pods[..|pods|] == pods;
  }

  /**
  Deletes the Jobs that hold up their CronJobs. The Jobs it tries to delete are
  exactly the condemned ones, whatever the order of the pods and whichever
  deletions are refused; a Job is never tried again once it is gone, and one that
  never goes is tried once for every pod that aims at it.
  */
  method Run(m: Cluster, extra: set<string>) returns (r: Report)
    modifies m
    ensures !m.live ==> r == Refused && m.objs == old(m.objs) && m.log == old(m.log)
    ensures old(m.log) <= m.log && m.dark == old(m.dark)
    ensures m.live ==>
              var done := m.log[|old(m.log)|..];
              && r == Acted(Successes(done))
              && m.objs == old(m.objs) - Landed(done)
              && OnceOnly(done)
              && (forall a :: a in done ==> a.op == Deletion && CondemnedJob(old(m.objs), extra, a.key))
              && (PodKind in old(m.dark) ==> done == [])
              && (PodKind !in old(m.dark) ==> forall job :: job in Targets(done) <==> CondemnedJob(old(m.objs), extra, job))
    ensures m.live && PodKind !in old(m.dark) ==>
              exists pods :: IsListing(old(m.objs), PodKind, pods)
                             && Done(JobAim(old(m.objs), extra), Deletion, pods, m.log[|old(m.log)|..])
  {
    hide Done, CondemnedJob, JobAim, OnceOnly, Landed, Targets, Successes;
    if !m.live { return Refused; }
    var pods := m.List(PodKind);
    ghost var c, before := m.objs, m.log;
    assert PodKind in m.dark ==> pods == [] by { if pods != [] { assert pods[0] in pods; } }
    var actions;
    ghost var done;
    actions, done := DeleteBlamedJobs(m, extra, pods);
    assert m.log[|before|..] == done;
    AimsFromPods(c, extra);
    FullListing(c, JobAim(c, extra), Deletion, pods, done);
    forall job ensures job in JobAim(c, extra).Values <==> CondemnedJob(c, extra, job) { AimIsCondemned(c, extra, job); }
    return Acted(actions);
  }

  lemma AimsFromPods(c: View, extra: set<string>)
    ensures forall pod :: pod in JobAim(c, extra) ==> pod in c && pod.kind == PodKind
  {
  }

  // ---------- what follows ----------

  /** Where every deletion is accepted, each condemned Job is tried once and is gone. */
  lemma OncePerJob(c: View, extra: set<string>, log: seq<Attempt>)
    requires OnceOnly(log) && AllLanded(log)
    requires forall job :: job in Targets(log) <==> CondemnedJob(c, extra, job)
    ensures forall i, j :: 0 <= i < j < |log| ==> log[i].key != log[j].key
    ensures forall job :: job in Landed(log) <==> CondemnedJob(c, extra, job)
  {
  }

  lemma CondemnedBefore(c: View, extra: set<string>, gone: set<ObjKey>, job: ObjKey)
    requires CondemnedJob(c - gone, extra, job)
    ensures CondemnedJob(c, extra, job) && job !in gone
  {
    hide Protected, GitOpsManaged, MissingKey, FirstOwner;
    var pod :| Blames(c - gone, pod, job);
    assert Blames(c, pod, job);
  }

  /** Nothing is condemned in the cluster that a fully accepted run leaves. */
  lemma SecondRunFindsNothing(c: View, extra: set<string>, gone: set<ObjKey>, job: ObjKey)
    requires forall j :: j in gone <==> CondemnedJob(c, extra, j)
    ensures !CondemnedJob(c - gone, extra, job)
  {
    if CondemnedJob(c - gone, extra, job) { CondemnedBefore(c, extra, gone, job); }
  }
}
