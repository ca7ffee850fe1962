/**
The endpoint probe: one retry for failures that look transient, and a counter per
URL that keeps a first failure from paging anyone.
*/
module Endpoints {
  import opened Strings

  datatype Severity = Info | Warning | Critical

  datatype Finding = Finding(message: string, severity: Severity)

  /** What one check of a URL comes to. */
  datatype Outcome = Healthy | Failed(finding: Finding)

  // ---------- the two classes of failure ----------

  predicate Transient(f: Finding) {
    && Contains(f.message, "connection failed")
    && (|| Contains(f.message, "context deadline exceeded") || Contains(f.message, "connection reset by peer")
        || Contains(f.message, "EOF") || Contains(f.message, "no such host") || Contains(f.message, "i/o timeout"))
  }

  predicate Deterministic(f: Finding) {
    || Contains(f.message, "TLS verification failed")
    || (Contains(f.message, "expected ") && Contains(f.message, "HTTP "))
    || Contains(f.message, "invalid URL")
  }

  /** What a target comes to when a flake is given a second chance. The second check does not happen once the cycle is cancelled. */
  function Retried(first: Outcome, second: Outcome, retryOnFlake: bool, cancelled: bool): Outcome {
    if first.Healthy? || !retryOnFlake || !Transient(first.finding) || cancelled then first else second
  }

  // ---------- the history and what it says ----------

  /** One probe of one URL. */
  datatype Observation = Observation(url: string, ok: bool)

  /** Failures of the URL since it last succeeded. */
  function Streak(h: seq<Observation>, url: string): nat {
    if h == [] then 0
    else
      var last := h[|h| - 1];
      if last.url != url then Streak(h[..|h| - 1], url) else if last.ok then 0 else Streak(h[..|h| - 1], url) + 1
  }

  /** The results of one URL, oldest first. */
  function Own(h: seq<Observation>, url: string): seq<bool> {
    if h == [] then []
    else Own(h[..|h| - 1], url) + if h[|h| - 1].url == url then [h[|h| - 1].ok] else []
  }

  lemma StreakAppend(h: seq<Observation>, o: Observation)
    ensures forall url :: Streak(h + [o], url) == if o.url != url then Streak(h, url) else if o.ok then 0 else Streak(h, url) + 1
    ensures forall url :: Own(h + [o], url) == Own(h, url) + if o.url == url then [o.ok] else []
  {
  }

  /** The streak is the length of the longest failing tail of the URL's own results. */
  lemma {:induction false} StreakIsTheFailingTail(h: seq<Observation>, url: string)
    ensures var own, n := Own(h, url), Streak(h, url);
            && n <= |own|
            && (forall i :: |own| - n <= i < |own| ==> !own[i])
            && (n < |own| ==> own[|own| - n - 1])
    decreases |h|
  {
    if h != [] { StreakIsTheFailingTail(h[..|h| - 1], url); }
  }

  // ---------- the tracker ----------

  class StreakTracker {
    var counts: map<string, nat>
    /** Every probe ever recorded. */
    ghost var history: seq<Observation>

    ghost predicate Valid()
      reads this
    {
      forall url :: Count(url) == Streak(history, url)
    }

    function Count(url: string): nat
      reads this
    {
      if url in counts then counts[url] else 0
    }

    constructor ()
      ensures Valid() && history == []
    {
      counts, history := map[], [];
    }

    /** Counts a failure, forgets the URL on a success; answers the new count. */
    method Record(url: string, failed: bool) returns (n: nat)
      requires Valid()
      modifies this
      ensures Valid() && history == old(history) + [Observation(url, !failed)]
      ensures n == Streak(history, url)
    {
      StreakAppend(history, Observation(url, !failed));
      if failed {
        counts := counts[url := Count(url) + 1];
      } else {
        counts := counts - {url};
      }
      history := history + [Observation(url, !failed)];
      n := Count(url);
    }
  }

  /** The network: the outcomes of the checks to come, each with whether the cycle is cancelled after it. */
  class Network {
    var answers: seq<(Outcome, bool)>

    constructor (answers: seq<(Outcome, bool)>)
      ensures this.answers == answers
    {
      this.answers := answers;
    }

    /** One request. A network with nothing more to say answers with silence. */
    method Check() returns (o: Outcome, cancelled: bool)
      modifies this
      ensures (o, cancelled) == Answer(old(answers), 0)
      ensures answers == if old(answers) == [] then [] else old(answers)[1..]
    {
      var a := Answer(answers, 0);
      o, cancelled := a.0, a.1;
      answers := if answers == [] then [] else answers[1..];
    }
  }

  function Answer(answers: seq<(Outcome, bool)>, i: nat): (Outcome, bool) {
    if i < |answers| then answers[i] else (Failed(Finding("connection failed", Critical)), true)
  }

  /** How many checks a target takes, as things stand on the network. */
  function Checks(answers: seq<(Outcome, bool)>, retryOnFlake: bool): nat {
    var (first, cancelled) := Answer(answers, 0);
    if first.Failed? && retryOnFlake && Transient(first.finding) && !cancelled then 2 else 1
  }

  function After(answers: seq<(Outcome, bool)>, n: nat): seq<(Outcome, bool)> { if n <= |answers| then answers[n..] else [] }

  /** What the targets of a cycle come to, one after the other. */
  function OutcomesOf(answers: seq<(Outcome, bool)>, n: nat, retryOnFlake: bool): (seq<Outcome>, seq<(Outcome, bool)>) {
    if n == 0 then ([], answers)
    else
      var (front, left) := OutcomesOf(answers, n - 1, retryOnFlake);
      var (first, cancelled) := Answer(left, 0);
      (front + [Retried(first, Answer(left, 1).0, retryOnFlake, cancelled)], After(left, Checks(left, retryOnFlake)))
  }

  method ProbeWithRetry(net: Network, retryOnFlake: bool) returns (o: Outcome)
    modifies net
    ensures var a := old(net.answers);
            && o == Retried(Answer(a, 0).0, Answer(a, 1).0, retryOnFlake, Answer(a, 0).1)
            && net.answers == After(a, Checks(a, retryOnFlake))
  {
    var first, cancelled := net.Check();
    if first.Healthy? || !retryOnFlake || !Transient(first.finding) { return first; }
    if cancelled { return first; }
    var second, _ := net.Check();
    if second.Healthy? { return Healthy; }
    return second;
  }

  /** A second check helps a flake and nothing else, and it has the last word. */
  lemma RetryExactly(first: Outcome, second: Outcome, retryOnFlake: bool, cancelled: bool)
    ensures var o := Retried(first, second, retryOnFlake, cancelled);
            && (o.Healthy? <==> first.Healthy? || (retryOnFlake && !cancelled && Transient(first.finding) && second.Healthy?))
            && (o.Failed? ==> o == second || (o == first && !(retryOnFlake && !cancelled && Transient(first.finding))))
            && (first.Failed? && retryOnFlake && !cancelled && Transient(first.finding) ==> o == second)
    ensures forall rest :: Checks([(first, cancelled)] + rest, retryOnFlake)
              == if first.Healthy? || !retryOnFlake || cancelled || !Transient(first.finding) then 1 else 2
  {
    hide Transient;
  }

  lemma ContainsPart(before: string, part: string, after: string)
    ensures Contains(before + part + after, part)
  {
    var s := before + part + after;
    if before == "" {
      assert s == part + after;
    } else {
      ContainsPart(before[1..], part, after);
      assert s[1..] == before[1..] + part + after;
    }
  }

  /** Which messages tell of a failure that another try cannot mend, whatever stands around these words. */
  lemma DeterministicMessages(a: string, b: string, c: string, severity: Severity)
    ensures Deterministic(Finding(a + "TLS verification failed" + b, severity))
    ensures Deterministic(Finding(a + "invalid URL" + b, severity))
    ensures Deterministic(Finding(a + "HTTP " + b + "expected " + c, severity))
  {
    ContainsPart(a, "TLS verification failed", b);
    ContainsPart(a, "invalid URL", b);
    ContainsPart(a, "HTTP ", b + "expected " + c);
    ContainsPart(a + "HTTP " + b, "expected ", c);
    hide Contains;
    assert a + "HTTP " + (b + "expected " + c) == a + "HTTP " + b + "expected " + c;
  }

  /** Which messages tell of a failure that may pass: a connection that failed for one of five reasons. */
  lemma TransientMessages(a: string, b: string, c: string, severity: Severity)
    ensures Transient(Finding(a + "connection failed" + b + "context deadline exceeded" + c, severity))
    ensures Transient(Finding(a + "connection failed" + b + "connection reset by peer" + c, severity))
    ensures Transient(Finding(a + "connection failed" + b + "EOF" + c, severity))
    ensures Transient(Finding(a + "connection failed" + b + "no such host" + c, severity))
    ensures Transient(Finding(a + "connection failed" + b + "i/o timeout" + c, severity))
  {
    hide Contains;
    TwoParts(a, b, "context deadline exceeded", c);
    TwoParts(a, b, "connection reset by peer", c);
    TwoParts(a, b, "EOF", c);
    TwoParts(a, b, "no such host", c);
    TwoParts(a, b, "i/o timeout", c);
  }

  /** And no other message tells of either. */
  lemma NoOtherMessages(f: Finding)
    requires !Contains(f.message, "TLS verification failed") && !Contains(f.message, "invalid URL")
    ensures !Contains(f.message, "HTTP ") || !Contains(f.message, "expected ") ==> !Deterministic(f)
    ensures !Contains(f.message, "connection failed") ==> !Transient(f)
    ensures (&& !Contains(f.message, "context deadline exceeded") && !Contains(f.message, "connection reset by peer")
             && !Contains(f.message, "EOF") && !Contains(f.message, "no such host") && !Contains(f.message, "i/o timeout")) ==> !Transient(f)
  {
    hide Contains;
  }

  lemma TwoParts(a: string, b: string, reason: string, c: string)
    ensures var m := a + "connection failed" + b + reason + c; Contains(m, "connection failed") && Contains(m, reason)
  {
    hide Contains;
    ContainsPart(a, "connection failed", b + reason + c);
    ContainsPart(a + "connection failed" + b, reason, c);
    assert a + "connection failed" + (b + reason + c) == a + "connection failed" + b + reason + c;
  }

  // ---------- one cycle ----------

  datatype Status = StatusHealthy | StatusCritical | StatusSkipped

  datatype CycleReport = CycleReport(findings: seq<Finding>, healthy: nat, suppressed: nat, issues: nat, status: Status)

  /** What is reported of a failing URL whose streak, this failure included, is `streak`. */
  function Reported(f: Finding, streak: nat, minStreak: nat): Finding {
    if Deterministic(f) then f
    else if streak < minStreak then Finding("[transient] " + f.message, Warning)
    else f.(severity := Critical)
  }

  function Observations(urls: seq<string>, outcomes: seq<Outcome>): seq<Observation>
    requires |urls| == |outcomes|
  {
    seq(|urls|, i requires 0 <= i < |urls| => Observation(urls[i], outcomes[i].Healthy?))
  }

  /** The declarative content of a cycle's findings: one per failing target, judged by the whole history up to it. */
  function Findings(h: seq<Observation>, urls: seq<string>, outcomes: seq<Outcome>, minStreak: nat): seq<Finding>
    requires |urls| == |outcomes|
  {
    if urls == [] then []
    else
      var n := |urls| - 1;
      Findings(h, urls[..n], outcomes[..n], minStreak)
      + if outcomes[n].Healthy? then []
        else [Reported(outcomes[n].finding, Streak(h + Observations(urls, outcomes), urls[n]), minStreak)]
  }

  /** Whether a failing URL is reported as an issue, not merely noted. */
  predicate Pages(f: Finding, streak: nat, minStreak: nat) { Deterministic(f) || streak >= minStreak }

  /** How many targets page. */
  function Paging(h: seq<Observation>, urls: seq<string>, outcomes: seq<Outcome>, minStreak: nat): nat
    requires |urls| == |outcomes|
  {
    if urls == [] then 0
    else
      var n := |urls| - 1;
      Paging(h, urls[..n], outcomes[..n], minStreak)
      + if outcomes[n].Failed? && Pages(outcomes[n].finding, Streak(h + Observations(urls, outcomes), urls[n]), minStreak) then 1 else 0
  }

  lemma CycleAppend(h: seq<Observation>, urls: seq<string>, outcomes: seq<Outcome>, minStreak: nat, url: string, o: Outcome)
    requires |urls| == |outcomes|
    ensures Observations(urls + [url], outcomes + [o]) == Observations(urls, outcomes) + [Observation(url, o.Healthy?)]
    ensures Findings(h, urls + [url], outcomes + [o], minStreak)
         == Findings(h, urls, outcomes, minStreak)
            + if o.Healthy? then []
              else [Reported(o.finding, Streak(h + Observations(urls + [url], outcomes + [o]), url), minStreak)]
    ensures Paging(h, urls + [url], outcomes + [o], minStreak)
         == Paging(h, urls, outcomes, minStreak)
            + if o.Failed? && Pages(o.finding, Streak(h + Observations(urls + [url], outcomes + [o]), url), minStreak) then 1 else 0
  {
  }

  /**
  What is said of a failing target: a failure that another try cannot mend as it was probed; any other
  as a warning while the URL has failed fewer times in a row than it takes, and from then on as critical.
  */
  predicate Told(probed: Finding, streak: nat, minStreak: nat, told: Finding) {
    && (Deterministic(probed) ==> told == probed)
    && (!Deterministic(probed) ==>
          && (told.severity == Warning <==> streak < minStreak)
          && (told.severity == Critical <==> streak >= minStreak)
          && (streak >= minStreak ==> told.message == probed.message))
  }

  /** The findings are those of the failing targets, in their order; `at` holds their positions. */
  ghost predicate ToldOf(h: seq<Observation>, urls: seq<string>, outcomes: seq<Outcome>, minStreak: nat, findings: seq<Finding>, at: seq<nat>)
    requires |urls| == |outcomes|
  {
    && |at| == |findings|
    && (forall j :: 0 <= j < |at| ==> at[j] < |urls|)
    && (forall i, j :: 0 <= i < j < |at| ==> at[i] < at[j])
    && (forall i :: 0 <= i < |urls| && outcomes[i].Failed? ==> i in at)
    && (forall j :: 0 <= j < |at| ==> ToldAt(h, urls, outcomes, minStreak, findings[j], at[j]))
  }

  /** The finding is about this failing target, by the streak its URL had come to at that probe. */
  predicate ToldAt(h: seq<Observation>, urls: seq<string>, outcomes: seq<Outcome>, minStreak: nat, told: Finding, i: nat)
    requires |urls| == |outcomes|
  {
    && i < |urls| && outcomes[i].Failed?
    && Told(outcomes[i].finding, Streak(h + Observations(urls[..i + 1], outcomes[..i + 1]), urls[i]), minStreak, told)
  }

  lemma {:induction false} FindingsTell(h: seq<Observation>, urls: seq<string>, outcomes: seq<Outcome>, minStreak: nat) returns (at: seq<nat>)
    requires |urls| == |outcomes|
    ensures ToldOf(h, urls, outcomes, minStreak, Findings(h, urls, outcomes, minStreak), at)
    decreases |urls|
  {
    hide Told, Streak, Observations, Deterministic;
    at := [];
    if urls != [] {
      var n := |urls| - 1;
      var front := FindingsTell(h, urls[..n], outcomes[..n], minStreak);
      var told := Findings(h, urls[..n], outcomes[..n], minStreak);
      forall j | 0 <= j < |front| ensures ToldAt(h, urls, outcomes, minStreak, told[j], front[j]) {
        assert urls[..n][..front[j] + 1] == urls[..front[j] + 1] && outcomes[..n][..front[j] + 1] == outcomes[..front[j] + 1];
      }
      if outcomes[n].Healthy? {
        at := front;
      } else {
        at := front + [n];
        assert urls[..n + 1] == urls && outcomes[..n + 1] == outcomes;
        ReportedIsTold(outcomes[n].finding, Streak(h + Observations(urls, outcomes), urls[n]), minStreak);
        assert n in at && forall i :: i in front ==> i in at;
      }
    }
  }

  lemma ReportedIsTold(f: Finding, streak: nat, minStreak: nat)
    ensures Told(f, streak, minStreak, Reported(f, streak, minStreak))
  {
    hide Deterministic;
  }

  /** A target that fails for good, or has failed often enough. */
  predicate PagesAt(h: seq<Observation>, urls: seq<string>, outcomes: seq<Outcome>, minStreak: nat, i: nat)
    requires |urls| == |outcomes| && i < |urls|
  {
    && outcomes[i].Failed?
    && (Deterministic(outcomes[i].finding) || Streak(h + Observations(urls[..i + 1], outcomes[..i + 1]), urls[i]) >= minStreak)
  }

  ghost predicate AnyPages(h: seq<Observation>, urls: seq<string>, outcomes: seq<Outcome>, minStreak: nat)
    requires |urls| == |outcomes|
  {
    exists i :: 0 <= i < |urls| && PagesAt(h, urls, outcomes, minStreak, i)
  }

  lemma {:induction false} PagingIsAny(h: seq<Observation>, urls: seq<string>, outcomes: seq<Outcome>, minStreak: nat)
    requires |urls| == |outcomes|
    ensures Paging(h, urls, outcomes, minStreak) > 0 <==> AnyPages(h, urls, outcomes, minStreak)
    decreases |urls|
  {
    hide Streak, Observations, Deterministic;
    if urls != [] {
      var n := |urls| - 1;
      PagingIsAny(h, urls[..n], outcomes[..n], minStreak);
      assert urls[..n + 1] == urls && outcomes[..n + 1] == outcomes;
      forall i | 0 <= i < n ensures PagesAt(h, urls, outcomes, minStreak, i) <==> PagesAt(h, urls[..n], outcomes[..n], minStreak, i) {
        assert urls[..n][..i + 1] == urls[..i + 1] && outcomes[..n][..i + 1] == outcomes[..i + 1];
      }
      AnyNext(h, urls, outcomes, minStreak);
    }
  }

  lemma AnyNext(h: seq<Observation>, urls: seq<string>, outcomes: seq<Outcome>, minStreak: nat)
    requires |urls| == |outcomes| > 0
    requires var n := |urls| - 1;
             forall i :: 0 <= i < n ==> (PagesAt(h, urls, outcomes, minStreak, i) <==> PagesAt(h, urls[..n], outcomes[..n], minStreak, i))
    ensures var n := |urls| - 1;
            AnyPages(h, urls, outcomes, minStreak) <==> AnyPages(h, urls[..n], outcomes[..n], minStreak) || PagesAt(h, urls, outcomes, minStreak, n)
  {
    hide PagesAt;
  }

  function NumberOf(findings: seq<Finding>, severity: Severity): nat {
    if findings == [] then 0
    else NumberOf(findings[..|findings| - 1], severity) + if findings[|findings| - 1].severity == severity then 1 else 0
  }

  lemma NumberAppend(findings: seq<Finding>, f: Finding)
    ensures forall severity :: NumberOf(findings + [f], severity) == NumberOf(findings, severity) + if f.severity == severity then 1 else 0
  {
  }

  /** Where every failure may pass, the warnings and the criticals are those noted and those that page. */
  lemma {:induction false} SeveritiesAddUp(h: seq<Observation>, urls: seq<string>, outcomes: seq<Outcome>, minStreak: nat)
    requires |urls| == |outcomes|
    requires forall o :: o in outcomes && o.Failed? ==> !Deterministic(o.finding)
    ensures var findings := Findings(h, urls, outcomes, minStreak);
            && NumberOf(findings, Critical) == Paging(h, urls, outcomes, minStreak)
            && NumberOf(findings, Warning) == |findings| - Paging(h, urls, outcomes, minStreak)
    decreases |urls|
  {
    hide Deterministic, Streak, Observations, Findings, Paging;
    NothingYet(h, minStreak);
    if urls == [] {
      assert outcomes == [];
    } else {
      var n := |urls| - 1;
      var front, o := Findings(h, urls[..n], outcomes[..n], minStreak), outcomes[n];
      assert o in outcomes && forall x :: x in outcomes[..n] ==> x in outcomes;
      SeveritiesAddUp(h, urls[..n], outcomes[..n], minStreak);
      CycleAppend(h, urls[..n], outcomes[..n], minStreak, urls[n], o);
      assert urls == urls[..n] + [urls[n]] && outcomes == outcomes[..n] + [o];
      if o.Failed? {
        var told := Reported(o.finding, Streak(h + Observations(urls, outcomes), urls[n]), minStreak);
        NumberAppend(front, told);
      } else {
        assert front + [] == front;
      }
    }
  }

  /**
  A cycle over the targets. Its counters refine the history: what it reports of a
  target depends only on the failures of that URL since its last success.
  */
  method Run(tracker: StreakTracker, net: Network, urls: seq<string>, minConsecutiveFailures: int, retryOnFlake: bool)
    returns (r: CycleReport, ghost outcomes: seq<Outcome>)
    requires tracker.Valid()
    modifies tracker, net
    ensures |outcomes| == |urls| && (outcomes, net.answers) == OutcomesOf(old(net.answers), |urls|, retryOnFlake)
    ensures exists at :: ToldOf(old(tracker.history), urls, outcomes, MinStreak(minConsecutiveFailures), r.findings, at)
    ensures (forall o :: o in outcomes && o.Failed? ==> !Deterministic(o.finding)) ==>
              NumberOf(r.findings, Warning) == r.suppressed && NumberOf(r.findings, Critical) == r.issues
    ensures tracker.Valid() && tracker.history == old(tracker.history) + Observations(urls, outcomes)
    ensures r.findings == Findings(old(tracker.history), urls, outcomes, MinStreak(minConsecutiveFailures))
    ensures r.healthy + r.suppressed + r.issues == |urls| && |r.findings| == r.suppressed + r.issues
    ensures r.issues == Paging(old(tracker.history), urls, outcomes, MinStreak(minConsecutiveFailures))
    ensures r.status.StatusCritical? <==> AnyPages(old(tracker.history), urls, outcomes, MinStreak(minConsecutiveFailures))
    ensures (r.status.StatusCritical? <==> r.issues > 0) && (r.status.StatusSkipped? <==> urls == [])
  {
    hide Contains, Deterministic, Transient, Streak, Findings, Paging, Observations, Retried, ToldOf, NumberOf, After, Checks, AnyPages;
    var minStreak := MinStreak(minConsecutiveFailures);
    hide MinStreak;
    ghost var before, answers := tracker.history, net.answers;
    outcomes := [];
    var findings, healthy, suppressed, issues := [], 0, 0, 0;
    NothingYet(before, minStreak);
    for i := 0 to |urls|
      invariant |outcomes| == i && tracker.Valid() && (outcomes, net.answers) == OutcomesOf(answers, i, retryOnFlake)
      invariant tracker.history == before + Observations(urls[..i], outcomes)
      invariant findings == Findings(before, urls[..i], outcomes, minStreak)
      invariant issues == Paging(before, urls[..i], outcomes, minStreak)
      invariant healthy + suppressed + issues == i && |findings| == suppressed + issues
    {
      var url := urls[i];
      assert urls[..i + 1] == urls[..i] + [url];
      var o := ProbeWithRetry(net, retryOnFlake);
      CycleAppend(before, urls[..i], outcomes, minStreak, url, o);
      ghost var so_far := Observations(urls[..i], outcomes);
      assert (before + so_far) + [Observation(url, o.Healthy?)] == before + (so_far + [Observation(url, o.Healthy?)]);
      outcomes := outcomes + [o];
      if o.Healthy? {
        var _ := tracker.Record(url, false);
        healthy := healthy + 1;
        continue;
      }
      var finding := o.finding;
      if Deterministic(finding) {
        findings := findings + [finding];
        issues := issues + 1;
        var _ := tracker.Record(url, true);
        continue;
      }
      var streak := tracker.Record(url, true);
      if streak < minStreak {
        findings := findings + [Finding("[transient] " + finding.message, Warning)];
        suppressed := suppressed + 1;
        continue;
      }
      findings := findings + [finding.(severity := Critical)];
      issues := issues + 1;
    }
    assert urls[..|urls|] == urls;
    ghost var at := FindingsTell(before, urls, outcomes, minStreak);
    PagingIsAny(before, urls, outcomes, minStreak);
    if forall o :: o in outcomes && o.Failed? ==> !Deterministic(o.finding) { SeveritiesAddUp(before, urls, outcomes, minStreak); }
    if urls == [] { return CycleReport([], 0, 0, 0, StatusSkipped), outcomes; }
    r := CycleReport(findings, healthy, suppressed, issues, if issues == 0 then StatusHealthy else StatusCritical);
  }

  lemma NothingYet(h: seq<Observation>, minStreak: nat)
    ensures h + Observations([], []) == h && Findings(h, [], [], minStreak) == [] && Paging(h, [], [], minStreak) == 0
  {
  }

  function MinStreak(configured: int): nat { if configured < 1 then 2 else configured }

  /** Two failures in a row page, unless a number is given. */
  lemma ThresholdIs(configured: int)
    ensures configured >= 1 ==> MinStreak(configured) == configured
    ensures configured <= 0 ==> MinStreak(configured) == 2
  {
  }

  // ---------- cycles ----------

  /** One cycle's observations. */
  type Cycle = seq<Observation>

  function Flatten(cycles: seq<Cycle>): seq<Observation> {
    if cycles == [] then [] else Flatten(cycles[..|cycles| - 1]) + cycles[|cycles| - 1]
  }

  predicate Probed(c: Cycle, url: string) { exists o :: o in c && o.url == url }

  predicate FailedIn(c: Cycle, url: string) { Observation(url, false) in c }

  /** In this cycle the URL failed in its one probe, if it failed at all. */
  predicate FailsAlone(c: Cycle, url: string) { FailedIn(c, url) ==> |Own(c, url)| == 1 }

  /** Failing cycles of a URL since it last succeeded, counting only the cycles that probed it. */
  function CycleStreak(cycles: seq<Cycle>, url: string): nat {
    if cycles == [] then 0
    else
      var last, before := cycles[|cycles| - 1], cycles[..|cycles| - 1];
      if !Probed(last, url) then CycleStreak(before, url)
      else if FailedIn(last, url) then CycleStreak(before, url) + 1
      else 0
  }

  // ---------- the counter in terms of cycles ----------

  function FailingTail(own: seq<bool>): nat {
    if own == [] || own[|own| - 1] then 0 else FailingTail(own[..|own| - 1]) + 1
  }

  lemma {:induction false} StreakByOwn(h: seq<Observation>, url: string)
    ensures Streak(h, url) == FailingTail(Own(h, url))
    decreases |h|
  {
    if h != [] {
      var front, last := h[..|h| - 1], h[|h| - 1];
      StreakByOwn(front, url);
      var own := Own(front, url) + if last.url == url then [last.ok] else [];
      assert own == Own(h, url) && (last.url == url ==> own[..|own| - 1] == Own(front, url)) && (last.url != url ==> own == Own(front, url));
    }
  }

  lemma {:induction false} OwnConcat(h: seq<Observation>, c: seq<Observation>, url: string)
    ensures Own(h + c, url) == Own(h, url) + Own(c, url)
    decreases |c|
  {
    if c == [] {
      assert h + c == h;
    } else {
      assert (h + c)[..|h + c| - 1] == h + c[..|c| - 1];
      OwnConcat(h, c[..|c| - 1], url);
    }
  }

  lemma {:induction false} TailConcat(a: seq<bool>, b: seq<bool>)
    ensures FailingTail(a + b) == if true in b then FailingTail(b) else FailingTail(a) + |b|
    decreases |b|
  {
    if b == [] {
      assert a + b == a;
    } else {
      var front, last := b[..|b| - 1], b[|b| - 1];
      assert (a + b)[..|a + b| - 1] == a + front && b == front + [last];
      TailConcat(a, front);
    }
  }

  lemma {:induction false} OwnHolds(c: Cycle, url: string)
    ensures Own(c, url) != [] <==> Probed(c, url)
    ensures forall ok :: ok in Own(c, url) <==> Observation(url, ok) in c
    decreases |c|
  {
    if c != [] {
      var front, last := c[..|c| - 1], c[|c| - 1];
      assert c == front + [last];
      OwnHolds(front, url);
    }
  }

  /** What a cycle does to the counter should be: nothing if it did not probe the URL, one more if that failed, and else back to zero. */
  ghost predicate CountsAsOne(c: Cycle, url: string, h: seq<Observation>) {
    Streak(h + c, url) == if !Probed(c, url) then Streak(h, url) else if FailedIn(c, url) then Streak(h, url) + 1 else 0
  }

  lemma CycleByOwn(h: seq<Observation>, c: Cycle, url: string)
    ensures Streak(h + c, url) == if true in Own(c, url) then FailingTail(Own(c, url)) else Streak(h, url) + |Own(c, url)|
  {
    StreakByOwn(h + c, url);
    StreakByOwn(h, url);
    OwnConcat(h, c, url);
    TailConcat(Own(h, url), Own(c, url));
  }

  lemma NoFailures(own: seq<bool>)
    requires false !in own
    ensures FailingTail(own) == 0
  {
    if own != [] { assert own[|own| - 1] in own; }
  }

  /** Whatever the counter stood at, a cycle counts as one exactly if the URL, where it failed, was probed once. */
  lemma OneCycle(c: Cycle, url: string)
    ensures (forall h :: CountsAsOne(c, url, h)) <==> FailsAlone(c, url)
  {
    hide Streak, Own, FailingTail, Probed;
    var own := Own(c, url);
    OwnHolds(c, url);
    if FailsAlone(c, url) {
      if false in own { assert own == [false]; } else { NoFailures(own); }
      forall h ensures CountsAsOne(c, url, h) {
        CycleByOwn(h, c, url);
        if own != [] && false !in own {
          assert own[0] in own && own[0];
          assert true in own;
        }
      }
    } else {
      var one := [Observation(url, false)];
      StreakAppend([], one[0]);
      assert [] + [one[0]] == one;
      CycleByOwn([], c, url);
      CycleByOwn(one, c, url);
      NoStreak(url);
      assert !CountsAsOne(c, url, []) || !CountsAsOne(c, url, one);
    }
  }

  lemma NoStreak(url: string)
    ensures Streak([], url) == 0
  {
  }

  /**
  Over cycles in which the URL, where it failed, was probed once, the counter is the number of
  failing cycles since the last good one among those that probed it.
  */
  lemma {:induction false} CountersCountCycles(cycles: seq<Cycle>, url: string)
    requires forall c :: c in cycles ==> FailsAlone(c, url)
    ensures Streak(Flatten(cycles), url) == CycleStreak(cycles, url)
    decreases |cycles|
  {
    if cycles != [] {
      var before, last := cycles[..|cycles| - 1], cycles[|cycles| - 1];
      CountersCountCycles(before, url);
      OneCycle(last, url);
      assert CountsAsOne(last, url, Flatten(before));
    }
  }

  /** A URL listed twice pages in its first bad cycle, where by itself it would have been noted and no more. */
  method ListedTwiceCountsTwice(net: Network, url: string, retryOnFlake: bool, n: nat) returns (r: CycleReport, ghost outcomes: seq<Outcome>)
    requires 1 <= n <= 2
    modifies net
    ensures |outcomes| == n
    ensures (forall o :: o in outcomes ==> o.Failed? && !Deterministic(o.finding)) ==> r.suppressed == 1 && r.issues == n - 1
  {
    hide Contains, Deterministic, ToldOf, NumberOf, Findings, Paging, Observations, OutcomesOf, Streak, AnyPages;
    var tracker := new StreakTracker();
    var urls := if n == 1 then [url] else [url, url];
    r, outcomes := Run(tracker, net, urls, 0, retryOnFlake);
    if forall o :: o in outcomes ==> o.Failed? && !Deterministic(o.finding) { BadCycle(url, urls, outcomes); }
  }

  lemma BadCycle(url: string, urls: seq<string>, outcomes: seq<Outcome>)
    requires urls == [url] || urls == [url, url]
    requires |outcomes| == |urls| && forall o :: o in outcomes ==> o.Failed? && !Deterministic(o.finding)
    ensures Paging([], urls, outcomes, MinStreak(0)) == |urls| - 1
    ensures |Findings([], urls, outcomes, MinStreak(0))| == |urls|
  {
    hide Deterministic, Reported;
    var o, one := Observation(url, false), [outcomes[0]];
    NoStreak(url);
    NothingYet([], 2);
    CycleAppend([], [], [], 2, url, outcomes[0]);
    assert [] + [url] == [url] && [] + [outcomes[0]] == one && [] + [o] == [o];
    StreakAppend([], o);
    if urls == [url, url] {
      CycleAppend([], [url], one, 2, url, outcomes[1]);
      assert [url] + [url] == urls && one + [outcomes[1]] == outcomes;
      StreakAppend([o], o);
      assert [] + ([o] + [o]) == [o] + [o];
    } else {
      assert one == outcomes;
    }
  }
}
