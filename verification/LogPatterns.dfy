/**
The event aggregator: one diagnostic for each object and pattern, counting every
matching event, and the escalation of failures that do not heal.
*/
module LogPatterns {
  import opened Options
  import opened Totals

  datatype Severity = Warning | Critical

  datatype Pattern = Pattern(tag: string, severity: Severity, escalates: bool)

  const PATTERNS := [
    Pattern("ImagePullBackOff", Critical, false), Pattern("OOMKilled", Warning, false), Pattern("ProbeFailed", Warning, true),
    Pattern("VolumeAttachFailed", Critical, false), Pattern("Forbidden", Warning, false)]

  /** An event about an object; `matches` are the labels whose expression finds its message. The counts are those recorded, if any. */
  datatype Event = Event(
    message: string, kind: string, ns: string, name: string, matches: set<string>, count: Option<int>, seriesCount: Option<int>)

  datatype Key = Key(kind: string, ns: string, name: string, tag: string)

  /** The readiness and restarts of a pod's containers; no pod if it cannot be read. */
  datatype Container = Container(ready: bool, restarts: int)

  type Pods = map<(string, string), seq<Container>>

  datatype Diagnostic = Diagnostic(key: Key, severity: Severity)

  /** How often an event stands for itself. */
  function Occurrences(e: Event): (n: nat)
    ensures n >= 1
  {
    if e.count.Some? && e.count.value > 0 then e.count.value
    else if e.seriesCount.Some? && e.seriesCount.value > 0 then e.seriesCount.value
    else 1
  }

  predicate Eligible(e: Event) { e.message != "" && e.kind != "" && e.name != "" }

  function KeyOf(e: Event, p: Pattern): Key { Key(e.kind, e.ns, e.name, p.tag) }

  /** What one event adds: an entry for every pattern it matches, in pattern order. */
  function EntriesUpTo(e: Event, n: nat): seq<Entry<Key>>
    requires n <= |PATTERNS|
  {
    if n == 0 then []
    else
      EntriesUpTo(e, n - 1)
      + if PATTERNS[n - 1].tag in e.matches then [Entry(KeyOf(e, PATTERNS[n - 1]), Occurrences(e))] else []
  }

  function Added(e: Event): seq<Entry<Key>> { if Eligible(e) then EntriesUpTo(e, |PATTERNS|) else [] }

  /** Everything that is to be counted. */
  function Entries(events: seq<Event>): seq<Entry<Key>> { Gather(events, Added) }

  method Aggregate(events: seq<Event>) returns (order: seq<Key>, counts: map<Key, nat>)
    ensures Counted(order, counts, Entries(events))
  {
    hide Counted, Eligible, Occurrences;
    order, counts := [], map[];
    CountedStart<Key>();
    ghost var es: seq<Entry<Key>> := [];
    for i := 0 to |events|
      invariant es == Entries(events[..i]) && Counted(order, counts, es)
      invariant forall k :: k in order <==> k in counts
    {
      assert events[..i + 1][..i] == events[..i];
      var e := events[i];
      if !Eligible(e) { continue; }
      ghost var before := es;
      for n := 0 to |PATTERNS|
        invariant es == before + EntriesUpTo(e, n) && Counted(order, counts, es)
        invariant forall k :: k in order <==> k in counts
      {
        if PATTERNS[n].tag !in e.matches { continue; }
        var k := KeyOf(e, PATTERNS[n]);
        ghost var entry := Entry(k, Occurrences(e));
        CountedNext(order, counts, es, entry);
        es := es + [entry];
        if k in counts {
          counts := counts[k := counts[k] + Occurrences(e)];
        } else {
          counts, order := counts[k := Occurrences(e)], order + [k];
        }
      }
    }
    assert events[..|events|] == events;
  }

  const RECURRENCE := 5
  const RESTARTS := 3

  /** The live pod says it has not recovered. */
  predicate Unwell(pods: Pods, k: Key) {
    k.kind == "Pod" && k.ns != "" && k.name != "" && (k.ns, k.name) in pods
    && exists c :: c in pods[(k.ns, k.name)] && (!c.ready || c.restarts >= RESTARTS)
  }

  /** Whether any container is not ready, and the most restarts of any. */
  method HealthSignals(cs: seq<Container>) returns (notReady: bool, maxRestarts: int)
    ensures notReady <==> exists c :: c in cs && !c.ready
    ensures maxRestarts >= RESTARTS <==> exists c :: c in cs && c.restarts >= RESTARTS
  {
    notReady, maxRestarts := false, 0;
    for i := 0 to |cs|
      invariant notReady <==> exists j :: 0 <= j < i && !cs[j].ready
      invariant maxRestarts >= 0 && (maxRestarts >= RESTARTS <==> exists j :: 0 <= j < i && cs[j].restarts >= RESTARTS)
    {
      if !cs[i].ready { notReady := true; }
      if cs[i].restarts > maxRestarts { maxRestarts := cs[i].restarts; }
    }
    assert forall j :: 0 <= j < |cs| ==> cs[j] in cs;
  }

  method Escalated(pods: Pods, k: Key, occurrences: nat, base: Severity) returns (s: Severity)
    ensures s == if occurrences >= RECURRENCE || Unwell(pods, k) then Critical else base
  {
    if occurrences >= RECURRENCE { return Critical; }
    if k.kind != "Pod" || k.ns == "" || k.name == "" {
      return base;
    }
    if (k.ns, k.name) !in pods { return base; }
    var notReady, maxRestarts := HealthSignals(pods[(k.ns, k.name)]);
    if notReady || maxRestarts >= RESTARTS { return Critical; }
    return base;
  }

  function PatternOf(tag: string): Pattern {
    if tag == "ImagePullBackOff" then PATTERNS[0] else if tag == "OOMKilled" then PATTERNS[1]
    else if tag == "ProbeFailed" then PATTERNS[2] else if tag == "VolumeAttachFailed" then PATTERNS[3] else PATTERNS[4]
  }

  /** How grave an object's pattern is, from everything counted for it and the live pod. */
  function SeverityOf(pods: Pods, k: Key, total: nat): Severity {
    var p := PatternOf(k.tag);
    if p.escalates && (total >= RECURRENCE || Unwell(pods, k)) then Critical else p.severity
  }

  /**
  One diagnostic for each object and pattern that some event matches, as grave as the
  sum of its events' counts and the live pod make it.
  */
  ghost predicate Reports(out: seq<Diagnostic>, events: seq<Event>, pods: Pods) {
    && (forall i, j :: 0 <= i < j < |out| ==> out[i].key != out[j].key)
    && (forall k :: (exists d :: d in out && d.key == k) <==> Has(Entries(events), k))
    && (forall d :: d in out ==> d.severity == SeverityOf(pods, d.key, Total(Entries(events), d.key)))
  }

  method Run(events: seq<Event>, pods: Pods) returns (out: seq<Diagnostic>)
    ensures Reports(out, events, pods)
  {
    hide Unwell, PatternOf;
    var order, counts := Aggregate(events);
    out := [];
    for i := 0 to |order|
      invariant |out| == i
      invariant forall j :: 0 <= j < i ==> out[j] == Diagnostic(order[j], SeverityOf(pods, order[j], Total(Entries(events), order[j])))
    {
      var k := order[i];
      assert k in counts;
      var p := PatternOf(k.tag);
      var severity := p.severity;
      if p.escalates { severity := Escalated(pods, k, counts[k], p.severity); }
      out := out + [Diagnostic(k, severity)];
    }
    forall k ensures (exists d :: d in out && d.key == k) <==> k in order {
      if k in order {
        var i :| 0 <= i < |order| && order[i] == k;
        assert out[i] in out;
      }
    }
  }

  // ---------- what counts, and how much ----------

  /** The event with no count recorded. */
  function Single(e: Event): Event { e.(count := None, seriesCount := None) }

  function Copies(e: Event, n: nat): seq<Event> { seq(n, i requires 0 <= i < n => e) }

  /** The object and pattern of the key are those of an event that has them and a message. */
  predicate Matches(e: Event, k: Key) {
    && e.message != "" && e.kind != "" && e.name != "" && k == Key(e.kind, e.ns, e.name, k.tag)
    && k.tag in {"ImagePullBackOff", "OOMKilled", "ProbeFailed", "VolumeAttachFailed", "Forbidden"} && k.tag in e.matches
  }

  /** Times `n`, if the event has anything to do with the key. */
  function Weight(e: Event, k: Key, n: nat): nat { if Matches(e, k) then n else 0 }

  predicate Listed(tag: string, n: nat)
    requires n <= |PATTERNS|
  {
    exists i :: 0 <= i < n && PATTERNS[i].tag == tag
  }

  lemma AddedWeighs(e: Event, k: Key)
    ensures Has(Added(e), k) <==> Matches(e, k)
    ensures Total(Added(e), k) == Weight(e, k, Occurrences(e))
  {
    hide Occurrences, Has, Total, Listed;
    if Eligible(e) {
      EntriesWeigh(e, k, |PATTERNS|);
      TagsAre(k.tag);
    } else {
      Nothing(k);
    }
  }

  lemma Nothing(k: Key)
    ensures !Has([], k) && Total([], k) == 0
  {
  }

  lemma TagsAre(tag: string)
    ensures Listed(tag, |PATTERNS|) <==> tag in {"ImagePullBackOff", "OOMKilled", "ProbeFailed", "VolumeAttachFailed", "Forbidden"}
  {
    assert PATTERNS[0].tag == "ImagePullBackOff" && PATTERNS[1].tag == "OOMKilled" && PATTERNS[2].tag == "ProbeFailed";
    assert PATTERNS[3].tag == "VolumeAttachFailed" && PATTERNS[4].tag == "Forbidden";
  }

  lemma TagsAreDistinct()
    ensures forall i, j :: 0 <= i < j < |PATTERNS| ==> PATTERNS[i].tag != PATTERNS[j].tag
  {
  }

  lemma {:induction false} EntriesWeigh(e: Event, k: Key, n: nat)
    requires n <= |PATTERNS|
    ensures Has(EntriesUpTo(e, n), k) <==> Listed(k.tag, n) && k.tag in e.matches && k == Key(e.kind, e.ns, e.name, k.tag)
    ensures Total(EntriesUpTo(e, n), k) == if Has(EntriesUpTo(e, n), k) then Occurrences(e) else 0
    decreases n
  {
    Nothing(k);
    if n > 0 {
      EntriesWeigh(e, k, n - 1);
      ListedNext(k.tag, n);
      hide Occurrences, PATTERNS, Listed, Has, Total;
      var p, front := PATTERNS[n - 1], EntriesUpTo(e, n - 1);
      if p.tag in e.matches {
        TotalAppend(front, Entry(KeyOf(e, p), Occurrences(e)));
      } else {
        assert front + [] == front;
      }
    }
  }

  lemma ListedNext(tag: string, n: nat)
    requires 0 < n <= |PATTERNS|
    ensures Listed(tag, n) <==> Listed(tag, n - 1) || PATTERNS[n - 1].tag == tag
    ensures PATTERNS[n - 1].tag == tag ==> !Listed(tag, n - 1)
  {
    TagsAreDistinct();
    hide PATTERNS;
  }

  lemma {:induction false} EntriesConcat(a: seq<Event>, b: seq<Event>, k: Key)
    ensures Total(Entries(a + b), k) == Total(Entries(a), k) + Total(Entries(b), k)
    ensures Has(Entries(a + b), k) <==> Has(Entries(a), k) || Has(Entries(b), k)
    decreases |b|
  {
    hide Added;
    if b == [] {
      assert a + b == a;
    } else {
      var n := |b| - 1;
      assert (a + b)[..|a + b| - 1] == a + b[..n];
      EntriesConcat(a, b[..n], k);
      TotalConcat(Entries(a + b[..n]), Added(b[n]), k);
      TotalConcat(Entries(b[..n]), Added(b[n]), k);
      hide Total;
    }
  }

  lemma OneEvent(e: Event, k: Key)
    ensures Total(Entries([e]), k) == Weight(e, k, Occurrences(e))
    ensures Has(Entries([e]), k) <==> Matches(e, k)
  {
    AddedWeighs(e, k);
    assert [e][..0] == [];
    assert Entries([e]) == Entries([]) + Added(e) == Added(e);
  }

  /** Without a count an event counts once for each pattern it matches. */
  lemma {:induction false} SinglesCountOnce(e: Event, n: nat, k: Key)
    ensures Total(Entries(Copies(Single(e), n)), k) == Weight(e, k, n)
    ensures n > 0 ==> (Has(Entries(Copies(Single(e), n)), k) <==> Matches(e, k))
    decreases n
  {
    if n > 0 {
      SinglesCountOnce(e, n - 1, k);
      OneEvent(Single(e), k);
      EntriesConcat(Copies(Single(e), n - 1), [Single(e)], k);
      assert Copies(Single(e), n) == Copies(Single(e), n - 1) + [Single(e)];
      if n == 1 { assert Copies(Single(e), 0) == []; }
      hide Total;
    }
  }

  /** The number on record: its own count, or else that of its series. */
  predicate Stands(e: Event, n: nat) {
    && n > 0
    && (e.count == Some(n) || ((e.count.None? || e.count.value <= 0) && e.seriesCount == Some(n)))
  }

  /** Anywhere among other events, an event with `n` on record counts as `n` of it with nothing on record. */
  lemma RecordedIsRepeated(before: seq<Event>, e: Event, n: nat, after: seq<Event>, k: Key)
    requires Stands(e, n)
    ensures var merged, apart := before + [e] + after, before + Copies(Single(e), n) + after;
            && Total(Entries(merged), k) == Total(Entries(apart), k)
            && (Has(Entries(merged), k) <==> Has(Entries(apart), k))
  {
    OneEvent(e, k);
    SinglesCountOnce(e, n, k);
    EntriesConcat(before + [e], after, k);
    EntriesConcat(before, [e], k);
    EntriesConcat(before + Copies(Single(e), n), after, k);
    EntriesConcat(before, Copies(Single(e), n), k);
    hide Total, Has, Entries, Copies;
  }

  /** Where a count is on record, the count of the series changes nothing. */
  lemma CountOutweighsSeries(e: Event, series: Option<int>)
    requires e.count.Some? && e.count.value > 0
    ensures Added(e.(seriesCount := series)) == Added(e)
  {
    SeriesIsNotRead(e, series, |PATTERNS|);
  }

  lemma {:induction false} SeriesIsNotRead(e: Event, series: Option<int>, n: nat)
    requires e.count.Some? && e.count.value > 0 && n <= |PATTERNS|
    ensures EntriesUpTo(e.(seriesCount := series), n) == EntriesUpTo(e, n)
    decreases n
  {
    hide PATTERNS;
    if n > 0 { SeriesIsNotRead(e, series, n - 1); }
  }

  /** So a repetition is reported alike, whether the server counted it or sent it again and again. */
  lemma RepetitionIsReportedAlike(
    out: seq<Diagnostic>, out': seq<Diagnostic>, before: seq<Event>, e: Event, n: nat, after: seq<Event>, pods: Pods)
    requires Stands(e, n)
    requires Reports(out, before + [e] + after, pods) && Reports(out', before + Copies(Single(e), n) + after, pods)
    ensures forall d :: d in out <==> d in out'
  {
    var merged, apart := before + [e] + after, before + Copies(Single(e), n) + after;
    forall k ensures Has(Entries(merged), k) == Has(Entries(apart), k) && Total(Entries(merged), k) == Total(Entries(apart), k) {
      RecordedIsRepeated(before, e, n, after, k);
    }
    ReportedToo(out, merged, out', apart, pods);
    ReportedToo(out', apart, out, merged, pods);
  }

  /**
  How grave each diagnostic is: pulls and volumes always; a failing probe from five times on, or if the live
  pod has a container that is not ready or has restarted three times; nothing else ever.
  */
  lemma GraveExactly(out: seq<Diagnostic>, events: seq<Event>, pods: Pods, d: Diagnostic)
    requires Reports(out, events, pods) && d in out
    ensures d.severity.Critical?
            <==> || d.key.tag == "ImagePullBackOff" || d.key.tag == "VolumeAttachFailed"
                 || (d.key.tag == "ProbeFailed"
                     && (|| Total(Entries(events), d.key) >= 5
                         || (d.key.kind == "Pod" && d.key.ns != "" && (d.key.ns, d.key.name) in pods
                             && exists c :: c in pods[(d.key.ns, d.key.name)] && (!c.ready || c.restarts >= 3))))
    ensures exists e :: e in events && Matches(e, d.key)
  {
    hide Total, Entries, Added;
    var e := MatchedBy(events, d.key);
    hide Has;
    assert d.key.name != "";
  }

  /** Some event is behind each key. */
  lemma {:induction false} MatchedBy(events: seq<Event>, k: Key) returns (e: Event)
    requires Has(Entries(events), k)
    ensures e in events && Matches(e, k)
    decreases |events|
  {
    var n := |events| - 1;
    hide Added, Matches;
    if events == [] {
      e := Event("", "", "", "", {}, None, None);
      assert false;
    } else if Has(Entries(events[..n]), k) {
      e := MatchedBy(events[..n], k);
    } else {
      e := events[n];
      AddedWeighs(e, k);
    }
  }

  // ---------- orders that do not matter ----------

  /** Whatever order the events come in, the same objects and patterns are reported, as grave. */
  lemma EventOrderIsIgnored(out: seq<Diagnostic>, events: seq<Event>, out': seq<Diagnostic>, events': seq<Event>, pods: Pods)
    requires multiset(events) == multiset(events')
    requires Reports(out, events, pods) && Reports(out', events', pods)
    ensures forall d :: d in out <==> d in out'
    ensures |out| == |out'|
  {
    hide SeverityOf, Added;
    forall k ensures Has(Entries(events), k) == Has(Entries(events'), k) && Total(Entries(events), k) == Total(Entries(events'), k) {
      FindingsIgnoreOrder(events, events', Added, k);
    }
    ReportedToo(out, events, out', events', pods);
    ReportedToo(out', events', out, events, pods);
    SameLength(out, out');
  }

  lemma ReportedToo(out: seq<Diagnostic>, events: seq<Event>, out': seq<Diagnostic>, events': seq<Event>, pods: Pods)
    requires Reports(out, events, pods) && Reports(out', events', pods)
    requires forall k :: Has(Entries(events), k) == Has(Entries(events'), k) && Total(Entries(events), k) == Total(Entries(events'), k)
    ensures forall d :: d in out ==> d in out'
  {
    hide SeverityOf, Entries, Has, Total;
    forall d | d in out ensures d in out' {
      assert Has(Entries(events'), d.key);
      var d' :| d' in out' && d'.key == d.key;
      assert d' == d;
    }
  }

  lemma {:induction false} SameLength(out: seq<Diagnostic>, out': seq<Diagnostic>)
    requires forall i, j :: 0 <= i < j < |out| ==> out[i] != out[j]
    requires forall i, j :: 0 <= i < j < |out'| ==> out'[i] != out'[j]
    requires forall d :: d in out <==> d in out'
    ensures |out| == |out'|
  {
    var s, s' := set d | d in out, set d | d in out';
    Elements(out, s);
    Elements(out', s');
    assert s == s';
  }

  lemma {:induction false} Elements(out: seq<Diagnostic>, s: set<Diagnostic>)
    requires forall i, j :: 0 <= i < j < |out| ==> out[i] != out[j]
    requires forall d :: d in s <==> d in out
    ensures |s| == |out|
    decreases |out|
  {
    if out == [] {
      assert s == {};
    } else {
      var front, last := out[..|out| - 1], out[|out| - 1];
      assert out == front + [last] && last !in front;
      Elements(front, s - {last});
    }
  }
}
