/**
What external secrets need of Vault against what Vault answers: every path is
absent, reachable or failing, and every failing path is accounted for once.
*/
module VaultPaths {
  import opened Sorting
  import opened Totals

  datatype Ref = Ref(path: string, property: string)

  /** `vaultBacked` says whether its store is a Vault, or no stores could be listed. */
  datatype ExternalSecret = ExternalSecret(ns: string, name: string, vaultBacked: bool, data: seq<Ref>, extracts: seq<string>)

  datatype Answer = Absent | Failing(error: string) | Holding(keys: seq<string>)

  datatype Requirement = Requirement(keys: set<string>, consumers: set<(string, string)>)

  datatype Diagnostic =
    | MissingPath(path: string, consumers: set<(string, string)>)
    | MissingKey(path: string, key: string)
    | Outage(error: string, paths: seq<string>)
    | QueryError(path: string, error: string)

  /** Where fewer paths than this fail alike, each is reported by itself. */
  const OUTAGE := 3

  // ---------- what is needed ----------

  predicate Reads(s: ExternalSecret, path: string) {
    path != "" && s.vaultBacked && ((exists r :: r in s.data && r.path == path) || path in s.extracts)
  }

  predicate ReadsKey(s: ExternalSecret, path: string, key: string) {
    path != "" && key != "" && s.vaultBacked && Ref(path, key) in s.data
  }

  predicate Needed(ss: seq<ExternalSecret>, path: string) { exists s :: s in ss && Reads(s, path) }

  predicate NeedsKey(ss: seq<ExternalSecret>, path: string, key: string) { exists s :: s in ss && ReadsKey(s, path, key) }

  predicate Consumes(ss: seq<ExternalSecret>, path: string, who: (string, string)) {
    exists s :: s in ss && Reads(s, path) && (s.ns, s.name) == who
  }

  type Requirements = map<string, Requirement>

  ghost predicate Collected(m: Requirements, ss: seq<ExternalSecret>) {
    && (forall p :: p in m <==> Needed(ss, p))
    && (forall p, k :: p in m ==> (k in m[p].keys <==> NeedsKey(ss, p, k)))
    && (forall p, who :: p in m ==> (who in m[p].consumers <==> Consumes(ss, p, who)))
  }

  function Require(m: Requirements, path: string, keys: set<string>, who: (string, string)): Requirements {
    var r := if path in m then m[path] else Requirement({}, {});
    m[path := Requirement(r.keys + keys, r.consumers + {who})]
  }

  /** The secret as far as its lists have been read. */
  function Read(s: ExternalSecret, i: nat, j: nat): ExternalSecret
    requires i <= |s.data| && j <= |s.extracts|
  {
    s.(data := s.data[..i], extracts := s.extracts[..j])
  }

  lemma OneMore(m: Requirements, ss: seq<ExternalSecret>, s: ExternalSecret, s': ExternalSecret, path: string, keys: set<string>)
    requires Collected(m, ss + [s]) && path != "" && (s.ns, s.name) == (s'.ns, s'.name)
    requires forall p :: Reads(s', p) <==> Reads(s, p) || p == path
    requires forall p, k :: ReadsKey(s', p, k) <==> ReadsKey(s, p, k) || (p == path && k in keys)
    ensures Collected(Require(m, path, keys, (s.ns, s.name)), ss + [s'])
  {
    hide Reads, ReadsKey;
    assert forall x :: x in ss + [s] <==> x in ss || x == s;
    assert forall x :: x in ss + [s'] <==> x in ss || x == s';
    forall p ensures Needed(ss + [s'], p) <==> Needed(ss + [s], p) || p == path { LastNeeds(ss, s, p); LastNeeds(ss, s', p); }
    forall p, k ensures NeedsKey(ss + [s'], p, k) <==> NeedsKey(ss + [s], p, k) || (p == path && k in keys) {
      LastNeedsKey(ss, s, p, k);
      LastNeedsKey(ss, s', p, k);
    }
    forall p, who ensures Consumes(ss + [s'], p, who) <==> Consumes(ss + [s], p, who) || (p == path && who == (s.ns, s.name)) {
      LastConsumes(ss, s, p, who);
      LastConsumes(ss, s', p, who);
    }
    forall p | p !in m ensures forall k :: !NeedsKey(ss + [s], p, k) { KeyNeedsPath(ss + [s], p); }
    forall p | p !in m ensures forall who :: !Consumes(ss + [s], p, who) { ConsumerNeedsPath(ss + [s], p); }
    hide Needed, NeedsKey, Consumes;
  }

  lemma LastNeeds(ss: seq<ExternalSecret>, s: ExternalSecret, p: string)
    ensures Needed(ss + [s], p) <==> Needed(ss, p) || Reads(s, p)
  {
  }

  lemma LastNeedsKey(ss: seq<ExternalSecret>, s: ExternalSecret, p: string, k: string)
    ensures NeedsKey(ss + [s], p, k) <==> NeedsKey(ss, p, k) || ReadsKey(s, p, k)
  {
  }

  lemma LastConsumes(ss: seq<ExternalSecret>, s: ExternalSecret, p: string, who: (string, string))
    ensures Consumes(ss + [s], p, who) <==> Consumes(ss, p, who) || (Reads(s, p) && (s.ns, s.name) == who)
  {
  }

  lemma KeyNeedsPath(ss: seq<ExternalSecret>, p: string)
    ensures forall k :: NeedsKey(ss, p, k) ==> Needed(ss, p)
  {
  }

  lemma ConsumerNeedsPath(ss: seq<ExternalSecret>, p: string)
    ensures forall who :: Consumes(ss, p, who) ==> Needed(ss, p)
  {
  }

  lemma SameReads(m: Requirements, ss: seq<ExternalSecret>, s: ExternalSecret, s': ExternalSecret)
    requires Collected(m, ss + [s]) && (s.ns, s.name) == (s'.ns, s'.name)
    requires forall p :: Reads(s', p) <==> Reads(s, p)
    requires forall p, k :: ReadsKey(s', p, k) <==> ReadsKey(s, p, k)
    ensures Collected(m, ss + [s'])
  {
    hide Reads, ReadsKey;
  }

  lemma NextRef(s: ExternalSecret, i: nat)
    requires i < |s.data| && s.vaultBacked
    ensures var a, b, r := Read(s, i, 0), Read(s, i + 1, 0), s.data[i];
            && (forall p :: Reads(b, p) <==> Reads(a, p) || (p == r.path && p != ""))
            && (forall p, k :: ReadsKey(b, p, k) <==> ReadsKey(a, p, k) || (p == r.path && p != "" && k == r.property && k != ""))
  {
  }

  lemma NextExtract(s: ExternalSecret, j: nat)
    requires j < |s.extracts| && s.vaultBacked
    ensures var a, b := Read(s, |s.data|, j), Read(s, |s.data|, j + 1);
            && (forall p :: Reads(b, p) <==> Reads(a, p) || (p == s.extracts[j] && p != ""))
            && (forall p, k :: ReadsKey(b, p, k) <==> ReadsKey(a, p, k))
  {
  }

  /** Adds the references of one secret. */
  method CollectRefs(m: Requirements, ghost ss: seq<ExternalSecret>, s: ExternalSecret) returns (m': Requirements)
    requires Collected(m, ss) && s.vaultBacked
    ensures Collected(m', ss + [s])
  {
    hide Reads, ReadsKey, Collected, Require;
    m' := m;
    NothingRead(m, ss, Read(s, 0, 0));
    for i := 0 to |s.data|
      invariant Collected(m', ss + [Read(s, i, 0)])
    {
      var r := s.data[i];
      NextRef(s, i);
      if r.path == "" {
        SameReads(m', ss, Read(s, i, 0), Read(s, i + 1, 0));
        continue;
      }
      var keys := if r.property != "" then {r.property} else {};
      OneMore(m', ss, Read(s, i, 0), Read(s, i + 1, 0), r.path, keys);
      m' := Require(m', r.path, keys, (s.ns, s.name));
    }
    for j := 0 to |s.extracts|
      invariant Collected(m', ss + [Read(s, |s.data|, j)])
    {
      NextExtract(s, j);
      if s.extracts[j] == "" {
        SameReads(m', ss, Read(s, |s.data|, j), Read(s, |s.data|, j + 1));
        continue;
      }
      OneMore(m', ss, Read(s, |s.data|, j), Read(s, |s.data|, j + 1), s.extracts[j], {});
      m' := Require(m', s.extracts[j], {}, (s.ns, s.name));
    }
    assert Read(s, |s.data|, |s.extracts|) == s;
  }

  lemma NothingRead(m: Requirements, ss: seq<ExternalSecret>, s: ExternalSecret)
    requires Collected(m, ss) && (!s.vaultBacked || (s.data == [] && s.extracts == []))
    ensures Collected(m, ss + [s])
  {
  }

  method Collect(ss: seq<ExternalSecret>) returns (m: Requirements)
    ensures Collected(m, ss)
  {
    m := map[];
    for i := 0 to |ss|
      invariant Collected(m, ss[..i])
    {
      hide Collected;
      assert ss[..i + 1] == ss[..i] + [ss[i]];
      if !ss[i].vaultBacked {
        NothingRead(m, ss[..i], ss[i]);
        continue;
      }
      m := CollectRefs(m, ss[..i], ss[i]);
    }
    assert ss[..|ss|] == ss;
  }

  // ---------- what Vault answers ----------

  /** The paths that fail with one error, in the order given. */
  function FailingWith(paths: seq<string>, answer: string -> Answer, error: string): seq<string> {
    if paths == [] then []
    else
      var last := paths[|paths| - 1];
      FailingWith(paths[..|paths| - 1], answer, error) + if answer(last) == Failing(error) then [last] else []
  }

  /** One entry for each failing path, under its error. */
  function Failures(paths: seq<string>, answer: string -> Answer): seq<Entry<string>> {
    if paths == [] then []
    else
      var last := paths[|paths| - 1];
      Failures(paths[..|paths| - 1], answer) + if answer(last).Failing? then [Entry(answer(last).error, 1)] else []
  }

  lemma FailingNext(paths: seq<string>, answer: string -> Answer, p: string)
    ensures forall e :: FailingWith(paths + [p], answer, e) == FailingWith(paths, answer, e) + if answer(p) == Failing(e) then [p] else []
    ensures Failures(paths + [p], answer) == Failures(paths, answer) + if answer(p).Failing? then [Entry(answer(p).error, 1)] else []
  {
  }

  lemma {:induction false} FailingIs(paths: seq<string>, answer: string -> Answer, error: string)
    ensures forall p :: p in FailingWith(paths, answer, error) <==> p in paths && answer(p) == Failing(error)
    ensures |FailingWith(paths, answer, error)| == Total(Failures(paths, answer), error)
    decreases |paths|
  {
    if paths != [] {
      var front, last := paths[..|paths| - 1], paths[|paths| - 1];
      FailingIs(front, answer, error);
      assert paths == front + [last];
      FailingNext(front, answer, last);
      if answer(last).Failing? {
        TotalAppend(Failures(front, answer), Entry(answer(last).error, 1));
      } else {
        assert Failures(front, answer) + [] == Failures(front, answer);
      }
    }
  }

  /** The failing paths by error, as they come. */
  ghost predicate Grouped(groups: map<string, seq<string>>, paths: seq<string>, answer: string -> Answer) {
    && (forall e :: e in groups <==> FailingWith(paths, answer, e) != [])
    && (forall e :: e in groups ==> groups[e] == FailingWith(paths, answer, e))
  }

  // ---------- the report ----------

  function Subject(d: Diagnostic): string {
    match d
    case MissingPath(p, _) => "missing-vault-path/" + p
    case MissingKey(p, k) => "vault-missing-key/" + p + "/" + k
    case Outage(e, _) => "vault-outage/" + e
    case QueryError(p, _) => "vault-error/" + p
  }

  /** Nothing but the absent paths and missing keys of these paths, and none of them unheard. */
  ghost predicate Told(out: seq<Diagnostic>, paths: seq<string>, m: Requirements, answer: string -> Answer)
    requires forall p :: p in paths ==> p in m
  {
    && (forall d :: d in out ==>
          || (d.MissingPath? && d.path in paths && answer(d.path).Absent? && d.consumers == m[d.path].consumers)
          || (d.MissingKey? && Lacks(d.path, d.key, paths, m, answer)))
    && (forall p :: p in paths && answer(p).Absent? ==> MissingPath(p, m[p].consumers) in out)
    && (forall p, k :: Lacks(p, k, paths, m, answer) ==> ToldKey(out, p, k))
    && (forall p, k :: Lacks(p, k, paths, m, answer) ==> (MissingKey(p, k) in out <==> !Upstaged(p, k, paths, m, answer)))
  }

  predicate Lacks(p: string, k: string, paths: seq<string>, m: Requirements, answer: string -> Answer) {
    p in paths && p in m && k in m[p].keys && answer(p).Holding? && k !in answer(p).keys
  }

  /** Another gap, of a path that comes earlier, reads the same. */
  ghost predicate Upstaged(p: string, k: string, paths: seq<string>, m: Requirements, answer: string -> Answer) {
    exists i, j, l :: 0 <= i < j < |paths| && paths[j] == p && Lacks(paths[i], l, paths, m, answer) && paths[i] + "/" + l == p + "/" + k
  }

  /** Some gap of these paths has the subject. */
  ghost predicate Taken(subject: string, paths: seq<string>, m: Requirements, answer: string -> Answer) {
    exists q, l :: Lacks(q, l, paths, m, answer) && Subject(MissingKey(q, l)) == subject
  }

  /** Written one after the other, path and key do not tell where the path ends. */
  lemma SubjectsCollide(p: string, k: string, q: string, l: string)
    ensures Subject(MissingKey(p, k)) == Subject(MissingKey(q, l)) <==> p + "/" + k == q + "/" + l
    ensures p == q && k != l ==> Subject(MissingKey(p, k)) != Subject(MissingKey(q, l))
  {
    var head := "vault-missing-key/";
    assert Subject(MissingKey(p, k)) == head + (p + "/" + k) && Subject(MissingKey(q, l)) == head + (q + "/" + l);
    assert (head + (p + "/" + k))[|head|..] == p + "/" + k && (head + (q + "/" + l))[|head|..] == q + "/" + l;
    assert (p + "/" + k)[|p| + 1..] == k && (q + "/" + l)[|q| + 1..] == l;
  }

  /** With one more path, the gaps before it stand as they did, and its own are upstaged exactly by what was there. */
  lemma UpstagedNext(front: seq<string>, p: string, m: Requirements, answer: string -> Answer)
    requires p !in front
    ensures forall q, k :: q in front ==> (Upstaged(q, k, front + [p], m, answer) <==> Upstaged(q, k, front, m, answer))
    ensures forall k :: Upstaged(p, k, front + [p], m, answer) <==> Taken(Subject(MissingKey(p, k)), front, m, answer)
  {
    hide Subject;
    var paths := front + [p];
    forall q, k | q in front ensures Upstaged(q, k, paths, m, answer) <==> Upstaged(q, k, front, m, answer) {
      if Upstaged(q, k, paths, m, answer) {
        var i, j, l :| 0 <= i < j < |paths| && paths[j] == q && Lacks(paths[i], l, paths, m, answer) && paths[i] + "/" + l == q + "/" + k;
        assert front[j] == q && Lacks(front[i], l, front, m, answer);
      }
      if Upstaged(q, k, front, m, answer) {
        var i, j, l :| 0 <= i < j < |front| && front[j] == q && Lacks(front[i], l, front, m, answer) && front[i] + "/" + l == q + "/" + k;
        assert paths[j] == q && Lacks(paths[i], l, paths, m, answer);
      }
    }
    forall k ensures Upstaged(p, k, paths, m, answer) <==> Taken(Subject(MissingKey(p, k)), front, m, answer) {
      if Upstaged(p, k, paths, m, answer) {
        var i, j, l :| 0 <= i < j < |paths| && paths[j] == p && Lacks(paths[i], l, paths, m, answer) && paths[i] + "/" + l == p + "/" + k;
        SubjectsCollide(paths[i], l, p, k);
        assert Lacks(front[i], l, front, m, answer);
      }
      if Taken(Subject(MissingKey(p, k)), front, m, answer) {
        var q, l :| Lacks(q, l, front, m, answer) && Subject(MissingKey(q, l)) == Subject(MissingKey(p, k));
        SubjectsCollide(q, l, p, k);
        var i :| 0 <= i < |front| && front[i] == q;
        assert paths[i] == q && paths[|front|] == p && Lacks(paths[i], l, paths, m, answer);
      }
    }
  }

  /** The keys a path lacks, one after the other; a subject already used is not used again. */
  method TellMissingKeys(out: seq<Diagnostic>, seen: set<string>, path: string, required: seq<string>, actual: seq<string>)
    returns (out': seq<Diagnostic>, seen': set<string>)
    requires forall d :: d in out && d.MissingKey? ==> Subject(d) in seen
    requires forall s :: s in seen ==> exists d :: d in out && Subject(d) == s
    ensures forall d :: d in out' && d.MissingKey? ==> Subject(d) in seen'
    ensures forall s :: s in seen' ==> exists d :: d in out' && Subject(d) == s
    ensures forall d :: d in out ==> d in out'
    ensures forall d :: d in out' ==>
              d in out || (d.MissingKey? && d.path == path && d.key in required && d.key !in actual && Subject(d) !in seen)
    ensures forall k :: k in required && k !in actual ==> Subject(MissingKey(path, k)) in seen'
    ensures forall k :: k in required && k !in actual && Subject(MissingKey(path, k)) !in seen ==> MissingKey(path, k) in out'
  {
    hide Subject;
    out', seen' := out, seen;
    for i := 0 to |required|
      invariant forall d :: d in out' && d.MissingKey? ==> Subject(d) in seen'
      invariant forall s :: s in seen' ==> exists d :: d in out' && Subject(d) == s
      invariant forall d :: d in out ==> d in out'
      invariant forall d :: d in out' ==>
                  d in out || (d.MissingKey? && d.path == path && d.key in required && d.key !in actual && Subject(d) !in seen)
      invariant seen <= seen' && forall s :: s in seen' ==> s in seen || exists k :: MissingKey(path, k) in out' && Subject(MissingKey(path, k)) == s
      invariant forall j :: 0 <= j < i && required[j] !in actual ==>
                  var d := MissingKey(path, required[j]); Subject(d) in seen' && (Subject(d) in seen || d in out')
    {
      var key := required[i];
      if key in actual { continue; }
      var d := MissingKey(path, key);
      if Subject(d) in seen' {
        if Subject(d) !in seen {
          var k :| MissingKey(path, k) in out' && Subject(MissingKey(path, k)) == Subject(d);
          SubjectsCollide(path, k, path, key);
        }
        continue;
      }
      ghost var before := out';
      out', seen' := out' + [d], seen' + {Subject(d)};
      assert forall x :: x in out' <==> x in before || x == d;
    }
  }

  lemma FirstLetter(d: Diagnostic)
    requires d.MissingPath? || d.MissingKey?
    ensures |Subject(d)| > 0 && Subject(d)[0] == if d.MissingPath? then 'm' else 'v'
  {
  }

  lemma PathSubjects(p: string, q: string, c: set<(string, string)>, c': set<(string, string)>)
    requires Subject(MissingPath(p, c)) == Subject(MissingPath(q, c'))
    ensures p == q
  {
    assert ("missing-vault-path/" + p)[19..] == p && ("missing-vault-path/" + q)[19..] == q;
  }

  /** The subject of a path not classified yet has not been used. */
  lemma NotSeen(out: seq<Diagnostic>, seen: set<string>, p: string, c: set<(string, string)>)
    requires forall s :: s in seen ==> exists d :: d in out && Subject(d) == s
    requires forall d :: d in out ==> (d.MissingPath? && d.path != p) || d.MissingKey?
    ensures Subject(MissingPath(p, c)) !in seen
  {
    forall d | d in out ensures Subject(d) != Subject(MissingPath(p, c)) {
      FirstLetter(d);
      FirstLetter(MissingPath(p, c));
      if d.MissingPath? && Subject(d) == Subject(MissingPath(p, c)) { PathSubjects(d.path, p, d.consumers, c); }
    }
  }

  lemma PathNotTold(out: seq<Diagnostic>, front: seq<string>, p: string, m: Requirements, answer: string -> Answer)
    requires forall q :: q in front ==> q in m
    requires Told(out, front, m, answer) && p !in front
    ensures forall d :: d in out ==> (d.MissingPath? && d.path != p) || d.MissingKey?
  {
    hide Upstaged, Subject;
  }

  /** The classification of every path, in order. */
  method Classify(m: Requirements, order: seq<string>, answer: string -> Answer)
    returns (out: seq<Diagnostic>, groups: map<string, seq<string>>)
    requires forall p :: p in order ==> p in m
    requires forall i, j :: 0 <= i < j < |order| ==> order[i] != order[j]
    ensures Told(out, order, m, answer) && Grouped(groups, order, answer)
  {
    hide Subject, FailingWith, Upstaged, Told, Taken;
    out, groups := [], map[];
    var seen: set<string> := {};
    NoneFailing(answer);
    NoneTold(m, answer);
    for i := 0 to |order|
      invariant Told(out, order[..i], m, answer) && Grouped(groups, order[..i], answer)
      invariant forall d :: d in out && d.MissingKey? ==> Subject(d) in seen
      invariant forall s :: s in seen ==> exists d :: d in out && Subject(d) == s
    {
      var p := order[i];
      ghost var front := order[..i];
      assert order[..i + 1] == front + [p] && p in order;
      FailingNext(front, answer, p);
      ghost var before := out;
      match answer(p) {
        case Absent =>
          var d := MissingPath(p, m[p].consumers);
          AllPlain(groups, front, p, answer);
          PathNotTold(out, front, p, m, answer);
          NotSeen(out, seen, p, m[p].consumers);
          if Subject(d) !in seen {
            out, seen := out + [d], seen + {Subject(d)};
            assert forall x :: x in out <==> x in before || x == d;
            TellsAbsence(before, out, front, p, m, answer);
          }
        case Failing(error) =>
          groups := groups[error := (if error in groups then groups[error] else []) + [p]];
          GroupsNext(groups, front, p, answer);
          TellsNothing(out, front, p, m, answer);
        case Holding(actual) =>
          AllPlain(groups, front, p, answer);
          var required := SortedSet(m[p].keys);
          ghost var was := seen;
          out, seen := TellMissingKeys(out, seen, p, required, actual);
          TellsKeys(before, was, out, seen, front, p, m, answer);
      }
    }
    assert order[..|order|] == order;
  }

  lemma NoneTold(m: Requirements, answer: string -> Answer)
    ensures Told([], [], m, answer)
  {
  }

  lemma NoneFailing(answer: string -> Answer)
    ensures forall e :: FailingWith([], answer, e) == []
  {
  }

  lemma AllPlain(groups: map<string, seq<string>>, front: seq<string>, p: string, answer: string -> Answer)
    requires Grouped(groups, front, answer) && !answer(p).Failing?
    ensures Grouped(groups, front + [p], answer)
  {
  }

  lemma GroupsNext(groups': map<string, seq<string>>, front: seq<string>, p: string, answer: string -> Answer)
    requires answer(p).Failing?
    requires answer(p).error in groups' && groups'[answer(p).error] == FailingWith(front, answer, answer(p).error) + [p]
    requires forall e :: e != answer(p).error ==> (e in groups' <==> FailingWith(front, answer, e) != [])
    requires forall e :: e != answer(p).error && e in groups' ==> groups'[e] == FailingWith(front, answer, e)
    ensures Grouped(groups', front + [p], answer)
  {
    FailingNext(front, answer, p);
    forall e | e != answer(p).error ensures FailingWith(front + [p], answer, e) == FailingWith(front, answer, e) {
      assert FailingWith(front, answer, e) + [] == FailingWith(front, answer, e);
    }
  }

  lemma TellsAbsence(before: seq<Diagnostic>, out: seq<Diagnostic>, front: seq<string>, p: string, m: Requirements, answer: string -> Answer)
    requires forall q :: q in front + [p] ==> q in m
    requires p !in front && Told(before, front, m, answer) && answer(p).Absent?
    requires forall x :: x in out <==> x in before || x == MissingPath(p, m[p].consumers)
    ensures Told(out, front + [p], m, answer)
  {
    hide Subject;
    UpstagedNext(front, p, m, answer);
    hide Upstaged;
    assert forall q :: q in front + [p] <==> q in front || q == p;
    forall q, k | Lacks(q, k, front + [p], m, answer) ensures ToldKey(out, q, k) {
      assert Lacks(q, k, front, m, answer);
      StillTold(before, out, q, k);
    }
  }

  lemma TellsNothing(out: seq<Diagnostic>, front: seq<string>, p: string, m: Requirements, answer: string -> Answer)
    requires forall q :: q in front + [p] ==> q in m
    requires p !in front && Told(out, front, m, answer) && answer(p).Failing?
    ensures Told(out, front + [p], m, answer)
  {
    hide Subject;
    UpstagedNext(front, p, m, answer);
    hide Upstaged;
  }

  lemma TellsKeys(
    before: seq<Diagnostic>, was: set<string>, out: seq<Diagnostic>, seen: set<string>, front: seq<string>, p: string, m: Requirements,
    answer: string -> Answer)
    requires forall q :: q in front + [p] ==> q in m
    requires p !in front && Told(before, front, m, answer) && answer(p).Holding?
    requires forall d :: d in before ==> d in out
    requires forall d :: d in before && d.MissingKey? ==> Subject(d) in was
    requires forall s :: s in was ==> exists d :: d in before && Subject(d) == s
    requires forall d :: d in out ==>
               d in before || (d.MissingKey? && d.path == p && d.key in m[p].keys && d.key !in answer(p).keys && Subject(d) !in was)
    requires forall s :: s in seen ==> exists d :: d in out && Subject(d) == s
    requires forall k :: k in m[p].keys && k !in answer(p).keys ==> Subject(MissingKey(p, k)) in seen
    requires forall k :: k in m[p].keys && k !in answer(p).keys && Subject(MissingKey(p, k)) !in was ==> MissingKey(p, k) in out
    ensures Told(out, front + [p], m, answer)
  {
    hide Subject;
    assert forall q :: q in front + [p] <==> q in front || q == p;
    forall q, k | Lacks(q, k, front + [p], m, answer)
      ensures ToldKey(out, q, k) && (MissingKey(q, k) in out <==> !Upstaged(q, k, front + [p], m, answer))
    {
      UpstagedNext(front, p, m, answer);
      hide Upstaged;
      if q in front {
        assert Lacks(q, k, front, m, answer);
        StillTold(before, out, q, k);
      } else {
        OneTold(out, seen, p, k);
        TakenIsSeen(before, was, front, m, answer, p, k);
      }
    }
    hide Upstaged;
  }

  lemma TakenIsSeen(
    before: seq<Diagnostic>, was: set<string>, front: seq<string>, m: Requirements, answer: string -> Answer, p: string, k: string)
    requires forall q :: q in front ==> q in m
    requires Told(before, front, m, answer)
    requires forall d :: d in before && d.MissingKey? ==> Subject(d) in was
    requires forall s :: s in was ==> exists d :: d in before && Subject(d) == s
    ensures Taken(Subject(MissingKey(p, k)), front, m, answer) <==> Subject(MissingKey(p, k)) in was
  {
    hide Subject, Upstaged;
    var s := Subject(MissingKey(p, k));
    if s in was {
      var d :| d in before && Subject(d) == s;
      FirstLetter(d);
      FirstLetter(MissingKey(p, k));
      assert Lacks(d.path, d.key, front, m, answer);
    }
    if Taken(s, front, m, answer) {
      var q, l :| Lacks(q, l, front, m, answer) && Subject(MissingKey(q, l)) == s;
      assert ToldKey(before, q, l);
    }
  }

  /** The gap, or one with the same subject, is among the diagnostics. */
  ghost predicate ToldKey(out: seq<Diagnostic>, p: string, k: string) {
    exists d :: d in out && d.MissingKey? && Subject(d) == Subject(MissingKey(p, k))
  }

  lemma StillTold(before: seq<Diagnostic>, out: seq<Diagnostic>, p: string, k: string)
    requires ToldKey(before, p, k) && forall d :: d in before ==> d in out
    ensures ToldKey(out, p, k)
  {
  }

  lemma OneTold(out: seq<Diagnostic>, seen: set<string>, p: string, k: string)
    requires forall s :: s in seen ==> exists d :: d in out && Subject(d) == s
    requires forall d :: d in out ==> d.MissingPath? || d.MissingKey?
    requires Subject(MissingKey(p, k)) in seen
    ensures ToldKey(out, p, k)
  {
    var d :| d in out && Subject(d) == Subject(MissingKey(p, k));
    FirstLetter(d);
    FirstLetter(MissingKey(p, k));
    hide Subject;
  }

  // ---------- failures, alone or together ----------

  /** How many failing paths a diagnostic speaks for. */
  function SpeaksFor(d: Diagnostic): nat {
    if d.Outage? then |d.paths| else if d.QueryError? then 1 else 0
  }

  function Accounted(ds: seq<Diagnostic>): nat {
    if ds == [] then 0 else Accounted(ds[..|ds| - 1]) + SpeaksFor(ds[|ds| - 1])
  }

  /** What is said of one error: together from `OUTAGE` paths on, path by path below. */
  function Rendered(error: string, paths: seq<string>): seq<Diagnostic> {
    if |paths| >= OUTAGE then [Outage(error, paths)] else seq(|paths|, i requires 0 <= i < |paths| => QueryError(paths[i], error))
  }

  /** The diagnostic is part of what there is to say about some error's paths. */
  ghost predicate Fits(d: Diagnostic, paths: seq<string>, answer: string -> Answer) {
    exists e :: FailingWith(paths, answer, e) != [] && d in Rendered(e, FailingWith(paths, answer, e))
  }

  lemma AccountedConcat(a: seq<Diagnostic>, b: seq<Diagnostic>)
    ensures Accounted(a + b) == Accounted(a) + Accounted(b)
  {
    if b == [] {
      assert a + b == a;
    } else {
      assert (a + b)[..|a + b| - 1] == a + b[..|b| - 1];
      AccountedConcat(a, b[..|b| - 1]);
    }
  }

  lemma RenderedAccounts(error: string, paths: seq<string>)
    ensures Accounted(Rendered(error, paths)) == |paths|
  {
    var r := Rendered(error, paths);
    if |paths| < OUTAGE { ErrorsAccount(error, paths, |paths|); assert r[..|paths|] == r; } else { assert r[..0] == []; }
  }

  lemma ErrorsAccount(error: string, paths: seq<string>, n: nat)
    requires n <= |paths| < OUTAGE
    ensures Accounted(Rendered(error, paths)[..n]) == n
  {
    if n > 0 {
      var r := Rendered(error, paths)[..n];
      assert r[..n - 1] == Rendered(error, paths)[..n - 1];
      ErrorsAccount(error, paths, n - 1);
    }
  }

  method RenderTransportErrors(groups: map<string, seq<string>>) returns (out: seq<Diagnostic>, ghost errors: seq<string>)
    ensures Ordered(errors) && forall e :: e in errors <==> e in groups
    ensures forall d :: d in out <==> exists e :: e in groups && d in Rendered(e, groups[e])
    ensures Accounted(out) == SumOf(errors, map e | e in groups :: |groups[e]|)
  {
    hide Rendered, Accounted, SumOf, Sorted;
    var order := SortedSet(groups.Keys);
    errors, out := order, [];
    ghost var sizes := map e | e in groups :: |groups[e]|;
    NothingAccounted(sizes);
    for i := 0 to |order|
      invariant forall d :: d in out <==> exists j :: 0 <= j < i && d in Rendered(order[j], groups[order[j]])
      invariant Accounted(out) == SumOf(order[..i], sizes)
    {
      var e := order[i];
      assert order[..i + 1] == order[..i] + [e];
      SumOfNext(order[..i], sizes, e);
      RenderedAccounts(e, groups[e]);
      AccountedConcat(out, Rendered(e, groups[e]));
      out := out + Rendered(e, groups[e]);
    }
    assert order[..|order|] == order;
    forall d ensures d in out <==> exists e :: e in groups && d in Rendered(e, groups[e]) {
      if d in out {
        var j :| 0 <= j < |order| && d in Rendered(order[j], groups[order[j]]);
        assert order[j] in groups;
      }
      if exists e :: e in groups && d in Rendered(e, groups[e]) {
        var e :| e in groups && d in Rendered(e, groups[e]);
        assert e in order;
      }
    }
  }

  lemma NothingAccounted(m: map<string, nat>)
    ensures Accounted([]) == 0 && SumOf([], m) == 0
  {
  }

  lemma SumOfNext(order: seq<string>, m: map<string, nat>, e: string)
    requires e in m && forall k :: k in order ==> k in m
    ensures SumOf(order + [e], m) == SumOf(order, m) + m[e]
  {
  }

  /**
  The whole analysis. Absent paths and missing keys are told; every failing path is
  spoken for by exactly one diagnostic, so the outage counts and the single errors
  add up to the failing paths.
  */
  method Run(ss: seq<ExternalSecret>, answer: string -> Answer)
    returns (told: seq<Diagnostic>, failures: seq<Diagnostic>, m: Requirements, paths: seq<string>)
    ensures Collected(m, ss) && Ordered(paths) && forall p :: p in paths <==> Needed(ss, p)
    ensures Told(told, paths, m, answer)
    ensures forall d :: d in failures <==> Fits(d, paths, answer)
    ensures Accounted(failures) == Sum(Failures(paths, answer))
  {
    hide Told, Fits, Rendered, Accounted, Needed, NeedsKey, Consumes, Sorted, SumOf, Sum, Failures, FailingWith, Collected;
    m := Collect(ss);
    KeysAreNeeded(m, ss);
    paths := SortedSet(m.Keys);
    var groups;
    told, groups := Classify(m, paths, answer);
    ghost var errors;
    failures, errors := RenderTransportErrors(groups);
    FailuresAddUp(groups, paths, answer, errors);
    forall d ensures d in failures <==> Fits(d, paths, answer) {
      RenderedFrom(groups, paths, answer, d);
    }
  }

  /** Every failing path is spoken for: with the others of its error from the threshold on, else by itself. */
  lemma EveryFailureIsToldOf(paths: seq<string>, answer: string -> Answer, p: string)
    requires p in paths && answer(p).Failing?
    ensures var e := answer(p).error;
            var alike := FailingWith(paths, answer, e);
            if |alike| >= OUTAGE then p in alike && Fits(Outage(e, alike), paths, answer) else Fits(QueryError(p, e), paths, answer)
  {
    var e := answer(p).error;
    var alike := FailingWith(paths, answer, e);
    FailingIs(paths, answer, e);
    var i :| 0 <= i < |alike| && alike[i] == p;
    if |alike| < OUTAGE {
      assert Rendered(e, alike)[i] == QueryError(p, e);
    } else {
      assert Rendered(e, alike)[0] == Outage(e, alike);
    }
  }

  lemma RenderedFrom(groups: map<string, seq<string>>, paths: seq<string>, answer: string -> Answer, d: Diagnostic)
    requires Grouped(groups, paths, answer)
    ensures (exists e :: e in groups && d in Rendered(e, groups[e])) <==> Fits(d, paths, answer)
  {
    hide Rendered, FailingWith;
  }

  lemma KeysAreNeeded(m: Requirements, ss: seq<ExternalSecret>)
    requires Collected(m, ss)
    ensures forall p :: p in m <==> Needed(ss, p)
  {
  }

  lemma FailuresAddUp(groups: map<string, seq<string>>, paths: seq<string>, answer: string -> Answer, errors: seq<string>)
    requires Grouped(groups, paths, answer) && Ordered(errors) && forall e :: e in errors <==> e in groups
    ensures SumOf(errors, map e | e in groups :: |groups[e]|) == Sum(Failures(paths, answer))
  {
    var sizes := map e | e in groups :: |groups[e]|;
    forall e ensures |FailingWith(paths, answer, e)| == Total(Failures(paths, answer), e) { FailingIs(paths, answer, e); }
    forall x | x in Failures(paths, answer) ensures x.key in errors {
      FailureHasPath(paths, answer, x);
      FailingIs(paths, answer, x.key);
    }
    CountedSum(errors, sizes, Failures(paths, answer));
  }

  lemma {:induction false} FailureHasPath(paths: seq<string>, answer: string -> Answer, x: Entry<string>)
    requires x in Failures(paths, answer)
    ensures exists p :: p in paths && answer(p) == Failing(x.key)
    decreases |paths|
  {
    var front, last := paths[..|paths| - 1], paths[|paths| - 1];
    if x in Failures(front, answer) {
      FailureHasPath(front, answer, x);
      var p :| p in front && answer(p) == Failing(x.key);
      assert p in paths;
    } else {
      assert last in paths;
    }
  }

  /** Two paths that hold nothing, and one key of each. */
  function TwoGaps(): Requirements { map["a" := Requirement({"b/c"}, {}), "a/b" := Requirement({"c"}, {})] }

  lemma SecondIsUpstaged(order: seq<string>, answer: string -> Answer)
    requires order == ["a", "a/b"] && forall p :: answer(p) == Holding([])
    ensures Lacks("a", "b/c", order, TwoGaps(), answer) && Lacks("a/b", "c", order, TwoGaps(), answer)
    ensures Upstaged("a/b", "c", order, TwoGaps(), answer) && !Upstaged("a", "b/c", order, TwoGaps(), answer)
  {
    assert order[0] == "a" && order[1] == "a/b";
    assert order[0] + "/" + "b/c" == "a/b" + "/" + "c";
  }

  /** Of these two gaps only one is told. */
  method OneOfTwoGaps() returns (told: seq<Diagnostic>)
    ensures MissingKey("a", "b/c") in told && MissingKey("a/b", "c") !in told
  {
    hide Upstaged, Lacks, Grouped;
    var order, answer, groups := ["a", "a/b"], (p: string) => Holding([]), map[];
    told, groups := Classify(TwoGaps(), order, answer);
    SecondIsUpstaged(order, answer);
  }
}
