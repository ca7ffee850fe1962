/** The image-pin check: pods grouped by workload and unpinned images, each pod counted once. */
module ImagePins {
  import opened Strings
  import opened Sorting
  import opened Totals

  datatype Container = Container(name: string, image: string)

  /** `controller` is the controlling owner's name, empty if there is none. */
  datatype Pod = Pod(ns: string, name: string, controller: string, containers: seq<Container>)

  datatype Key = Key(ns: string, workload: string, images: string)

  datatype Severity = Info | Warning

  const SYSTEM := {"kube-system", "kube-public", "kube-node-lease", "cnpg-system", "rook-ceph", "vault", "external-secrets"}

  predicate EndsWith(s: string, tail: string) { |tail| <= |s| && s[|s| - |tail|..] == tail }

  /** A tag that can move: neither a digest nor the floating tags another check reports. */
  predicate Unpinned(c: Container) {
    c.image != "" && !Contains(c.image, "@sha256:") && !EndsWith(c.image, ":latest") && Contains(c.image, ":")
  }

  function TextOf(c: Container): seq<string> { if Unpinned(c) then [c.name + "=" + c.image] else [] }

  function Texts(cs: seq<Container>): seq<string> { Gather(cs, TextOf) }

  function Join(s: seq<string>): string { if s == [] then "" else if |s| == 1 then s[0] else s[0] + "," + Join(s[1..]) }

  predicate Eligible(p: Pod) { p.ns !in SYSTEM && Texts(p.containers) != [] }

  function KeyOf(p: Pod): Key {
    Key(p.ns, if p.controller == "" then p.name else p.controller, Join(Sort(Texts(p.containers))))
  }

  function Added(p: Pod): seq<Entry<Key>> { if Eligible(p) then [Entry(KeyOf(p), 1)] else [] }

  function Entries(pods: seq<Pod>): seq<Entry<Key>> { Gather(pods, Added) }

  function CountEligible(pods: seq<Pod>): nat {
    if pods == [] then 0 else CountEligible(pods[..|pods| - 1]) + if Eligible(pods[|pods| - 1]) then 1 else 0
  }

  predicate Grave(p: Pod, untrusted: set<string>) { exists c :: c in p.containers && Unpinned(c) && c.image in untrusted }

  /** Some pod of the group runs an image from a registry that is not trusted. */
  ghost predicate GraveGroup(pods: seq<Pod>, untrusted: set<string>, k: Key) {
    exists p :: p in pods && Eligible(p) && KeyOf(p) == k && Grave(p, untrusted)
  }

  /** One pod's unpinned images, and whether one of them is grave. */
  method Inspect(p: Pod, untrusted: set<string>) returns (texts: seq<string>, severity: Severity)
    ensures texts == Texts(p.containers)
    ensures severity == if Grave(p, untrusted) then Warning else Info
  {
    hide Unpinned;
    texts, severity := [], Info;
    var cs := p.containers;
    for i := 0 to |cs|
      invariant texts == Texts(cs[..i])
      invariant severity.Warning? <==> exists j :: 0 <= j < i && Unpinned(cs[j]) && cs[j].image in untrusted
    {
      assert cs[..i + 1][..i] == cs[..i];
      if !Unpinned(cs[i]) { continue; }
      texts := texts + [cs[i].name + "=" + cs[i].image];
      if cs[i].image in untrusted { severity := Warning; }
    }
    assert cs[..|cs|] == cs;
    assert forall j :: 0 <= j < |cs| ==> cs[j] in cs;
  }

  /** The groups with their pod counts and severities. */
  ghost predicate Grouping(
    order: seq<Key>, counts: map<Key, nat>, severities: map<Key, Severity>, pods: seq<Pod>, untrusted: set<string>)
  {
    && Counted(order, counts, Entries(pods))
    && severities.Keys == counts.Keys
    && (forall k :: k in severities ==> (severities[k].Warning? <==> GraveGroup(pods, untrusted, k)))
    && (forall k :: GraveGroup(pods, untrusted, k) ==> k in severities)
  }

  /** Every eligible pod is counted in exactly one group. */
  method Group(pods: seq<Pod>, untrusted: set<string>) returns (order: seq<Key>, counts: map<Key, nat>, severities: map<Key, Severity>)
    ensures Grouping(order, counts, severities, pods, untrusted)
    ensures SumOf(order, counts) == CountEligible(pods)
  {
    hide Grouping, Texts, Grave, Sort, Join;
    order, counts, severities := [], map[], map[];
    NoGroups(untrusted);
    for i := 0 to |pods|
      invariant Grouping(order, counts, severities, pods[..i], untrusted)
    {
      var p := pods[i];
      assert pods[..i + 1] == pods[..i] + [p];
      PodAdded(order, counts, severities, pods[..i], untrusted, p);
      if p.ns in SYSTEM { continue; }
      var texts, severity := Inspect(p, untrusted);
      if texts == [] { continue; }
      var sorted := SortedCopy(texts);
      var k := Key(p.ns, if p.controller == "" then p.name else p.controller, Join(sorted));
      if k in counts {
        counts := counts[k := counts[k] + 1];
        if severity == Warning { severities := severities[k := Warning]; }
        continue;
      }
      counts, order, severities := counts[k := 1], order + [k], severities[k := severity];
    }
    assert pods[..|pods|] == pods;
    EverybodyIsCounted(order, counts, severities, pods, untrusted);
  }

  lemma NoGroups(untrusted: set<string>)
    ensures Grouping([], map[], map[], [], untrusted)
  {
    CountedStart<Key>();
  }

  /** What one more pod does to the groups: nothing, one more in a known group, or a new group. */
  lemma PodAdded(
    order: seq<Key>, counts: map<Key, nat>, severities: map<Key, Severity>, pods: seq<Pod>, untrusted: set<string>, p: Pod)
    requires Grouping(order, counts, severities, pods, untrusted)
    ensures severities.Keys == counts.Keys
    ensures !Eligible(p) ==> Grouping(order, counts, severities, pods + [p], untrusted)
    ensures var k, severity := KeyOf(p), if Grave(p, untrusted) then Warning else Info;
            && (Eligible(p) && k in counts ==>
                  Grouping(order, counts[k := counts[k] + 1], if severity.Warning? then severities[k := Warning] else severities,
                           pods + [p], untrusted))
            && (Eligible(p) && k !in counts ==>
                  Grouping(order + [k], counts[k := 1], severities[k := severity], pods + [p], untrusted))
  {
    hide Counted, Eligible, KeyOf, Grave;
    EntriesNext(pods, p);
    GraveNext(pods, untrusted, p);
    hide GraveGroup, Entries;
    if Eligible(p) { CountedNext(order, counts, Entries(pods), Entry(KeyOf(p), 1)); }
  }

  lemma EntriesNext(pods: seq<Pod>, p: Pod)
    ensures Entries(pods + [p]) == Entries(pods) + if Eligible(p) then [Entry(KeyOf(p), 1)] else []
    ensures !Eligible(p) ==> Entries(pods + [p]) == Entries(pods)
  {
    assert (pods + [p])[..|pods|] == pods;
    hide Eligible, KeyOf;
  }

  lemma GraveNext(pods: seq<Pod>, untrusted: set<string>, p: Pod)
    ensures forall k :: GraveGroup(pods + [p], untrusted, k)
              <==> GraveGroup(pods, untrusted, k) || (Eligible(p) && KeyOf(p) == k && Grave(p, untrusted))
  {
    hide Eligible, KeyOf, Grave;
  }

  lemma EverybodyIsCounted(
    order: seq<Key>, counts: map<Key, nat>, severities: map<Key, Severity>, pods: seq<Pod>, untrusted: set<string>)
    requires Grouping(order, counts, severities, pods, untrusted)
    ensures (forall k :: k in order ==> k in counts) && SumOf(order, counts) == CountEligible(pods)
  {
    hide GraveGroup;
    CountsAreConserved(order, counts, Entries(pods));
    EntriesSum(pods);
  }

  lemma {:induction false} EntriesSum(pods: seq<Pod>)
    ensures Sum(Entries(pods)) == CountEligible(pods)
    decreases |pods|
  {
    hide Eligible, KeyOf;
    if pods != [] {
      var front, last := pods[..|pods| - 1], pods[|pods| - 1];
      EntriesSum(front);
      assert pods == front + [last];
      EntriesNext(front, last);
      TotalAppend(Entries(front), Entry(KeyOf(last), 1));
    }
  }

  // ---------- which pods, and under which name ----------

  /** An image counts if it has a tag, other than the floating one, and no digest. */
  lemma UnpinnedExactly(c: Container)
    ensures Unpinned(c) <==> Contains(c.image, ":") && !Contains(c.image, "@sha256:") && !exists stem :: c.image == stem + ":latest"
  {
    hide Contains;
    var n := |c.image| - 7;
    if EndsWith(c.image, ":latest") { assert c.image == c.image[..n] + ":latest"; }
    if stem :| c.image == stem + ":latest" { assert c.image[n..] == ":latest"; }
    if c.image == "" { NothingInside(":"); }
  }

  lemma NothingInside(sub: string)
    requires sub != ""
    ensures !Contains("", sub)
  {
  }

  /** A pod counts if it has such a container and lives in none of seven namespaces. */
  lemma EligibleExactly(p: Pod)
    ensures Eligible(p)
            <==> && p.ns !in {"kube-system", "kube-public", "kube-node-lease", "cnpg-system", "rook-ceph", "vault", "external-secrets"}
                 && exists c :: c in p.containers && Unpinned(c)
  {
    hide Unpinned;
    TextsExactly(p.containers);
  }

  lemma {:induction false} TextsExactly(cs: seq<Container>)
    ensures forall t :: t in Texts(cs) <==> exists c :: c in cs && Unpinned(c) && t == c.name + "=" + c.image
    ensures Texts(cs) != [] <==> exists c :: c in cs && Unpinned(c)
    decreases |cs|
  {
    hide Unpinned;
    if cs != [] {
      var front, last := cs[..|cs| - 1], cs[|cs| - 1];
      TextsExactly(front);
      assert forall c :: c in cs <==> c in front || c == last;
    }
  }

  lemma {:induction false} JoinAppend(s: seq<string>, t: string)
    ensures Join(s + [t]) == if s == [] then t else Join(s) + "," + t
    decreases |s|
  {
    if s != [] {
      assert (s + [t])[1..] == s[1..] + [t];
      JoinAppend(s[1..], t);
    }
  }

  /** Pods share a group exactly by namespace, by controller or else by name, and by what they run. */
  lemma GroupedExactly(p: Pod, q: Pod)
    requires Sort(Texts(p.containers)) == Sort(Texts(q.containers))
    ensures KeyOf(p) == KeyOf(q)
            <==> p.ns == q.ns && (if p.controller != "" then p.controller else p.name) == (if q.controller != "" then q.controller else q.name)
  {
    hide Sort, Join;
  }

  // ---------- orders that do not matter ----------

  /** The order of a pod's containers does not decide its group. */
  lemma ContainerOrderIsIgnored(p: Pod, p': Pod)
    requires multiset(p.containers) == multiset(p'.containers)
    requires p' == p.(containers := p'.containers)
    ensures KeyOf(p) == KeyOf(p') && (Eligible(p) <==> Eligible(p'))
  {
    hide TextOf, Join, Sort;
    var texts, texts' := Texts(p.containers), Texts(p'.containers);
    GatherIgnoresOrder(p.containers, p'.containers, TextOf);
    assert |texts| == |multiset(texts)| == |multiset(texts')| == |texts'|;
    SortSorts(texts);
    SortSorts(texts');
    SortedIsUnique(Sort(texts), Sort(texts'));
  }

  /** Whatever order the pods are listed in, the groups, their counts and their severities are the same. */
  lemma PodOrderIsIgnored(
    order: seq<Key>, counts: map<Key, nat>, severities: map<Key, Severity>, pods: seq<Pod>,
    order': seq<Key>, counts': map<Key, nat>, severities': map<Key, Severity>, pods': seq<Pod>, untrusted: set<string>)
    requires multiset(pods) == multiset(pods')
    requires Grouping(order, counts, severities, pods, untrusted) && Grouping(order', counts', severities', pods', untrusted)
    ensures counts == counts' && severities == severities'
  {
    hide Added, Eligible, KeyOf, Grave;
    forall k ensures Has(Entries(pods), k) == Has(Entries(pods'), k) && Total(Entries(pods), k) == Total(Entries(pods'), k) {
      FindingsIgnoreOrder(pods, pods', Added, k);
    }
    assert forall p :: (p in pods <==> p in multiset(pods)) && (p in pods' <==> p in multiset(pods'));
    assert forall k :: GraveGroup(pods, untrusted, k) <==> GraveGroup(pods', untrusted, k);
    hide GraveGroup, Entries, Has, Total;
    assert counts == counts';
    forall k | k in severities ensures severities[k] == severities'[k] { assert severities[k].Warning? == severities'[k].Warning?; }
  }
}
