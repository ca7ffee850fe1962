/**
The walk from a host name through Cloudflare, its Ingress and Service to ready
endpoints, and the condition under which it finds nothing critical.
*/
module DnsChain {
  import opened Options
  import opened Strings
  import opened Sorting

  datatype PathRule = PathRule(path: string, pathType: string, service: string)

  /** One rule of an Ingress; without an `http` part it has no paths. */
  datatype Rule = Rule(host: string, paths: seq<PathRule>)

  datatype Ingress = Ingress(ns: string, name: string, annotations: map<string, string>, rules: seq<Rule>)

  datatype SvcKey = SvcKey(ns: string, name: string)

  datatype Service = Service(kind: string, labels: map<string, string>, lbIp: string)

  /** `ready` is absent when the condition is unknown. */
  datatype Endpoint = Endpoint(ready: Option<bool>, addresses: nat)

  datatype Slice = Slice(ns: string, owner: string, endpoints: seq<Endpoint>)

  datatype Record = Record(name: string, content: string)

  /**
  Everything the walk reads. `controllers` lists the Services in server order, empty
  if they cannot be listed; `slices` is absent if slices cannot be; `legacy` holds the
  address counts of Endpoints objects; `zones` is absent without Cloudflare or when the
  zones cannot be listed, and a single zone when its records cannot.
  */
  datatype Env = Env(
    ingresses: seq<Ingress>, optOut: string, seeds: seq<string>, controllers: seq<Service>,
    services: map<SvcKey, Service>, slices: Option<seq<Slice>>, legacy: map<SvcKey, seq<nat>>,
    zones: Option<seq<Option<seq<Record>>>>)

  datatype PathKey = PathKey(path: string, pathType: string)

  datatype Claimant = Claimant(ns: string, name: string)

  datatype Backend = Backend(who: Claimant, service: string)

  datatype Diagnostic =
    | MissingRecord(host: string) | PointsElsewhere(host: string) | MissingIngress(host: string)
    | Duplicate(host: string, paths: set<PathKey>) | OrphanService(host: string, backend: Backend)
    | ExternalName(host: string, backend: Backend) | NoEndpoints(host: string, backend: Backend) | NotVerified(unverified: nat)

  predicate Critical(d: Diagnostic) {
    d.MissingRecord? || d.PointsElsewhere? || d.MissingIngress? || d.OrphanService? || d.NoEndpoints?
  }

  // ---------- which rules count ----------

  const ACME_PREFIX := "cm-acme-http-solver-"

  predicate Skipped(ing: Ingress, optOut: string) {
    (optOut in ing.annotations && Lower(ing.annotations[optOut]) == "true") || ACME_PREFIX <= ing.name
  }

  datatype Claim = Claim(who: Claimant, rule: Rule)

  function ClaimsOf(ing: Ingress): seq<Claim> {
    seq(|ing.rules|, i requires 0 <= i < |ing.rules| => Claim(Claimant(ing.ns, ing.name), ing.rules[i]))
  }

  /** All rules of all Ingresses that count, in order. */
  function Claims(ings: seq<Ingress>, optOut: string): seq<Claim> {
    if ings == [] then []
    else
      var last := ings[|ings| - 1];
      Claims(ings[..|ings| - 1], optOut) + if Skipped(last, optOut) then [] else ClaimsOf(last)
  }

  function HostOf(c: Claim): string { Lower(Trim(c.rule.host)) }

  predicate Names(claims: seq<Claim>, host: string) { exists c :: c in claims && HostOf(c) == host }

  /** The first rule naming the host. */
  function FirstFor(claims: seq<Claim>, host: string): Claim
    requires Names(claims, host)
  {
    if HostOf(claims[0]) == host then claims[0] else FirstFor(claims[1..], host)
  }

  function BackendOf(c: Claim): Backend {
    Backend(c.who, if c.rule.paths == [] then "" else c.rule.paths[0].service)
  }

  function KeyOf(p: PathRule): PathKey {
    PathKey(if p.path == "" then "/" else p.path, if p.pathType == "" then "Prefix" else p.pathType)
  }

  /** What a rule claims on its host: the whole of it, if it has no paths. */
  predicate Takes(r: Rule, k: PathKey) {
    if r.paths == [] then k == PathKey("/", "Prefix") else exists p :: p in r.paths && KeyOf(p) == k
  }

  predicate ClaimedBy(claims: seq<Claim>, host: string, k: PathKey, who: Claimant) {
    exists c :: c in claims && HostOf(c) == host && c.who == who && Takes(c.rule, k)
  }

  /** Two different Ingresses claim the same path of the host. */
  ghost predicate Contested(claims: seq<Claim>, host: string, k: PathKey) {
    exists a, b :: a != b && ClaimedBy(claims, host, k, a) && ClaimedBy(claims, host, k, b)
  }

  // ---------- the maps the walk builds ----------

  type Claimants = map<string, map<PathKey, seq<Claimant>>>

  function ListOf(m: Claimants, host: string, k: PathKey): seq<Claimant> {
    if host in m && k in m[host] then m[host][k] else []
  }

  function Noted(m: Claimants, host: string, k: PathKey, who: Claimant): Claimants {
    var paths := if host in m then m[host] else map[];
    m[host := paths[k := (if k in paths then paths[k] else []) + [who]]]
  }

  lemma NotedLists(m: Claimants, host: string, k: PathKey, who: Claimant)
    ensures var m' := Noted(m, host, k, who);
            && ListOf(m', host, k) == ListOf(m, host, k) + [who]
            && forall h, q :: (h != host || q != k) ==> ListOf(m', h, q) == ListOf(m, h, q)
  {
  }

  /** The claimants recorded for each path of each host are those that claim it. */
  ghost predicate Recorded(m: Claimants, claims: seq<Claim>) {
    forall h, k, who :: who in ListOf(m, h, k) <==> h != "" && ClaimedBy(claims, h, k, who)
  }

  ghost predicate Backed(m: map<string, Backend>, claims: seq<Claim>) {
    && (forall h :: h in m <==> h != "" && Names(claims, h))
    && (forall h :: h in m ==> m[h] == BackendOf(FirstFor(claims, h)))
  }

  lemma FirstStays(claims: seq<Claim>, c: Claim, host: string)
    ensures Names(claims + [c], host) <==> Names(claims, host) || HostOf(c) == host
    ensures Names(claims, host) ==> FirstFor(claims + [c], host) == FirstFor(claims, host)
    ensures !Names(claims, host) && HostOf(c) == host ==> FirstFor(claims + [c], host) == c
  {
    var all := claims + [c];
    assert forall x :: x in all <==> x in claims || x == c;
    if claims != [] {
      assert all[1..] == claims[1..] + [c];
      if HostOf(claims[0]) != host { FirstStays(claims[1..], c, host); }
      assert claims == [claims[0]] + claims[1..];
    }
  }

  lemma BackedNext(m: map<string, Backend>, claims: seq<Claim>, c: Claim)
    requires Backed(m, claims)
    ensures Backed(if HostOf(c) == "" || HostOf(c) in m then m else m[HostOf(c) := BackendOf(c)], claims + [c])
  {
    hide BackendOf, HostOf, Names;
    forall h ensures Names(claims + [c], h) <==> Names(claims, h) || HostOf(c) == h { FirstStays(claims, c, h); }
    forall h | Names(claims, h) || HostOf(c) == h
      ensures FirstFor(claims + [c], h) == if Names(claims, h) then FirstFor(claims, h) else c
    {
      FirstStays(claims, c, h);
    }
  }

  lemma ClaimedNext(claims: seq<Claim>, c: Claim)
    ensures forall h, k, who :: ClaimedBy(claims + [c], h, k, who)
              <==> ClaimedBy(claims, h, k, who) || (HostOf(c) == h && c.who == who && Takes(c.rule, k))
  {
  }

  /** Notes everything one rule claims. */
  method NoteRule(m: Claimants, ghost claims: seq<Claim>, c: Claim) returns (m': Claimants)
    requires Recorded(m, claims) && HostOf(c) != ""
    ensures Recorded(m', claims + [c])
  {
    hide HostOf, ClaimedBy, Noted, ListOf;
    m' := m;
    var host := HostOf(c);
    if c.rule.paths == [] {
      NotedLists(m, host, PathKey("/", "Prefix"), c.who);
      m' := Noted(m, host, PathKey("/", "Prefix"), c.who);
    }
    for i := 0 to |c.rule.paths|
      invariant Grown(m, m', host, c.who, if c.rule.paths == [] then {PathKey("/", "Prefix")} else KeysUpTo(c.rule.paths, i))
    {
      var key := KeyOf(c.rule.paths[i]);
      NotedLists(m', host, key, c.who);
      m' := Noted(m', host, key, c.who);
    }
    TakenKeys(c.rule);
    ClaimedNext(claims, c);
  }

  function KeysUpTo(paths: seq<PathRule>, n: nat): set<PathKey>
    requires n <= |paths|
  {
    set i | 0 <= i < n :: KeyOf(paths[i])
  }

  lemma TakenKeys(r: Rule)
    ensures forall k :: Takes(r, k) <==> k in if r.paths == [] then {PathKey("/", "Prefix")} else KeysUpTo(r.paths, |r.paths|)
  {
  }

  /** `m'` is `m` with the Ingress added to the lists of the given paths of the host. */
  ghost predicate Grown(m: Claimants, m': Claimants, host: string, who: Claimant, keys: set<PathKey>) {
    forall h, k, w :: w in ListOf(m', h, k) <==> w in ListOf(m, h, k) || (h == host && w == who && k in keys)
  }

  method Collect(env: Env) returns (backends: map<string, Backend>, claimants: Claimants)
    ensures Backed(backends, Claims(env.ingresses, env.optOut))
    ensures Recorded(claimants, Claims(env.ingresses, env.optOut))
  {
    hide HostOf, Backed, Recorded, Skipped, BackendOf;
    backends, claimants := map[], map[];
    ghost var claims: seq<Claim> := [];
    NothingCollected();
    var ings := env.ingresses;
    for i := 0 to |ings|
      invariant claims == Claims(ings[..i], env.optOut)
      invariant Backed(backends, claims) && Recorded(claimants, claims)
    {
      assert ings[..i + 1][..i] == ings[..i];
      if Skipped(ings[i], env.optOut) {
        continue;
      }
      ghost var before, own := claims, ClaimsOf(ings[i]);
      assert before + own[..0] == before;
      for j := 0 to |ings[i].rules|
        invariant claims == before + own[..j]
        invariant Backed(backends, claims) && Recorded(claimants, claims)
      {
        var c := Claim(Claimant(ings[i].ns, ings[i].name), ings[i].rules[j]);
        assert before + own[..j] + [c] == before + own[..j + 1];
        var host := HostOf(c);
        BackedNext(backends, claims, c);
        if host == "" {
          UnnamedRule(claimants, claims, c);
          claims := claims + [c];
          continue;
        }
        claimants := NoteRule(claimants, claims, c);
        claims := claims + [c];
        if host !in backends { backends := backends[host := BackendOf(c)]; }
      }
      assert own[..|own|] == own;
    }
    assert ings[..|ings|] == ings;
  }

  lemma NothingCollected()
    ensures Backed(map[], []) && Recorded(map[], [])
  {
  }

  lemma UnnamedRule(m: Claimants, claims: seq<Claim>, c: Claim)
    requires Recorded(m, claims) && HostOf(c) == ""
    ensures Recorded(m, claims + [c])
  {
    hide HostOf, ListOf, ClaimedBy;
    ClaimedNext(claims, c);
  }

  // ---------- contested paths ----------

  /** Whether a list names two different Ingresses. */
  method HasRivals(who: seq<Claimant>) returns (rivals: bool)
    ensures rivals <==> exists a, b :: a != b && a in who && b in who
  {
    var seen: set<Claimant> := {};
    for i := 0 to |who|
      invariant forall c :: c in seen <==> c in who[..i]
      invariant i > 0 ==> seen == {who[0]}
    {
      assert who[..i + 1] == who[..i] + [who[i]];
      if i > 0 && who[i] !in seen {
        assert who[0] in who && who[i] in who;
        return true;
      }
      seen := seen + {who[i]};
    }
    assert who[..|who|] == who;
    return false;
  }

  method Collisions(claimants: Claimants, ghost claims: seq<Claim>, host: string) returns (paths: set<PathKey>)
    requires Recorded(claimants, claims) && host != ""
    ensures forall k :: k in paths <==> Contested(claims, host, k)
  {
    hide ClaimedBy;
    paths := {};
    if host !in claimants {
      return;
    }
    var left := claimants[host].Keys;
    while left != {}
      invariant left <= claimants[host].Keys
      invariant forall k :: k in paths <==> k in claimants[host] && k !in left && Contested(claims, host, k)
      decreases left
    {
      var k :| k in left;
      var rivals := HasRivals(claimants[host][k]);
      assert ListOf(claimants, host, k) == claimants[host][k];
      assert rivals <==> Contested(claims, host, k);
      if rivals { paths := paths + {k}; }
      left := left - {k};
    }
  }

  // ---------- ready endpoints ----------

  predicate Counts(e: Endpoint) { e.ready != Some(false) && e.addresses > 0 }

  predicate Sliced(slices: Option<seq<Slice>>, svc: SvcKey) {
    slices.Some? && exists s :: s in slices.value && s.ns == svc.ns && s.owner == svc.name
  }

  /** A slice of the Service has a usable address, or, if no slice is visible, its Endpoints object has one. */
  predicate HasReady(env: Env, svc: SvcKey) {
    if Sliced(env.slices, svc)
    then exists s, e :: s in env.slices.value && s.ns == svc.ns && s.owner == svc.name && e in s.endpoints && Counts(e)
    else svc in env.legacy && exists n :: n in env.legacy[svc] && n > 0
  }

  method CountSlice(endpoints: seq<Endpoint>) returns (count: nat)
    ensures count > 0 <==> exists e :: e in endpoints && Counts(e)
  {
    count := 0;
    for i := 0 to |endpoints|
      invariant count > 0 <==> exists e :: e in endpoints[..i] && Counts(e)
    {
      assert forall e :: e in endpoints[..i + 1] <==> e in endpoints[..i] || e == endpoints[i];
      assert endpoints[i] in endpoints[..i + 1];
      if endpoints[i].ready == Some(false) { continue; }
      count := count + endpoints[i].addresses;
    }
    assert endpoints[..|endpoints|] == endpoints;
  }

  method CountLegacy(subsets: seq<nat>) returns (count: nat)
    ensures count > 0 <==> exists n :: n in subsets && n > 0
  {
    count := 0;
    for i := 0 to |subsets|
      invariant count > 0 <==> exists j :: 0 <= j < i && subsets[j] > 0
    {
      count := count + subsets[i];
    }
    assert forall j :: 0 <= j < |subsets| ==> subsets[j] in subsets;
  }

  method ReadyAddresses(env: Env, svc: SvcKey) returns (count: nat, ok: bool)
    ensures ok && count > 0 <==> HasReady(env, svc)
  {
    hide Counts;
    count := 0;
    if env.slices.Some? {
      var slices, matched := env.slices.value, false;
      for i := 0 to |slices|
        invariant matched <==> exists s :: s in slices[..i] && s.ns == svc.ns && s.owner == svc.name
        invariant count > 0 <==> exists s, e :: s in slices[..i] && s.ns == svc.ns && s.owner == svc.name && e in s.endpoints && Counts(e)
      {
        assert slices[..i + 1] == slices[..i] + [slices[i]];
        if slices[i].ns != svc.ns || slices[i].owner != svc.name { continue; }
        matched := true;
        var n := CountSlice(slices[i].endpoints);
        count := count + n;
      }
      assert slices[..|slices|] == slices;
      if matched { return count, true; }
    }
    if svc !in env.legacy { return 0, false; }
    count := CountLegacy(env.legacy[svc]);
    return count, true;
  }

  // ---------- Cloudflare ----------

  /** Every record content that any readable zone holds for a host. */
  predicate HasRecord(zones: seq<Option<seq<Record>>>, host: string, content: string) {
    exists z, r :: z in zones && z.Some? && r in z.value && Lower(r.name) == host && r.content == content
  }

  /** The zone dump, indexed by host. */
  ghost predicate Cached(cache: map<string, seq<string>>, zones: seq<Option<seq<Record>>>) {
    && (forall h, content :: h in cache && content in cache[h] ==> HasRecord(zones, h, content))
    && (forall h, content :: HasRecord(zones, h, content) ==> h in cache && content in cache[h])
  }

  method BuildCache(zones: seq<Option<seq<Record>>>) returns (cache: map<string, seq<string>>)
    ensures Cached(cache, zones)
  {
    hide Lower;
    cache := map[];
    for i := 0 to |zones|
      invariant Cached(cache, zones[..i])
    {
      assert zones[..i + 1] == zones[..i] + [zones[i]];
      ghost var front := zones[..i];
      if zones[i].None? {
        EmptyZone(cache, front, None);
        continue;
      }
      var records := zones[i].value;
      EmptyZone(cache, front, Some([]));
      assert records[..0] == [];
      for j := 0 to |records|
        invariant Cached(cache, front + [Some(records[..j])])
      {
        var r := records[j];
        CacheNext(cache, front, records[..j], r);
        assert records[..j + 1] == records[..j] + [r];
        cache := Add(cache, r);
      }
      assert records[..|records|] == records && front + [Some(records)] == zones[..i + 1];
    }
    assert zones[..|zones|] == zones;
  }

  lemma EmptyZone(cache: map<string, seq<string>>, front: seq<Option<seq<Record>>>, zone: Option<seq<Record>>)
    requires Cached(cache, front) && (zone.None? || zone.value == [])
    ensures Cached(cache, front + [zone])
  {
    forall h, content ensures HasRecord(front + [zone], h, content) <==> HasRecord(front, h, content) {
      assert forall z :: z in front + [zone] <==> z in front || z == zone;
    }
    hide HasRecord;
  }

  function Add(cache: map<string, seq<string>>, r: Record): map<string, seq<string>> {
    var name := Lower(r.name);
    cache[name := (if name in cache then cache[name] else []) + [r.content]]
  }

  lemma CacheNext(cache: map<string, seq<string>>, front: seq<Option<seq<Record>>>, records: seq<Record>, r: Record)
    requires Cached(cache, front + [Some(records)])
    ensures Cached(Add(cache, r), front + [Some(records + [r])])
  {
    hide Lower;
    var old_, new_ := front + [Some(records)], front + [Some(records + [r])];
    forall h, content ensures HasRecord(new_, h, content) <==> HasRecord(old_, h, content) || (h == Lower(r.name) && content == r.content) {
      HasRecordSplit(front, records, h, content);
      HasRecordSplit(front, records + [r], h, content);
    }
    hide HasRecord;
  }

  lemma HasRecordSplit(front: seq<Option<seq<Record>>>, records: seq<Record>, h: string, content: string)
    ensures HasRecord(front + [Some(records)], h, content)
            <==> HasRecord(front, h, content) || exists r :: r in records && Lower(r.name) == h && r.content == content
  {
  }

  ghost predicate InDns(zones: seq<Option<seq<Record>>>, host: string) { exists content :: HasRecord(zones, host, content) }

  /** Some record of the host points at the load balancer, or there is no saying where it should point. */
  ghost predicate Agrees(zones: seq<Option<seq<Record>>>, lbIp: string, host: string) {
    InDns(zones, host) && (lbIp == "" || HasRecord(zones, host, lbIp))
  }

  const CONTROLLER_NAMES := {"ingress-kong", "kong", "ingress-nginx", "nginx-ingress", "traefik"}
  const CONTROLLER_APPS := {"ingress-kong", "kong", "ingress-nginx", "nginx", "traefik"}

  predicate IsController(labels: map<string, string>) {
    || ("app.kubernetes.io/name" in labels && Lower(labels["app.kubernetes.io/name"]) in CONTROLLER_NAMES)
    || ("app" in labels && Lower(labels["app"]) in CONTROLLER_APPS)
  }

  /** The address of the first ingress controller that has one. */
  function LbIp(services: seq<Service>): string {
    if services == [] then ""
    else if IsController(services[0].labels) && Trim(services[0].lbIp) != "" then Trim(services[0].lbIp)
    else LbIp(services[1..])
  }

  /** What Cloudflare says about a host, and whether the walk goes on behind it. */
  method CheckCfLayer(cache: map<string, seq<string>>, ghost zones: seq<Option<seq<Record>>>, lbIp: string, host: string)
    returns (d: Option<Diagnostic>, onward: bool)
    requires Cached(cache, zones)
    ensures d.None? <==> Agrees(zones, lbIp, host)
    ensures d == Some(MissingRecord(host)) <==> !InDns(zones, host)
    ensures d == Some(PointsElsewhere(host)) <==> InDns(zones, host) && lbIp != "" && !HasRecord(zones, host, lbIp)
    ensures d.Some? ==> d.value == MissingRecord(host) || d.value == PointsElsewhere(host)
    ensures onward <==> InDns(zones, host)
  {
    hide HasRecord;
    if host !in cache || cache[host] == [] { return Some(MissingRecord(host)), false; }
    var records := cache[host];
    assert records[0] in records;
    if lbIp == "" { return None, true; }
    for i := 0 to |records|
      invariant lbIp !in records[..i]
    {
      if records[i] == lbIp {
        assert lbIp in records;
        return None, true;
      }
    }
    assert records[..|records|] == records;
    return Some(PointsElsewhere(host)), true;
  }

  // ---------- one host ----------

  /** The Service behind the Ingress can answer, or the Ingress names none. */
  predicate Served(env: Env, b: Backend) {
    b.service == ""
    || var key := SvcKey(b.who.ns, b.service);
       key in env.services && (Lower(env.services[key].kind) == "externalname" || HasReady(env, key))
  }

  ghost predicate Verified(env: Env, host: string) {
    env.zones.None? || Agrees(env.zones.value, LbIp(env.controllers), host)
  }

  ghost predicate Reached(env: Env, host: string) {
    env.zones.None? || InDns(env.zones.value, host)
  }

  ghost predicate AnyCritical(ds: seq<Diagnostic>) { exists d :: d in ds && Critical(d) }

  function ServiceOf(b: Backend): SvcKey { SvcKey(b.who.ns, b.service) }

  predicate Orphaned(env: Env, b: Backend) { b.service != "" && ServiceOf(b) !in env.services }

  predicate Proxied(env: Env, b: Backend) {
    b.service != "" && ServiceOf(b) in env.services && Lower(env.services[ServiceOf(b)].kind) == "externalname"
  }

  predicate Deserted(env: Env, b: Backend) {
    && b.service != "" && ServiceOf(b) in env.services && Lower(env.services[ServiceOf(b)].kind) != "externalname"
    && !HasReady(env, ServiceOf(b))
  }

  /** What is said of the hops behind Cloudflare. */
  ghost predicate ClusterReport(env: Env, claims: seq<Claim>, host: string, b: Backend, ds: seq<Diagnostic>) {
    && (forall d :: d in ds && d.Duplicate? ==> forall k :: k in d.paths <==> Contested(claims, host, k))
    && ((exists d :: d in ds && d.Duplicate?) <==> exists k :: Contested(claims, host, k))
    && (OrphanService(host, b) in ds <==> Orphaned(env, b))
    && (ExternalName(host, b) in ds <==> Proxied(env, b))
    && (NoEndpoints(host, b) in ds <==> Deserted(env, b))
    && (forall d :: d in ds ==>
          (d.Duplicate? && d.host == host) || d == OrphanService(host, b) || d == ExternalName(host, b) || d == NoEndpoints(host, b))
  }

  /** What is said of Cloudflare. */
  ghost predicate RecordReport(env: Env, host: string, ds: seq<Diagnostic>) {
    && (MissingRecord(host) in ds <==> env.zones.Some? && !InDns(env.zones.value, host))
    && (PointsElsewhere(host) in ds
        <==> && env.zones.Some? && InDns(env.zones.value, host)
             && LbIp(env.controllers) != "" && !HasRecord(env.zones.value, host, LbIp(env.controllers)))
  }

  predicate OfRecord(d: Diagnostic) { d.MissingRecord? || d.PointsElsewhere? }

  /** What a report says of any host: of Cloudflare first, of the cluster only if an Ingress names the host and it is reached, and nothing twice. */
  ghost predicate HostReport(env: Env, claims: seq<Claim>, host: string, ds: seq<Diagnostic>) {
    && RecordReport(env, host, ds)
    && (forall d :: d in ds && OfRecord(d) ==> d == ds[0] && d.host == host)
    && (forall i, j :: 0 <= i < j < |ds| ==> ds[i] != ds[j])
    && var rest := if ds != [] && OfRecord(ds[0]) then ds[1..] else ds;
       if Names(claims, host) && Reached(env, host)
       then ClusterReport(env, claims, host, BackendOf(FirstFor(claims, host)), rest)
       else rest == []
  }

  lemma ClusterTogether(
    env: Env, claims: seq<Claim>, host: string, b: Backend, paths: set<PathKey>, found: seq<Diagnostic>, ds: seq<Diagnostic>)
    requires forall k :: k in paths <==> Contested(claims, host, k)
    requires ds == (if paths != {} then [Duplicate(host, paths)] else []) + found
    requires if Orphaned(env, b) then found == [OrphanService(host, b)]
             else if Proxied(env, b) then found == [ExternalName(host, b)]
             else if Deserted(env, b) then found == [NoEndpoints(host, b)]
             else found == []
    ensures ClusterReport(env, claims, host, b, ds)
    ensures forall i, j :: 0 <= i < j < |ds| ==> ds[i] != ds[j]
  {
    hide Contested, HasReady, Lower;
    assert forall d :: d in ds <==> (paths != {} && d == Duplicate(host, paths)) || d in found;
    assert paths != {} ==> Duplicate(host, paths) in ds && exists k :: k in paths;
  }

  /** The hops behind Cloudflare. */
  method CheckCluster(env: Env, host: string, b: Backend, claimants: Claimants, ghost claims: seq<Claim>) returns (ds: seq<Diagnostic>)
    requires Recorded(claimants, claims) && host != ""
    ensures ClusterReport(env, claims, host, b, ds)
    ensures forall i, j :: 0 <= i < j < |ds| ==> ds[i] != ds[j]
  {
    hide Recorded, HasReady, Contested, Lower, ClusterReport;
    ds := [];
    var paths := Collisions(claimants, claims, host);
    if paths != {} { ds := ds + [Duplicate(host, paths)]; }
    if b.service == "" {
      ClusterTogether(env, claims, host, b, paths, [], ds);
      return;
    }
    var key := SvcKey(b.who.ns, b.service);
    ghost var before := |ds|;
    if key !in env.services {
      ds := ds + [OrphanService(host, b)];
    } else if Lower(env.services[key].kind) == "externalname" {
      ds := ds + [ExternalName(host, b)];
    } else {
      var ready, ok := ReadyAddresses(env, key);
      if !ok || ready == 0 { ds := ds + [NoEndpoints(host, b)]; }
    }
    ClusterTogether(env, claims, host, b, paths, ds[before..], ds);
  }

  method CheckHost(
    env: Env, cache: map<string, seq<string>>, lbIp: string, host: string, b: Option<Backend>, seeded: bool,
    claimants: Claimants, ghost claims: seq<Claim>)
    returns (ds: seq<Diagnostic>)
    requires lbIp == LbIp(env.controllers) && (env.zones.Some? ==> Cached(cache, env.zones.value))
    requires Recorded(claimants, claims) && host != ""
    requires b.Some? <==> Names(claims, host)
    requires b.Some? ==> b.value == BackendOf(FirstFor(claims, host))
    requires b.None? ==> seeded
    ensures HostReport(env, claims, host, ds)
  {
    hide Recorded, Cached, Contested, InDns, LbIp, BackendOf, Names, FirstFor, HasRecord, ClusterReport, Agrees;
    ds := [];
    if env.zones.Some? {
      var d, onward := CheckCfLayer(cache, env.zones.value, lbIp, host);
      if d.Some? {
        ds := [d.value];
        assert d.value in ds;
        if !onward {
          return;
        }
      }
    }
    if b.None? && seeded { return; }
    if b.None? {
      ds := ds + [MissingIngress(host)];
      return;
    }
    ghost var before := ds;
    var more := CheckCluster(env, host, b.value, claimants, claims);
    ClusterIsNotRecord(env, claims, host, b.value, more);
    ds := ds + more;
    assert forall d :: d in ds <==> d in before || d in more;
    assert ds[|before|..] == more;
  }

  lemma ClusterIsNotRecord(env: Env, claims: seq<Claim>, host: string, b: Backend, ds: seq<Diagnostic>)
    requires ClusterReport(env, claims, host, b, ds)
    ensures forall d :: d in ds ==> !OfRecord(d) && !d.NotVerified? && !d.MissingIngress? && d.host == host
  {
    hide Contested, Orphaned, Proxied, Deserted;
  }

  lemma HostsOfReport(env: Env, claims: seq<Claim>, host: string, ds: seq<Diagnostic>)
    requires HostReport(env, claims, host, ds)
    ensures forall d :: d in ds ==> !d.NotVerified? && !d.MissingIngress? && d.host == host
  {
    hide ClusterReport, Names, BackendOf, FirstFor, RecordReport, Reached;
    var rest := if ds != [] && OfRecord(ds[0]) then ds[1..] else ds;
    if rest != [] { ClusterIsNotRecord(env, claims, host, BackendOf(FirstFor(claims, host)), rest); }
    assert forall d :: d in ds ==> d == ds[0] || d in ds[1..];
  }

  // ---------- the whole walk ----------

  /** All hosts, those of the Ingresses and those of the target list. */
  ghost predicate Known(env: Env, claims: seq<Claim>, host: string) {
    host != "" && (Names(claims, host) || host in env.seeds)
  }

  /** The reports of the hosts, one after the other. */
  function Joined(reports: seq<seq<Diagnostic>>): seq<Diagnostic> {
    if reports == [] then [] else Joined(reports[..|reports| - 1]) + reports[|reports| - 1]
  }

  lemma JoinedHas(reports: seq<seq<Diagnostic>>)
    ensures forall d :: d in Joined(reports) <==> exists i :: 0 <= i < |reports| && d in reports[i]
  {
  }

  lemma JoinedAppend(reports: seq<seq<Diagnostic>>, ds: seq<Diagnostic>)
    ensures Joined(reports + [ds]) == Joined(reports) + ds
  {
  }

  /** The diagnostics come host by host, in the order of the hosts. */
  ghost predicate ByHost(env: Env, claims: seq<Claim>, hosts: seq<string>, reports: seq<seq<Diagnostic>>) {
    |hosts| == |reports| && forall i :: 0 <= i < |hosts| ==> HostReport(env, claims, hosts[i], reports[i])
  }

  /** What the walk reports of one host is that host's report. */
  lemma ReportOfOne(env: Env, claims: seq<Claim>, hosts: seq<string>, reports: seq<seq<Diagnostic>>, i: nat)
    requires Ordered(hosts) && ByHost(env, claims, hosts, reports) && i < |hosts|
    ensures forall d :: d in Joined(reports) && !d.NotVerified? && d.host == hosts[i] <==> d in reports[i]
  {
    hide Sorted, HostReport;
    JoinedHas(reports);
    forall j | 0 <= j < |reports| ensures forall d :: d in reports[j] ==> !d.NotVerified? && !d.MissingIngress? && d.host == hosts[j] {
      HostsOfReport(env, claims, hosts[j], reports[j]);
    }
    forall d ensures d in Joined(reports) && !d.NotVerified? && d.host == hosts[i] <==> d in reports[i] {
      if d in reports[i] {
        assert !d.NotVerified? && d.host == hosts[i];
      }
      if d in Joined(reports) && !d.NotVerified? && d.host == hosts[i] {
        var j :| 0 <= j < |reports| && d in reports[j];
        assert d.host == hosts[j];
      }
    }
  }

  /** The seed list as a set; empty entries do not count. */
  function Seeds(env: Env): set<string> { set h | h in env.seeds && h != "" }

  /**
  The whole walk. Hosts are reported in sorted order, each once. A host with an Ingress
  has a critical finding unless its Cloudflare layer agrees and its Service can answer;
  a reached host is warned about exactly when two Ingresses contest one of its paths; a host
  known from the target list alone is judged by Cloudflare only; nobody is told that an
  Ingress is missing.
  */
  method Run(env: Env) returns (out: seq<Diagnostic>, ghost hosts: seq<string>, ghost reports: seq<seq<Diagnostic>>)
    ensures env.ingresses == [] ==> out == []
    ensures env.ingresses != [] ==>
              var claims := Claims(env.ingresses, env.optOut);
              && Ordered(hosts) && (forall h :: h in hosts <==> Known(env, claims, h))
              && ByHost(env, claims, hosts, reports)
              && out == Joined(reports) + if env.zones.None? && hosts != [] then [NotVerified(|hosts|)] else []
  {
    hide HostReport, Backed, Recorded, Cached, Ordered, Joined, LbIp, Names;
    hosts, reports, out := [], [], [];
    if env.ingresses == [] { return; }
    ghost var claims := Claims(env.ingresses, env.optOut);
    var backends, claimants := Collect(env);
    BackedKeys(backends, claims);
    var seeds := Seeds(env);
    var order := SortedSet(backends.Keys + seeds);
    hosts := order;
    var lbIp := LbIp(env.controllers);
    var cache := map[];
    if env.zones.Some? { cache := BuildCache(env.zones.value); }
    NothingJoined();
    for i := 0 to |order|
      invariant |reports| == i && out == Joined(reports)
      invariant forall j :: 0 <= j < i ==> HostReport(env, claims, order[j], reports[j])
    {
      var host := order[i];
      assert host in order;
      BackedAt(backends, claims, host);
      var ds := CheckHost(env, cache, lbIp, host, if host in backends then Some(backends[host]) else None,
                          host in seeds, claimants, claims);
      JoinedAppend(reports, ds);
      out, reports := out + ds, reports + [ds];
    }
    if env.zones.None? && |order| > 0 { out := out + [NotVerified(|order|)]; }
  }

  lemma NothingJoined()
    ensures Joined([]) == []
  {
  }

  lemma BackedKeys(m: map<string, Backend>, claims: seq<Claim>)
    requires Backed(m, claims)
    ensures forall h :: h in m <==> h != "" && Names(claims, h)
  {
  }

  lemma BackedAt(m: map<string, Backend>, claims: seq<Claim>, h: string)
    requires Backed(m, claims)
    ensures h in m ==> Names(claims, h) && m[h] == BackendOf(FirstFor(claims, h))
  {
  }

  /** The Service behind the Ingress can answer, or the Ingress names none: neither is it missing nor without endpoints. */
  lemma ServedExactly(env: Env, b: Backend)
    ensures Served(env, b) <==> !Orphaned(env, b) && !Deserted(env, b)
  {
    hide HasReady, Lower;
  }

  /** The walk in one host's report, kind by kind. */
  lemma KindByKind(env: Env, claims: seq<Claim>, host: string, ds: seq<Diagnostic>)
    requires HostReport(env, claims, host, ds) && Names(claims, host)
    ensures var b, reached := BackendOf(FirstFor(claims, host)), Reached(env, host);
            && (forall d :: d in ds && d.OrphanService? ==> d.backend == b) && (OrphanService(host, b) in ds <==> reached && Orphaned(env, b))
            && (forall d :: d in ds && d.ExternalName? ==> d.backend == b) && (ExternalName(host, b) in ds <==> reached && Proxied(env, b))
            && (forall d :: d in ds && d.NoEndpoints? ==> d.backend == b) && (NoEndpoints(host, b) in ds <==> reached && Deserted(env, b))
            && (forall d :: d in ds && d.Duplicate? ==> forall k :: k in d.paths <==> Contested(claims, host, k))
            && ((exists d :: d in ds && d.Duplicate?) <==> reached && exists k :: Contested(claims, host, k))
            && (AnyCritical(ds) <==> !(Verified(env, host) && Served(env, b)))
  {
    hide Names, BackendOf, FirstFor, Contested, Orphaned, Proxied, Deserted, LbIp, InDns, HasRecord, Served;
    var b := BackendOf(FirstFor(claims, host));
    var rest := if ds != [] && OfRecord(ds[0]) then ds[1..] else ds;
    assert forall d :: d in ds <==> d in rest || (ds != [] && OfRecord(ds[0]) && d == ds[0]);
    ServedExactly(env, b);
    if Reached(env, host) { ClusterCritical(env, claims, host, b, rest); }
    RecordCritical(env, claims, host, ds);
    hide ClusterReport;
  }

  lemma ClusterCritical(env: Env, claims: seq<Claim>, host: string, b: Backend, ds: seq<Diagnostic>)
    requires ClusterReport(env, claims, host, b, ds)
    ensures AnyCritical(ds) <==> Orphaned(env, b) || Deserted(env, b)
  {
    hide Contested, Orphaned, Proxied, Deserted;
  }

  lemma RecordCritical(env: Env, claims: seq<Claim>, host: string, ds: seq<Diagnostic>)
    requires HostReport(env, claims, host, ds)
    ensures (ds != [] && OfRecord(ds[0])) <==> !Verified(env, host)
    ensures ds != [] && OfRecord(ds[0]) ==> Critical(ds[0])
    ensures !Reached(env, host) ==> !Verified(env, host)
  {
    hide Names, BackendOf, FirstFor, ClusterReport, LbIp, HasRecord;
    if env.zones.Some? && HasRecord(env.zones.value, host, LbIp(env.controllers)) { assert InDns(env.zones.value, host); }
  }

  /** Read off the whole output: what is said of a host with an Ingress, and when it is critical. */
  lemma CriticalExactly(env: Env, hosts: seq<string>, reports: seq<seq<Diagnostic>>, host: string)
    requires var claims := Claims(env.ingresses, env.optOut);
             Ordered(hosts) && ByHost(env, claims, hosts, reports) && host in hosts && Names(claims, host)
    ensures var claims, out := Claims(env.ingresses, env.optOut), Joined(reports);
            var b, reached := BackendOf(FirstFor(claims, host)), Reached(env, host);
            && (OrphanService(host, b) in out <==> reached && Orphaned(env, b))
            && (ExternalName(host, b) in out <==> reached && Proxied(env, b))
            && (NoEndpoints(host, b) in out <==> reached && Deserted(env, b))
            && ((exists d :: d in out && Critical(d) && d.host == host) <==> !(Verified(env, host) && Served(env, b)))
            && ((exists d :: d in out && d.Duplicate? && d.host == host) <==> reached && exists k :: Contested(claims, host, k))
  {
    hide Ordered, Names, FirstFor, Verified, Served, Reached, Contested, BackendOf, Claims, HostReport, Orphaned, Proxied, Deserted;
    var claims := Claims(env.ingresses, env.optOut);
    var i :| 0 <= i < |hosts| && hosts[i] == host;
    ReportOfOne(env, claims, hosts, reports, i);
    assert HostReport(env, claims, host, reports[i]);
    KindByKind(env, claims, host, reports[i]);
    assert AnyCritical(reports[i]) <==> exists d :: d in Joined(reports) && Critical(d) && d.host == host;
  }

  /** Of any host, whether or not an Ingress names it: what is said of its records. */
  lemma RecordsExactly(env: Env, hosts: seq<string>, reports: seq<seq<Diagnostic>>, host: string)
    requires Ordered(hosts) && ByHost(env, Claims(env.ingresses, env.optOut), hosts, reports) && host in hosts
    ensures var out := Joined(reports);
            && (MissingRecord(host) in out <==> env.zones.Some? && !InDns(env.zones.value, host))
            && (PointsElsewhere(host) in out
                <==> && env.zones.Some? && InDns(env.zones.value, host)
                     && LbIp(env.controllers) != "" && !HasRecord(env.zones.value, host, LbIp(env.controllers)))
            && (!Names(Claims(env.ingresses, env.optOut), host) ==> forall d :: d in out && !d.NotVerified? && d.host == host ==> OfRecord(d))
  {
    hide Ordered, Names, FirstFor, Reached, BackendOf, Claims, ClusterReport, InDns, HasRecord, LbIp;
    var claims := Claims(env.ingresses, env.optOut);
    var i :| 0 <= i < |hosts| && hosts[i] == host;
    ReportOfOne(env, claims, hosts, reports, i);
    assert HostReport(env, claims, host, reports[i]);
  }
}
