/** The notions of the DNS walk, spelled out from the objects it reads. */
module DnsTerms {
  import opened Options
  import opened Strings
  import opened DnsChain

  /** Left out: Ingresses that opt out, in whatever case they say so, and those of challenge solvers. */
  predicate LeftOut(ing: Ingress, optOut: string) {
    || "cm-acme-http-solver-" <= ing.name
    || (optOut in ing.annotations && |ing.annotations[optOut]| == 4 && Lower(ing.annotations[optOut]) == ['t', 'r', 'u', 'e'])
  }

  /** The claims are those of the rules of the Ingresses that are not left out. */
  lemma {:induction false} ClaimsExactly(ings: seq<Ingress>, optOut: string, c: Claim)
    ensures c in Claims(ings, optOut)
            <==> exists ing, rule :: ing in ings && !LeftOut(ing, optOut) && rule in ing.rules && c == Claim(Claimant(ing.ns, ing.name), rule)
    decreases |ings|
  {
    hide Lower;
    if ings != [] {
      var front, last := ings[..|ings| - 1], ings[|ings| - 1];
      ClaimsExactly(front, optOut, c);
      OwnClaims(last, c);
      LeftOutExactly(last, optOut);
      hide LeftOut, Skipped, ClaimsOf;
      assert forall ing :: ing in ings <==> ing in front || ing == last;
    }
  }

  lemma LeftOutExactly(ing: Ingress, optOut: string)
    ensures LeftOut(ing, optOut) <==> Skipped(ing, optOut)
  {
    if optOut in ing.annotations { assert |Lower(ing.annotations[optOut])| == |ing.annotations[optOut]|; }
    hide Lower;
    assert ['t', 'r', 'u', 'e'] == "true";
  }

  lemma OwnClaims(ing: Ingress, c: Claim)
    ensures c in ClaimsOf(ing) <==> exists rule :: rule in ing.rules && c == Claim(Claimant(ing.ns, ing.name), rule)
  {
    if c in ClaimsOf(ing) {
      var i :| 0 <= i < |ing.rules| && ClaimsOf(ing)[i] == c;
      assert ing.rules[i] in ing.rules;
    }
    if rule :| rule in ing.rules && c == Claim(Claimant(ing.ns, ing.name), rule) {
      var i :| 0 <= i < |ing.rules| && ing.rules[i] == rule;
      assert ClaimsOf(ing)[i] == c;
    }
  }

  /** A host's own rule is the first that names it, trimmed and in lower case, and its Service that of the rule's first path. */
  lemma {:induction false} FirstForExactly(claims: seq<Claim>, host: string)
    requires Names(claims, host)
    ensures exists i :: 0 <= i < |claims| && claims[i] == FirstFor(claims, host) && Lower(Trim(claims[i].rule.host)) == host
                        && forall j :: 0 <= j < i ==> Lower(Trim(claims[j].rule.host)) != host
    ensures var b, c := BackendOf(FirstFor(claims, host)), FirstFor(claims, host);
            && b.who == c.who && (c.rule.paths == [] ==> b.service == "")
            && (c.rule.paths != [] ==> b.service == c.rule.paths[0].service)
    decreases |claims|
  {
    hide Lower, Trim;
    if HostOf(claims[0]) != host {
      var rest := claims[1..];
      FirstForExactly(rest, host);
      var i :| 0 <= i < |rest| && rest[i] == FirstFor(rest, host) && Lower(Trim(rest[i].rule.host)) == host
               && forall j :: 0 <= j < i ==> Lower(Trim(rest[j].rule.host)) != host;
      assert claims[i + 1] == rest[i] && forall j :: 0 < j < i + 1 ==> claims[j] == rest[j - 1];
    } else {
      assert claims[0] == FirstFor(claims, host);
    }
  }

  /** A rule without paths takes the whole host; otherwise each path, with the root and prefix matching where nothing is said. */
  lemma TakesExactly(r: Rule, path: string, pathType: string)
    requires path != "" && pathType != ""
    ensures r.paths == [] ==> (Takes(r, PathKey(path, pathType)) <==> path == "/" && pathType == "Prefix")
    ensures r.paths != [] ==>
              (Takes(r, PathKey(path, pathType))
               <==> exists i :: 0 <= i < |r.paths|
                                && (r.paths[i].path == path || (r.paths[i].path == "" && path == "/"))
                                && (r.paths[i].pathType == pathType || (r.paths[i].pathType == "" && pathType == "Prefix")))
  {
    var k := PathKey(path, pathType);
    if r.paths != [] && Takes(r, k) {
      var p :| p in r.paths && KeyOf(p) == k;
      var i :| 0 <= i < |r.paths| && r.paths[i] == p;
    }
    if i :| 0 <= i < |r.paths|
            && (r.paths[i].path == path || (r.paths[i].path == "" && path == "/"))
            && (r.paths[i].pathType == pathType || (r.paths[i].pathType == "" && pathType == "Prefix"))
    {
      assert r.paths[i] in r.paths && KeyOf(r.paths[i]) == k;
    }
  }

  predicate Controller(s: Service) {
    || ("app.kubernetes.io/name" in s.labels
        && Lower(s.labels["app.kubernetes.io/name"]) in {"ingress-kong", "kong", "ingress-nginx", "nginx-ingress", "traefik"})
    || ("app" in s.labels && Lower(s.labels["app"]) in {"ingress-kong", "kong", "ingress-nginx", "nginx", "traefik"})
  }

  /** The load balancer's address is that of the first controller that has one. */
  lemma {:induction false} LbIpExactly(services: seq<Service>, ip: string)
    requires ip != ""
    ensures LbIp(services) == ip
            <==> exists i :: 0 <= i < |services| && Controller(services[i]) && Trim(services[i].lbIp) == ip
                             && forall j :: 0 <= j < i ==> !Controller(services[j]) || Trim(services[j].lbIp) == ""
    ensures LbIp(services) == "" <==> forall i :: 0 <= i < |services| ==> !Controller(services[i]) || Trim(services[i].lbIp) == ""
    decreases |services|
  {
    hide Lower, Trim;
    if services != [] {
      var rest := services[1..];
      LbIpExactly(rest, ip);
      ControllerExactly(services[0]);
      hide Controller, IsController;
      assert forall i :: 0 < i < |services| ==> services[i] == rest[i - 1];
      if i :| 0 <= i < |rest| && Controller(rest[i]) && Trim(rest[i].lbIp) == ip
              && forall j :: 0 <= j < i ==> !Controller(rest[j]) || Trim(rest[j].lbIp) == ""
      {
        assert services[i + 1] == rest[i];
      }
      if i :| 0 < i < |services| && Controller(services[i]) && Trim(services[i].lbIp) == ip
              && forall j :: 0 <= j < i ==> !Controller(services[j]) || Trim(services[j].lbIp) == ""
      {
        assert rest[i - 1] == services[i] && forall j :: 0 <= j < i - 1 ==> rest[j] == services[j + 1];
      }
      assert forall j :: 0 <= j < |rest| ==> rest[j] == services[j + 1];
    }
  }

  lemma ControllerExactly(s: Service)
    ensures Controller(s) <==> IsController(s.labels)
  {
    hide Lower;
  }

  predicate Usable(e: Endpoint) { e.addresses > 0 && (e.ready == None || e.ready == Some(true)) }

  /** Slices that are there for the Service decide, and unknown readiness counts as ready; only without any its Endpoints object does. */
  lemma ReadyExactly(env: Env, svc: SvcKey)
    ensures HasReady(env, svc)
            <==> if env.slices.Some? && exists s :: s in env.slices.value && s.ns == svc.ns && s.owner == svc.name
                 then exists s, e :: s in env.slices.value && s.ns == svc.ns && s.owner == svc.name && e in s.endpoints && Usable(e)
                 else svc in env.legacy && exists n :: n in env.legacy[svc] && n > 0
  {
    forall e ensures Usable(e) <==> Counts(e) {
      if e.ready.Some? && e.ready.value { assert e.ready == Some(true); }
      if e.ready.Some? && !e.ready.value { assert e.ready == Some(false); }
    }
    hide Usable, Counts;
  }

  /** What is critical and what is a warning or a note. */
  lemma SeveritiesAre(host: string, b: Backend, paths: set<PathKey>, n: nat)
    ensures Critical(MissingRecord(host)) && Critical(PointsElsewhere(host)) && Critical(MissingIngress(host))
    ensures Critical(OrphanService(host, b)) && Critical(NoEndpoints(host, b))
    ensures !Critical(Duplicate(host, paths)) && !Critical(ExternalName(host, b)) && !Critical(NotVerified(n))
  {
  }

  /** Records are looked up by lower-cased name in every zone that could be read. */
  lemma RecordExactly(zones: seq<Option<seq<Record>>>, host: string, content: string)
    ensures HasRecord(zones, host, content)
            <==> exists i, j :: 0 <= i < |zones| && zones[i].Some? && 0 <= j < |zones[i].value|
                                && Lower(zones[i].value[j].name) == host && zones[i].value[j].content == content
  {
    hide Lower;
    if HasRecord(zones, host, content) {
      var z, r :| z in zones && z.Some? && r in z.value && Lower(r.name) == host && r.content == content;
      var i :| 0 <= i < |zones| && zones[i] == z;
      var j :| 0 <= j < |z.value| && z.value[j] == r;
    }
    if i, j :| 0 <= i < |zones| && zones[i].Some? && 0 <= j < |zones[i].value|
               && Lower(zones[i].value[j].name) == host && zones[i].value[j].content == content
    {
      assert zones[i] in zones && zones[i].value[j] in zones[i].value;
    }
  }
}
