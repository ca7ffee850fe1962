/**
Which URLs the endpoint probe goes through: the configured ones, those learnt, and
the hosts of Ingresses, and exactly when no host comes up twice.
*/
module Targets {
  import opened Strings
  import opened Sorting
  import Dns = DnsChain
  import DnsTerms

  // ---------- hosts of URLs ----------

  function AfterScheme(url: string): string { if Contains(url, "://") then Rest(url) else url }

  function Rest(url: string): string
    requires Contains(url, "://")
  {
    if "://" <= url then url[3..] else Rest(url[1..])
  }

  function UntilPath(s: string): string {
    if s == "" || s[0] == '/' || s[0] == '?' then "" else [s[0]] + UntilPath(s[1..])
  }

  function HostOf(url: string): string { Lower(UntilPath(AfterScheme(url))) }

  function Norm(s: string): string { Lower(Trim(s)) }

  /** A host and nothing more. */
  predicate Plain(h: string) { (forall c :: c in h ==> c != '/' && c != '?') && Lower(h) == h }

  lemma NoPath(h: string)
    requires forall c :: c in h ==> c != '/' && c != '?'
    ensures UntilPath(h) == h
  {
    if h != "" {
      assert h[0] in h && forall c :: c in h[1..] ==> c in h;
      NoPath(h[1..]);
      assert h == [h[0]] + h[1..];
    }
  }

  lemma SchemeSkipped(scheme: string, h: string)
    requires forall c :: c in scheme ==> c != ':'
    ensures AfterScheme(scheme + "://" + h) == h
  {
    var url := scheme + "://" + h;
    if scheme == "" {
      assert url == "://" + h;
      assert "://" <= url && url[3..] == h;
    } else {
      assert forall c :: c in scheme[1..] ==> c in scheme;
      SchemeSkipped(scheme[1..], h);
      assert url[1..] == scheme[1..] + "://" + h;
      assert url[0] == scheme[0] && scheme[0] in scheme;
      SchemeFound(scheme[1..], h);
    }
  }

  lemma SchemeFound(scheme: string, h: string)
    ensures Contains(scheme + "://" + h, "://")
  {
    var url := scheme + "://" + h;
    if scheme == "" {
      assert url == "://" + h;
      assert "://" <= url;
    } else {
      assert url[1..] == scheme[1..] + "://" + h;
      SchemeFound(scheme[1..], h);
    }
  }

  function Hosts(urls: seq<string>): seq<string> { seq(|urls|, i requires 0 <= i < |urls| => HostOf(urls[i])) }

  // ---------- the sources ----------

  /** The learnt keys that are not covered yet, each once, as they come. */
  method LearntHosts(keys: seq<string>, covered: seq<string>) returns (out: seq<string>)
    ensures forall h :: h in out <==> h != "" && (exists k :: k in keys && Norm(k) == h) && !(exists c :: c in covered && Norm(c) == h)
    ensures Different(out)
  {
    hide Lower, Trim;
    var before := set c | c in covered :: Norm(c);
    var known := before;
    out := [];
    for i := 0 to |keys|
      invariant forall h :: h in known <==> h in before || h in out
      invariant forall h :: h in out <==> h != "" && h !in before && exists j :: 0 <= j < i && Norm(keys[j]) == h
      invariant forall a, b :: 0 <= a < b < |out| ==> out[a] != out[b]
    {
      var host := Norm(keys[i]);
      if host == "" || host in known { continue; }
      known, out := known + {host}, out + [host];
    }
    assert forall j :: 0 <= j < |keys| ==> keys[j] in keys;
  }

  /** The Ingress may be probed: its namespace is not set aside, it is no challenge solver, and nobody opted it out. */
  predicate Discoverable(ing: Dns.Ingress, skip: set<string>, optOut: string) {
    ing.ns !in skip && !Dns.Skipped(ing, optOut)
  }

  predicate Offers(ings: seq<Dns.Ingress>, skip: set<string>, optOut: string, host: string) {
    exists ing, r :: ing in ings && Discoverable(ing, skip, optOut) && r in ing.rules && Norm(r.host) == host
  }

  /** The hosts of Ingresses that are not covered yet, in order, each once. */
  method DiscoveredHosts(ings: seq<Dns.Ingress>, skip: set<string>, optOut: string, covered: seq<string>) returns (out: seq<string>)
    ensures Ordered(out)
    ensures forall h :: h in out <==> h != "" && Offers(ings, skip, optOut, h) && !(exists c :: c in covered && Lower(c) == h)
  {
    hide Lower, Trim, Discoverable;
    var existing := set c | c in covered :: Lower(c);
    var seen: set<string> := {};
    for i := 0 to |ings|
      invariant forall h :: h in seen <==> h != "" && h !in existing && OffersUpTo(ings, i, skip, optOut, h)
    {
      ghost var before := seen;
      if !Discoverable(ings[i], skip, optOut) { continue; }
      var rules := ings[i].rules;
      for j := 0 to |rules|
        invariant forall h :: h in seen <==> h in before || (h != "" && h !in existing && exists n :: 0 <= n < j && Norm(rules[n].host) == h)
      {
        var host := Norm(rules[j].host);
        if host == "" || host in existing || host in seen { continue; }
        seen := seen + {host};
      }
    }
    OffersByIndex(ings, skip, optOut);
    out := SortedSet(seen);
  }

  /** A host is offered exactly by the rules of Ingresses outside the namespaces set aside that neither opt out nor solve challenges. */
  lemma OffersExactly(ings: seq<Dns.Ingress>, skip: set<string>, optOut: string, host: string)
    ensures Offers(ings, skip, optOut, host)
            <==> exists ing, r :: && ing in ings && ing.ns !in skip && !DnsTerms.LeftOut(ing, optOut)
                                  && r in ing.rules && Lower(Trim(r.host)) == host
  {
    forall ing ensures DnsTerms.LeftOut(ing, optOut) <==> Dns.Skipped(ing, optOut) { DnsTerms.LeftOutExactly(ing, optOut); }
    hide Lower, Trim, DnsTerms.LeftOut, Dns.Skipped;
  }

  ghost predicate OffersUpTo(ings: seq<Dns.Ingress>, n: nat, skip: set<string>, optOut: string, host: string)
    requires n <= |ings|
  {
    exists i, j :: 0 <= i < n && Discoverable(ings[i], skip, optOut) && 0 <= j < |ings[i].rules| && Norm(ings[i].rules[j].host) == host
  }

  lemma OffersByIndex(ings: seq<Dns.Ingress>, skip: set<string>, optOut: string)
    ensures forall h :: OffersUpTo(ings, |ings|, skip, optOut, h) <==> Offers(ings, skip, optOut, h)
  {
    hide Discoverable, Norm;
    assert forall i :: 0 <= i < |ings| ==> ings[i] in ings;
    assert forall i, j :: 0 <= i < |ings| && 0 <= j < |ings[i].rules| ==> ings[i].rules[j] in ings[i].rules;
  }

  // ---------- all together ----------

  function Urls(scheme: string, hosts: seq<string>): seq<string> {
    seq(|hosts|, i requires 0 <= i < |hosts| => scheme + "://" + hosts[i])
  }

  /** The host that a scheme and what is taken for a host lead to. */
  function Reached(scheme: string, host: string): string { HostOf(scheme + "://" + host) }

  /** A learnt key, in its normal form, that no configured host covers. */
  predicate FreshKey(statics: seq<string>, keys: seq<string>, k: string) {
    k != "" && (exists x :: x in keys && Norm(x) == k) && !(exists c :: c in Hosts(statics) && Norm(c) == k)
  }

  /** A host of an Ingress that neither a configured URL nor a learnt one leads to. */
  ghost predicate NewHost(
    statics: seq<string>, keys: seq<string>, ings: seq<Dns.Ingress>, skip: set<string>, optOut: string, h: string)
  {
    && h != "" && Offers(ings, skip, optOut, h)
    && h !in Hosts(statics) && !(exists k :: FreshKey(statics, keys, k) && Reached("https", k) == h)
  }

  /** No two of the URLs lead to one host. */
  ghost predicate NoHostTwice(urls: seq<string>) { Different(Hosts(urls)) }

  /** What it takes, of the sources, that no host comes up twice. */
  ghost predicate SourcesKeepApart(
    statics: seq<string>, keys: seq<string>, ings: seq<Dns.Ingress>, skip: set<string>, optOut: string, scheme: string)
  {
    && NoHostTwice(statics)
    && (forall k, l :: FreshKey(statics, keys, k) && FreshKey(statics, keys, l) && k != l ==> Reached("https", k) != Reached("https", l))
    && (forall k :: FreshKey(statics, keys, k) ==> Reached("https", k) !in Hosts(statics))
    && (forall g, h :: NewHost(statics, keys, ings, skip, optOut, g) && NewHost(statics, keys, ings, skip, optOut, h) && g != h ==>
          Reached(scheme, g) != Reached(scheme, h))
    && (forall h :: NewHost(statics, keys, ings, skip, optOut, h) ==> Reached(scheme, h) !in Hosts(statics))
    && (forall h, k :: NewHost(statics, keys, ings, skip, optOut, h) && FreshKey(statics, keys, k) ==>
          Reached(scheme, h) != Reached("https", k))
  }

  /**
  Configured before learnt before discovered; a later source adds exactly what the
  earlier ones do not cover. Whether a host comes up twice is decided by the sources.
  */
  method Merge(statics: seq<string>, keys: seq<string>, ings: seq<Dns.Ingress>, skip: set<string>, optOut: string, scheme: string)
    returns (urls: seq<string>, learnt: seq<string>, discovered: seq<string>)
    ensures urls == statics + Urls("https", learnt) + Urls(scheme, discovered)
    ensures Different(learnt) && forall k :: k in learnt <==> FreshKey(statics, keys, k)
    ensures Ordered(discovered) && forall h :: h in discovered <==> NewHost(statics, keys, ings, skip, optOut, h)
    ensures NoHostTwice(urls) <==> SourcesKeepApart(statics, keys, ings, skip, optOut, scheme)
  {
    hide Lower, Trim, HostOf, Offers, Sorted, NoHostTwice, SourcesKeepApart, Reached;
    learnt := LearntHosts(keys, Hosts(statics));
    var covered := Hosts(statics) + Hosts(Urls("https", learnt));
    discovered := DiscoveredHosts(ings, skip, optOut, covered);
    urls := statics + Urls("https", learnt) + Urls(scheme, discovered);
    HostsAreLower(statics);
    HostsAreLower(Urls("https", learnt));
    HostsReached("https", learnt);
    hide Hosts;
    forall h ensures h in discovered <==> NewHost(statics, keys, ings, skip, optOut, h) {
      assert (exists c :: c in covered && Lower(c) == h) <==> h in covered;
    }
    MergedHosts(statics, keys, ings, skip, optOut, scheme, learnt, discovered);
  }

  lemma HostsReached(scheme: string, hosts: seq<string>)
    ensures forall h :: h in Hosts(Urls(scheme, hosts)) <==> exists k :: k in hosts && Reached(scheme, k) == h
    ensures forall k :: k in hosts ==> Reached(scheme, k) in Hosts(Urls(scheme, hosts))
  {
    hide HostOf;
    var reached := Hosts(Urls(scheme, hosts));
    assert forall i :: 0 <= i < |hosts| ==> reached[i] == Reached(scheme, hosts[i]);
    forall h | h in reached ensures exists k :: k in hosts && Reached(scheme, k) == h {
      var i :| 0 <= i < |reached| && reached[i] == h;
      assert hosts[i] in hosts;
    }
    forall k | k in hosts ensures Reached(scheme, k) in reached {
      var i :| 0 <= i < |hosts| && hosts[i] == k;
      assert reached[i] == Reached(scheme, k);
    }
  }

  lemma LowerTwice(s: string)
    ensures Lower(Lower(s)) == Lower(s)
  {
  }

  lemma HostsAreLower(urls: seq<string>)
    ensures forall c :: c in Hosts(urls) ==> Lower(c) == c
  {
    forall c | c in Hosts(urls) ensures Lower(c) == c {
      var i :| 0 <= i < |Hosts(urls)| && Hosts(urls)[i] == c;
      LowerTwice(UntilPath(AfterScheme(urls[i])));
    }
  }

  lemma PathDropped(h: string, path: string)
    requires forall c :: c in h ==> c != '/' && c != '?'
    ensures UntilPath(h + "/" + path) == h
  {
    var s := h + "/" + path;
    if h == "" {
      assert s[0] == '/';
    } else {
      assert h[0] in h && forall c :: c in h[1..] ==> c in h;
      assert s[1..] == h[1..] + "/" + path && s[0] == h[0];
      PathDropped(h[1..], path);
      assert h == [h[0]] + h[1..];
    }
  }

  ghost predicate Different(s: seq<string>) { forall i, j :: 0 <= i < j < |s| ==> s[i] != s[j] }

  lemma DifferentTogether(a: seq<string>, b: seq<string>)
    ensures Different(a + b) <==> Different(a) && Different(b) && forall x :: x in b ==> x !in a
  {
    if Different(a + b) {
      assert forall i :: 0 <= i < |a| ==> (a + b)[i] == a[i];
      assert forall j :: 0 <= j < |b| ==> (a + b)[|a| + j] == b[j];
      forall x | x in b ensures x !in a {
        var j :| 0 <= j < |b| && b[j] == x;
        assert (a + b)[|a| + j] == x;
      }
    }
    if Different(a) && Different(b) && forall x :: x in b ==> x !in a {
      forall i, j | 0 <= i < j < |a + b| ensures (a + b)[i] != (a + b)[j] {
        if i < |a| <= j { assert b[j - |a|] in b && a[i] in a; }
      }
    }
  }

  lemma DifferentReached(scheme: string, hosts: seq<string>)
    requires Different(hosts)
    ensures Different(Hosts(Urls(scheme, hosts)))
            <==> forall g, h :: g in hosts && h in hosts && g != h ==> Reached(scheme, g) != Reached(scheme, h)
  {
    hide HostOf;
    var reached := Hosts(Urls(scheme, hosts));
    assert forall i :: 0 <= i < |hosts| ==> reached[i] == Reached(scheme, hosts[i]);
    if Different(reached) {
      forall g, h | g in hosts && h in hosts && g != h ensures Reached(scheme, g) != Reached(scheme, h) {
        var i :| 0 <= i < |hosts| && hosts[i] == g;
        var j :| 0 <= j < |hosts| && hosts[j] == h;
        assert reached[i] != reached[j];
      }
    }
  }

  lemma HostsConcat(a: seq<string>, b: seq<string>)
    ensures Hosts(a + b) == Hosts(a) + Hosts(b)
  {
    hide HostOf;
  }

  lemma MergedHosts(
    statics: seq<string>, keys: seq<string>, ings: seq<Dns.Ingress>, skip: set<string>, optOut: string, scheme: string,
    learnt: seq<string>, discovered: seq<string>)
    requires Different(learnt) && forall k :: k in learnt <==> FreshKey(statics, keys, k)
    requires Different(discovered) && forall h :: h in discovered <==> NewHost(statics, keys, ings, skip, optOut, h)
    ensures NoHostTwice(statics + Urls("https", learnt) + Urls(scheme, discovered))
            <==> SourcesKeepApart(statics, keys, ings, skip, optOut, scheme)
  {
    hide FreshKey, NewHost, Reached, Hosts, Different;
    var a, b, c := Hosts(statics), Hosts(Urls("https", learnt)), Hosts(Urls(scheme, discovered));
    HostsConcat(statics, Urls("https", learnt));
    HostsConcat(statics + Urls("https", learnt), Urls(scheme, discovered));
    DifferentTogether(a, b);
    DifferentTogether(a + b, c);
    DifferentReached("https", learnt);
    DifferentReached(scheme, discovered);
    HostsReached("https", learnt);
    HostsReached(scheme, discovered);
    hide Urls;
  }

  // ---------- when the condition holds ----------

  /** The path is all that is cut off. */
  lemma ReachedIsCut(scheme: string, h: string)
    requires forall c :: c in scheme ==> c != ':'
    ensures Reached(scheme, h) == Lower(UntilPath(h))
    ensures Plain(h) ==> Reached(scheme, h) == h
  {
    SchemeSkipped(scheme, h);
    if Plain(h) { NoPath(h); }
  }

  /** Nothing to trim at either end. */
  predicate Trimmed(s: string) { s == "" || (!Space(s[0]) && !Space(s[|s| - 1])) }

  lemma TrimRightEnds(s: string)
    ensures TrimRight(s) == "" || (!Space(TrimRight(s)[|TrimRight(s)| - 1]) && s != "" && TrimRight(s)[0] == s[0])
  {
  }

  lemma TrimLeftEnds(s: string)
    ensures TrimLeft(s) == "" || !Space(TrimLeft(s)[0])
  {
  }

  lemma NormTwice(s: string)
    ensures Norm(Norm(s)) == Norm(s)
  {
    var t := Trim(s);
    TrimLeftEnds(s);
    TrimRightEnds(TrimLeft(s));
    assert Trimmed(t);
    if t != "" {
      assert Space(Lower(t)[0]) == Space(t[0]) && Space(Lower(t)[|t| - 1]) == Space(t[|t| - 1]);
      assert Trim(Lower(t)) == Lower(t);
    }
    LowerTwice(t);
  }

  /** With nothing but plain hosts learnt and offered, it is left to the configured URLs. */
  lemma PlainSourcesKeepApart(
    statics: seq<string>, keys: seq<string>, ings: seq<Dns.Ingress>, skip: set<string>, optOut: string, scheme: string)
    requires forall c :: c in scheme ==> c != ':'
    requires forall k :: FreshKey(statics, keys, k) ==> Plain(k)
    requires forall h :: NewHost(statics, keys, ings, skip, optOut, h) ==> Plain(h)
    ensures SourcesKeepApart(statics, keys, ings, skip, optOut, scheme) <==> NoHostTwice(statics)
  {
    forall k ensures FreshKey(statics, keys, k) ==> Reached("https", k) == k && k !in Hosts(statics) {
      if FreshKey(statics, keys, k) {
        ReachedIsCut("https", k);
        var x :| x in keys && Norm(x) == k;
        NormTwice(x);
      }
      hide Reached;
    }
    forall h ensures NewHost(statics, keys, ings, skip, optOut, h) ==> Reached(scheme, h) == h {
      if NewHost(statics, keys, ings, skip, optOut, h) { ReachedIsCut(scheme, h); }
      hide Reached;
    }
    hide FreshKey, Reached, Plain, NoHostTwice, Hosts, Offers;
  }

  /** Two fresh keys that are one host with two paths break it, whatever else there is. */
  lemma PathsShareAHost(
    statics: seq<string>, keys: seq<string>, ings: seq<Dns.Ingress>, skip: set<string>, optOut: string, scheme: string,
    h: string, path: string, path': string)
    requires (forall c :: c in h ==> c != '/' && c != '?') && path != path'
    requires FreshKey(statics, keys, h + "/" + path) && FreshKey(statics, keys, h + "/" + path')
    ensures !SourcesKeepApart(statics, keys, ings, skip, optOut, scheme)
  {
    var k, l := h + "/" + path, h + "/" + path';
    assert k[|h| + 1..] == path && l[|h| + 1..] == path';
    ReachedIsCut("https", k);
    ReachedIsCut("https", l);
    PathDropped(h, path);
    PathDropped(h, path');
    hide Reached, FreshKey, NewHost, NoHostTwice, Hosts;
  }

  /** Both keys come out, and their one host is probed twice. */
  method OneHostTwice() returns (urls: seq<string>)
    ensures "https://h/a" in urls && "https://h/b" in urls && !NoHostTwice(urls)
  {
    hide SourcesKeepApart, NoHostTwice, FreshKey;
    var keys, learnt, discovered := ["h/a", "h/b"], [], [];
    urls, learnt, discovered := Merge([], keys, [], {}, "", "https");
    SampleIsFresh(keys);
    PathsShareAHost([], keys, [], {}, "", "https", "h", "a", "b");
    UrlOf("https", learnt, "h/a");
    UrlOf("https", learnt, "h/b");
    assert "https" + "://" + "h/a" == "https://h/a" && "https" + "://" + "h/b" == "https://h/b";
  }

  lemma SampleIsFresh(keys: seq<string>)
    requires keys == ["h/a", "h/b"]
    ensures FreshKey([], keys, "h" + "/" + "a") && FreshKey([], keys, "h" + "/" + "b")
    ensures "h" + "/" + "a" == "h/a" && "h" + "/" + "b" == "h/b"
  {
    assert Norm("h/a") == "h/a" && Norm("h/b") == "h/b";
  }

  lemma UrlOf(scheme: string, hosts: seq<string>, h: string)
    requires h in hosts
    ensures scheme + "://" + h in Urls(scheme, hosts)
  {
    var i :| 0 <= i < |hosts| && hosts[i] == h;
    assert Urls(scheme, hosts)[i] == scheme + "://" + h;
  }
}
