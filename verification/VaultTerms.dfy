/** What is needed of Vault, spelled out from the external secrets. */
module VaultTerms {
  import opened VaultPaths

  /** A path is needed exactly if a secret backed by Vault names it, for one key or as a whole. */
  lemma NeededExactly(ss: seq<ExternalSecret>, path: string)
    ensures Needed(ss, path)
            <==> path != "" && exists s :: s in ss && s.vaultBacked && (path in s.extracts || exists key :: Ref(path, key) in s.data)
  {
    if s :| s in ss && Reads(s, path) && path !in s.extracts {
      var r :| r in s.data && r.path == path;
      assert Ref(path, r.property) in s.data;
    }
    if s, key :| s in ss && s.vaultBacked && path != "" && Ref(path, key) in s.data {
      assert Reads(s, path);
    }
  }

  /** A key is needed exactly if such a secret asks for it by name, and a secret consumes every path it names. */
  lemma KeysAndConsumersExactly(ss: seq<ExternalSecret>, path: string, key: string, ns: string, name: string)
    ensures NeedsKey(ss, path, key) <==> path != "" && key != "" && exists s :: s in ss && s.vaultBacked && Ref(path, key) in s.data
    ensures Consumes(ss, path, (ns, name)) <==> exists s :: s in ss && Needed([s], path) && s.ns == ns && s.name == name
  {
    forall s ensures Needed([s], path) <==> Reads(s, path) { assert s in [s]; }
    hide Needed, Reads;
  }

  /** Three paths that fail alike are told of together, fewer one by one. */
  lemma TogetherFromThree(paths: seq<string>, answer: string -> Answer, error: string)
    ensures var alike := FailingWith(paths, answer, error);
            && (|alike| >= 3 ==> Fits(Outage(error, alike), paths, answer) && forall p :: !Fits(QueryError(p, error), paths, answer))
            && (|alike| < 3 ==>
                  && (forall p :: Fits(QueryError(p, error), paths, answer) <==> p in paths && answer(p) == Failing(error))
                  && (forall ps :: !Fits(Outage(error, ps), paths, answer)))
  {
    var alike := FailingWith(paths, answer, error);
    FailingIs(paths, answer, error);
    hide FailingWith;
    if |alike| >= 3 {
      assert Rendered(error, alike)[0] == Outage(error, alike);
    } else {
      forall p | p in alike ensures Fits(QueryError(p, error), paths, answer) {
        var i :| 0 <= i < |alike| && alike[i] == p;
        assert Rendered(error, alike)[i] == QueryError(p, error);
      }
    }
  }

  /** How a diagnostic is filed, so that no two kinds share a name. */
  lemma SubjectsExactly(p: string, k: string, e: string, c: set<(string, string)>, ps: seq<string>)
    ensures Subject(MissingPath(p, c)) == "missing-vault-path/" + p && Subject(MissingKey(p, k)) == "vault-missing-key/" + p + "/" + k
    ensures Subject(Outage(e, ps)) == "vault-outage/" + e && Subject(QueryError(p, e)) == "vault-error/" + p
  {
  }
}
