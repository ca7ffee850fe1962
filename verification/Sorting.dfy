/** Lexicographic order and the hand-written insertion sort that makes a map's keys come out in one order. */
module Sorting {

  predicate Le(a: string, b: string) {
    a == [] || (b != [] && (a[0] < b[0] || (a[0] == b[0] && Le(a[1..], b[1..]))))
  }

  lemma LeTotal(a: string, b: string)
    ensures Le(a, b) || Le(b, a)
  {
  }

  lemma LeTransitive(a: string, b: string, c: string)
    requires Le(a, b) && Le(b, c)
    ensures Le(a, c)
  {
  }

  lemma LeAntisymmetric(a: string, b: string)
    requires Le(a, b) && Le(b, a)
    ensures a == b
  {
  }

  ghost predicate Sorted(s: seq<string>) {
    forall i, j :: 0 <= i < j < |s| ==> Le(s[i], s[j])
  }

  method InsertionSort(a: array<string>)
    modifies a
    ensures Sorted(a[..]) && multiset(a[..]) == multiset(old(a[..]))
  {
    hide Le;
    var i := 1;
    while i < a.Length
      invariant 1 <= i && (i <= a.Length || a.Length == 0)
      invariant forall p, q :: 0 <= p < q < i <= a.Length ==> Le(a[p], a[q])
      invariant multiset(a[..]) == multiset(old(a[..]))
    {
      var j := i;
      while j > 0 && !Le(a[j - 1], a[j])
        invariant 0 <= j <= i
        invariant forall p, q :: 0 <= p < q <= i && q != j ==> Le(a[p], a[q])
        invariant multiset(a[..]) == multiset(old(a[..]))
      {
        LeTotal(a[j - 1], a[j]);
        a[j], a[j - 1] := a[j - 1], a[j];
        j := j - 1;
      }
      forall p | 0 <= p < j ensures Le(a[p], a[j]) {
        if p < j - 1 { LeTransitive(a[p], a[j - 1], a[j]); }
      }
      i := i + 1;
    }
    assert a.Length <= 1 || forall p, q :: 0 <= p < q < a.Length ==> Le(a[p], a[q]);
  }

  lemma FirstIsLeast(s: seq<string>, x: string)
    requires Sorted(s) && x in s
    ensures s[0] == x || Le(s[0], x)
  {
  }

  lemma HeadsAgree(s: seq<string>, t: seq<string>)
    requires Sorted(s) && Sorted(t) && multiset(s) == multiset(t) && s != [] && t != []
    ensures s[0] == t[0]
  {
    assert s[0] in multiset(s) && t[0] in multiset(t);
    FirstIsLeast(s, t[0]);
    FirstIsLeast(t, s[0]);
    if s[0] != t[0] { LeAntisymmetric(s[0], t[0]); }
  }

  lemma TailsAgree(s: seq<string>, t: seq<string>)
    requires multiset(s) == multiset(t) && s != [] && t != [] && s[0] == t[0]
    ensures multiset(s[1..]) == multiset(t[1..])
  {
    assert s == [s[0]] + s[1..] && t == [t[0]] + t[1..];
    assert multiset(s[1..]) == multiset(s) - multiset{s[0]} && multiset(t[1..]) == multiset(t) - multiset{t[0]};
  }

  /** A sorted sequence is determined by what is in it. */
  lemma {:induction false} SortedIsUnique(s: seq<string>, t: seq<string>)
    requires Sorted(s) && Sorted(t) && multiset(s) == multiset(t)
    ensures s == t
    decreases |s|
  {
    hide Le;
    assert |s| == |multiset(s)| == |multiset(t)| == |t|;
    if s != [] {
      HeadsAgree(s, t);
      TailsAgree(s, t);
      SortedIsUnique(s[1..], t[1..]);
      assert s == [s[0]] + s[1..] && t == [t[0]] + t[1..];
    }
  }

  // ---------- sets in order ----------

  /** Sorted and without repetition. */
  ghost predicate Ordered(s: seq<string>) {
    Sorted(s) && forall i, j :: 0 <= i < j < |s| ==> s[i] != s[j]
  }

  /** The elements of a set, which come in no particular order, put in order. */
  method SortedSet(elements: set<string>) returns (r: seq<string>)
    ensures Ordered(r) && forall k :: k in r <==> k in elements
  {
    var left, list := elements, [];
    while left != {}
      invariant left <= elements
      invariant forall k :: k in list <==> k in elements && k !in left
      invariant forall i, j :: 0 <= i < j < |list| ==> list[i] != list[j]
      decreases left
    {
      var k :| k in left;
      list, left := list + [k], left - {k};
    }
    var keys := new string[|list|](i requires 0 <= i < |list| => list[i]);
    assert keys[..] == list;
    InsertionSort(keys);
    SameElements(list, keys[..]);
    r := keys[..];
  }

  lemma SameElements(s: seq<string>, t: seq<string>)
    requires multiset(s) == multiset(t) && forall i, j :: 0 <= i < j < |s| ==> s[i] != s[j]
    ensures forall k :: k in t <==> k in s
    ensures forall i, j :: 0 <= i < j < |t| ==> t[i] != t[j]
  {
    forall k ensures k in t <==> k in s { assert k in s <==> k in multiset(s); assert k in t <==> k in multiset(t); }
    forall k ensures multiset(s)[k] <= 1 { OnceAtMost(s, k); }
    forall i, j | 0 <= i < j < |t| && t[i] == t[j] ensures false { TwiceAtLeast(t, i, j); }
  }

  lemma OnceAtMost(s: seq<string>, k: string)
    requires forall i, j :: 0 <= i < j < |s| ==> s[i] != s[j]
    ensures multiset(s)[k] <= 1
  {
    if s != [] {
      assert s == s[..|s| - 1] + [s[|s| - 1]];
      OnceAtMost(s[..|s| - 1], k);
    }
  }

  lemma TwiceAtLeast(t: seq<string>, i: nat, j: nat)
    requires i < j < |t| && t[i] == t[j]
    ensures multiset(t)[t[i]] >= 2
  {
    var rest := t[..j] + t[j + 1..];
    assert t == t[..j] + [t[j]] + t[j + 1..];
    assert multiset(t) == multiset(rest) + multiset{t[j]};
    assert rest[i] == t[i] && rest[i] in rest;
  }

  lemma CountIsMembership(s: seq<string>, k: string)
    requires forall i, j :: 0 <= i < j < |s| ==> s[i] != s[j]
    ensures multiset(s)[k] == if k in s then 1 else 0
  {
    OnceAtMost(s, k);
    assert k in s <==> k in multiset(s);
  }

  /** The order depends on which elements there are and on nothing else, such as the order of a map. */
  lemma OrderIsDetermined(s: seq<string>, t: seq<string>)
    requires Ordered(s) && Ordered(t) && forall k :: k in s <==> k in t
    ensures s == t
  {
    forall k ensures multiset(s)[k] == multiset(t)[k] {
      CountIsMembership(s, k);
      CountIsMembership(t, k);
    }
    assert multiset(s) == multiset(t);
    SortedIsUnique(s, t);
  }

  // ---------- what the sort computes ----------

  function Insert(x: string, s: seq<string>): seq<string> {
    if s == [] || Le(x, s[0]) then [x] + s else [s[0]] + Insert(x, s[1..])
  }

  function Sort(s: seq<string>): seq<string> { if s == [] then [] else Insert(s[0], Sort(s[1..])) }

  lemma {:induction false} InsertSorts(x: string, s: seq<string>)
    requires Sorted(s)
    ensures Sorted(Insert(x, s)) && multiset(Insert(x, s)) == multiset(s) + multiset{x}
    decreases |s|
  {
    hide Le;
    if s != [] {
      assert s == [s[0]] + s[1..];
      if Le(x, s[0]) {
        forall j | 0 <= j < |s| ensures Le(x, s[j]) { if j > 0 { LeTransitive(x, s[0], s[j]); } }
      } else {
        LeTotal(x, s[0]);
        InsertSorts(x, s[1..]);
        forall y | y in Insert(x, s[1..]) ensures Le(s[0], y) { assert y in multiset(s[1..]) + multiset{x}; }
      }
    }
  }

  lemma {:induction false} SortSorts(s: seq<string>)
    ensures Sorted(Sort(s)) && multiset(Sort(s)) == multiset(s)
    decreases |s|
  {
    if s != [] {
      SortSorts(s[1..]);
      InsertSorts(s[0], Sort(s[1..]));
      assert s == [s[0]] + s[1..];
    }
  }

  /** A sorted copy. */
  method SortedCopy(s: seq<string>) returns (r: seq<string>)
    ensures r == Sort(s)
  {
    var a := new string[|s|](i requires 0 <= i < |s| => s[i]);
    assert a[..] == s;
    InsertionSort(a);
    r := a[..];
    SortSorts(s);
    SortedIsUnique(r, Sort(s));
  }
}
