/** Counting by key: what the aggregating analyzers share. */
module Totals {

  /** One thing counted: its key and how often it counts. */
  datatype Entry<K> = Entry(key: K, count: nat)

  function Total<K(==)>(es: seq<Entry<K>>, k: K): nat {
    if es == [] then 0 else Total(es[..|es| - 1], k) + if es[|es| - 1].key == k then es[|es| - 1].count else 0
  }

  function Sum<K>(es: seq<Entry<K>>): nat {
    if es == [] then 0 else Sum(es[..|es| - 1]) + es[|es| - 1].count
  }

  predicate Has<K(==)>(es: seq<Entry<K>>, k: K) { exists e :: e in es && e.key == k }

  /** The counts of the listed keys, added up. */
  function SumOf<K>(order: seq<K>, m: map<K, nat>): nat
    requires forall k :: k in order ==> k in m
  {
    if order == [] then 0 else SumOf(order[..|order| - 1], m) + m[order[|order| - 1]]
  }

  /** Every key that occurs is listed once, with its total. */
  ghost predicate Counted<K(!new)>(order: seq<K>, m: map<K, nat>, es: seq<Entry<K>>) {
    && (forall k :: k in order <==> k in m)
    && (forall i, j :: 0 <= i < j < |order| ==> order[i] != order[j])
    && (forall k :: k in m <==> Has(es, k))
    && (forall k :: k in m ==> m[k] == Total(es, k))
  }

  lemma TotalAppend<K(!new)>(es: seq<Entry<K>>, e: Entry<K>)
    ensures forall k :: Total(es + [e], k) == Total(es, k) + if e.key == k then e.count else 0
    ensures forall k :: Has(es + [e], k) <==> Has(es, k) || e.key == k
    ensures Sum(es + [e]) == Sum(es) + e.count
  {
  }

  lemma {:induction false} AbsentIsZero<K(!new)>(es: seq<Entry<K>>, k: K)
    requires !Has(es, k)
    ensures Total(es, k) == 0
    decreases |es|
  {
    if es != [] {
      assert es[|es| - 1] in es;
      assert forall x :: x in es[..|es| - 1] ==> x in es;
      AbsentIsZero(es[..|es| - 1], k);
    }
  }

  lemma CountedStart<K(!new)>()
    ensures Counted<K>([], map[], [])
  {
  }

  /** One more entry, for a key already listed or a new one. */
  lemma CountedNext<K(!new)>(order: seq<K>, m: map<K, nat>, es: seq<Entry<K>>, e: Entry<K>)
    requires Counted(order, m, es)
    ensures e.key in m ==> Counted(order, m[e.key := m[e.key] + e.count], es + [e])
    ensures e.key !in m ==> Counted(order + [e.key], m[e.key := e.count], es + [e])
  {
    TotalAppend(es, e);
    if e.key !in m { AbsentIsZero(es, e.key); }
  }

  // ---------- nothing is lost and nothing counted twice ----------

  lemma {:induction false} SumOfRaised<K(!new)>(order: seq<K>, m: map<K, nat>, k: K, n: nat)
    requires forall x :: x in order ==> x in m
    requires forall i, j :: 0 <= i < j < |order| ==> order[i] != order[j]
    ensures var m' := m[k := (if k in m then m[k] else 0) + n];
            SumOf(order, m') == SumOf(order, m) + if k in order then n else 0
    decreases |order|
  {
    if order != [] {
      var front, last := order[..|order| - 1], order[|order| - 1];
      SumOfRaised(front, m, k, n);
      assert order == front + [last] && last !in front;
    }
  }

  lemma SumOfSame<K(!new)>(order: seq<K>, m: map<K, nat>, m': map<K, nat>)
    requires forall k :: k in order ==> k in m && k in m' && m[k] == m'[k]
    ensures SumOf(order, m) == SumOf(order, m')
  {
  }

  lemma {:induction false} CountedSum<K(!new)>(order: seq<K>, m: map<K, nat>, es: seq<Entry<K>>)
    requires forall k :: k in order ==> k in m && m[k] == Total(es, k)
    requires forall i, j :: 0 <= i < j < |order| ==> order[i] != order[j]
    requires forall e :: e in es ==> e.key in order
    ensures SumOf(order, m) == Sum(es)
    decreases |es|
  {
    if es == [] {
      AllZero(order, m);
    } else {
      var front, last := es[..|es| - 1], es[|es| - 1];
      assert es == front + [last] && last in es;
      TotalAppend(front, last);
      var m0 := map k | k in m :: if k in order then Total(front, k) else 0;
      CountedSum(order, m0, front);
      SumOfRaised(order, m0, last.key, last.count);
      SumOfSame(order, m, m0[last.key := m0[last.key] + last.count]);
    }
  }

  lemma AllZero<K(!new)>(order: seq<K>, m: map<K, nat>)
    requires forall k :: k in order ==> k in m && m[k] == 0
    ensures SumOf(order, m) == 0
  {
  }

  /** The counts add up to everything that was counted. */
  lemma CountsAreConserved<K(!new)>(order: seq<K>, m: map<K, nat>, es: seq<Entry<K>>)
    requires Counted(order, m, es)
    ensures SumOf(order, m) == Sum(es)
  {
    forall e | e in es ensures e.key in order { assert Has(es, e.key); }
    CountedSum(order, m, es);
  }

  // ---------- the order of the input does not matter ----------

  function Without<T>(s: seq<T>, i: nat): seq<T>
    requires i < |s|
  {
    s[..i] + s[i + 1..]
  }

  lemma WithoutOne<T>(s: seq<T>, i: nat)
    requires i < |s|
    ensures multiset(s) == multiset(Without(s, i)) + multiset{s[i]}
  {
    assert s == s[..i] + [s[i]] + s[i + 1..];
  }

  /** The last element of one sequence has its place in any rearrangement. */
  lemma PlaceOfLast<T>(s: seq<T>, t: seq<T>) returns (i: nat)
    requires multiset(s) == multiset(t) && s != []
    ensures i < |t| && t[i] == s[|s| - 1] && multiset(s[..|s| - 1]) == multiset(Without(t, i))
  {
    var n := |s| - 1;
    assert s[n] in multiset(t);
    i :| 0 <= i < |t| && t[i] == s[n];
    WithoutOne(t, i);
    WithoutOne(s, n);
    assert Without(s, n) == s[..n];
    Cancel(multiset(s[..n]), multiset(Without(t, i)), s[n]);
  }

  lemma Cancel<T>(a: multiset<T>, b: multiset<T>, x: T)
    requires a + multiset{x} == b + multiset{x}
    ensures a == b
  {
    assert a == (a + multiset{x}) - multiset{x} && b == (b + multiset{x}) - multiset{x};
  }

  lemma {:induction false} TotalConcat<K(!new)>(a: seq<Entry<K>>, b: seq<Entry<K>>, k: K)
    ensures Total(a + b, k) == Total(a, k) + Total(b, k)
    decreases |b|
  {
    if b == [] {
      assert a + b == a;
    } else {
      assert (a + b)[..|a + b| - 1] == a + b[..|b| - 1];
      TotalConcat(a, b[..|b| - 1], k);
    }
  }

  lemma TotalWithout<K(!new)>(es: seq<Entry<K>>, i: nat, k: K)
    requires i < |es|
    ensures Total(es, k) == Total(Without(es, i), k) + if es[i].key == k then es[i].count else 0
  {
    hide Total, Has;
    var a, x, b := es[..i], es[i], es[i + 1..];
    assert es == (a + [x]) + b;
    assert Without(es, i) == a + b;
    TotalAppend(a, x);
    TotalConcat(a + [x], b, k);
    TotalConcat(a, b, k);
  }

  /** Totals depend on the entries as a multiset. */
  lemma {:induction false} TotalsIgnoreOrder<K(!new)>(es: seq<Entry<K>>, es': seq<Entry<K>>, k: K)
    requires multiset(es) == multiset(es')
    ensures Total(es, k) == Total(es', k)
    decreases |es|
  {
    if es == [] {
      assert |es'| == |multiset(es')| == |multiset(es)| == 0;
    } else {
      var i := PlaceOfLast(es, es');
      TotalWithout(es', i, k);
      TotalsIgnoreOrder(es[..|es| - 1], Without(es', i), k);
    }
  }

  lemma HasIgnoresOrder<K(!new)>(es: seq<Entry<K>>, es': seq<Entry<K>>, k: K)
    requires multiset(es) == multiset(es')
    ensures Has(es, k) <==> Has(es', k)
  {
    assert forall e :: (e in es <==> e in multiset(es)) && (e in es' <==> e in multiset(es'));
  }

  // ---------- gathered from a list ----------

  /** What the items add, one item after the other. */
  function Gather<E, T>(items: seq<E>, adds: E -> seq<T>): seq<T> {
    if items == [] then [] else Gather(items[..|items| - 1], adds) + adds(items[|items| - 1])
  }

  lemma {:induction false} GatherWithout<E, T>(items: seq<E>, adds: E -> seq<T>, i: nat)
    requires i < |items|
    ensures multiset(Gather(items, adds)) == multiset(Gather(Without(items, i), adds)) + multiset(adds(items[i]))
    decreases |items|
  {
    var n := |items| - 1;
    if i == n {
      assert Without(items, i) == items[..n];
    } else {
      var front, rest := items[..n], Without(items, i);
      GatherWithout(front, adds, i);
      assert items == front + [items[n]];
      assert rest[..|rest| - 1] == Without(front, i) && rest[|rest| - 1] == items[n];
      assert Gather(rest, adds) == Gather(Without(front, i), adds) + adds(items[n]);
    }
  }

  /** Rearranging the items rearranges what they add and no more. */
  lemma {:induction false} GatherIgnoresOrder<E, T>(items: seq<E>, items': seq<E>, adds: E -> seq<T>)
    requires multiset(items) == multiset(items')
    ensures multiset(Gather(items, adds)) == multiset(Gather(items', adds))
    decreases |items|
  {
    if items == [] {
      assert |items'| == |multiset(items')| == |multiset(items)| == 0;
    } else {
      var i := PlaceOfLast(items, items');
      var front := items[..|items| - 1];
      GatherIgnoresOrder(front, Without(items', i), adds);
      GatherWithout(items', adds, i);
      assert Gather(items, adds) == Gather(front, adds) + adds(items[|items| - 1]);
    }
  }

  /** Whatever order the server lists the items in, the same keys are found, with the same totals. */
  lemma FindingsIgnoreOrder<E, K(!new)>(items: seq<E>, items': seq<E>, adds: E -> seq<Entry<K>>, k: K)
    requires multiset(items) == multiset(items')
    ensures Has(Gather(items, adds), k) <==> Has(Gather(items', adds), k)
    ensures Total(Gather(items, adds), k) == Total(Gather(items', adds), k)
  {
    GatherIgnoresOrder(items, items', adds);
    TotalsIgnoreOrder(Gather(items, adds), Gather(items', adds), k);
    HasIgnoresOrder(Gather(items, adds), Gather(items', adds), k);
  }
}
