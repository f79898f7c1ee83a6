/** Splitting a sequence by a key and joining the parts again. */
module Grouping {

  /** The elements with key `k`, in order. */
  function Where<T, K(==)>(s: seq<T>, key: T -> K, k: K): seq<T> {
    if s == [] then [] else (if key(s[0]) == k then [s[0]] else []) + Where(s[1..], key, k)
  }

  lemma {:induction false} WhereMember<T, K>(s: seq<T>, key: T -> K, k: K, x: T)
    ensures x in Where(s, key, k) <==> x in s && key(x) == k
  {
    if s != [] { WhereMember(s[1..], key, k, x); }
  }

  lemma Associates<T>(a: seq<T>, b: seq<T>, c: seq<T>)
    ensures (a + b) + c == a + (b + c)
  {
  }

  lemma {:induction false} WhereConcat<T, K>(a: seq<T>, b: seq<T>, key: T -> K, k: K)
    ensures Where(a + b, key, k) == Where(a, key, k) + Where(b, key, k)
  {
    if a == [] {
      assert a + b == b;
    } else {
      var head := if key(a[0]) == k then [a[0]] else [];
      WhereConcat(a[1..], b, key, k);
      assert (a + b)[1..] == a[1..] + b && (a + b)[0] == a[0];
      assert Where(a + b, key, k) == head + Where(a[1..] + b, key, k);
      Associates(head, Where(a[1..], key, k), Where(b, key, k));
    }
  }

  lemma WhereSnoc<T, K>(s: seq<T>, x: T, key: T -> K, k: K)
    ensures Where(s + [x], key, k) == Where(s, key, k) + if key(x) == k then [x] else []
  {
    WhereConcat(s, [x], key, k);
    assert [x][1..] == [];
  }

  lemma WhereAround<T, K>(s: seq<T>, i: nat, key: T -> K, k: K)
    requires i < |s| && key(s[i]) == k
    ensures Where(s, key, k) == Where(s[..i], key, k) + [s[i]] + Where(s[i + 1..], key, k)
  {
    assert s == s[..i] + s[i..] && s[i..][1..] == s[i + 1..];
    WhereConcat(s[..i], s[i..], key, k);
  }

  lemma {:induction false} WhereCopies<T, K>(s: seq<T>, key: T -> K, k: K, x: T)
    ensures multiset(Where(s, key, k))[x] == if key(x) == k then multiset(s)[x] else 0
  {
    if s != [] {
      WhereCopies(s[1..], key, k, x);
      assert s == [s[0]] + s[1..];
    }
  }

  lemma WherePermutes<T(!new), K>(a: seq<T>, b: seq<T>, key: T -> K, k: K)
    requires multiset(a) == multiset(b)
    ensures multiset(Where(a, key, k)) == multiset(Where(b, key, k))
  {
    forall x ensures multiset(Where(a, key, k))[x] == multiset(Where(b, key, k))[x] {
      WhereCopies(a, key, k, x);
      WhereCopies(b, key, k, x);
    }
  }

  /** One part after the other. */
  function Flat<T>(bs: seq<seq<T>>): seq<T> {
    if bs == [] then [] else Flat(bs[..|bs| - 1]) + bs[|bs| - 1]
  }

  lemma FlatSnoc<T>(bs: seq<seq<T>>, b: seq<T>)
    ensures Flat(bs + [b]) == Flat(bs) + b
  {
    assert (bs + [b])[..|bs|] == bs;
  }

  lemma {:induction false} FlatConcat<T>(a: seq<seq<T>>, b: seq<seq<T>>)
    ensures Flat(a + b) == Flat(a) + Flat(b)
  {
    if b == [] {
      assert a + b == a;
    } else {
      var n := |b| - 1;
      FlatConcat(a, b[..n]);
      FlatSnoc(a + b[..n], b[n]);
      assert a + b == (a + b[..n]) + [b[n]];
      Associates(Flat(a), Flat(b[..n]), b[n]);
    }
  }

  lemma {:induction false} FlatMember<T>(bs: seq<seq<T>>, x: T) returns (i: nat)
    requires x in Flat(bs)
    ensures i < |bs| && x in bs[i]
  {
    var n := |bs| - 1;
    if x in bs[n] { i := n; } else { i := FlatMember(bs[..n], x); }
  }

  ghost predicate Distinct<K>(ks: seq<K>) { forall i, j :: 0 <= i < j < |ks| ==> ks[i] != ks[j] }

  /** `bs` are the parts of `s` under the keys `ks`, each in any order. */
  ghost predicate SplitBy<T, K>(s: seq<T>, key: T -> K, ks: seq<K>, bs: seq<seq<T>>) {
    |bs| == |ks| && Distinct(ks) && forall i :: 0 <= i < |ks| ==> multiset(bs[i]) == multiset(Where(s, key, ks[i]))
  }

  lemma {:induction false} FlatCopies<T, K>(s: seq<T>, key: T -> K, ks: seq<K>, bs: seq<seq<T>>, x: T)
    requires SplitBy(s, key, ks, bs)
    ensures multiset(Flat(bs))[x] == if key(x) in ks then multiset(s)[x] else 0
  {
    if ks != [] {
      var n := |ks| - 1;
      assert SplitBy(s, key, ks[..n], bs[..n]);
      FlatCopies(s, key, ks[..n], bs[..n], x);
      WhereCopies(s, key, ks[n], x);
      assert multiset(Flat(bs)) == multiset(Flat(bs[..n])) + multiset(bs[n]);
      assert key(x) in ks <==> key(x) in ks[..n] || key(x) == ks[n];
    }
  }

  /** With every key listed once, the parts make up the whole. */
  lemma SplitPartitions<T(!new), K>(s: seq<T>, key: T -> K, ks: seq<K>, bs: seq<seq<T>>)
    requires SplitBy(s, key, ks, bs) && forall x :: x in s ==> key(x) in ks
    ensures multiset(Flat(bs)) == multiset(s)
  {
    forall x ensures multiset(Flat(bs))[x] == multiset(s)[x] { FlatCopies(s, key, ks, bs, x); }
  }

  // ----- a map of groups -----

  ghost predicate Grouped<T, K(!new)>(s: seq<T>, key: T -> K, groups: map<K, seq<T>>) {
    forall k :: if k in groups then groups[k] == Where(s, key, k) != [] else Where(s, key, k) == []
  }

  lemma GroupedStep<T, K(!new)>(s: seq<T>, x: T, key: T -> K, groups: map<K, seq<T>>)
    requires Grouped(s, key, groups)
    ensures var k := key(x);
            Grouped(s + [x], key, groups[k := (if k in groups then groups[k] else []) + [x]])
  {
    forall k ensures Where(s + [x], key, k) == Where(s, key, k) + if key(x) == k then [x] else [] {
      WhereSnoc(s, x, key, k);
    }
  }

  method GroupBy<T, K(!new, ==)>(s: seq<T>, key: T -> K) returns (groups: map<K, seq<T>>)
    ensures Grouped(s, key, groups)
  {
    groups := map[];
    for i := 0 to |s|
      invariant Grouped(s[..i], key, groups)
    {
      GroupedStep(s[..i], s[i], key, groups);
      assert s[..i + 1] == s[..i] + [s[i]];
      var k := key(s[i]);
      groups := groups[k := (if k in groups then groups[k] else []) + [s[i]]];
    }
    assert s[..|s|] == s;
  }

  /** Go's map iteration: the keys in an unspecified order. */
  method KeysOf<K(==), V>(groups: map<K, V>) returns (ks: seq<K>)
    ensures multiset(ks) == multiset(groups.Keys)
  {
    ks := [];
    var todo := groups.Keys;
    while todo != {}
      invariant todo <= groups.Keys && multiset(ks) + multiset(todo) == multiset(groups.Keys)
    {
      var k :| k in todo;
      ks, todo := ks + [k], todo - {k};
    }
  }
}
