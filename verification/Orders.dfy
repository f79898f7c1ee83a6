/** Sorting by a composite key: the comparison functions of the encoders (internal/emit/otlp/encode.go,
    internal/emit/otlp/logs_encode.go) compare field by field. */
module Orders {
  import opened Sorting
  import opened Counting
  import opened Grouping

  ghost predicate TotalOrder<K(!new)>(less: (K, K) -> bool) {
    && (forall x :: !less(x, x))
    && (forall x, y, z :: less(x, y) && less(y, z) ==> less(x, z))
    && (forall x, y :: less(x, y) || x == y || less(y, x))
  }

  function Lex<A(==), B>(la: (A, A) -> bool, lb: (B, B) -> bool): ((A, B), (A, B)) -> bool {
    (x: (A, B), y: (A, B)) => if x.0 == y.0 then lb(x.1, y.1) else la(x.0, y.0)
  }

  function ByKey<T, K>(key: T -> K, less: (K, K) -> bool): (T, T) -> bool { (x, y) => less(key(x), key(y)) }

  lemma LexTotal<A(!new), B(!new)>(la: (A, A) -> bool, lb: (B, B) -> bool)
    requires TotalOrder(la) && TotalOrder(lb)
    ensures TotalOrder(Lex(la, lb))
  {
    var l := Lex(la, lb);
    forall x ensures !l(x, x) { assert !lb(x.1, x.1); }
    forall x, y, z | l(x, y) && l(y, z) ensures l(x, z) {
      if x.0 == y.0 == z.0 {
        assert lb(x.1, y.1) && lb(y.1, z.1);
      } else if x.0 != y.0 && y.0 != z.0 {
        assert la(x.0, y.0) && la(y.0, z.0);
        assert !la(x.0, x.0);
      }
    }
    forall x, y ensures l(x, y) || x == y || l(y, x) {
      if x.0 == y.0 {
        assert lb(x.1, y.1) || x.1 == y.1 || lb(y.1, x.1);
      } else {
        assert la(x.0, y.0) || la(y.0, x.0);
      }
    }
  }

  lemma StrTotalOrder()
    ensures TotalOrder(StrLess)
  {
    StrOrder();
  }

  lemma IntTotalOrder()
    ensures TotalOrder(IntLess())
  {
  }

  lemma ByKeyWeak<T(!new), K(!new)>(key: T -> K, less: (K, K) -> bool)
    requires TotalOrder(less)
    ensures WeakOrder(ByKey(key, less))
    ensures forall x, y :: !ByKey(key, less)(x, y) && !ByKey(key, less)(y, x) ==> key(x) == key(y)
  {
    var l := ByKey(key, less);
    forall x, y, z | !l(x, y) && !l(y, z) ensures !l(x, z) {
      assert less(key(y), key(x)) || key(x) == key(y);
      assert less(key(z), key(y)) || key(y) == key(z);
    }
    forall x, y | !l(x, y) && !l(y, x) ensures key(x) == key(y) {
      assert less(key(x), key(y)) || key(x) == key(y) || less(key(y), key(x));
    }
  }

  /** Elements with equal keys are equal. */
  ghost predicate KeyDecides<T(!new), K>(s: seq<T>, key: T -> K) {
    forall x, y :: x in s && y in s && key(x) == key(y) ==> x == y
  }

  /** Sorting by a key that decides forgets the input order. */
  lemma SortByKeyCanonical<T(!new), K(!new)>(a: seq<T>, b: seq<T>, key: T -> K, less: (K, K) -> bool)
    requires TotalOrder(less) && multiset(a) == multiset(b) && KeyDecides(a, key)
    ensures Sort(a, ByKey(key, less)) == Sort(b, ByKey(key, less))
  {
    ByKeyWeak(key, less);
    SortCanonical(a, b, ByKey(key, less));
  }

  // ----- mapping over a sequence -----

  function Map<A, B>(s: seq<A>, f: A -> B): (r: seq<B>)
    ensures |r| == |s| && forall i :: 0 <= i < |s| ==> r[i] == f(s[i])
  {
    seq(|s|, i requires 0 <= i < |s| => f(s[i]))
  }

  lemma MapCong<A(!new), B>(s: seq<A>, f: A -> B, g: A -> B)
    requires forall x :: f(x) == g(x)
    ensures Map(s, f) == Map(s, g)
  {
  }

  function Hits<A, B(==)>(f: A -> B, y: B): A -> bool { x => f(x) == y }

  /** The image of a permutation is a permutation of the image. */
  lemma MapPermutes<A, B(!new)>(a: seq<A>, b: seq<A>, f: A -> B)
    requires multiset(a) == multiset(b)
    ensures multiset(Map(a, f)) == multiset(Map(b, f))
  {
    forall y ensures multiset(Map(a, f))[y] == multiset(Map(b, f))[y] {
      CopiesAre(Map(a, f), y);
      CopiesAre(Map(b, f), y);
      CountCong(|a|, At(Map(a, f), Is(y)), At(a, Hits(f, y)));
      CountCong(|b|, At(Map(b, f), Is(y)), At(b, Hits(f, y)));
      CountPermutation(a, b, Hits(f, y));
    }
  }

  lemma SwapPermutes<T>(a: seq<T>, i: nat, j: nat)
    requires i < j < |a|
    ensures multiset(a[i := a[j]][j := a[i]]) == multiset(a)
  {
  }

  ghost predicate Mirrors<A(!new), B>(f: A -> B, la: (A, A) -> bool, lb: (B, B) -> bool) {
    forall u, v {:trigger la(u, v)} :: la(u, v) == lb(f(u), f(v))
  }

  lemma {:induction false} InsertMap<A(!new), B>(x: A, s: seq<A>, f: A -> B, la: (A, A) -> bool, lb: (B, B) -> bool)
    requires Mirrors(f, la, lb)
    ensures Map(Insert(x, s, la), f) == Insert(f(x), Map(s, f), lb)
  {
    if s != [] {
      assert la(s[0], x) == lb(f(s[0]), f(x));
      if la(s[0], x) {
        InsertMap(x, s[1..], f, la, lb);
        assert Map(s, f)[1..] == Map(s[1..], f);
      } else {
        assert Map([x] + s, f) == [f(x)] + Map(s, f);
      }
    }
  }

  lemma SortCons<T>(x: T, s: seq<T>, less: (T, T) -> bool)
    ensures Sort([x] + s, less) == Insert(x, Sort(s, less), less)
  {
    assert ([x] + s)[1..] == s;
  }

  /** A stable sort by what the image shows commutes with taking the image. */
  lemma {:induction false} SortMap<A(!new), B>(s: seq<A>, f: A -> B, la: (A, A) -> bool, lb: (B, B) -> bool)
    requires Mirrors(f, la, lb)
    ensures Map(Sort(s, la), f) == Sort(Map(s, f), lb)
  {
    if s != [] {
      var x, rest := s[0], s[1..];
      SortMap(rest, f, la, lb);
      assert Map(Sort(s, la), f) == Insert(f(x), Map(Sort(rest, la), f), lb) by { InsertMap(x, Sort(rest, la), f, la, lb); }
      assert s == [x] + rest;
      SortMapCons(x, rest, f, lb);
    }
  }

  lemma SortMapCons<A, B>(x: A, s: seq<A>, f: A -> B, lb: (B, B) -> bool)
    ensures Sort(Map([x] + s, f), lb) == Insert(f(x), Sort(Map(s, f), lb), lb)
  {
    assert Map([x] + s, f) == [f(x)] + Map(s, f);
    SortCons(f(x), Map(s, f), lb);
  }

  // ----- stability -----

  lemma WhereCons<T, K>(x: T, s: seq<T>, key: T -> K, k: K)
    ensures Where([x] + s, key, k) == Only(x, key, k) + Where(s, key, k)
  {
    assert ([x] + s)[1..] == s;
  }

  function Only<T, K(==)>(x: T, key: T -> K, k: K): seq<T> { if key(x) == k then [x] else [] }

  lemma OneEmpty<T>(a: seq<T>, b: seq<T>, s: seq<T>)
    requires a == [] || b == []
    ensures a + (b + s) == b + (a + s)
  {
    if a == [] {
      assert a + (b + s) == b + s && a + s == s;
    } else {
      assert b + s == s && b + (a + s) == a + s;
    }
  }

  lemma {:induction false} WhereInsert<T, K(!new)>(x: T, s: seq<T>, key: T -> K, less: (K, K) -> bool, k: K)
    requires forall y :: !less(y, y)
    ensures Where(Insert(x, s, ByKey(key, less)), key, k) == Only(x, key, k) + Where(s, key, k)
  {
    var l := ByKey(key, less);
    if s != [] && l(s[0], x) {
      var rest, t := s[1..], Insert(x, s[1..], l);
      WhereInsert(x, rest, key, less, k);
      WhereCons(s[0], t, key, k);
      assert less(key(s[0]), key(x)) && !less(key(x), key(x));
      OneEmpty(Only(s[0], key, k), Only(x, key, k), Where(rest, key, k));
    } else {
      WhereCons(x, s, key, k);
    }
  }

  /** Elements with equal keys stay in input order. */
  lemma {:induction false} WhereSort<T, K(!new)>(s: seq<T>, key: T -> K, less: (K, K) -> bool, k: K)
    requires forall y :: !less(y, y)
    ensures Where(Sort(s, ByKey(key, less)), key, k) == Where(s, key, k)
  {
    if s != [] {
      WhereSort(s[1..], key, less, k);
      WhereInsert(s[0], Sort(s[1..], ByKey(key, less)), key, less, k);
    }
  }

  /** If two elements share a key but differ, exchanging them shows in the sorted result. */
  lemma SwapShows<T, K(!new)>(s: seq<T>, t: seq<T>, i: nat, j: nat, key: T -> K, less: (K, K) -> bool)
    requires (forall y :: !less(y, y)) && i < j < |s| && key(s[i]) == key(s[j]) && s[i] != s[j]
    requires t == s[i := s[j]][j := s[i]]
    ensures Sort(s, ByKey(key, less)) != Sort(t, ByKey(key, less))
  {
    var k := key(s[i]);
    WhereSort(s, key, less, k);
    WhereSort(t, key, less, k);
    WhereAround(s, i, key, k);
    WhereAround(t, i, key, k);
    assert s[..i] == t[..i];
    assert Where(s, key, k)[|Where(s[..i], key, k)|] == s[i];
    assert Where(t, key, k)[|Where(t[..i], key, k)|] == t[i];
  }
}
