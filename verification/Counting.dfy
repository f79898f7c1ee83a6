/** Counting the indices below a bound that satisfy a predicate. */
module Counting {

  function Count(n: nat, p: nat -> bool): (c: nat)
    ensures c <= n
  {
    if n == 0 then 0 else Count(n - 1, p) + if p(n - 1) then 1 else 0
  }

  lemma {:induction false} CountCong(n: nat, p: nat -> bool, q: nat -> bool)
    requires forall i: nat :: i < n ==> p(i) == q(i)
    ensures Count(n, p) == Count(n, q)
  {
    if n > 0 { CountCong(n - 1, p, q); }
  }

  lemma {:induction false} CountMono(n: nat, p: nat -> bool, q: nat -> bool)
    requires forall i: nat :: i < n && p(i) ==> q(i)
    ensures Count(n, p) <= Count(n, q)
  {
    if n > 0 { CountMono(n - 1, p, q); }
  }

  /** `q` holds wherever `p` does, and at `k` besides. */
  lemma {:induction false} CountMore(n: nat, p: nat -> bool, q: nat -> bool, k: nat)
    requires k < n && !p(k) && q(k)
    requires forall i: nat :: i < n && p(i) ==> q(i)
    ensures Count(n, p) < Count(n, q)
  {
    if k == n - 1 { CountMono(n - 1, p, q); } else { CountMore(n - 1, p, q, k); }
  }

  /** `p` and `q` agree except at `k`, where only `q` holds. */
  lemma {:induction false} CountOneMore(n: nat, p: nat -> bool, q: nat -> bool, k: nat)
    requires k < n && !p(k) && q(k)
    requires forall i: nat :: i < n && i != k ==> p(i) == q(i)
    ensures Count(n, q) == Count(n, p) + 1
  {
    if k == n - 1 { CountCong(n - 1, p, q); } else { CountOneMore(n - 1, p, q, k); }
  }

  lemma {:induction false} CountSplit(n: nat, p: nat -> bool, q: nat -> bool, r: nat -> bool)
    requires forall i: nat :: i < n ==> (r(i) <==> p(i) || q(i)) && !(p(i) && q(i))
    ensures Count(n, r) == Count(n, p) + Count(n, q)
  {
    if n > 0 { CountSplit(n - 1, p, q, r); }
  }

  lemma {:induction false} CountBounded(n: nat, m: nat, p: nat -> bool, q: nat -> bool)
    requires m <= n
    requires forall i: nat :: i < n ==> q(i) == (i < m && p(i))
    ensures Count(n, q) == Count(m, p)
  {
    if m == n { CountCong(n, p, q); } else { CountBounded(n - 1, m, p, q); }
  }

  lemma {:induction false} CountNone(n: nat, p: nat -> bool)
    requires forall i: nat :: i < n ==> !p(i)
    ensures Count(n, p) == 0
  {
    if n > 0 { CountNone(n - 1, p); }
  }

  lemma {:induction false} CountSome(n: nat, p: nat -> bool) returns (k: nat)
    requires Count(n, p) > 0
    ensures k < n && p(k)
  {
    if p(n - 1) { k := n - 1; } else { k := CountSome(n - 1, p); }
  }

  lemma {:induction false} CountBefore(n: nat, i: nat, p: nat -> bool)
    requires i < n && p(i)
    ensures Count(i, p) < Count(n, p)
  {
    if i < n - 1 { CountBefore(n - 1, i, p); }
  }

  lemma {:induction false} CountPair(n: nat, p: nat -> bool, i: nat, j: nat)
    requires i < j < n && p(i) && p(j)
    ensures Count(n, p) >= 2
  {
    if j < n - 1 { CountPair(n - 1, p, i, j); } else { CountBefore(n - 1, i, p); }
  }

  lemma {:induction false} CountUnique(n: nat, p: nat -> bool, k: nat)
    requires k < n && p(k) && forall i: nat :: i < n && p(i) ==> i == k
    ensures Count(n, p) == 1
  {
    if k == n - 1 { CountNone(n - 1, p); } else { CountUnique(n - 1, p, k); }
  }

  // ----- counting in a sequence -----

  function At<T>(s: seq<T>, p: T -> bool): nat -> bool { (i: nat) => i < |s| && p(s[i]) }

  function CountIn<T>(s: seq<T>, p: T -> bool): nat { Count(|s|, At(s, p)) }

  lemma {:induction false} CountConcat<T>(a: seq<T>, b: seq<T>, p: T -> bool)
    ensures CountIn(a + b, p) == CountIn(a, p) + CountIn(b, p)
  {
    if b == [] {
      assert a + b == a;
    } else {
      var b', x := b[..|b| - 1], b[|b| - 1];
      CountConcat(a, b', p);
      assert a + b == (a + b') + [x] && b == b' + [x];
      CountSnoc(a + b', x, p);
      CountSnoc(b', x, p);
    }
  }

  lemma CountSnoc<T>(s: seq<T>, x: T, p: T -> bool)
    ensures CountIn(s + [x], p) == CountIn(s, p) + if p(x) then 1 else 0
  {
    CountCong(|s|, At(s + [x], p), At(s, p));
  }

  /** Counting does not see the order. */
  lemma {:induction false} CountPermutation<T>(a: seq<T>, b: seq<T>, p: T -> bool)
    requires multiset(a) == multiset(b)
    ensures CountIn(a, p) == CountIn(b, p)
  {
    if a == [] {
      assert |multiset(b)| == 0;
    } else {
      var a', x := a[..|a| - 1], a[|a| - 1];
      assert a == a' + [x];
      assert x in multiset(b);
      var k :| 0 <= k < |b| && b[k] == x;
      var l, r := b[..k], b[k + 1..];
      assert b == (l + [x]) + r;
      Remove(a', x, l, r);
      CountPermutation(a', l + r, p);
      CountSnoc(a', x, p);
      CountConcat(l + [x], r, p);
      CountSnoc(l, x, p);
      CountConcat(l, r, p);
    }
  }

  lemma Remove<T>(a: seq<T>, x: T, l: seq<T>, r: seq<T>)
    requires multiset(a + [x]) == multiset((l + [x]) + r)
    ensures multiset(a) == multiset(l + r)
  {
    assert multiset((l + [x]) + r) == multiset(l) + multiset{x} + multiset(r);
    Less(multiset(a), multiset(l) + multiset(r), x);
  }

  lemma Less<T>(a: multiset<T>, b: multiset<T>, x: T)
    requires a + multiset{x} == b + multiset{x}
    ensures a == b
  {
    assert a == a + multiset{x} - multiset{x};
  }

  function Is<T(==)>(y: T): T -> bool { z => z == y }

  lemma {:induction false} CopiesAre<T>(s: seq<T>, x: T)
    ensures multiset(s)[x] == CountIn(s, Is(x))
  {
    if s != [] {
      var n := |s| - 1;
      CopiesAre(s[..n], x);
      CountSnoc(s[..n], s[n], Is(x));
      assert s == s[..n] + [s[n]];
    }
  }
}
