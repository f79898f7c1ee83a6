/** The per-minute cap on data points (internal/emit/coalesce.go). */
module Coalesce {
  import opened Model
  import opened Keys
  import opened Sorting
  import opened Selection
  import opened Counting

  predicate SameGroup(a: Sample, b: Sample) {
    SameSeries(a, b) && a.timestamp / MINUTE == b.timestamp / MINUTE
  }

  /** Newest first, ties to the larger value. */
  predicate Newer(a: Sample, b: Sample) {
    a.timestamp > b.timestamp || (a.timestamp == b.timestamp && a.value > b.value)
  }

  predicate Tied(a: Sample, b: Sample) { a.timestamp == b.timestamp && a.value == b.value }

  /** Sample `j` is preferred to sample `i` of the same series and minute. */
  predicate Beats(s: seq<Sample>, j: nat, i: nat)
    requires j < |s| && i < |s|
  {
    SameGroup(s[j], s[i]) && (Newer(s[j], s[i]) || (Tied(s[j], s[i]) && j < i))
  }

  function Beaters(s: seq<Sample>, i: nat): nat -> bool
    requires i < |s|
  {
    (j: nat) => j < |s| && Beats(s, j, i)
  }

  function Rank(s: seq<Sample>, i: nat): nat
    requires i < |s|
  {
    Count(|s|, Beaters(s, i))
  }

  /** Fewer than `max` samples of its series and minute are preferred to it. */
  predicate Survives(s: seq<Sample>, i: nat, max: nat)
    requires i < |s|
  {
    Rank(s, i) < max
  }

  function Flags(s: seq<Sample>, max: nat): (f: seq<bool>)
    ensures |f| == |s| && forall i: nat :: i < |s| ==> f[i] == Survives(s, i, max)
  {
    seq(|s|, i requires 0 <= i < |s| => Survives(s, i, max))
  }

  function Kept(s: seq<Sample>, max: nat): seq<Sample> { Select(s, Flags(s, max)) }

  lemma RankMono(s: seq<Sample>, j: nat, i: nat)
    requires j < |s| && i < |s| && Beats(s, j, i)
    ensures Rank(s, j) < Rank(s, i)
  {
    CountMore(|s|, Beaters(s, j), Beaters(s, i), j);
  }

  /** Of two samples of one series and minute, the kept one is preferred to the dropped one. */
  lemma NewestSurvive(s: seq<Sample>, i: nat, j: nat, max: nat)
    requires i < |s| && j < |s| && SameGroup(s[i], s[j]) && Survives(s, i, max) && !Survives(s, j, max)
    ensures Beats(s, i, j)
  {
    if !Beats(s, i, j) { RankMono(s, j, i); }
  }

  /** The survivors of the series and minute of `x`. */
  function KeptOf(s: seq<Sample>, x: Sample, max: nat): nat -> bool {
    (i: nat) => i < |s| && SameGroup(s[i], x) && Survives(s, i, max)
  }

  lemma {:induction false} Worst(s: seq<Sample>, x: Sample, max: nat, n: nat) returns (w: nat)
    requires n <= |s| && Count(n, KeptOf(s, x, max)) > 0
    ensures w < n && KeptOf(s, x, max)(w)
    ensures forall i: nat :: i < n && KeptOf(s, x, max)(i) ==> Rank(s, i) <= Rank(s, w)
  {
    var p := KeptOf(s, x, max);
    if Count(n - 1, p) == 0 {
      w := n - 1;
      forall i: nat | i < n && p(i) ensures i == w {
        if i < n - 1 { CountBefore(n - 1, i, p); }
      }
    } else {
      w := Worst(s, x, max, n - 1);
      if p(n - 1) && Rank(s, n - 1) > Rank(s, w) { w := n - 1; }
    }
  }

  /** At most `max` samples of a series survive in a minute. */
  lemma CapHolds(s: seq<Sample>, x: Sample, max: nat)
    ensures Count(|s|, KeptOf(s, x, max)) <= max
  {
    var p := KeptOf(s, x, max);
    if Count(|s|, p) > 0 {
      var w := Worst(s, x, max, |s|);
      var others := (i: nat) => p(i) && i != w;
      CountOneMore(|s|, others, p, w);
      forall i: nat | i < |s| && others(i) ensures Beats(s, i, w) {
        if !Beats(s, i, w) { RankMono(s, w, i); }
      }
      CountMono(|s|, others, Beaters(s, w));
    }
  }

  function Picked<T>(s: seq<T>, f: seq<bool>, p: T -> bool): nat -> bool
    requires |s| == |f|
  {
    (i: nat) => i < |s| && f[i] && p(s[i])
  }

  lemma {:induction false} SelectCount<T>(s: seq<T>, f: seq<bool>, p: T -> bool)
    requires |s| == |f|
    ensures CountIn(Select(s, f), p) == Count(|s|, Picked(s, f, p))
  {
    if s != [] {
      var n := |s| - 1;
      SelectCount(s[..n], f[..n], p);
      CountCong(n, Picked(s[..n], f[..n], p), Picked(s, f, p));
      var t := Select(s[..n], f[..n]);
      if f[n] { CountSnoc(t, s[n], p); } else { assert t + [] == t; }
    }
  }

  lemma {:induction false} SelectAll<T>(s: seq<T>, f: seq<bool>)
    requires |s| == |f| && forall i :: 0 <= i < |f| ==> f[i]
    ensures Select(s, f) == s
  {
    if s != [] {
      var n := |s| - 1;
      SelectAll(s[..n], f[..n]);
      assert s == s[..n] + [s[n]];
    }
  }

  /** Capping twice is capping once. */
  lemma Idempotent(s: seq<Sample>, max: nat)
    ensures Kept(Kept(s, max), max) == Kept(s, max)
  {
    var t := Kept(s, max);
    forall i: nat | i < |t| ensures Survives(t, i, max) {
      var p := (y: Sample) => SameGroup(y, t[i]);
      SelectCount(s, Flags(s, max), p);
      CountCong(|s|, Picked(s, Flags(s, max), p), KeptOf(s, t[i], max));
      CapHolds(s, t[i], max);
      CountMore(|t|, Beaters(t, i), At(t, p), i);
    }
    SelectAll(t, Flags(t, max));
  }

  // ----- order independence -----

  predicate SameClass(a: Sample, b: Sample) { SameGroup(a, b) && Tied(a, b) }

  predicate Better(a: Sample, b: Sample) { SameGroup(a, b) && Newer(a, b) }

  function BetterThan(x: Sample): Sample -> bool { y => Better(y, x) }

  function TiedWith(x: Sample): Sample -> bool { y => SameClass(y, x) }

  function NumBetter(s: seq<Sample>, x: Sample): nat { CountIn(s, BetterThan(x)) }

  function ClassSize(s: seq<Sample>, x: Sample): nat { CountIn(s, TiedWith(x)) }

  /** The cap cuts through the samples that tie with `x`. */
  predicate Cut(s: seq<Sample>, x: Sample, max: nat) {
    NumBetter(s, x) < max < NumBetter(s, x) + ClassSize(s, x)
  }

  /** Wherever the cap cuts through a tie, the tied samples are identical. */
  ghost predicate Robust(s: seq<Sample>, max: nat) {
    forall x, y :: x in s && y in s && SameClass(x, y) && Cut(s, x, max) ==> x == y
  }

  /** The rank of a sample: those better, plus those tied with it that come earlier. */
  lemma RankSplit(s: seq<Sample>, x: Sample, i: nat)
    requires i < |s| && SameClass(s[i], x)
    ensures Rank(s, i) == NumBetter(s, x) + Count(i, At(s, TiedWith(x)))
  {
    var tied := At(s, TiedWith(x));
    var earlier := (k: nat) => k < i && tied(k);
    CountSplit(|s|, At(s, BetterThan(x)), earlier, Beaters(s, i));
    CountBounded(|s|, i, tied, earlier);
  }

  function Clamp(n: int): nat { if n < 0 then 0 else n }

  function Min(a: nat, b: nat): nat { if a < b then a else b }

  function TiedKept(s: seq<Sample>, x: Sample, max: nat): nat -> bool {
    (i: nat) => i < |s| && SameClass(s[i], x) && Survives(s, i, max)
  }

  /** Of the samples tied with `x`, the first ones survive, up to the room that is left. */
  lemma {:induction false} ClassSurvivors(s: seq<Sample>, x: Sample, max: nat, n: nat)
    requires n <= |s|
    ensures Count(n, TiedKept(s, x, max)) == Min(Count(n, At(s, TiedWith(x))), Clamp(max - NumBetter(s, x)))
  {
    if n > 0 {
      ClassSurvivors(s, x, max, n - 1);
      if SameClass(s[n - 1], x) { RankSplit(s, x, n - 1); }
    }
  }

  /** How many copies of `x` survive, in terms of counts alone. */
  function Copies(s: seq<Sample>, x: Sample, max: nat): nat {
    if NumBetter(s, x) + ClassSize(s, x) <= max then multiset(s)[x]
    else if multiset(s)[x] == 0 then 0
    else Clamp(max - NumBetter(s, x))
  }

  lemma KeptCopies(s: seq<Sample>, x: Sample, max: nat)
    ensures multiset(Kept(s, max))[x] == Count(|s|, Picked(s, Flags(s, max), Is(x)))
    ensures multiset(s)[x] == Count(|s|, At(s, Is(x)))
  {
    CopiesAre(Kept(s, max), x);
    SelectCount(s, Flags(s, max), Is(x));
    CopiesAre(s, x);
  }

  lemma SurvivorCopies(s: seq<Sample>, x: Sample, max: nat)
    requires Robust(s, max)
    ensures multiset(Kept(s, max))[x] == Copies(s, x, max)
  {
    KeptCopies(s, x, max);
    var kept := Picked(s, Flags(s, max), Is(x));
    if NumBetter(s, x) + ClassSize(s, x) <= max {
      forall i: nat | i < |s| && s[i] == x ensures Survives(s, i, max) {
        RankSplit(s, x, i);
        CountBefore(|s|, i, At(s, TiedWith(x)));
      }
      CountCong(|s|, kept, At(s, Is(x)));
    } else if multiset(s)[x] == 0 {
      CountMono(|s|, kept, At(s, Is(x)));
    } else {
      assert x in s;
      CutCopies(s, x, max);
    }
  }

  /** The case in which the cap falls below the last sample tied with `x`. */
  lemma CutCopies(s: seq<Sample>, x: Sample, max: nat)
    requires Robust(s, max) && x in s && max < NumBetter(s, x) + ClassSize(s, x)
    ensures Count(|s|, Picked(s, Flags(s, max), Is(x))) == Clamp(max - NumBetter(s, x))
  {
    var kept := Picked(s, Flags(s, max), Is(x));
    ClassSurvivors(s, x, max, |s|);
    if NumBetter(s, x) >= max {
      CountMono(|s|, kept, TiedKept(s, x, max));
    } else {
      forall i: nat | i < |s| && SameClass(s[i], x) ensures s[i] == x {
        assert SameClass(x, s[i]) && Cut(s, x, max);
      }
      CountCong(|s|, kept, TiedKept(s, x, max));
    }
  }

  lemma CopiesPermutation(a: seq<Sample>, b: seq<Sample>, x: Sample, max: nat)
    requires multiset(a) == multiset(b)
    ensures NumBetter(a, x) == NumBetter(b, x) && ClassSize(a, x) == ClassSize(b, x)
    ensures Copies(a, x, max) == Copies(b, x, max)
  {
    CountPermutation(a, b, BetterThan(x));
    CountPermutation(a, b, TiedWith(x));
  }

  lemma RobustPermutation(a: seq<Sample>, b: seq<Sample>, max: nat)
    requires Robust(a, max) && multiset(a) == multiset(b)
    ensures Robust(b, max)
  {
    forall x, y | x in b && y in b && SameClass(x, y) && Cut(b, x, max) ensures x == y {
      assert x in multiset(b) && y in multiset(b);
      CopiesPermutation(a, b, x, max);
    }
  }

  /** If identical samples stand wherever the cap cuts through a tie, the surviving multiset does not
      depend on the input order. */
  lemma OrderIndependent(a: seq<Sample>, b: seq<Sample>, max: nat)
    requires Robust(a, max) && multiset(a) == multiset(b)
    ensures multiset(Kept(a, max)) == multiset(Kept(b, max))
  {
    RobustPermutation(a, b, max);
    forall x ensures multiset(Kept(a, max))[x] == multiset(Kept(b, max))[x] {
      SurvivorCopies(a, x, max);
      SurvivorCopies(b, x, max);
      CopiesPermutation(a, b, x, max);
    }
  }

  lemma {:induction false} CountRoom(n: nat, p: nat -> bool, q: nat -> bool) returns (k: nat)
    requires Count(n, p) < Count(n, q)
    ensures k < n && q(k) && !p(k)
  {
    if q(n - 1) && !p(n - 1) {
      k := n - 1;
    } else {
      k := CountRoom(n - 1, p, q);
    }
  }

  /** A cut tie with distinct members has a kept and a dropped member that differ. */
  lemma CutPair(s: seq<Sample>, max: nat) returns (i: nat, j: nat)
    requires !Robust(s, max)
    ensures i < |s| && j < |s| && SameClass(s[i], s[j]) && s[i] != s[j]
    ensures Survives(s, i, max) && !Survives(s, j, max)
  {
    var x, y :| x in s && y in s && SameClass(x, y) && Cut(s, x, max) && x != y;
    ClassSurvivors(s, x, max, |s|);
    i := CountSome(|s|, TiedKept(s, x, max));
    j := CountRoom(|s|, TiedKept(s, x, max), At(s, TiedWith(x)));
    if s[i] == s[j] {
      var z := if x == s[i] then y else x;
      var m :| 0 <= m < |s| && s[m] == z;
      if Survives(s, m, max) { i := m; } else { j := m; }
    }
  }

  lemma SwapKeepsFlags(a: seq<Sample>, b: seq<Sample>, i: nat, j: nat, max: nat)
    requires i < |a| && j < |a| && SameClass(a[i], a[j]) && b == a[i := a[j]][j := a[i]]
    ensures Flags(b, max) == Flags(a, max)
  {
    forall k: nat | k < |a| ensures Survives(a, k, max) == Survives(b, k, max) {
      CountCong(|a|, Beaters(a, k), Beaters(b, k));
    }
  }

  /** Otherwise it does: exchanging the two samples changes what survives. */
  lemma OrderDependent(a: seq<Sample>, max: nat) returns (b: seq<Sample>)
    requires !Robust(a, max)
    ensures multiset(a) == multiset(b) && multiset(Kept(a, max)) != multiset(Kept(b, max))
  {
    var i, j := CutPair(a, max);
    b := a[i := a[j]][j := a[i]];
    SwapKeepsFlags(a, b, i, j, max);
    KeptCopies(a, a[i], max);
    KeptCopies(b, a[i], max);
    var f := Flags(a, max);
    CountOneMore(|a|, Picked(b, f, Is(a[i])), Picked(a, f, Is(a[i])), i);
  }

  // ----- the grouping implementation -----

  datatype GroupKey = GroupKey(series: string, minute: int)

  /** Equal keys name one series and one minute. */
  ghost predicate Keyed(s: seq<Sample>, keys: seq<GroupKey>) {
    |keys| == |s| && forall i, j :: 0 <= i < |s| && 0 <= j < |s| ==> (keys[i] == keys[j] <==> SameGroup(s[i], s[j]))
  }

  predicate Increasing(ix: seq<nat>) { forall a, b :: 0 <= a < b < |ix| ==> ix[a] < ix[b] }

  /** The indices below `n` of the entries equal to `k`, in input order. */
  function Indices<K(==)>(keys: seq<K>, n: nat, k: K): (ix: seq<nat>)
    requires n <= |keys|
    ensures Increasing(ix) && forall a :: 0 <= a < |ix| ==> ix[a] < n
  {
    if n == 0 then []
    else Indices(keys, n - 1, k) + if keys[n - 1] == k then [n - 1] else []
  }

  lemma {:induction false} IndicesComplete<K>(keys: seq<K>, n: nat, k: K, i: nat)
    requires n <= |keys|
    ensures i in Indices(keys, n, k) <==> i < n && keys[i] == k
  {
    if n > 0 { IndicesComplete(keys, n - 1, k, i); }
  }

  predicate Precedes(s: seq<Sample>, a: nat, b: nat)
    requires a < |s| && b < |s|
  {
    Newer(s[a], s[b]) || (Tied(s[a], s[b]) && a < b)
  }

  predicate Within(s: seq<Sample>, ix: seq<nat>) { forall a :: 0 <= a < |ix| ==> ix[a] < |s| }

  predicate Ordered(s: seq<Sample>, ix: seq<nat>)
    requires Within(s, ix)
  {
    forall a, b :: 0 <= a < b < |ix| ==> Precedes(s, ix[a], ix[b])
  }

  function IndexNewer(s: seq<Sample>): (nat, nat) -> bool {
    (a: nat, b: nat) => a < |s| && b < |s| && Newer(s[a], s[b])
  }

  lemma InsertMembers(x: nat, ix: seq<nat>, less: (nat, nat) -> bool, y: nat)
    requires y in Insert<nat>(x, ix, less)
    ensures y == x || y in ix
  {
    assert y in multiset(Insert<nat>(x, ix, less));
    assert y in ix <==> y in multiset(ix);
  }

  /** Inserting an index smaller than the others keeps ties in input order. */
  lemma {:induction false} InsertStable(s: seq<Sample>, x: nat, ix: seq<nat>)
    requires x < |s| && Within(s, ix) && Ordered(s, ix) && forall a :: 0 <= a < |ix| ==> x < ix[a]
    ensures Within(s, Insert<nat>(x, ix, IndexNewer(s))) && Ordered(s, Insert<nat>(x, ix, IndexNewer(s)))
  {
    if ix != [] && IndexNewer(s)(ix[0], x) {
      InsertStable(s, x, ix[1..]);
      var t := Insert<nat>(x, ix[1..], IndexNewer(s));
      forall a | 0 <= a < |t| ensures Precedes(s, ix[0], t[a]) {
        InsertMembers(x, ix[1..], IndexNewer(s), t[a]);
      }
      OrderedCons(s, ix[0], t);
    } else if ix != [] {
      forall a | 0 <= a < |ix| ensures Precedes(s, x, ix[a]) {
        assert a > 0 ==> Precedes(s, ix[0], ix[a]);
      }
      OrderedCons(s, x, ix);
    }
  }

  lemma OrderedCons(s: seq<Sample>, x: nat, ix: seq<nat>)
    requires x < |s| && Within(s, ix) && Ordered(s, ix) && forall a :: 0 <= a < |ix| ==> Precedes(s, x, ix[a])
    ensures Within(s, [x] + ix) && Ordered(s, [x] + ix)
  {
  }

  lemma {:induction false} SortStable(s: seq<Sample>, ix: seq<nat>)
    requires Within(s, ix) && Increasing(ix)
    ensures Within(s, Sort<nat>(ix, IndexNewer(s))) && Ordered(s, Sort<nat>(ix, IndexNewer(s)))
  {
    if ix != [] {
      var t := Sort<nat>(ix[1..], IndexNewer(s));
      SortStable(s, ix[1..]);
      forall a | 0 <= a < |t| ensures ix[0] < t[a] {
        SameMembers(t, ix[1..], t[a]);
      }
      InsertStable(s, ix[0], t);
    }
  }

  /** A duplicate-free listing of the indices that satisfy `p` has as many entries as there are. */
  lemma {:induction false} CountListed(n: nat, p: nat -> bool, ix: seq<nat>)
    requires forall a, b :: 0 <= a < b < |ix| ==> ix[a] != ix[b]
    requires forall i: nat :: i in ix <==> i < n && p(i)
    ensures Count(n, p) == |ix|
  {
    if ix == [] {
      CountNone(n, p);
    } else {
      var m := |ix| - 1;
      var x := ix[m];
      var q := (i: nat) => p(i) && i != x;
      assert x in ix;
      forall i: nat ensures i in ix[..m] <==> i < n && q(i) {
        if i in ix && i != x {
          var a :| 0 <= a < |ix| && ix[a] == i;
          assert ix[..m][a] == i;
        }
      }
      CountListed(n, q, ix[..m]);
      CountOneMore(n, q, p, x);
    }
  }

  /** `ix` lists one series and minute from the most to the least preferred sample. */
  ghost predicate Listing(s: seq<Sample>, keys: seq<GroupKey>, k: GroupKey, ix: seq<nat>) {
    && Keyed(s, keys) && Within(s, ix) && Ordered(s, ix)
    && forall i: nat :: i in ix <==> i < |keys| && keys[i] == k
  }

  lemma SortedListing(s: seq<Sample>, keys: seq<GroupKey>, k: GroupKey)
    requires Keyed(s, keys)
    ensures Listing(s, keys, k, Sort<nat>(Indices(keys, |keys|, k), IndexNewer(s)))
  {
    var ix := Indices(keys, |keys|, k);
    SortStable(s, ix);
    forall i: nat ensures i in Sort<nat>(ix, IndexNewer(s)) <==> i < |keys| && keys[i] == k {
      SameMembers(Sort<nat>(ix, IndexNewer(s)), ix, i);
      IndicesComplete(keys, |keys|, k, i);
    }
  }

  /** The position in the sorted group is the rank. */
  lemma PositionIsRank(s: seq<Sample>, keys: seq<GroupKey>, k: GroupKey, ix: seq<nat>, p: nat)
    requires Listing(s, keys, k, ix) && p < |ix|
    ensures Rank(s, ix[p]) == p
  {
    assert ix[p] in ix;
    forall i: nat ensures i in ix[..p] <==> i < |s| && Beaters(s, ix[p])(i) {
      if i in ix {
        var a :| 0 <= a < |ix| && ix[a] == i;
        if a < p { assert ix[..p][a] == i; }
      }
    }
    CountListed(|s|, Beaters(s, ix[p]), ix[..p]);
  }

  function DroppedIn(s: seq<Sample>, keys: seq<GroupKey>, k: GroupKey, max: nat): nat -> bool {
    (i: nat) => i < |s| && i < |keys| && keys[i] == k && !Survives(s, i, max)
  }

  lemma TailDropped(s: seq<Sample>, keys: seq<GroupKey>, k: GroupKey, ix: seq<nat>, max: nat)
    requires Listing(s, keys, k, ix)
    ensures Count(|s|, DroppedIn(s, keys, k, max)) == if |ix| <= max then 0 else |ix| - max
  {
    forall p: nat | p < |ix| ensures Rank(s, ix[p]) == p { PositionIsRank(s, keys, k, ix, p); }
    var tail := if |ix| <= max then [] else ix[max..];
    forall i: nat ensures i in tail <==> i < |s| && DroppedIn(s, keys, k, max)(i) {
      if i in ix {
        var a :| 0 <= a < |ix| && ix[a] == i;
        if max <= a { assert tail[a - max] == i; }
      }
    }
    CountListed(|s|, DroppedIn(s, keys, k, max), tail);
  }

  /** Marks the first `max` entries and counts the others. */
  method MarkFirst(order: seq<nat>, max: nat, keep: array<bool>) returns (dropped: nat)
    requires forall a :: 0 <= a < |order| ==> order[a] < keep.Length
    modifies keep
    ensures dropped == if |order| <= max then 0 else |order| - max
    ensures forall i :: 0 <= i < keep.Length ==> keep[i] == (old(keep[i]) || i in order[..Min(max, |order|)])
  {
    dropped := 0;
    for j := 0 to |order|
      invariant dropped == if j <= max then 0 else j - max
      invariant forall i :: 0 <= i < keep.Length ==> keep[i] == (old(keep[i]) || i in order[..Min(max, j)])
    {
      if j < max {
        keep[order[j]] := true;
        assert order[..j + 1] == order[..j] + [order[j]];
      } else {
        dropped := dropped + 1;
      }
    }
  }

  lemma FirstSurvive(s: seq<Sample>, keys: seq<GroupKey>, k: GroupKey, ix: seq<nat>, max: nat, i: nat)
    requires Listing(s, keys, k, ix) && i < |s|
    ensures i in ix[..Min(max, |ix|)] <==> keys[i] == k && Survives(s, i, max)
  {
    if i in ix {
      var a :| 0 <= a < |ix| && ix[a] == i;
      PositionIsRank(s, keys, k, ix, a);
      if a < max { assert ix[..Min(max, |ix|)][a] == i; }
      if i in ix[..Min(max, |ix|)] {
        var b :| 0 <= b < Min(max, |ix|) && ix[b] == i;
      }
    }
  }

  /** Marks what survives of one group and counts the rest. */
  method KeepGroup(s: seq<Sample>, keys: seq<GroupKey>, k: GroupKey, ix: seq<nat>, max: nat, keep: array<bool>)
    returns (dropped: nat)
    requires Keyed(s, keys) && keep.Length == |s| && ix == Indices(keys, |keys|, k)
    modifies keep
    ensures forall i: nat :: i < |s| ==> keep[i] == (old(keep[i]) || (keys[i] == k && Survives(s, i, max)))
    ensures dropped == Count(|s|, DroppedIn(s, keys, k, max))
  {
    SortedListing(s, keys, k);
    var order := Sort<nat>(ix, IndexNewer(s));
    TailDropped(s, keys, k, order, max);
    forall i: nat | i < |s| ensures i in order[..Min(max, |order|)] <==> keys[i] == k && Survives(s, i, max) {
      FirstSurvive(s, keys, k, order, max, i);
    }
    if |ix| <= max {
      forall i: nat ensures i in ix[..Min(max, |ix|)] <==> i in order[..Min(max, |order|)] {
        assert ix[..|ix|] == ix && order[..|order|] == order;
        SameMembers(ix, order, i);
      }
      dropped := MarkFirst(ix, max, keep);
    } else {
      dropped := MarkFirst(order, max, keep);
    }
  }

  function KeyOf(x: Sample): GroupKey { GroupKey(SeriesKey(x), x.timestamp / MINUTE) }

  lemma KeysSeparate(s: seq<Sample>, keys: seq<GroupKey>)
    requires |keys| == |s| && forall i :: 0 <= i < |s| ==> keys[i] == KeyOf(s[i])
    ensures Keyed(s, keys)
  {
    forall i, j | 0 <= i < |s| && 0 <= j < |s| ensures keys[i] == keys[j] <==> SameGroup(s[i], s[j]) {
      SeriesKeyInjective(s[i], s[j]);
    }
  }

  lemma {:induction false} IndicesExtend<K>(keys: seq<K>, x: K, n: nat, k: K)
    requires n <= |keys|
    ensures Indices(keys + [x], n, k) == Indices(keys, n, k)
  {
    if n > 0 { IndicesExtend(keys, x, n - 1, k); }
  }

  lemma {:induction false} IndicesNone<K>(keys: seq<K>, n: nat, k: K)
    requires n <= |keys| && k !in keys
    ensures Indices(keys, n, k) == []
  {
    if n > 0 { IndicesNone(keys, n - 1, k); }
  }

  ghost predicate Grouped(keys: seq<GroupKey>, groups: map<GroupKey, seq<nat>>) {
    forall k :: if k in groups then groups[k] == Indices(keys, |keys|, k) else k !in keys
  }

  lemma GroupedStep(keys: seq<GroupKey>, groups: map<GroupKey, seq<nat>>, k: GroupKey)
    requires Grouped(keys, groups)
    ensures Grouped(keys + [k], groups[k := (if k in groups then groups[k] else []) + [|keys|]])
  {
    forall l ensures Indices(keys + [k], |keys|, l) == Indices(keys, |keys|, l) {
      IndicesExtend(keys, k, |keys|, l);
    }
    if k !in groups { IndicesNone(keys, |keys|, k); }
  }

  method BuildKey(x: Sample) returns (k: GroupKey)
    ensures k == KeyOf(x)
  {
    var series := BuildSeriesKey(x);
    k := GroupKey(series, x.timestamp / MINUTE);
  }

  method KeysOf(s: seq<Sample>) returns (keys: seq<GroupKey>)
    ensures Keyed(s, keys)
  {
    keys := [];
    for i := 0 to |s|
      invariant |keys| == i && forall j :: 0 <= j < i ==> keys[j] == KeyOf(s[j])
    {
      var k := BuildKey(s[i]);
      keys := keys + [k];
    }
    KeysSeparate(s, keys);
  }

  method GroupByKey(keys: seq<GroupKey>) returns (groups: map<GroupKey, seq<nat>>)
    ensures Grouped(keys, groups)
  {
    groups := map[];
    for i := 0 to |keys|
      invariant Grouped(keys[..i], groups)
    {
      var k := keys[i];
      GroupedStep(keys[..i], groups, k);
      assert keys[..i + 1] == keys[..i] + [k];
      groups := groups[k := (if k in groups then groups[k] else []) + [i]];
    }
    assert keys[..|keys|] == keys;
  }

  function DroppedOutside(s: seq<Sample>, keys: seq<GroupKey>, todo: set<GroupKey>, max: nat): nat -> bool {
    (i: nat) => i < |s| && i < |keys| && keys[i] !in todo && !Survives(s, i, max)
  }

  function Off(f: seq<bool>): nat -> bool { (i: nat) => i < |f| && !f[i] }

  lemma {:induction false} SelectLength<T>(s: seq<T>, f: seq<bool>)
    requires |s| == |f|
    ensures |Select(s, f)| == |s| - Count(|s|, Off(f))
  {
    if s != [] {
      var n := |s| - 1;
      SelectLength(s[..n], f[..n]);
      CountCong(n, Off(f[..n]), Off(f));
    }
  }

  /** Marks the survivors group by group, in any order of the groups. */
  method MarkSurvivors(s: seq<Sample>, max: nat) returns (keep: seq<bool>, capped: nat)
    ensures keep == Flags(s, max) && capped == Count(|s|, Off(keep))
  {
    var keys := KeysOf(s);
    var groups := GroupByKey(keys);
    var marks := new bool[|s|](_ => false);
    capped := 0;
    var todo := groups.Keys;
    CountNone(|s|, DroppedOutside(s, keys, todo, max));
    while todo != {}
      invariant todo <= groups.Keys
      invariant forall i: nat :: i < |s| ==> marks[i] == (keys[i] !in todo && Survives(s, i, max))
      invariant capped == Count(|s|, DroppedOutside(s, keys, todo, max))
    {
      var k :| k in todo;
      var dropped := KeepGroup(s, keys, k, groups[k], max, marks);
      CountSplit(|s|, DroppedOutside(s, keys, todo, max), DroppedIn(s, keys, k, max),
                 DroppedOutside(s, keys, todo - {k}, max));
      todo := todo - {k};
      capped := capped + dropped;
    }
    keep := marks[..];
    CountCong(|s|, DroppedOutside(s, keys, {}, max), Off(keep));
  }

  method Filter<T>(s: seq<T>, keep: seq<bool>) returns (kept: seq<T>)
    requires |s| == |keep|
    ensures kept == Select(s, keep)
  {
    kept := [];
    for i := 0 to |s|
      invariant kept == Select(s[..i], keep[..i])
    {
      SelectSnoc(s[..i], keep[..i], s[i], keep[i]);
      assert s[..i + 1] == s[..i] + [s[i]] && keep[..i + 1] == keep[..i] + [keep[i]];
      if keep[i] { kept := kept + [s[i]]; }
    }
    assert s[..|s|] == s && keep[..|s|] == keep;
  }

  /** The source's two-pass grouping keeps exactly the samples that fewer than the cap beat. */
  method CoalesceDPM(samples: seq<Sample>, maxDPM: int) returns (kept: seq<Sample>, capped: nat)
    ensures kept == Kept(samples, Cap(maxDPM))
    ensures capped == |samples| - |kept|
  {
    var keep;
    keep, capped := MarkSurvivors(samples, Cap(maxDPM));
    SelectLength(samples, keep);
    if capped == 0 {
      NoneOff(samples, keep);
      return samples, 0;
    }
    kept := Filter(samples, keep);
  }

  /** The cap in force: a configured value below one counts as one. */
  function Cap(maxDPM: int): nat { if maxDPM < 1 then 1 else maxDPM }

  /** The samples of one name, unit, label set and minute. */
  predicate Together(a: Sample, b: Sample) {
    a.name == b.name && a.unit == b.unit && a.labels == b.labels && a.timestamp / MINUTE == b.timestamp / MINUTE
  }

  /** A sample gives way to a later one, at the same time to a larger value, and then to an earlier place. */
  predicate GivesWay(s: seq<Sample>, i: nat, j: nat)
    requires i < |s| && j < |s|
  {
    Together(s[i], s[j]) &&
    (|| s[i].timestamp < s[j].timestamp
     || (s[i].timestamp == s[j].timestamp && s[i].value < s[j].value)
     || (s[i].timestamp == s[j].timestamp && s[i].value == s[j].value && j < i))
  }

  function Ahead(s: seq<Sample>, i: nat): nat -> bool
    requires i < |s|
  {
    (j: nat) => j < |s| && GivesWay(s, i, j)
  }

  /** A sample is kept if and only if it gives way to fewer than the configured number, which is at least one. */
  lemma KeptIff(s: seq<Sample>, i: nat, maxDPM: int)
    requires i < |s|
    ensures Flags(s, Cap(maxDPM))[i] <==> Count(|s|, Ahead(s, i)) < if maxDPM < 1 then 1 else maxDPM
  {
    forall j: nat | j < |s| ensures Ahead(s, i)(j) == Beaters(s, i)(j) {
      SameMinute(s[j], s[i]);
    }
    CountCong(|s|, Ahead(s, i), Beaters(s, i));
  }

  lemma SameMinute(a: Sample, b: Sample)
    ensures Together(a, b) <==> SameGroup(a, b)
  {
  }

  lemma NoneOff<T>(s: seq<T>, f: seq<bool>)
    requires |s| == |f| && Count(|f|, Off(f)) == 0
    ensures Select(s, f) == s
  {
    forall i: nat | i < |f| ensures f[i] {
      if !f[i] { CountBefore(|f|, i, Off(f)); }
    }
    SelectAll(s, f);
  }
}
