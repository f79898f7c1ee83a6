/** Order-preserving selection of the elements that carry a flag. */
module Selection {

  function Select<T>(s: seq<T>, keep: seq<bool>): (r: seq<T>)
    requires |s| == |keep|
  {
    if s == [] then []
    else
      var n := |s| - 1;
      Select(s[..n], keep[..n]) + if keep[n] then [s[n]] else []
  }

  function Negate(keep: seq<bool>): (r: seq<bool>)
    ensures |r| == |keep| && forall i :: 0 <= i < |r| ==> r[i] == !keep[i]
  {
    seq(|keep|, i requires 0 <= i < |keep| => !keep[i])
  }

  lemma SelectSnoc<T>(s: seq<T>, keep: seq<bool>, x: T, k: bool)
    requires |s| == |keep|
    ensures Select(s + [x], keep + [k]) == Select(s, keep) + if k then [x] else []
  {
    assert (s + [x])[..|s|] == s && (keep + [k])[..|s|] == keep;
  }

  /** The first `|keep|` elements are sorted into those kept and the number dropped. */
  predicate Sifted<T(==)>(s: seq<T>, keep: seq<bool>, kept: seq<T>, dropped: nat) {
    |keep| <= |s| && |kept| + dropped == |keep| && kept == Select(s[..|keep|], keep)
  }

  lemma SiftStep<T>(s: seq<T>, keep: seq<bool>, kept: seq<T>, dropped: nat, k: bool)
    requires Sifted(s, keep, kept, dropped) && |keep| < |s|
    ensures Sifted(s, keep + [k], if k then kept + [s[|keep|]] else kept, if k then dropped else dropped + 1)
  {
    var n := |keep|;
    assert s[..n + 1] == s[..n] + [s[n]];
    SelectSnoc(s[..n], keep, s[n], k);
  }

  lemma SiftEnd<T>(s: seq<T>, keep: seq<bool>, kept: seq<T>, dropped: nat)
    requires Sifted(s, keep, kept, dropped) && |keep| == |s|
    ensures kept == Select(s, keep) && |kept| + dropped == |s|
  {
    assert s[..|s|] == s;
  }

  /** What is selected and what is left make up the whole, element by element. */
  lemma {:induction false} SelectPartition<T>(s: seq<T>, keep: seq<bool>)
    requires |s| == |keep|
    ensures multiset(Select(s, keep)) + multiset(Select(s, Negate(keep))) == multiset(s)
    ensures |Select(s, keep)| + |Select(s, Negate(keep))| == |s|
  {
    if s != [] {
      var n := |s| - 1;
      SelectPartition(s[..n], keep[..n]);
      assert s == s[..n] + [s[n]];
      assert Negate(keep)[..n] == Negate(keep[..n]);
    }
  }

  lemma {:induction false} SelectMember<T>(s: seq<T>, keep: seq<bool>, x: T) returns (i: nat)
    requires |s| == |keep| && x in Select(s, keep)
    ensures i < |s| && keep[i] && s[i] == x
  {
    var n := |s| - 1;
    if keep[n] && s[n] == x {
      i := n;
    } else {
      i := SelectMember(s[..n], keep[..n], x);
    }
  }
}
