/** One sub-batch per timestamp, ascending (`splitByBucket` in internal/schedule/runner.go). */
module Buckets {
  import opened Model
  import opened Sorting
  import opened Grouping

  function Stamp(): Sample -> int { (x: Sample) => x.timestamp }

  /** The samples stamped `t`, in input order. */
  function Stamped(s: seq<Sample>, t: int): seq<Sample> { Where(s, Stamp(), t) }

  predicate Rising(ts: seq<int>) { forall i, j :: 0 <= i < j < |ts| ==> ts[i] < ts[j] }

  /** `bs` is the partition of `s` by timestamp, in rising order, without empty buckets. */
  ghost predicate IsSplit(s: seq<Sample>, bs: seq<seq<Sample>>) {
    && (forall i :: 0 <= i < |bs| ==> bs[i] != [])
    && (forall i :: 0 <= i < |bs| ==> bs[i] == Stamped(s, bs[i][0].timestamp))
    && (forall i, j :: 0 <= i < j < |bs| ==> bs[i][0].timestamp < bs[j][0].timestamp)
    && multiset(Flat(bs)) == multiset(s)
  }

  lemma RisingSplit(s: seq<Sample>, ts: seq<int>, bs: seq<seq<Sample>>)
    requires Rising(ts) && |bs| == |ts| && forall i :: 0 <= i < |ts| ==> bs[i] == Stamped(s, ts[i])
    requires forall t :: t in ts <==> Stamped(s, t) != []
    ensures IsSplit(s, bs)
  {
    forall i | 0 <= i < |bs| ensures bs[i] != [] && bs[i][0].timestamp == ts[i] {
      assert ts[i] in ts;
      WhereMember(s, Stamp(), ts[i], bs[i][0]);
    }
    forall x | x in s ensures Stamp()(x) in ts {
      WhereMember(s, Stamp(), x.timestamp, x);
    }
    SplitPartitions(s, Stamp(), ts, bs);
  }

  lemma SortedRising(ts: seq<int>, ks: set<int>)
    requires multiset(ts) == multiset(ks)
    ensures Rising(Sort(ts, IntLess())) && forall t :: t in Sort(ts, IntLess()) <==> t in ks
  {
    SortSorted(ts, IntLess());
    OnceEach(Sort(ts, IntLess()), ks);
  }

  lemma OnceEach(r: seq<int>, ks: set<int>)
    requires multiset(r) == multiset(ks) && Sorted(r, IntLess())
    ensures Rising(r) && forall t :: t in r <==> t in ks
  {
    forall t ensures t in r <==> t in ks {
      assert t in r <==> t in multiset(r);
      assert t in ks <==> t in multiset(ks);
    }
    forall i, j | 0 <= i < j < |r| ensures r[i] < r[j] {
      assert !IntLess()(r[j], r[i]);
      if r[i] == r[j] { TwoCopies(r, i, j); }
    }
  }

  lemma TwoCopies(r: seq<int>, i: nat, j: nat)
    requires i < j < |r| && r[i] == r[j]
    ensures multiset(r)[r[i]] >= 2
  {
    assert r == r[..j] + r[j..];
    assert r[i] in r[..j] && r[j] in r[j..];
    assert r[i] in multiset(r[..j]) && r[j] in multiset(r[j..]);
  }

  method SplitByBucket(s: seq<Sample>) returns (bs: seq<seq<Sample>>)
    ensures IsSplit(s, bs)
  {
    var groups := GroupBy(s, Stamp());
    var keys := KeysOf(groups);
    SortedRising(keys, groups.Keys);
    var ts := Sort(keys, IntLess());
    bs := [];
    for i := 0 to |ts|
      invariant |bs| == i && forall j :: 0 <= j < i ==> bs[j] == Stamped(s, ts[j])
    {
      assert ts[i] in ts;
      bs := bs + [groups[ts[i]]];
    }
    RisingSplit(s, ts, bs);
  }
}
