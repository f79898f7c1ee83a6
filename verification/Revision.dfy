/** The bounded record of settled buckets that detects late changes
    (internal/source/portkey/revision.go), against an unbounded one. */
module Revision {
  import opened Model
  import opened Keys
  import opened Selection

  type Key = Sample -> string

  /** Keys name one bucket each, so they determine the bucket's end. */
  ghost predicate Stamps(key: Key) {
    forall a: Sample, b: Sample {:trigger key(a), key(b)} :: key(a) == key(b) ==> a.timestamp == b.timestamp
  }

  /** The unbounded record: the last sample observed under `k`. */
  function Last(key: Key, all: seq<Sample>, k: string): (r: Option<Sample>)
    ensures r.Some? ==> r.value in all && key(r.value) == k
    ensures r.None? ==> forall x :: x in all ==> key(x) != k
  {
    if all == [] then None
    else if key(all[|all| - 1]) == k then Some(all[|all| - 1])
    else Last(key, all[..|all| - 1], k)
  }

  predicate InBand(cut: Option<int>, t: int) { cut.None? || t >= cut.value }

  /** What is remembered of `k` after the earlier polls `past`, cut off at `cut`, and the part `recent`
      of this poll. */
  function Remembered(key: Key, past: seq<Sample>, cut: Option<int>, recent: seq<Sample>, k: string): Option<Sample> {
    var r := Last(key, recent, k);
    var p := Last(key, past, k);
    if r.Some? then r else if p.Some? && InBand(cut, p.value.timestamp) then p else None
  }

  /** The reference: a remembered bucket whose value changed. */
  predicate Revises(key: Key, past: seq<Sample>, cut: Option<int>, recent: seq<Sample>, s: Sample) {
    var m := Remembered(key, past, cut, recent, key(s));
    m.Some? && m.value.value != s.value
  }

  function Reports(key: Key, past: seq<Sample>, cut: Option<int>, samples: seq<Sample>): seq<int> {
    if samples == [] then []
    else
      var n := |samples| - 1;
      Reports(key, past, cut, samples[..n])
      + if Revises(key, past, cut, samples[..n], samples[n]) then [samples[n].timestamp] else []
  }

  lemma LastSnoc(key: Key, all: seq<Sample>, s: Sample, k: string)
    ensures Last(key, all + [s], k) == if key(s) == k then Some(s) else Last(key, all, k)
  {
    assert (all + [s])[..|all|] == all;
  }

  lemma {:induction false} LastConcat(key: Key, a: seq<Sample>, b: seq<Sample>, k: string)
    ensures Last(key, a + b, k) == var r := Last(key, b, k); if r.Some? then r else Last(key, a, k)
  {
    if b == [] {
      assert a + b == a;
    } else {
      var n := |b| - 1;
      assert a + b == (a + b[..n]) + [b[n]];
      LastConcat(key, a, b[..n], k);
      LastSnoc(key, a + b[..n], b[n], k);
    }
  }

  /** With rising cutoffs, cutting the remembered entries again is cutting the unbounded record once. */
  lemma CutAgain(key: Key, past: seq<Sample>, cut: Option<int>, samples: seq<Sample>, next: int, k: string)
    requires Stamps(key) && (cut.Some? ==> cut.value <= next)
    ensures var m := Remembered(key, past, cut, samples, k);
            var l := Last(key, past + samples, k);
            (m.Some? && m.value.timestamp >= next <==> l.Some? && l.value.timestamp >= next)
            && (m.Some? && m.value.timestamp >= next ==> m == l)
  {
    LastConcat(key, past, samples, k);
  }

  /** The maps agree with what is remembered of `k`. */
  ghost predicate Agrees(seen: map<string, int>, when: map<string, int>, k: string, m: Option<Sample>) {
    if m.Some? then k in seen && k in when && seen[k] == m.value.value && when[k] == m.value.timestamp
    else k !in seen && k !in when
  }

  ghost predicate Holds(key: Key, past: seq<Sample>, cut: Option<int>, recent: seq<Sample>,
                        seen: map<string, int>, when: map<string, int>)
  {
    forall k :: Agrees(seen, when, k, Remembered(key, past, cut, recent, k))
  }

  lemma RecordHolds(key: Key, past: seq<Sample>, cut: Option<int>, recent: seq<Sample>,
                    seen: map<string, int>, when: map<string, int>, s: Sample)
    requires Holds(key, past, cut, recent, seen, when)
    ensures Holds(key, past, cut, recent + [s], seen[key(s) := s.value], when[key(s) := s.timestamp])
  {
    forall k ensures Agrees(seen[key(s) := s.value], when[key(s) := s.timestamp], k,
                            Remembered(key, past, cut, recent + [s], k))
    {
      assert Agrees(seen, when, k, Remembered(key, past, cut, recent, k));
      LastSnoc(key, recent, s, k);
    }
  }

  /** `seen'` and `when'` are what an eviction at `floor` leaves of `seen` and `when`. */
  ghost predicate Evicted(seen: map<string, int>, when: map<string, int>, floor: int,
                          seen': map<string, int>, when': map<string, int>)
  {
    && (forall k :: (k in when' <==> k in when && when[k] >= floor) && (k in seen' <==> k in when'))
    && (forall k :: k in when' && k in when && k in seen && k in seen' ==> when'[k] == when[k] && seen'[k] == seen[k])
  }

  lemma EvictedHolds(key: Key, past: seq<Sample>, cut: Option<int>, samples: seq<Sample>, floor: int,
                     seen: map<string, int>, when: map<string, int>, seen': map<string, int>, when': map<string, int>)
    requires Stamps(key) && (cut.Some? ==> cut.value <= floor)
    requires Holds(key, past, cut, samples, seen, when) && Evicted(seen, when, floor, seen', when')
    ensures Holds(key, past + samples, Some(floor), [], seen', when')
  {
    forall k ensures Agrees(seen', when', k, Remembered(key, past + samples, Some(floor), [], k)) {
      assert Agrees(seen, when, k, Remembered(key, past, cut, samples, k));
      CutAgain(key, past, cut, samples, floor, k);
    }
  }

  class History {
    const band: int
    const key: Key
    var seen: map<string, int>
    var when: map<string, int>
    /** Every sample observed so far, and the latest eviction cutoff. */
    ghost var past: seq<Sample>
    ghost var cut: Option<int>

    /** Both maps hold what the unbounded record has inside the band, and nothing else. */
    ghost predicate Valid() reads this { Faithful(key) && Holds(key, past, cut, [], seen, when) }

    constructor (band: int)
      ensures Valid() && past == [] && cut == None && this.band == band && forall s :: key(s) == RevisionKey(s)
    {
      this.band := band;
      this.key := s => RevisionKey(s);
      seen, when, past, cut := map[], map[], [], None;
      new;
      forall a: Sample, b: Sample ensures key(a) == key(b) <==> SameBucket(a, b) { RevisionKeyInjective(a, b); }
    }

    /** Drops every entry that ended before `floor`. */
    method Evict(floor: int)
      requires seen.Keys == when.Keys
      modifies `seen, `when
      ensures Evicted(old(seen), old(when), floor, seen, when)
    {
      var todo := when.Keys;
      while todo != {}
        invariant todo <= when.Keys <= old(when).Keys && seen.Keys == when.Keys
        invariant forall k :: k in old(when) ==> (k in when <==> k in todo || old(when)[k] >= floor)
        invariant forall k :: k in when ==> when[k] == old(when)[k] && seen[k] == old(seen)[k]
      {
        var k :| k in todo;
        if when[k] < floor { when, seen := when - {k}, seen - {k}; }
        todo := todo - {k};
      }
    }

    method Record(s: Sample, ghost recent: seq<Sample>) returns (revised: bool)
      requires Holds(key, past, cut, recent, seen, when)
      modifies `seen, `when
      ensures Holds(key, past, cut, recent + [s], seen, when) && revised == Revises(key, past, cut, recent, s)
    {
      var k := key(s);
      assert Agrees(seen, when, k, Remembered(key, past, cut, recent, k));
      RecordHolds(key, past, cut, recent, seen, when, s);
      revised := k in seen && seen[k] != s.value;
      seen, when := seen[k := s.value], when[k := s.timestamp];
    }

    method RecordAll(samples: seq<Sample>) returns (revised: seq<int>)
      requires Holds(key, past, cut, [], seen, when)
      modifies `seen, `when
      ensures Holds(key, past, cut, samples, seen, when) && seen.Keys == when.Keys
      ensures revised == Reports(key, past, cut, samples)
    {
      revised := [];
      for i := 0 to |samples|
        invariant Holds(key, past, cut, samples[..i], seen, when)
        invariant revised == Reports(key, past, cut, samples[..i])
      {
        assert samples[..i + 1] == samples[..i] + [samples[i]] && samples[..i + 1][..i] == samples[..i];
        var r := Record(samples[i], samples[..i]);
        if r { revised := revised + [samples[i].timestamp]; }
      }
      assert samples[..|samples|] == samples;
      SameDomain(key, past, cut, samples, seen, when);
    }

    /** One poll: reports exactly the revisions of the reference, whatever was evicted before. */
    method Observe(samples: seq<Sample>, now: int) returns (revised: seq<int>)
      requires Valid() && (cut.Some? ==> cut.value <= now - band)
      modifies this
      ensures Valid() && past == old(past) + samples && cut == Some(now - band)
      ensures revised == Reports(key, old(past), old(cut), samples)
      ensures seen.Keys == when.Keys && forall k :: k in when ==> when[k] >= now - band
    {
      revised := RecordAll(samples);
      ghost var seen0, when0 := seen, when;
      Evict(now - band);
      EvictedHolds(key, past, cut, samples, now - band, seen0, when0, seen, when);
      past, cut := past + samples, Some(now - band);
    }
  }

  lemma SameDomain(key: Key, past: seq<Sample>, cut: Option<int>, recent: seq<Sample>,
                   seen: map<string, int>, when: map<string, int>)
    requires Holds(key, past, cut, recent, seen, when)
    ensures seen.Keys == when.Keys
  {
    forall k ensures k in seen <==> k in when { assert Agrees(seen, when, k, Remembered(key, past, cut, recent, k)); }
  }

  // ----- the reference in terms of buckets -----

  predicate SameBucket(a: Sample, b: Sample) { SameSeries(a, b) && a.timestamp == b.timestamp }

  /** Sample `j` is the previous observation of the bucket of sample `i`. */
  predicate Previous(all: seq<Sample>, j: nat, i: nat) {
    j < i < |all| && SameBucket(all[j], all[i]) && forall m :: j < m < i ==> !SameBucket(all[m], all[i])
  }

  ghost predicate Faithful(key: Key) {
    forall a: Sample, b: Sample {:trigger key(a), key(b)} :: key(a) == key(b) <==> SameBucket(a, b)
  }

  lemma {:induction false} LastIndex(key: Key, all: seq<Sample>, s: Sample) returns (j: nat)
    requires Faithful(key) && Last(key, all, key(s)).Some?
    ensures j < |all| && Some(all[j]) == Last(key, all, key(s)) && SameBucket(all[j], s)
    ensures forall m :: j < m < |all| ==> !SameBucket(all[m], s)
  {
    var n := |all| - 1;
    assert key(all[n]) == key(s) <==> SameBucket(all[n], s);
    if key(all[n]) == key(s) { j := n; } else { j := LastIndex(key, all[..n], s); }
  }

  /** A sample is reported exactly when the bucket's previous observation had another value and was not
      lost: it came in this poll, or its bucket is not older than the last eviction cutoff. */
  lemma RevisesIff(key: Key, past: seq<Sample>, cut: Option<int>, recent: seq<Sample>, s: Sample)
    requires Faithful(key)
    ensures var all := past + recent + [s];
            var i := |past| + |recent|;
            Revises(key, past, cut, recent, s) <==>
            exists j: nat :: Previous(all, j, i) && all[j].value != s.value && (j >= |past| || InBand(cut, s.timestamp))
  {
    var all, i := past + recent + [s], |past| + |recent|;
    assert all[i] == s && all[..i] == past + recent;
    LastConcat(key, past, recent, key(s));
    var l := Last(key, past + recent, key(s));
    if l.Some? {
      var j := LastIndex(key, past + recent, s);
      assert Previous(all, j, i);
      LastPlace(key, past, recent, s, j);
    } else {
      forall j: nat | j < i ensures !SameBucket(all[j], s) {
        assert all[j] in past + recent;
        assert key(all[j]) != key(s);
      }
    }
  }

  /** The previous observation lies in this poll exactly when the poll has one. */
  lemma LastPlace(key: Key, past: seq<Sample>, recent: seq<Sample>, s: Sample, j: nat)
    requires Faithful(key) && j < |past + recent| && SameBucket((past + recent)[j], s)
    requires forall m :: j < m < |past + recent| ==> !SameBucket((past + recent)[m], s)
    ensures Last(key, recent, key(s)).Some? <==> j >= |past|
  {
    assert key((past + recent)[j]) == key(s);
    if j >= |past| { assert (past + recent)[j] in recent; }
    if Last(key, recent, key(s)).Some? {
      var x := Last(key, recent, key(s)).value;
      var m :| 0 <= m < |recent| && recent[m] == x;
      assert (past + recent)[|past| + m] == x;
      assert key(x) == key(s);
    }
  }

  /** The previous observation of sample `i` of the poll had another value and was not lost. */
  ghost predicate Changed(past: seq<Sample>, cut: Option<int>, samples: seq<Sample>, i: nat)
    requires i < |samples|
  {
    exists j: nat {:trigger ChangedFrom(past, cut, samples, i, j)} :: ChangedFrom(past, cut, samples, i, j)
  }

  predicate ChangedFrom(past: seq<Sample>, cut: Option<int>, samples: seq<Sample>, i: nat, j: nat)
    requires i < |samples|
  {
    var all := past + samples;
    Previous(all, j, |past| + i) && all[j].value != samples[i].value
    && (j >= |past| || InBand(cut, samples[i].timestamp))
  }

  lemma ChangedIff(key: Key, past: seq<Sample>, cut: Option<int>, samples: seq<Sample>, i: nat)
    requires Faithful(key) && i < |samples|
    ensures Revises(key, past, cut, samples[..i], samples[i]) <==> Changed(past, cut, samples, i)
  {
    var all, some := past + samples, past + samples[..i] + [samples[i]];
    assert forall m :: 0 <= m <= |past| + i ==> some[m] == all[m];
    RevisesIff(key, past, cut, samples[..i], samples[i]);
    if Changed(past, cut, samples, i) {
      var j: nat :| ChangedFrom(past, cut, samples, i, j);
      SamePrevious(all, some, j, |past| + i);
      assert Previous(some, j, |past| + i) && some[j].value != samples[i].value;
    }
    if Revises(key, past, cut, samples[..i], samples[i]) {
      var j: nat :| Previous(some, j, |past| + i) && some[j].value != samples[i].value
                    && (j >= |past| || InBand(cut, samples[i].timestamp));
      SamePrevious(some, all, j, |past| + i);
      assert ChangedFrom(past, cut, samples, i, j);
    }
  }

  lemma SamePrevious(a: seq<Sample>, b: seq<Sample>, j: nat, i: nat)
    requires Previous(a, j, i) && i < |b| && forall m :: 0 <= m <= i ==> b[m] == a[m]
    ensures Previous(b, j, i)
  {
  }

  /** One poll reports, in order, the times of exactly the samples whose previous observation had another
      value and was not lost. */
  lemma {:induction false} ReportsIff(key: Key, past: seq<Sample>, cut: Option<int>, samples: seq<Sample>,
                                      flags: seq<bool>)
    requires Faithful(key) && |flags| == |samples|
    requires forall i :: 0 <= i < |flags| ==> (flags[i] <==> Changed(past, cut, samples, i))
    ensures Reports(key, past, cut, samples) == StampsOf(Select(samples, flags))
  {
    if samples != [] {
      var n := |samples| - 1;
      forall i | 0 <= i < n ensures flags[..n][i] <==> Changed(past, cut, samples[..n], i) {
        ChangedIff(key, past, cut, samples, i);
        ChangedIff(key, past, cut, samples[..n], i);
        assert samples[..n][..i] == samples[..i];
      }
      ReportsIff(key, past, cut, samples[..n], flags[..n]);
      ChangedIff(key, past, cut, samples, n);
    }
  }

  function StampsOf(s: seq<Sample>): (t: seq<int>)
    ensures |t| == |s| && forall i :: 0 <= i < |t| ==> t[i] == s[i].timestamp
  {
    seq(|s|, i requires 0 <= i < |s| => s[i].timestamp)
  }
}
