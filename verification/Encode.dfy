/** The metrics message (`Encode` in internal/emit/otlp/encode.go): ordering, grouping and rejection.
    The message stands for its bytes; its serialisation is a function of it. */
module Encode {
  import opened Model
  import opened Keys
  import opened Sorting
  import opened Counting
  import opened Orders

  datatype Point = Point(attrs: Pairs, time: int, value: int)

  datatype Metric = Metric(name: string, unit: string, points: seq<Point>)

  datatype Message = Message(resource: Pairs, metrics: seq<Metric>)

  /** What the message shows of a sample. */
  datatype Row = Row(name: string, unit: string, labels: Labels, time: int, value: int)

  function RowOf(): Sample -> Row { (s: Sample) => Row(s.name, s.unit, s.labels, s.timestamp, s.value) }

  type SortKey = ((string, string), (string, int))

  function KeyLess(): (SortKey, SortKey) -> bool { Lex(Lex(StrLess, StrLess), Lex(StrLess, IntLess())) }

  function SampleKey(): Sample -> SortKey { (s: Sample) => ((s.name, s.unit), (LabelKey(s.labels), s.timestamp)) }

  function RowKey(): Row -> SortKey { (r: Row) => ((r.name, r.unit), (LabelKey(r.labels), r.time)) }

  lemma KeyOrder()
    ensures TotalOrder(KeyLess()) && TotalOrder(Lex(StrLess, StrLess))
  {
    StrTotalOrder();
    IntTotalOrder();
    LexTotal(StrLess, StrLess);
    LexTotal(StrLess, IntLess());
    LexTotal(Lex(StrLess, StrLess), Lex(StrLess, IntLess()));
  }

  function Ordered(samples: seq<Sample>): seq<Sample> { Sort(samples, ByKey(SampleKey(), KeyLess())) }

  predicate Encodable(s: Sample) { !s.temporality.Delta? && s.kind.Gauge? }

  /** A data point with the metric it stands in. */
  datatype Shown = Shown(name: string, unit: string, point: Point)

  function Show(): Row -> Shown { (r: Row) => Shown(r.name, r.unit, Point(SortedPairs(r.labels), r.time, r.value)) }

  /** Appends a point to the last metric when it continues its name and unit, and opens a metric otherwise. */
  function Append(ms: seq<Metric>, x: Shown): seq<Metric> {
    if ms != [] && ms[|ms| - 1].name == x.name && ms[|ms| - 1].unit == x.unit then
      var m := ms[|ms| - 1];
      ms[..|ms| - 1] + [m.(points := m.points + [x.point])]
    else ms + [Metric(x.name, x.unit, [x.point])]
  }

  function Group(xs: seq<Shown>): seq<Metric> {
    if xs == [] then [] else Append(Group(xs[..|xs| - 1]), xs[|xs| - 1])
  }

  function Rows(samples: seq<Sample>): seq<Row> { Map(samples, RowOf()) }

  function SortedRows(rows: seq<Row>): seq<Row> { Sort(rows, ByKey(RowKey(), KeyLess())) }

  predicate Rejects(samples: seq<Sample>) { exists s :: s in samples && !Encodable(s) }

  /** `None` is the encoding error. */
  function Encoded(identity: Labels, samples: seq<Sample>): Option<Message> {
    if Rejects(samples) then None
    else Some(Message(SortedPairs(identity), Group(Map(SortedRows(Rows(samples)), Show()))))
  }

  // ----- canonical -----

  /** No two samples share name, unit, labels and timestamp unless they show the same value. */
  ghost predicate Unambiguous(samples: seq<Sample>) {
    forall s, t :: s in samples && t in samples && SameSeries(s, t) && s.timestamp == t.timestamp ==> s.value == t.value
  }

  lemma {:induction false} RowMember(samples: seq<Sample>, r: Row) returns (s: Sample)
    requires r in Rows(samples)
    ensures s in samples && RowOf()(s) == r
  {
    var i :| 0 <= i < |samples| && Rows(samples)[i] == r;
    s := samples[i];
  }

  lemma RowKeyInjective(x: Row, y: Row)
    requires RowKey()(x) == RowKey()(y)
    ensures x == y.(value := x.value)
  {
    LabelKeyInjective(x.labels, y.labels);
  }

  lemma Decided(samples: seq<Sample>, x: Row, y: Row)
    requires Unambiguous(samples) && x in Rows(samples) && y in Rows(samples) && x == y.(value := x.value)
    ensures x == y
  {
    var s := RowMember(samples, x);
    var t := RowMember(samples, y);
    assert SameSeries(s, t) && s.timestamp == t.timestamp;
  }

  lemma RowsDecided(samples: seq<Sample>)
    requires Unambiguous(samples)
    ensures KeyDecides(Rows(samples), RowKey())
  {
    forall x, y | x in Rows(samples) && y in Rows(samples) && RowKey()(x) == RowKey()(y) ensures x == y {
      RowKeyInjective(x, y);
      Decided(samples, x, y);
    }
  }

  lemma SortedRowsCanonical(a: seq<Sample>, b: seq<Sample>)
    requires multiset(a) == multiset(b) && Unambiguous(a)
    ensures SortedRows(Rows(a)) == SortedRows(Rows(b))
  {
    KeyOrder();
    MapPermutes(a, b, RowOf());
    RowsDecided(a);
    SortByKeyCanonical(Rows(a), Rows(b), RowKey(), KeyLess());
  }

  /** The message does not depend on the order of the samples. */
  lemma Canonical(identity: Labels, a: seq<Sample>, b: seq<Sample>)
    requires multiset(a) == multiset(b) && Unambiguous(a)
    ensures Encoded(identity, a) == Encoded(identity, b)
  {
    forall s ensures s in a <==> s in b { SameMembers(a, b, s); }
    SortedRowsCanonical(a, b);
  }

  /** Sorting the samples and then showing them is showing them and then sorting. */
  lemma ShowSorted(samples: seq<Sample>)
    ensures Rows(Ordered(samples)) == SortedRows(Rows(samples))
  {
    var la, lb := ByKey(SampleKey(), KeyLess()), ByKey(RowKey(), KeyLess());
    forall s: Sample, t: Sample ensures la(s, t) == lb(RowOf()(s), RowOf()(t)) {
      assert SampleKey()(s) == RowKey()(RowOf()(s)) && SampleKey()(t) == RowKey()(RowOf()(t));
    }
    SortMap(samples, RowOf(), la, lb);
  }

  // ----- one metric per name and unit, and nothing lost -----

  function Points(m: Metric): seq<Shown> { Map(m.points, (p: Point) => Shown(m.name, m.unit, p)) }

  function Flat(ms: seq<Metric>): seq<Shown> {
    if ms == [] then [] else Flat(ms[..|ms| - 1]) + Points(ms[|ms| - 1])
  }

  lemma FlatAppend(ms: seq<Metric>, x: Shown)
    ensures Flat(Append(ms, x)) == Flat(ms) + [x]
  {
    var t := Append(ms, x);
    var n := |t| - 1;
    if |t| == |ms| {
      assert t[..n] == ms[..n];
      assert Points(t[n]) == Points(ms[n]) + [x];
    } else {
      assert t[..n] == ms;
      assert Points(t[n]) == [x];
    }
  }

  /** Reading the metrics back yields the points, in order. */
  lemma {:induction false} FlatGroup(xs: seq<Shown>)
    ensures Flat(Group(xs)) == xs
  {
    if xs != [] {
      var n := |xs| - 1;
      var before := Group(xs[..n]);
      FlatGroup(xs[..n]);
      FlatAppend(before, xs[n]);
      assert Group(xs) == Append(before, xs[n]);
      assert xs == xs[..n] + [xs[n]];
    }
  }

  function NameLess(): ((string, string), (string, string)) -> bool { Lex(StrLess, StrLess) }

  ghost predicate Rising(ms: seq<Metric>) {
    forall i, j :: 0 <= i < j < |ms| ==> NameLess()((ms[i].name, ms[i].unit), (ms[j].name, ms[j].unit))
  }

  predicate Follows(a: (string, string), b: (string, string)) { a == b || NameLess()(a, b) }

  ghost predicate NamesFollow(xs: seq<Shown>) {
    forall i :: 0 <= i < |xs| - 1 ==> Follows((xs[i].name, xs[i].unit), (xs[i + 1].name, xs[i + 1].unit))
  }

  lemma {:induction false} GroupRises(xs: seq<Shown>)
    requires NamesFollow(xs)
    ensures Rising(Group(xs))
    ensures xs != [] ==> Group(xs) != [] && var m := Group(xs)[|Group(xs)| - 1];
                         m.name == xs[|xs| - 1].name && m.unit == xs[|xs| - 1].unit
  {
    if xs != [] {
      var n := |xs| - 1;
      GroupRises(xs[..n]);
      RisesOn(Group(xs[..n]), xs[n]);
    }
  }

  lemma RisesOn(ms: seq<Metric>, x: Shown)
    requires Rising(ms)
    requires ms != [] ==> Follows((ms[|ms| - 1].name, ms[|ms| - 1].unit), (x.name, x.unit))
    ensures Rising(Append(ms, x))
  {
    KeyOrder();
    var t := Append(ms, x);
    if |t| > |ms| {
      forall i | 0 <= i < |ms| ensures NameLess()((ms[i].name, ms[i].unit), (x.name, x.unit)) {
        if i < |ms| - 1 {
          var m := ms[|ms| - 1];
          assert NameLess()((ms[i].name, ms[i].unit), (m.name, m.unit));
        }
      }
    }
  }

  lemma RowFollows(a: Row, b: Row)
    requires !ByKey(RowKey(), KeyLess())(b, a)
    ensures Follows((a.name, a.unit), (b.name, b.unit))
  {
    KeyOrder();
    var x, y := (a.name, a.unit), (b.name, b.unit);
    assert NameLess()(x, y) || x == y || NameLess()(y, x);
  }

  lemma SortedFollow(samples: seq<Sample>)
    ensures NamesFollow(Map(SortedRows(Rows(samples)), Show()))
  {
    var rows := SortedRows(Rows(samples));
    KeyOrder();
    ByKeyWeak(RowKey(), KeyLess());
    SortSorted(Rows(samples), ByKey(RowKey(), KeyLess()));
    forall i | 0 <= i < |rows| - 1 ensures Follows((rows[i].name, rows[i].unit), (rows[i + 1].name, rows[i + 1].unit)) {
      RowFollows(rows[i], rows[i + 1]);
    }
  }

  lemma GroupFaithful(samples: seq<Sample>)
    ensures var ms := Group(Map(SortedRows(Rows(samples)), Show()));
            Rising(ms) && multiset(Flat(ms)) == multiset(Map(Rows(samples), Show()))
  {
    var rows := SortedRows(Rows(samples));
    SortedFollow(samples);
    GroupRises(Map(rows, Show()));
    FlatGroup(Map(rows, Show()));
    MapPermutes(rows, Rows(samples), Show());
  }

  /** Of samples that can be encoded, every name and unit has exactly one metric, in rising order, and the
      points are those of the samples: none is lost, added or changed. */
  lemma Faithful(identity: Labels, samples: seq<Sample>, xs: seq<Shown>)
    requires !Rejects(samples) && |xs| == |samples| && forall i :: 0 <= i < |xs| ==> Carries(xs[i], samples[i])
    ensures Encoded(identity, samples).value.resource == SortedPairs(identity)
    ensures var ms := Encoded(identity, samples).value.metrics; Rising(ms) && multiset(Flat(ms)) == multiset(xs)
  {
    GroupFaithful(samples);
    RowsCarry(samples, xs);
  }

  lemma RowsCarry(samples: seq<Sample>, xs: seq<Shown>)
    requires |xs| == |samples| && forall i :: 0 <= i < |xs| ==> Carries(xs[i], samples[i])
    ensures xs == Map(Rows(samples), Show())
  {
    forall i | 0 <= i < |xs| ensures xs[i] == Map(Rows(samples), Show())[i] { assert Carries(xs[i], samples[i]); }
  }

  /** The point stands under the sample's name and unit, with its labels, time and value. */
  predicate Carries(x: Shown, s: Sample) {
    && x.name == s.name && x.unit == s.unit && x.point.attrs == SortedPairs(s.labels)
    && x.point.time == s.timestamp && x.point.value == s.value
  }

  lemma LaterRow(a: Row, b: Row)
    requires !ByKey(RowKey(), KeyLess())(b, a) && a.name == b.name && a.unit == b.unit && a.labels == b.labels
    ensures a.time <= b.time
  {
    assert !KeyLess()(RowKey()(b), RowKey()(a));
    assert RowKey()(a).0 == RowKey()(b).0;
    assert !Lex(StrLess, IntLess())(RowKey()(b).1, RowKey()(a).1);
  }

  /** The points of one series follow each other in time. */
  lemma SeriesInTime(identity: Labels, samples: seq<Sample>, i: nat, j: nat)
    requires !Rejects(samples) && i < j < |Flat(Encoded(identity, samples).value.metrics)|
    requires var xs := Flat(Encoded(identity, samples).value.metrics);
             xs[i].name == xs[j].name && xs[i].unit == xs[j].unit && xs[i].point.attrs == xs[j].point.attrs
    ensures var xs := Flat(Encoded(identity, samples).value.metrics); xs[i].point.time <= xs[j].point.time
  {
    var rows := SortedRows(Rows(samples));
    KeyOrder();
    ByKeyWeak(RowKey(), KeyLess());
    SortSorted(Rows(samples), ByKey(RowKey(), KeyLess()));
    FlatGroup(Map(rows, Show()));
    SortedPairsInjective(rows[i].labels, rows[j].labels);
    LaterRow(rows[i], rows[j]);
  }

  lemma ShowInjective(a: Row, b: Row)
    requires Show()(a) == Show()(b)
    ensures a == b
  {
    SortedPairsInjective(a.labels, b.labels);
  }

  /** The condition of `Canonical` is needed: two samples of one series and instant with different values
      encode differently when they change places. */
  lemma OrderShows(identity: Labels, a: seq<Sample>, i: nat, j: nat)
    requires i < j < |a| && SameSeries(a[i], a[j]) && a[i].timestamp == a[j].timestamp && a[i].value != a[j].value
    requires !Rejects(a)
    ensures var b := a[i := a[j]][j := a[i]];
            multiset(b) == multiset(a) && Encoded(identity, b) != Encoded(identity, a)
  {
    var b := a[i := a[j]][j := a[i]];
    SwapPermutes(a, i, j);
    SwappedRows(a, b, i, j);
    SameRejects(a, b);
    MessagesApart(identity, a, b);
  }

  lemma SameRejects(a: seq<Sample>, b: seq<Sample>)
    requires multiset(a) == multiset(b)
    ensures Rejects(a) <==> Rejects(b)
  {
    forall s ensures s in a <==> s in b { SameMembers(a, b, s); }
  }

  /** Different rows make different messages. */
  lemma MessagesApart(identity: Labels, a: seq<Sample>, b: seq<Sample>)
    requires !Rejects(a) && !Rejects(b) && SortedRows(Rows(a)) != SortedRows(Rows(b))
    ensures Encoded(identity, a) != Encoded(identity, b)
  {
    GroupInjective(SortedRows(Rows(a)), SortedRows(Rows(b)));
  }

  lemma SwappedRows(a: seq<Sample>, b: seq<Sample>, i: nat, j: nat)
    requires i < j < |a| && SameSeries(a[i], a[j]) && a[i].timestamp == a[j].timestamp && a[i].value != a[j].value
    requires b == a[i := a[j]][j := a[i]]
    ensures SortedRows(Rows(a)) != SortedRows(Rows(b))
  {
    KeyOrder();
    assert Rows(b) == Rows(a)[i := Rows(a)[j]][j := Rows(a)[i]];
    SwapShows(Rows(a), Rows(b), i, j, RowKey(), KeyLess());
  }

  lemma GroupInjective(a: seq<Row>, b: seq<Row>)
    ensures Group(Map(a, Show())) == Group(Map(b, Show())) ==> a == b
  {
    FlatGroup(Map(a, Show()));
    FlatGroup(Map(b, Show()));
    if Map(a, Show()) == Map(b, Show()) {
      forall i | 0 <= i < |a| ensures a[i] == b[i] {
        assert Map(a, Show())[i] == Map(b, Show())[i];
        ShowInjective(a[i], b[i]);
      }
    }
  }

  // ----- the loop -----

  ghost predicate ShowsAt(samples: seq<Sample>, xs: seq<Shown>, i: nat) {
    i < |samples| && i < |xs| && xs[i] == Show()(RowOf()(samples[i]))
  }

  ghost predicate Shows(samples: seq<Sample>, xs: seq<Shown>) {
    |xs| == |samples| && forall i: nat {:trigger ShowsAt(samples, xs, i)} :: i < |xs| ==> ShowsAt(samples, xs, i)
  }

  method ShowNth(samples: seq<Sample>, ghost xs: seq<Shown>, i: nat) returns (x: Shown)
    requires Shows(samples, xs) && i < |samples|
    ensures x == xs[i]
  {
    assert ShowsAt(samples, xs, i);
    var s := samples[i];
    x := Shown(s.name, s.unit, Point(SortedPairs(s.labels), s.timestamp, s.value));
  }

  /** The metrics of sorted samples, or none if one cannot be encoded. */
  method BuildMetrics(sorted: seq<Sample>, ghost xs: seq<Shown>) returns (ms: Option<seq<Metric>>)
    requires Shows(sorted, xs)
    ensures ms.None? <==> Rejects(sorted)
    ensures ms.Some? ==> ms.value == Group(xs)
  {
    var metrics := [];
    for i := 0 to |sorted|
      invariant metrics == Group(xs[..i]) && forall j :: 0 <= j < i ==> Encodable(sorted[j])
    {
      if sorted[i].temporality.Delta? || !sorted[i].kind.Gauge? {
        assert sorted[i] in sorted && !Encodable(sorted[i]);
        return None;
      }
      var x := ShowNth(sorted, xs, i);
      assert xs[..i + 1][..i] == xs[..i];
      metrics := Append(metrics, x);
    }
    assert xs[..|sorted|] == xs;
    return Some(metrics);
  }

  lemma RowsShow(samples: seq<Sample>)
    ensures Shows(samples, Map(Rows(samples), Show()))
  {
  }

  method Encode(identity: Labels, samples: seq<Sample>) returns (m: Option<Message>)
    ensures m == Encoded(identity, samples)
  {
    var sorted := Ordered(samples);
    forall s ensures s in sorted <==> s in samples { SameMembers(sorted, samples, s); }
    ShowSorted(samples);
    RowsShow(sorted);
    var ms := BuildMetrics(sorted, Map(Rows(sorted), Show()));
    m := if ms.Some? then Some(Message(SortedPairs(identity), ms.value)) else None;
  }
}
