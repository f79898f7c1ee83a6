/** Turning graph responses into settled, forward-only samples (`derive` in
    internal/source/portkey/derive.go). */
module Derive {
  import opened Model
  import opened Sorting
  import opened Counting
  import K = Keys
  import G = Grouping

  const GRANULARITY := MINUTE

  /** A data point; `stamp` is `None` when the timestamp does not parse.  The figures of a graph that
      does not report them are zero, and latencies are already in the unit of the metric. */
  datatype Point = Point(stamp: Option<int>, total: int, input: int, output: int, p50: int, p90: int, p99: int, avg: int)

  datatype Result = BadTimestamp | BadGranularity | Ok(samples: seq<Sample>)

  datatype Params = Params(prefix: string, since: int, cutoff: int, startSemantics: bool)

  function Time(p: Point): int { if p.stamp.Some? then p.stamp.value else 0 }

  function Earlier(): (Point, Point) -> bool { (a, b) => Time(a) < Time(b) }

  predicate Parsed(ps: seq<Point>) { forall p :: p in ps ==> p.stamp.Some? }

  /** Each step is a positive multiple of the granularity. */
  predicate Regular(pts: seq<Point>) {
    forall i :: 0 <= i < |pts| - 1 ==> Step(pts[i], pts[i + 1])
  }

  predicate Step(a: Point, b: Point) {
    Time(b) > Time(a) && (Time(b) - Time(a)) % GRANULARITY == 0
  }

  // ----- the guard, without sorting -----

  function Timed(t: int): Point -> bool { p => Time(p) == t }

  /** No two points share a time, and all lie on one grid. */
  ghost predicate Spaced(ps: seq<Point>) {
    && (forall x :: x in ps ==> CountIn(ps, Timed(Time(x))) == 1)
    && (forall x, y :: x in ps && y in ps ==> (Time(x) - Time(y)) % GRANULARITY == 0)
  }

  lemma EarlierOrder()
    ensures WeakOrder(Earlier())
  {
  }

  lemma {:induction false} RegularFar(pts: seq<Point>, i: nat, j: nat)
    requires Regular(pts) && i < j < |pts|
    ensures Step(pts[i], pts[j])
  {
    if i + 1 < j {
      RegularFar(pts, i, j - 1);
      assert Step(pts[j - 1], pts[j]);
      AddMultiples(Time(pts[j - 1]) - Time(pts[i]), Time(pts[j]) - Time(pts[j - 1]));
    } else {
      assert Step(pts[i], pts[i + 1]);
    }
  }

  lemma AddMultiples(a: int, b: int)
    requires a % GRANULARITY == 0 && b % GRANULARITY == 0
    ensures (a + b) % GRANULARITY == 0 && (-a) % GRANULARITY == 0
  {
  }

  lemma RegularSpaced(pts: seq<Point>)
    requires Regular(pts)
    ensures Spaced(pts)
  {
    forall i, j | 0 <= i < j < |pts| ensures Step(pts[i], pts[j]) { RegularFar(pts, i, j); }
    forall x | x in pts ensures CountIn(pts, Timed(Time(x))) == 1 {
      var k :| 0 <= k < |pts| && pts[k] == x;
      CountUnique(|pts|, At(pts, Timed(Time(x))), k);
    }
    forall x, y | x in pts && y in pts ensures (Time(x) - Time(y)) % GRANULARITY == 0 {
      var i :| 0 <= i < |pts| && pts[i] == x;
      var j :| 0 <= j < |pts| && pts[j] == y;
      if i < j { AddMultiples(Time(y) - Time(x), 0); }
    }
  }

  lemma SpacedRegular(pts: seq<Point>)
    requires Spaced(pts) && Sorted(pts, Earlier())
    ensures Regular(pts)
  {
    forall i | 0 <= i < |pts| - 1 ensures Step(pts[i], pts[i + 1]) {
      assert pts[i] in pts && pts[i + 1] in pts;
      assert !Earlier()(pts[i + 1], pts[i]);
      if Time(pts[i]) == Time(pts[i + 1]) {
        CountPair(|pts|, At(pts, Timed(Time(pts[i]))), i, i + 1);
      }
    }
  }

  lemma SpacedPermutes(a: seq<Point>, b: seq<Point>)
    requires multiset(a) == multiset(b) && Spaced(a)
    ensures Spaced(b)
  {
    forall x ensures x in a <==> x in b { SameMembers(a, b, x); }
    forall x | x in b ensures CountIn(b, Timed(Time(x))) == 1 { CountPermutation(a, b, Timed(Time(x))); }
  }

  lemma SpacedTies(ps: seq<Point>)
    requires Spaced(ps)
    ensures TiesEqual(ps, Earlier())
  {
    forall x, y | x in ps && y in ps && Time(x) == Time(y) ensures x == y {
      var i :| 0 <= i < |ps| && ps[i] == x;
      var j :| 0 <= j < |ps| && ps[j] == y;
      if i < j {
        CountPair(|ps|, At(ps, Timed(Time(x))), i, j);
      } else if j < i {
        CountPair(|ps|, At(ps, Timed(Time(x))), j, i);
      }
    }
  }

  /** Whichever way the sort arranges equal times, the guard accepts exactly the evenly spaced
      responses, and then the arrangement is unique. */
  lemma AnySortAgrees(ps: seq<Point>, pts: seq<Point>)
    requires Sorted(pts, Earlier()) && multiset(pts) == multiset(ps)
    ensures Regular(pts) <==> Spaced(ps)
    ensures Spaced(ps) ==> pts == Sort(ps, Earlier())
  {
    if Regular(pts) {
      RegularSpaced(pts);
      SpacedPermutes(pts, ps);
    }
    if Spaced(ps) {
      SpacedPermutes(ps, pts);
      SpacedRegular(pts);
      EarlierOrder();
      SortSorted(ps, Earlier());
      SpacedTies(pts);
      SortedUnique(pts, Sort(ps, Earlier()), Earlier());
    }
  }

  // ----- samples -----

  function Suffix(g: string): string {
    if g == "cost" then "cost_usd"
    else if g == "latency" then "latency_seconds"
    else if g in {"requests", "tokens", "errors", "users"} then g
    else ""
  }

  function End(p: Point, prm: Params): int { if prm.startSemantics then Time(p) + GRANULARITY else Time(p) }

  predicate Keeps(p: Point, prm: Params) { prm.since < End(p, prm) <= prm.cutoff }

  function Reading(g: string, p: Point, prm: Params, labels: Labels, value: int): Sample {
    Sample(prm.prefix + "_" + Suffix(g), Gauge, Unset, false, "", labels, value, End(p, prm))
  }

  function Readings(g: string, p: Point, prm: Params): seq<Sample> {
    if g == "latency" then
      [Reading(g, p, prm, map["quantile" := "p50"], p.p50), Reading(g, p, prm, map["quantile" := "p90"], p.p90),
       Reading(g, p, prm, map["quantile" := "p99"], p.p99), Reading(g, p, prm, map["quantile" := "avg"], p.avg)]
    else if g == "tokens" then
      [Reading(g, p, prm, map["token_type" := "total"], p.total), Reading(g, p, prm, map["token_type" := "input"], p.input),
       Reading(g, p, prm, map["token_type" := "output"], p.output)]
    else
      [Reading(g, p, prm, map[], p.total)]
  }

  function Kept(g: string, p: Point, prm: Params): seq<Sample> { if Keeps(p, prm) then Readings(g, p, prm) else [] }

  function Emit(g: string, pts: seq<Point>, prm: Params): seq<Sample> {
    if pts == [] then [] else Emit(g, pts[..|pts| - 1], prm) + Kept(g, pts[|pts| - 1], prm)
  }

  function Graph(g: string, ps: seq<Point>, prm: Params): Result {
    if !Parsed(ps) then BadTimestamp
    else if !Regular(Sort(ps, Earlier())) then BadGranularity
    else Ok(Emit(g, Sort(ps, Earlier()), prm))
  }

  type Response = map<string, seq<Point>>

  /** One graph after the other; the first that fails decides. */
  function Join(rs: seq<Result>): Result {
    if rs == [] then Ok([])
    else
      var a, b := Join(rs[..|rs| - 1]), rs[|rs| - 1];
      if !a.Ok? then a else if !b.Ok? then b else Ok(a.samples + b.samples)
  }

  ghost predicate IsResult(gs: seq<string>, resp: Response, prm: Params, rs: seq<Result>, i: nat) {
    i < |gs| && i < |rs| && gs[i] in resp && rs[i] == Graph(gs[i], resp[gs[i]], prm)
  }

  ghost predicate AreResults(gs: seq<string>, resp: Response, prm: Params, rs: seq<Result>) {
    |rs| == |gs|
      && forall i: nat {:trigger IsResult(gs, resp, prm, rs, i)} :: i < |gs| ==> IsResult(gs, resp, prm, rs, i)
  }

  function Results(gs: seq<string>, resp: Response, prm: Params): (rs: seq<Result>)
    requires forall g :: g in gs ==> g in resp
    ensures AreResults(gs, resp, prm, rs)
  {
    seq(|gs|, i requires 0 <= i < |gs| => Graph(gs[i], resp[gs[i]], prm))
  }

  function All(resp: Response, prm: Params): Result { Join(Results(K.SortedKeys(resp.Keys), resp, prm)) }

  lemma GraphOrderFree(g: string, a: seq<Point>, b: seq<Point>, prm: Params)
    requires multiset(a) == multiset(b)
    ensures Graph(g, a, prm) == Graph(g, b, prm)
  {
    forall x ensures x in a <==> x in b { SameMembers(a, b, x); }
    EarlierOrder();
    SortSorted(a, Earlier());
    SortSorted(b, Earlier());
    AnySortAgrees(a, Sort(a, Earlier()));
    AnySortAgrees(a, Sort(b, Earlier()));
  }

  /** Neither the verdict nor the samples depend on the order in which the points arrived. */
  lemma OrderFree(a: Response, b: Response, prm: Params)
    requires a.Keys == b.Keys && forall g :: g in a ==> multiset(a[g]) == multiset(b[g])
    ensures All(a, prm) == All(b, prm)
  {
    var gs := K.SortedKeys(a.Keys);
    var rs, ts := Results(gs, a, prm), Results(gs, b, prm);
    forall i: nat | i < |gs| ensures rs[i] == ts[i] {
      assert IsResult(gs, a, prm, rs, i) && IsResult(gs, b, prm, ts, i);
      GraphOrderFree(gs[i], a[gs[i]], b[gs[i]], prm);
    }
    assert rs == ts;
  }

  // ----- what is accepted and what comes out -----

  /** The metric of each graph, with the unit in its name. */
  predicate NamedFor(g: string, prefix: string, name: string) {
    && (g == "requests" ==> name == prefix + "_" + "requests") && (g == "cost" ==> name == prefix + "_" + "cost_usd")
    && (g == "tokens" ==> name == prefix + "_" + "tokens") && (g == "latency" ==> name == prefix + "_" + "latency_seconds")
    && (g == "errors" ==> name == prefix + "_" + "errors") && (g == "users" ==> name == prefix + "_" + "users")
    && (g !in {"requests", "cost", "tokens", "latency", "errors", "users"} ==> name == prefix + "_" + "")
  }

  /** The label and the figure of a reading: one per percentile and the mean of a latency, one per kind of
      token, and the plain total of any other graph. */
  predicate Figure(g: string, p: Point, labels: Labels, value: int) {
    if g == "latency" then
      || (labels == map["quantile" := "p50"] && value == p.p50) || (labels == map["quantile" := "p90"] && value == p.p90)
      || (labels == map["quantile" := "p99"] && value == p.p99) || (labels == map["quantile" := "avg"] && value == p.avg)
    else if g == "tokens" then
      || (labels == map["token_type" := "total"] && value == p.total)
      || (labels == map["token_type" := "input"] && value == p.input)
      || (labels == map["token_type" := "output"] && value == p.output)
    else labels == map[] && value == p.total
  }

  /** A sample reads one figure of a point, at the end of its bucket. */
  predicate Reads(g: string, p: Point, prm: Params, x: Sample) {
    && x.kind == Gauge && x.temporality == Unset && !x.monotonic && x.unit == ""
    && NamedFor(g, prm.prefix, x.name) && Figure(g, p, x.labels, x.value)
    && x.timestamp == Time(p) + (if prm.startSemantics then MINUTE else 0)
  }

  lemma NameIs(g: string, prm: Params, name: string)
    ensures NamedFor(g, prm.prefix, name) <==> name == prm.prefix + "_" + Suffix(g)
  {
  }

  /** The kept samples of a point are exactly those that read it and are new and settled. */
  lemma KeptReads(g: string, p: Point, prm: Params, x: Sample)
    ensures x in Kept(g, p, prm) <==> Reads(g, p, prm, x) && prm.since < x.timestamp <= prm.cutoff
  {
    NameIs(g, prm, x.name);
    FigureIs(g, p, prm, x);
  }

  lemma FigureIs(g: string, p: Point, prm: Params, x: Sample)
    ensures x in Readings(g, p, prm) <==> Figure(g, p, x.labels, x.value) && x == Reading(g, p, prm, x.labels, x.value)
  {
    if g == "latency" {
      assert Figure(g, p, x.labels, x.value) <==>
             || (x.labels == map["quantile" := "p50"] && x.value == p.p50)
             || (x.labels == map["quantile" := "p90"] && x.value == p.p90)
             || (x.labels == map["quantile" := "p99"] && x.value == p.p99)
             || (x.labels == map["quantile" := "avg"] && x.value == p.avg);
    }
  }

  ghost predicate Sourced(resp: Response, prm: Params, x: Sample) {
    prm.since < x.timestamp <= prm.cutoff && exists g, p :: g in resp && p in resp[g] && Reads(g, p, prm, x)
  }

  lemma {:induction false} EmitExact(g: string, pts: seq<Point>, prm: Params, x: Sample)
    ensures x in Emit(g, pts, prm) <==> exists p :: p in pts && x in Kept(g, p, prm)
  {
    if pts != [] {
      var n := |pts| - 1;
      EmitExact(g, pts[..n], prm, x);
      assert pts[n] in pts;
      if x in Emit(g, pts[..n], prm) {
        var p :| p in pts[..n] && x in Kept(g, p, prm);
        assert p in pts;
      }
      forall p | p in pts ensures p in pts[..n] || p == pts[n] {}
    }
  }

  lemma {:induction false} JoinOk(rs: seq<Result>)
    ensures Join(rs).Ok? <==> forall i :: 0 <= i < |rs| ==> rs[i].Ok?
  {
    if rs != [] { JoinOk(rs[..|rs| - 1]); }
  }

  lemma {:induction false} JoinSamples(rs: seq<Result>, x: Sample)
    requires Join(rs).Ok?
    ensures x in Join(rs).samples <==> exists i :: 0 <= i < |rs| && rs[i].Ok? && x in rs[i].samples
  {
    if rs != [] {
      var n := |rs| - 1;
      JoinSamples(rs[..n], x);
      if x in Join(rs[..n]).samples {
        var i :| 0 <= i < n && rs[..n][i].Ok? && x in rs[..n][i].samples;
        assert rs[i].Ok? && x in rs[i].samples;
      }
    }
  }

  lemma GraphOk(g: string, ps: seq<Point>, prm: Params)
    ensures Graph(g, ps, prm).Ok? <==> Parsed(ps) && Spaced(ps)
  {
    EarlierOrder();
    SortSorted(ps, Earlier());
    AnySortAgrees(ps, Sort(ps, Earlier()));
  }

  lemma GraphSamples(g: string, ps: seq<Point>, prm: Params, x: Sample)
    requires Graph(g, ps, prm).Ok?
    ensures x in Graph(g, ps, prm).samples <==> exists p :: p in ps && x in Kept(g, p, prm)
  {
    var pts := Sort(ps, Earlier());
    EmitExact(g, pts, prm, x);
    forall p ensures p in pts <==> p in ps { SameMembers(pts, ps, p); }
  }

  /** A response is accepted exactly when every timestamp parses and every graph is evenly spaced. */
  lemma AcceptedIff(resp: Response, prm: Params)
    ensures All(resp, prm).Ok? <==> forall g :: g in resp ==> Parsed(resp[g]) && Spaced(resp[g])
  {
    var gs := K.SortedKeys(resp.Keys);
    var rs := Results(gs, resp, prm);
    JoinOk(rs);
    forall i: nat | i < |gs| ensures gs[i] in resp && (rs[i].Ok? <==> Parsed(resp[gs[i]]) && Spaced(resp[gs[i]])) {
      assert IsResult(gs, resp, prm, rs, i);
      GraphOk(gs[i], resp[gs[i]], prm);
    }
    forall g | g in resp ensures exists i :: 0 <= i < |gs| && gs[i] == g { assert g in gs; }
  }

  lemma SampleSource(gs: seq<string>, resp: Response, prm: Params, rs: seq<Result>, i: nat, x: Sample)
    requires AreResults(gs, resp, prm, rs) && i < |rs| && rs[i].Ok? && x in rs[i].samples
    ensures Sourced(resp, prm, x) && prm.since < x.timestamp <= prm.cutoff
  {
    assert IsResult(gs, resp, prm, rs, i);
    GraphSamples(gs[i], resp[gs[i]], prm, x);
    var p :| p in resp[gs[i]] && x in Kept(gs[i], p, prm);
    KeptReads(gs[i], p, prm, x);
  }

  lemma SourceSample(gs: seq<string>, resp: Response, prm: Params, rs: seq<Result>, i: nat, p: Point, x: Sample)
    requires AreResults(gs, resp, prm, rs) && i < |rs| && rs[i].Ok?
    requires gs[i] in resp && p in resp[gs[i]] && x in Kept(gs[i], p, prm)
    ensures x in rs[i].samples
  {
    assert IsResult(gs, resp, prm, rs, i);
    GraphSamples(gs[i], resp[gs[i]], prm, x);
  }

  lemma JoinExact(gs: seq<string>, resp: Response, prm: Params, rs: seq<Result>, x: Sample)
    requires AreResults(gs, resp, prm, rs) && Join(rs).Ok? && forall g :: g in resp ==> g in gs
    ensures x in Join(rs).samples <==> Sourced(resp, prm, x)
    ensures x in Join(rs).samples ==> prm.since < x.timestamp <= prm.cutoff
  {
    JoinOk(rs);
    JoinSamples(rs, x);
    if x in Join(rs).samples {
      var i: nat :| i < |rs| && rs[i].Ok? && x in rs[i].samples;
      SampleSource(gs, resp, prm, rs, i, x);
    }
    if Sourced(resp, prm, x) {
      var g, p :| g in resp && p in resp[g] && Reads(g, p, prm, x);
      KeptReads(g, p, prm, x);
      var i: nat :| i < |gs| && gs[i] == g;
      SourceSample(gs, resp, prm, rs, i, p, x);
    }
  }

  /** The samples are the readings of the points whose bucket ended after `since` and has settled:
      all of them and nothing else. */
  lemma SamplesExact(resp: Response, prm: Params, x: Sample)
    requires All(resp, prm).Ok?
    ensures x in All(resp, prm).samples <==> Sourced(resp, prm, x)
    ensures x in All(resp, prm).samples ==> prm.since < x.timestamp <= prm.cutoff
  {
    var gs := K.SortedKeys(resp.Keys);
    JoinExact(gs, resp, prm, Results(gs, resp, prm), x);
  }

  // ----- and how often -----

  function Width(g: string): nat { if g == "latency" then 4 else if g == "tokens" then 3 else 1 }

  function Due(prm: Params): Point -> bool {
    p => prm.since < Time(p) + (if prm.startSemantics then MINUTE else 0) <= prm.cutoff
  }

  lemma {:induction false} EmitCount(g: string, pts: seq<Point>, prm: Params)
    ensures |Emit(g, pts, prm)| == Width(g) * CountIn(pts, Due(prm))
  {
    if pts != [] {
      var n := |pts| - 1;
      EmitCount(g, pts[..n], prm);
      assert pts == pts[..n] + [pts[n]];
      CountSnoc(pts[..n], pts[n], Due(prm));
      KeptCount(g, pts[n], prm);
      Distribute(Width(g), CountIn(pts[..n], Due(prm)));
    }
  }

  lemma KeptCount(g: string, p: Point, prm: Params)
    ensures |Kept(g, p, prm)| == if Due(prm)(p) then Width(g) else 0
  {
  }

  lemma Distribute(a: nat, b: nat)
    ensures a * (b + 1) == a * b + a
  {
  }

  /** An accepted graph yields four samples per new and settled point of a latency, three of tokens, and
      one of any other, so none of those readings comes twice. */
  lemma GraphCount(g: string, ps: seq<Point>, prm: Params)
    requires Graph(g, ps, prm).Ok?
    ensures |Graph(g, ps, prm).samples| == Width(g) * CountIn(ps, Due(prm))
  {
    var pts := Sort(ps, Earlier());
    EmitCount(g, pts, prm);
    CountPermutation(pts, ps, Due(prm));
  }

  function SamplesOf(): Result -> seq<Sample> { (r: Result) => if r.Ok? then r.samples else [] }

  function EachOf(rs: seq<Result>): seq<seq<Sample>> {
    seq(|rs|, i requires 0 <= i < |rs| => SamplesOf()(rs[i]))
  }

  /** The samples of a response are those of its graphs, one graph after the other. */
  lemma {:induction false} JoinFlat(rs: seq<Result>)
    requires Join(rs).Ok?
    ensures Join(rs).samples == G.Flat(EachOf(rs))
  {
    if rs != [] {
      var n := |rs| - 1;
      JoinFlat(rs[..n]);
      assert EachOf(rs) == EachOf(rs[..n]) + [SamplesOf()(rs[n])];
      G.FlatSnoc(EachOf(rs[..n]), SamplesOf()(rs[n]));
    }
  }

  // ----- the loops -----

  method Guard(pts: seq<Point>) returns (ok: bool)
    ensures ok <==> Regular(pts)
  {
    if pts == [] { return true; }
    for i := 1 to |pts|
      invariant forall j :: 0 <= j < i - 1 ==> Step(pts[j], pts[j + 1])
    {
      var step := Time(pts[i]) - Time(pts[i - 1]);
      if step <= 0 || step % GRANULARITY != 0 {
        assert !Step(pts[i - 1], pts[i]);
        return false;
      }
    }
    return true;
  }

  method DeriveGraph(g: string, ps: seq<Point>, prm: Params) returns (r: Result)
    ensures r == Graph(g, ps, prm)
  {
    for i := 0 to |ps|
      invariant forall j :: 0 <= j < i ==> ps[j].stamp.Some?
    {
      if ps[i].stamp.None? {
        assert ps[i] in ps;
        return BadTimestamp;
      }
    }
    var pts := Sort(ps, Earlier());
    var ok := Guard(pts);
    if !ok { return BadGranularity; }
    var out := EmitAll(g, pts, prm);
    return Ok(out);
  }

  method EmitAll(g: string, pts: seq<Point>, prm: Params) returns (out: seq<Sample>)
    ensures out == Emit(g, pts, prm)
  {
    out := [];
    for i := 0 to |pts|
      invariant out == Emit(g, pts[..i], prm)
    {
      assert pts[..i + 1][..i] == pts[..i];
      if Keeps(pts[i], prm) { out := out + Readings(g, pts[i], prm); }
    }
    assert pts[..|pts|] == pts;
  }

  method DeriveNth(gs: seq<string>, resp: Response, prm: Params, ghost rs: seq<Result>, i: nat) returns (r: Result)
    requires AreResults(gs, resp, prm, rs) && i < |gs|
    ensures r == rs[i]
  {
    assert IsResult(gs, resp, prm, rs, i);
    r := DeriveGraph(gs[i], resp[gs[i]], prm);
  }

  method DeriveEach(gs: seq<string>, resp: Response, prm: Params, ghost rs: seq<Result>) returns (r: Result)
    requires AreResults(gs, resp, prm, rs)
    ensures r == Join(rs)
  {
    var out := [];
    for i := 0 to |gs|
      invariant Join(rs[..i]) == Ok(out)
    {
      assert rs[..i + 1][..i] == rs[..i];
      var one := DeriveNth(gs, resp, prm, rs, i);
      if !one.Ok? {
        JoinFails(rs, i + 1);
        return one;
      }
      out := out + one.samples;
    }
    assert rs[..|gs|] == rs;
    return Ok(out);
  }

  method DeriveAll(resp: Response, prm: Params) returns (r: Result)
    ensures r == All(resp, prm)
  {
    var keys := G.KeysOf(resp);
    K.SortedAnyOrder(keys, resp.Keys);
    var gs := Sort(keys, StrLess);
    r := DeriveEach(gs, resp, prm, Results(gs, resp, prm));
  }

  lemma {:induction false} JoinFails(rs: seq<Result>, m: nat)
    requires m <= |rs| && !Join(rs[..m]).Ok?
    ensures Join(rs) == Join(rs[..m])
  {
    if m < |rs| {
      var n := |rs| - 1;
      assert rs[..n][..m] == rs[..m];
      JoinFails(rs[..n], m);
    } else {
      assert rs[..m] == rs;
    }
  }
}
