/** The logs message (`EncodeLogs` in internal/emit/otlp/logs_encode.go): one resource per distinct set of
    indexed attributes, records in a fixed order.  The message stands for its bytes. */
module EncodeLogs {
  import opened Model
  import opened Keys
  import opened Sorting
  import opened Grouping
  import opened Orders

  /** A trace id that is not 16 bytes long, and an empty body, are left out. */
  datatype Entry = Entry(time: int, severity: string, attrs: Pairs, trace: string, body: string)

  datatype Resource = Resource(attrs: Pairs, entries: seq<Entry>)

  function IndexKey(): LogRecord -> string { (r: LogRecord) => LabelKey(r.indexed) }

  type SortKey = (int, (string, (string, string)))

  function KeyLess(): (SortKey, SortKey) -> bool { Lex(IntLess(), Lex(StrLess, Lex(StrLess, StrLess))) }

  function RecordKey(): LogRecord -> SortKey {
    (r: LogRecord) => (r.timestamp, (r.severity, (LabelKey(r.record), r.traceId)))
  }

  lemma KeyOrder()
    ensures TotalOrder(KeyLess())
  {
    StrTotalOrder();
    IntTotalOrder();
    LexTotal(StrLess, StrLess);
    LexTotal(StrLess, Lex(StrLess, StrLess));
    LexTotal(IntLess(), Lex(StrLess, Lex(StrLess, StrLess)));
  }

  /** The records of one group, sorted. */
  function Members(logs: seq<LogRecord>, k: string): seq<LogRecord> {
    Sort(Where(logs, IndexKey(), k), ByKey(RecordKey(), KeyLess()))
  }

  function IndexKeys(logs: seq<LogRecord>): set<string> { set r | r in logs :: LabelKey(r.indexed) }

  function MembersOf(logs: seq<LogRecord>): string -> seq<LogRecord> { (k: string) => Members(logs, k) }

  function Groups(logs: seq<LogRecord>): seq<seq<LogRecord>> { Map(SortedKeys(IndexKeys(logs)), MembersOf(logs)) }

  function EntryOf(): LogRecord -> Entry {
    (r: LogRecord) =>
      Entry(r.timestamp, r.severity, SortedPairs(r.record), if |r.traceId| == 16 then r.traceId else "", r.body)
  }

  /** The resource carries the producer's identity and, over it, the group's indexed attributes. */
  function ResourceOf(identity: Labels): seq<LogRecord> -> Resource {
    (g: seq<LogRecord>) => Resource(SortedPairs(identity + if g == [] then map[] else g[0].indexed), Map(g, EntryOf()))
  }

  function Encoded(identity: Labels, logs: seq<LogRecord>): seq<Resource> { Map(Groups(logs), ResourceOf(identity)) }

  // ----- canonical -----

  ghost predicate BodyFree(logs: seq<LogRecord>) { forall r :: r in logs ==> r.body == "" }

  lemma RecordDecided(x: LogRecord, y: LogRecord)
    requires x.body == y.body == "" && RecordKey()(x) == RecordKey()(y) && LabelKey(x.indexed) == LabelKey(y.indexed)
    ensures x == y
  {
    LabelKeyInjective(x.record, y.record);
    LabelKeyInjective(x.indexed, y.indexed);
  }

  lemma PairDecided(a: seq<LogRecord>, k: string, x: LogRecord, y: LogRecord)
    requires BodyFree(a) && x in Where(a, IndexKey(), k) && y in Where(a, IndexKey(), k)
             && RecordKey()(x) == RecordKey()(y)
    ensures x == y
  {
    WhereMember(a, IndexKey(), k, x);
    WhereMember(a, IndexKey(), k, y);
    RecordDecided(x, y);
  }

  lemma GroupDecided(a: seq<LogRecord>, k: string)
    requires BodyFree(a)
    ensures KeyDecides(Where(a, IndexKey(), k), RecordKey())
  {
    var u := Where(a, IndexKey(), k);
    forall x, y | x in u && y in u && RecordKey()(x) == RecordKey()(y) ensures x == y { PairDecided(a, k, x, y); }
  }

  lemma MembersCanonical(a: seq<LogRecord>, b: seq<LogRecord>, k: string)
    requires multiset(a) == multiset(b) && BodyFree(a)
    ensures Members(a, k) == Members(b, k)
  {
    WherePermutes(a, b, IndexKey(), k);
    GroupDecided(a, k);
    KeyOrder();
    SortByKeyCanonical(Where(a, IndexKey(), k), Where(b, IndexKey(), k), RecordKey(), KeyLess());
  }

  lemma SameKeys(a: seq<LogRecord>, b: seq<LogRecord>)
    requires multiset(a) == multiset(b)
    ensures IndexKeys(a) == IndexKeys(b)
  {
    forall r ensures r in a <==> r in b { SameMembers(a, b, r); }
  }

  /** Without bodies, the message depends on nothing but the multiset of the records. */
  lemma Canonical(identity: Labels, a: seq<LogRecord>, b: seq<LogRecord>)
    requires multiset(a) == multiset(b) && BodyFree(a)
    ensures Encoded(identity, a) == Encoded(identity, b)
  {
    SameKeys(a, b);
    forall k ensures MembersOf(a)(k) == MembersOf(b)(k) { MembersCanonical(a, b, k); }
    MapCong(SortedKeys(IndexKeys(a)), MembersOf(a), MembersOf(b));
  }

  // ----- one group per indexed set, and nothing lost -----

  ghost predicate Shares(g: seq<LogRecord>) { g != [] && forall r :: r in g ==> r.indexed == g[0].indexed }

  ghost predicate GroupsDiffer(gs: seq<seq<LogRecord>>) {
    forall i, j :: 0 <= i < j < |gs| && gs[i] != [] && gs[j] != [] ==> gs[i][0].indexed != gs[j][0].indexed
  }

  lemma MembersShare(logs: seq<LogRecord>, k: string)
    requires k in IndexKeys(logs)
    ensures Shares(Members(logs, k)) && LabelKey(Members(logs, k)[0].indexed) == k
  {
    var u, g := Where(logs, IndexKey(), k), Members(logs, k);
    var r :| r in logs && LabelKey(r.indexed) == k;
    WhereMember(logs, IndexKey(), k, r);
    assert u != [] && g != [];
    forall x | x in g ensures LabelKey(x.indexed) == k {
      SameMembers(g, u, x);
      WhereMember(logs, IndexKey(), k, x);
    }
    forall x | x in g ensures x.indexed == g[0].indexed { LabelKeyInjective(x.indexed, g[0].indexed); }
  }

  /** Every record is in exactly one group; a group holds one indexed set, and no two hold the same. */
  lemma Faithful(logs: seq<LogRecord>)
    ensures multiset(Flat(Groups(logs))) == multiset(logs)
    ensures (forall i :: 0 <= i < |Groups(logs)| ==> Shares(Groups(logs)[i])) && GroupsDiffer(Groups(logs))
  {
    var ks, gs := SortedKeys(IndexKeys(logs)), Groups(logs);
    AscendingDistinct(ks);
    SplitPartitions(logs, IndexKey(), ks, gs);
    forall i | 0 <= i < |ks| ensures Shares(gs[i]) && LabelKey(gs[i][0].indexed) == ks[i] {
      assert ks[i] in ks;
      MembersShare(logs, ks[i]);
    }
  }

  function EntriesOf(): Resource -> seq<Entry> { (r: Resource) => r.entries }

  lemma MapConcat<A, B>(a: seq<A>, b: seq<A>, f: A -> B)
    ensures Map(a + b, f) == Map(a, f) + Map(b, f)
  {
  }

  /** Parts that show their own elements show together what the joined parts show. */
  lemma {:induction false} FlatShown<A(!new), R, E>(gs: seq<seq<A>>, wrap: seq<A> -> R, show: R -> seq<E>, f: A -> E)
    requires forall g :: show(wrap(g)) == Map(g, f)
    ensures Flat(Map(Map(gs, wrap), show)) == Map(Flat(gs), f)
  {
    if gs != [] {
      var n := |gs| - 1;
      var before := Map(gs[..n], wrap);
      FlatShown(gs[..n], wrap, show, f);
      assert Map(Map(gs, wrap), show) == Map(before, show) + [show(wrap(gs[n]))];
      FlatSnoc(Map(before, show), show(wrap(gs[n])));
      MapConcat(Flat(gs[..n]), gs[n], f);
    }
  }

  /** The entries of the message are those of the grouped records. */
  lemma FlatEntries(identity: Labels, gs: seq<seq<LogRecord>>)
    ensures Flat(Map(Map(gs, ResourceOf(identity)), EntriesOf())) == Map(Flat(gs), EntryOf())
  {
    FlatShown(gs, ResourceOf(identity), EntriesOf(), EntryOf());
  }

  /** The entries of the message are those of the records: none is lost, added or changed.  A resource holds
      the entries of one group, under the identity overlaid with that group's indexed attributes. */
  lemma MessageFaithful(identity: Labels, logs: seq<LogRecord>, xs: seq<Entry>)
    requires |xs| == |logs| && forall i :: 0 <= i < |xs| ==> Carries(xs[i], logs[i])
    ensures multiset(Flat(Map(Encoded(identity, logs), EntriesOf()))) == multiset(xs)
    ensures |Encoded(identity, logs)| == |Groups(logs)|
    ensures forall i :: 0 <= i < |Groups(logs)| ==>
                          && Shares(Groups(logs)[i]) && Encoded(identity, logs)[i].entries == Map(Groups(logs)[i], EntryOf())
                          && Encoded(identity, logs)[i].attrs == SortedPairs(identity + Groups(logs)[i][0].indexed)
  {
    Faithful(logs);
    FlatEntries(identity, Groups(logs));
    MapPermutes(Flat(Groups(logs)), logs, EntryOf());
    EntriesCarry(logs, xs);
  }

  lemma EntriesCarry(logs: seq<LogRecord>, xs: seq<Entry>)
    requires |xs| == |logs| && forall i :: 0 <= i < |xs| ==> Carries(xs[i], logs[i])
    ensures xs == Map(logs, EntryOf())
  {
    forall i | 0 <= i < |xs| ensures xs[i] == Map(logs, EntryOf())[i] { assert Carries(xs[i], logs[i]); }
  }

  /** The entry has the record's time, severity, attributes and body, and its trace id if that is 16 bytes
      long. */
  predicate Carries(x: Entry, r: LogRecord) {
    && x.time == r.timestamp && x.severity == r.severity && x.attrs == SortedPairs(r.record) && x.body == r.body
    && x.trace == if |r.traceId| == 16 then r.traceId else ""
  }

  lemma LaterRecord(a: LogRecord, b: LogRecord)
    requires !ByKey(RecordKey(), KeyLess())(b, a)
    ensures a.timestamp <= b.timestamp
  {
    assert !KeyLess()(RecordKey()(b), RecordKey()(a));
  }

  /** The entries of a resource follow each other in time. */
  lemma EntriesInTime(identity: Labels, logs: seq<LogRecord>, k: nat, i: nat, j: nat)
    requires k < |Encoded(identity, logs)| && i < j < |Encoded(identity, logs)[k].entries|
    ensures Encoded(identity, logs)[k].entries[i].time <= Encoded(identity, logs)[k].entries[j].time
  {
    var key := SortedKeys(IndexKeys(logs))[k];
    var g := Members(logs, key);
    KeyOrder();
    ByKeyWeak(RecordKey(), KeyLess());
    SortSorted(Where(logs, IndexKey(), key), ByKey(RecordKey(), KeyLess()));
    LaterRecord(g[i], g[j]);
  }

  lemma AscendingDistinct(ks: seq<string>)
    requires Ascending(ks)
    ensures Distinct(ks)
  {
    forall i, j | 0 <= i < j < |ks| ensures ks[i] != ks[j] { StrIrreflexive(ks[i]); }
  }

  // ----- the loops -----

  lemma GroupedKeys(logs: seq<LogRecord>, groups: map<string, seq<LogRecord>>)
    requires Grouped(logs, IndexKey(), groups)
    ensures groups.Keys == IndexKeys(logs)
  {
    forall k ensures k in groups <==> k in IndexKeys(logs) {
      if k in groups {
        var r := Where(logs, IndexKey(), k)[0];
        WhereMember(logs, IndexKey(), k, r);
      }
      if k in IndexKeys(logs) {
        var r :| r in logs && LabelKey(r.indexed) == k;
        WhereMember(logs, IndexKey(), k, r);
      }
    }
  }

  method EncodeGroup(identity: Labels, ghost logs: seq<LogRecord>, k: string,
                     recs: seq<LogRecord>) returns (res: Resource)
    requires recs == Where(logs, IndexKey(), k) && k in IndexKeys(logs)
    ensures res == ResourceOf(identity)(Members(logs, k))
  {
    var sorted := Sort(recs, ByKey(RecordKey(), KeyLess()));
    MembersShare(logs, k);
    forall r | r in recs ensures r.indexed == sorted[0].indexed { SameMembers(recs, sorted, r); }
    assert recs != [] by { assert |recs| == |sorted|; }
    res := Resource(SortedPairs(identity + recs[0].indexed), Map(sorted, EntryOf()));
  }

  ghost predicate IsResource(identity: Labels, logs: seq<LogRecord>, order: seq<string>, goal: seq<Resource>, i: nat) {
    i < |order| && i < |goal| && order[i] in IndexKeys(logs) && goal[i] == ResourceOf(identity)(Members(logs, order[i]))
  }

  ghost predicate AreResources(identity: Labels, logs: seq<LogRecord>, order: seq<string>, goal: seq<Resource>) {
    && |goal| == |order|
    && forall i: nat {:trigger IsResource(identity, logs, order, goal, i)} ::
         i < |order| ==> IsResource(identity, logs, order, goal, i)
  }

  lemma EncodedAre(identity: Labels, logs: seq<LogRecord>)
    ensures AreResources(identity, logs, SortedKeys(IndexKeys(logs)), Encoded(identity, logs))
  {
    var ks := SortedKeys(IndexKeys(logs));
    forall i: nat | i < |ks| ensures IsResource(identity, logs, ks, Encoded(identity, logs), i) {
      assert ks[i] in ks;
      assert Groups(logs)[i] == MembersOf(logs)(ks[i]);
    }
  }

  method EncodeNth(identity: Labels, ghost logs: seq<LogRecord>, order: seq<string>, groups: map<string,
                   seq<LogRecord>>,
                   ghost goal: seq<Resource>, i: nat) returns (res: Resource)
    requires AreResources(identity, logs, order, goal) && Grouped(logs, IndexKey(), groups) && i < |order|
    ensures res == goal[i]
  {
    assert IsResource(identity, logs, order, goal, i);
    GroupedKeys(logs, groups);
    res := EncodeGroup(identity, logs, order[i], groups[order[i]]);
  }

  method EncodeGroups(identity: Labels, ghost logs: seq<LogRecord>, order: seq<string>, groups: map<string,
                      seq<LogRecord>>,
                      ghost goal: seq<Resource>) returns (message: seq<Resource>)
    requires AreResources(identity, logs, order, goal) && Grouped(logs, IndexKey(), groups)
    ensures message == goal
  {
    message := [];
    for i := 0 to |order|
      invariant message == goal[..i]
    {
      var res := EncodeNth(identity, logs, order, groups, goal, i);
      message := message + [res];
    }
  }

  method Encode(identity: Labels, logs: seq<LogRecord>) returns (message: seq<Resource>)
    ensures message == Encoded(identity, logs)
  {
    var groups := GroupBy(logs, IndexKey());
    GroupedKeys(logs, groups);
    var keys := KeysOf(groups);
    SortedAnyOrder(keys, groups.Keys);
    EncodedAre(identity, logs);
    message := EncodeGroups(identity, logs, Sort(keys, StrLess), groups, Encoded(identity, logs));
  }
}
