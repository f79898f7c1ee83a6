/** The DynamoDB checkpoint store (internal/checkpoint/dynamodb/dynamodb.go) under concurrency.

    A put request, once sent, stays in the network for ever and may reach the table any number of
    times and in any order: this covers lost acknowledgements, the SDK's transport retries, slow
    requests of demoted leaders and crashed writers.  A run is any sequence of actions of any
    number of writers. */
module DynamoCheckpoint {
  import opened Model
  import opened Checkpoint

  type Key = string
  type Wm = Watermark<string>

  const ZERO_WM: Wm := Watermark(ZERO_TIME, "", 0)
  /** One attempt plus five retries. */
  const ATTEMPTS := 6

  /** `version` may be missing (hand-seeded item) or of the wrong type; `wm` is `None` when the
      time or epoch attribute does not decode. */
  datatype Version = Missing | Num(n: int) | BadType
  datatype Item = Item(wm: Option<Wm>, version: Version)

  datatype Condition = PkAbsent | VersionIs(n: int) | VersionAbsent

  /** `base` records the item the request was computed from. */
  datatype Put = Put(key: Key, cond: Condition, wm: Wm, version: int, base: Option<Item>)

  datatype Commit = Commit(key: Key, prior: Option<Item>, written: Item)

  datatype State = State(items: map<Key, Item>, puts: set<Put>, log: seq<Commit>)

  datatype Action = GetThenPut(key: Key, wm: Wm) | Deliver(put: Put)

  function Lookup(items: map<Key, Item>, key: Key): Option<Item> {
    if key in items then Some(items[key]) else None
  }

  predicate Readable(found: Option<Item>) {
    found.None? || (found.value.wm.Some? && !found.value.version.BadType?)
  }

  /** What `Load` and the fence see: the zero watermark when the item is absent. */
  function StoredWm(found: Option<Item>): Wm
    requires Readable(found)
  {
    if found.None? then ZERO_WM else found.value.wm.value
  }

  function ConditionFor(found: Option<Item>): Condition
    requires Readable(found)
  {
    if found.None? then PkAbsent
    else if found.value.version.Num? then VersionIs(found.value.version.n)
    else VersionAbsent
  }

  /** A missing version counts as 0. */
  function NextVersion(found: Option<Item>): int
    requires Readable(found)
  {
    if found.Some? && found.value.version.Num? then found.value.version.n + 1 else 1
  }

  /** How DynamoDB evaluates the condition expression. */
  predicate Holds(cond: Condition, found: Option<Item>) {
    match cond
    case PkAbsent => found.None?
    case VersionIs(n) => found.Some? && found.value.version == Num(n)
    case VersionAbsent => found.None? || found.value.version.Missing?
  }

  /** The get-and-fence half of one `Save` attempt. */
  datatype Prepared = Send(put: Put) | Corrupt | Stale

  function Prepare(found: Option<Item>, key: Key, w: Wm): Prepared {
    if !Readable(found) then Corrupt
    else if !Accepts(StoredWm(found), w) then Stale
    else Send(Put(key, ConditionFor(found), w, NextVersion(found), found))
  }

  function NewItem(p: Put): Item { Item(Some(p.wm), Num(p.version)) }

  function Next(s: State, a: Action): State {
    match a
    case GetThenPut(key, w) =>
      var r := Prepare(Lookup(s.items, key), key, w);
      if CheckEncodable(w) && r.Send? then s.(puts := s.puts + {r.put}) else s
    case Deliver(p) =>
      var found := Lookup(s.items, p.key);
      if p in s.puts && Holds(p.cond, found) then
        s.(items := s.items[p.key := NewItem(p)], log := s.log + [Commit(p.key, found, NewItem(p))])
      else s
  }

  function Exec(s: State, acts: seq<Action>): State {
    if acts == [] then s else Next(Exec(s, acts[..|acts| - 1]), acts[|acts| - 1])
  }

  /** The table after the first `n` commits. */
  function Replay(items: map<Key, Item>, log: seq<Commit>, n: nat): map<Key, Item>
    requires n <= |log|
  {
    if n == 0 then items else Replay(items, log, n - 1)[log[n - 1].key := log[n - 1].written]
  }

  function Init(items: map<Key, Item>): State { State(items, {}, []) }

  // ----- the invariant -----

  /** The item `base` was read from is still there, or a later version has replaced it. */
  predicate Superseded(base: Option<Item>, now: Option<Item>) {
    || base == now
    || (now.Some? && now.value.version.Num? &&
        (base.Some? && base.value.version.Num? ==> base.value.version.n < now.value.version.n))
  }

  predicate PutOk(p: Put, items: map<Key, Item>) {
    && Readable(p.base)
    && Accepts(StoredWm(p.base), p.wm)
    && p.cond == ConditionFor(p.base)
    && p.version == NextVersion(p.base)
    && CheckEncodable(p.wm)
    && Superseded(p.base, Lookup(items, p.key))
  }

  /** Commit `c` replaced exactly the item that `items` holds and passed the fence against it. */
  predicate CommitOk(items: map<Key, Item>, c: Commit) {
    && c.prior == Lookup(items, c.key)
    && Readable(c.prior)
    && c.written.wm.Some?
    && Accepts(StoredWm(c.prior), c.written.wm.value)
    && CheckEncodable(c.written.wm.value)
    && c.written.version == Num(NextVersion(c.prior))
  }

  predicate LinkedAt(items: map<Key, Item>, log: seq<Commit>, i: nat)
    requires i < |log|
  {
    CommitOk(Replay(items, log, i), log[i])
  }

  ghost predicate Linked(items: map<Key, Item>, log: seq<Commit>) {
    forall i: nat {:trigger LinkedAt(items, log, i)} :: i < |log| ==> LinkedAt(items, log, i)
  }

  ghost predicate Inv(start: map<Key, Item>, s: State) {
    && s.items == Replay(start, s.log, |s.log|)
    && Linked(start, s.log)
    && forall p :: p in s.puts ==> PutOk(p, s.items)
  }

  lemma {:induction false} ReplayPrefix(start: map<Key, Item>, a: seq<Commit>, b: seq<Commit>, n: nat)
    requires n <= |a| && a <= b
    ensures Replay(start, a, n) == Replay(start, b, n)
  {
    if n > 0 { ReplayPrefix(start, a, b, n - 1); }
  }

  lemma NextInv(start: map<Key, Item>, s: State, a: Action)
    requires Inv(start, s)
    ensures Inv(start, Next(s, a))
    ensures s.log <= Next(s, a).log
  {
    var t := Next(s, a);
    if t.log != s.log {
      assert a.put.base == Lookup(s.items, a.put.key);
      forall i: nat | i < |t.log| ensures LinkedAt(start, t.log, i) {
        ReplayPrefix(start, s.log, t.log, i);
        if i < |s.log| { assert LinkedAt(start, s.log, i); }
      }
      ReplayPrefix(start, s.log, t.log, |s.log|);
    }
  }

  /** Safety of every run: whatever the writers, retries and deliveries, the table is the replay
      of a log in which each write passed the fence against exactly the item it replaced. */
  lemma {:induction false} RunSafe(start: map<Key, Item>, acts: seq<Action>)
    ensures Inv(start, Exec(Init(start), acts))
  {
    if acts != [] {
      RunSafe(start, acts[..|acts| - 1]);
      NextInv(start, Exec(Init(start), acts[..|acts| - 1]), acts[|acts| - 1]);
    }
  }

  lemma {:induction false} ExecCompose(s: State, a: seq<Action>, b: seq<Action>)
    ensures Exec(Exec(s, a), b) == Exec(s, a + b)
  {
    if b == [] {
      assert a + b == a;
    } else {
      ExecCompose(s, a, b[..|b| - 1]);
      assert (a + b)[..|a + b| - 1] == a + b[..|b| - 1];
    }
  }

  lemma {:induction false} ExecInv(start: map<Key, Item>, s: State, acts: seq<Action>)
    requires Inv(start, s)
    ensures Inv(start, Exec(s, acts)) && s.log <= Exec(s, acts).log
  {
    if acts != [] {
      ExecInv(start, s, acts[..|acts| - 1]);
      NextInv(start, Exec(s, acts[..|acts| - 1]), acts[|acts| - 1]);
    }
  }

  // ----- what the log says about one key -----

  /** How many of the first `n` commits wrote `key`. */
  function CommitsOn(log: seq<Commit>, key: Key, n: nat): nat
    requires n <= |log|
  {
    if n == 0 then 0 else CommitsOn(log, key, n - 1) + (if log[n - 1].key == key then 1 else 0)
  }

  /** The item of `key` after the first `n` commits. */
  function ItemAt(start: map<Key, Item>, log: seq<Commit>, key: Key, n: nat): Option<Item>
    requires n <= |log|
  {
    Lookup(Replay(start, log, n), key)
  }

  lemma {:induction false} Frame(start: map<Key, Item>, log: seq<Commit>, key: Key, m: nat, n: nat)
    requires m <= n <= |log|
    ensures CommitsOn(log, key, m) <= CommitsOn(log, key, n)
    ensures CommitsOn(log, key, m) == CommitsOn(log, key, n) ==>
              ItemAt(start, log, key, m) == ItemAt(start, log, key, n)
  {
    if m < n { Frame(start, log, key, m, n - 1); }
  }

  /** No lost update: a commit replaced the value written by the previous commit on its key. */
  lemma NoLostUpdate(start: map<Key, Item>, acts: seq<Action>, i: nat, j: nat)
    requires i < j < |Exec(Init(start), acts).log|
    requires var log := Exec(Init(start), acts).log;
             log[i].key == log[j].key && CommitsOn(log, log[i].key, i + 1) == CommitsOn(log, log[i].key, j)
    ensures var log := Exec(Init(start), acts).log;
            log[j].prior == Some(log[i].written)
  {
    RunSafe(start, acts);
    var log := Exec(Init(start), acts).log;
    Frame(start, log, log[i].key, i + 1, j);
    assert LinkedAt(start, log, j);
  }

  /** A commit can only follow readable values, and leaves one. */
  lemma {:induction false} StaysReadable(start: map<Key, Item>, log: seq<Commit>, key: Key, n: nat)
    requires Linked(start, log) && n <= |log| && Readable(Lookup(start, key))
    ensures Readable(ItemAt(start, log, key, n))
  {
    if n > 0 {
      StaysReadable(start, log, key, n - 1);
      assert LinkedAt(start, log, n - 1);
    }
  }

  lemma {:induction false} Monotone(start: map<Key, Item>, log: seq<Commit>, key: Key, m: nat, n: nat)
    requires Linked(start, log) && m <= n <= |log|
    requires Readable(Lookup(start, key))
    ensures Readable(ItemAt(start, log, key, m)) && Readable(ItemAt(start, log, key, n))
    ensures NotAhead(StoredWm(ItemAt(start, log, key, m)), StoredWm(ItemAt(start, log, key, n)))
  {
    StaysReadable(start, log, key, m);
    StaysReadable(start, log, key, n);
    if m < n {
      Monotone(start, log, key, m, n - 1);
      assert LinkedAt(start, log, n - 1);
    }
  }

  /** No later commit on a key comes from a lower epoch or an earlier time than an earlier one, so
      the stored epoch and time never decrease. */
  lemma CommitsOrdered(start: map<Key, Item>, acts: seq<Action>, i: nat, j: nat)
    requires i < j < |Exec(Init(start), acts).log|
    requires Exec(Init(start), acts).log[i].key == Exec(Init(start), acts).log[j].key
    ensures var log := Exec(Init(start), acts).log;
            && log[i].written.wm.Some? && log[j].written.wm.Some?
            && NotAhead(log[i].written.wm.value, log[j].written.wm.value)
  {
    RunSafe(start, acts);
    LogOrdered(start, Exec(Init(start), acts).log, i, j);
  }

  lemma LogOrdered(start: map<Key, Item>, log: seq<Commit>, i: nat, j: nat)
    requires Linked(start, log) && i < j < |log| && log[i].key == log[j].key
    ensures && log[i].written.wm.Some? && log[j].written.wm.Some?
            && NotAhead(log[i].written.wm.value, log[j].written.wm.value)
  {
    assert LinkedAt(start, log, i);
    assert LinkedAt(start, log, j);
    FirstReadable(start, log, log[i].key, i);
    Monotone(start, log, log[i].key, i + 1, j);
  }

  /** A lost acknowledgement can make a writer commit the same watermark twice only if, in
      between, the key moved to a different cursor at the same epoch and the same time. */
  lemma RecommitOnlyOverCursorMove(start: map<Key, Item>, acts: seq<Action>, i: nat, j: nat)
    requires i < j < |Exec(Init(start), acts).log|
    requires var log := Exec(Init(start), acts).log;
             log[i].key == log[j].key && log[i].written.wm == log[j].written.wm
    ensures var log := Exec(Init(start), acts).log;
            && log[i].written.wm.Some? && log[j].prior.Some? && log[j].prior.value.wm.Some?
            && var w := log[i].written.wm.value;
               var p := log[j].prior.value.wm.value;
               p.epoch == w.epoch && p.time == w.time && p.cursor != w.cursor
  {
    RunSafe(start, acts);
    var log := Exec(Init(start), acts).log;
    assert LinkedAt(start, log, i);
    assert LinkedAt(start, log, j);
    FirstReadable(start, log, log[i].key, i);
    Monotone(start, log, log[i].key, i + 1, j);
    Frame(start, log, log[i].key, i + 1, j);
    KeyPresent(start, log, log[i].key, i + 1, j);
  }

  lemma {:induction false} KeyPresent(start: map<Key, Item>, log: seq<Commit>, key: Key, m: nat, n: nat)
    requires m <= n <= |log| && ItemAt(start, log, key, m).Some?
    ensures ItemAt(start, log, key, n).Some?
  {
    if m < n { KeyPresent(start, log, key, m, n - 1); }
  }

  lemma {:induction false} FirstReadable(start: map<Key, Item>, log: seq<Commit>, key: Key, i: nat)
    requires Linked(start, log) && i < |log| && log[i].key == key
    ensures Readable(Lookup(start, key))
  {
    if CommitsOn(log, key, i) == 0 {
      Frame(start, log, key, 0, i);
      assert LinkedAt(start, log, i);
    } else {
      var k := SomeCommit(log, key, i);
      FirstReadable(start, log, key, k);
    }
  }

  lemma {:induction false} SomeCommit(log: seq<Commit>, key: Key, n: nat) returns (k: nat)
    requires n <= |log| && CommitsOn(log, key, n) > 0
    ensures k < n && log[k].key == key
  {
    if log[n - 1].key == key {
      k := n - 1;
    } else {
      k := SomeCommit(log, key, n - 1);
    }
  }

  /** A present but unreadable item is never overwritten, in any run. */
  lemma CorruptNeverClobbered(start: map<Key, Item>, acts: seq<Action>, key: Key)
    requires !Readable(Lookup(start, key))
    ensures Lookup(Exec(Init(start), acts).items, key) == Lookup(start, key)
    ensures forall i :: 0 <= i < |Exec(Init(start), acts).log| ==> Exec(Init(start), acts).log[i].key != key
  {
    RunSafe(start, acts);
    var log := Exec(Init(start), acts).log;
    forall i | 0 <= i < |log| ensures log[i].key != key {
      if log[i].key == key { FirstReadable(start, log, key, i); }
    }
    if CommitsOn(log, key, |log|) > 0 {
      var k := SomeCommit(log, key, |log|);
    }
    Frame(start, log, key, 0, |log|);
  }

  // ----- which saves take effect -----

  /** The watermark that an item stands for: an absent one for the zero watermark. */
  predicate Stands(found: Option<Item>, stored: Wm) {
    if found.None? then stored == Watermark(ZERO_TIME, "", 0)
    else found.value.wm == Some(stored) && !found.value.version.BadType?
  }

  /** A get, its put and the delivery of that put with nothing in between. */
  function AtOnce(s: State, key: Key, w: Wm): State
    requires Readable(Lookup(s.items, key))
  {
    var found := Lookup(s.items, key);
    Next(Next(s, GetThenPut(key, w)), Deliver(Put(key, ConditionFor(found), w, NextVersion(found), found)))
  }

  /** Commit `i` is the last one on the key. */
  predicate LastOn(log: seq<Commit>, key: Key, i: nat) {
    i < |log| && log[i].key == key && CommitsOn(log, key, i + 1) == CommitsOn(log, key, |log|)
  }

  lemma LastStands(start: map<Key, Item>, s: State, key: Key, i: nat)
    requires Inv(start, s) && LastOn(s.log, key, i)
    ensures s.log[i].written.wm.Some? && Stands(Lookup(s.items, key), s.log[i].written.wm.value)
  {
    Frame(start, s.log, key, i + 1, |s.log|);
    assert LinkedAt(start, s.log, i);
  }

  lemma AtOnceIff(start: map<Key, Item>, s: State, key: Key, w: Wm, stored: Wm)
    requires Inv(start, s) && Stands(Lookup(s.items, key), stored)
    ensures var t := AtOnce(s, key, w);
            if Due(stored, w) then
              && t.items.Keys == s.items.Keys + {key} && t.items[key].wm == Some(w)
              && (forall k :: k in s.items && k != key ==> t.items[k] == s.items[k])
              && |t.log| == |s.log| + 1
            else t == s
  {
    AcceptsIff(stored, w);
    var found := Lookup(s.items, key);
    var p := Put(key, ConditionFor(found), w, NextVersion(found), found);
    assert p in s.puts ==> PutOk(p, s.items);
  }

  /** In every run, a save that nothing disturbs takes effect if and only if it is due. */
  lemma UndisturbedSaveIff(start: map<Key, Item>, acts: seq<Action>, key: Key, w: Wm, stored: Wm)
    requires Stands(Lookup(Exec(Init(start), acts).items, key), stored)
    ensures var s := Exec(Init(start), acts);
            var t := AtOnce(s, key, w);
            if Due(stored, w) then Stands(Lookup(t.items, key), w) && |t.log| == |s.log| + 1 else t == s
  {
    RunSafe(start, acts);
    AtOnceIff(start, Exec(Init(start), acts), key, w, stored);
  }

  // ----- `Save` itself, with other writers running between its get and its put -----

  datatype SaveResult = Saved | Unencodable | StaleWrite | RefusedCorrupt | Exhausted | TransportError

  ghost predicate Reaches(s: State, t: State) {
    exists acts :: t == Exec(s, acts)
  }

  lemma ReachesTrans(s: State, t: State, u: State)
    requires Reaches(s, t) && Reaches(t, u)
    ensures Reaches(s, u)
  {
    var a :| t == Exec(s, a);
    var b :| u == Exec(t, b);
    ExecCompose(s, a, b);
  }

  lemma ReachesNext(s: State, a: Action)
    ensures Reaches(s, Next(s, a))
  {
    assert Exec(s, []) == s;
    assert [a][..0] == [];
    assert Exec(s, [a]) == Next(s, a);
  }

  lemma ReachesInv(start: map<Key, Item>, s: State, t: State)
    requires Inv(start, s) && Reaches(s, t)
    ensures Inv(start, t) && s.log <= t.log && s.puts <= t.puts
  {
    var acts :| t == Exec(s, acts);
    ExecInv(start, s, acts);
    ExecPuts(s, acts);
  }

  lemma {:induction false} ExecPuts(s: State, acts: seq<Action>)
    ensures s.puts <= Exec(s, acts).puts
  {
    if acts != [] { ExecPuts(s, acts[..|acts| - 1]); }
  }

  lemma {:induction false} CommitsOnPrefix(a: seq<Commit>, b: seq<Commit>, key: Key, n: nat)
    requires n <= |a| && a <= b
    ensures CommitsOn(a, key, n) == CommitsOn(b, key, n)
  {
    if n > 0 { CommitsOnPrefix(a, b, key, n - 1); }
  }

  /** How many commits on `key` the log `b` holds beyond its prefix `a`. */
  function NewCommits(a: seq<Commit>, b: seq<Commit>, key: Key): int
    requires |a| <= |b|
  {
    CommitsOn(b, key, |b|) - CommitsOn(b, key, |a|)
  }

  lemma NewCommitsAdd(a: seq<Commit>, b: seq<Commit>, c: seq<Commit>, key: Key)
    requires a <= b <= c
    ensures NewCommits(a, c, key) == NewCommits(a, b, key) + NewCommits(b, c, key)
  {
    CommitsOnPrefix(b, c, key, |b|);
    CommitsOnPrefix(b, c, key, |a|);
  }

  /** `w` was committed to `key` after the log was `a`. */
  ghost predicate CommittedSince(a: seq<Commit>, b: seq<Commit>, key: Key, w: Wm) {
    exists i :: |a| <= i < |b| && b[i].key == key && b[i].written.wm == Some(w)
  }

  /** After the log was `a` the table held a value of `key` against which the fence rejects `w`. */
  ghost predicate FencedSince(start: map<Key, Item>, a: seq<Commit>, b: seq<Commit>, key: Key, w: Wm) {
    exists n: nat :: |a| <= n <= |b| && Readable(ItemAt(start, b, key, n)) &&
                     !Accepts(StoredWm(ItemAt(start, b, key, n)), w)
  }

  class Table {
    ghost const start: map<Key, Item>
    /** No other writer is active and no request fails. */
    const quiet: bool
    var s: State

    ghost predicate Valid() reads this { Inv(start, s) }

    constructor (items: map<Key, Item>, quiet: bool)
      ensures start == items && this.quiet == quiet && s == Init(items) && Valid()
    {
      start, this.quiet := items, quiet;
      s := Init(items);
    }

    /** The other writers and the network: any number of protocol actions. */
    method Others()
      requires Valid()
      modifies this
      ensures Valid() && Reaches(old(s), s) && (quiet ==> s == old(s))
    {
      assert Exec(s, []) == s;
      var rounds: int := *;
      for i := 0 to if quiet || rounds < 0 then 0 else rounds
        invariant Valid() && Reaches(old(s), s)
        invariant quiet ==> s == old(s)
      {
        ghost var t := s;
        var arrives := Flaky();
        if arrives && s.puts != {} {
          var p :| p in s.puts;
          Move(Deliver(p));
        } else {
          var key: Key, w: Wm := *, *;
          Move(GetThenPut(key, w));
        }
        ReachesTrans(old(s), t, s);
      }
    }

    method Move(a: Action)
      requires Valid()
      modifies this
      ensures s == Next(old(s), a) && Valid() && Reaches(old(s), s)
    {
      NextInv(start, s, a);
      ReachesNext(s, a);
      s := Next(s, a);
    }

    /** An unpredictable choice of the network. */
    method Flaky() returns (failed: bool)
      ensures quiet ==> !failed
    {
      failed := *;
      if quiet { failed := false; }
    }

    ghost predicate Grown(before: State) reads this {
      Valid() && Reaches(before, s) && before.log <= s.log
    }

    /** One get, fence and conditional put, with the others running before each of the two
        requests.  `r` is `None` when the condition failed. */
    method Attempt(key: Key, w: Wm) returns (r: Option<SaveResult>)
      requires Valid() && CheckEncodable(w)
      modifies this
      ensures Grown(old(s))
      ensures r.Some? ==> r.value !in {Unencodable, Exhausted}
      ensures r == Some(Saved) ==> CommittedSince(old(s).log, s.log, key, w)
      ensures r == Some(StaleWrite) ==> FencedSince(start, old(s).log, s.log, key, w)
      ensures r == Some(RefusedCorrupt) ==> !Readable(Lookup(s.items, key))
      ensures r.None? ==> NewCommits(old(s).log, s.log, key) >= 1
      ensures quiet ==> Undisturbed(key, w, old(s), s, r)
    {
      Others();
      ReachesInv(start, old(s), s);
      var lost := Flaky();
      if lost { return Some(TransportError); }
      ghost var got := s;
      var prepared := Prepare(Lookup(s.items, key), key, w);
      if prepared.Corrupt? { return Some(RefusedCorrupt); }
      if prepared.Stale? {
        assert !Accepts(StoredWm(ItemAt(start, s.log, key, |s.log|)), w);
        return Some(StaleWrite);
      }
      Act(old(s), GetThenPut(key, w));
      ghost var sent := s;
      Others();
      Step(old(s), sent, s);
      ReachesInv(start, sent, s);
      lost := Flaky();
      if lost { return Some(TransportError); }
      var committed := Holds(prepared.put.cond, Lookup(s.items, key));
      ghost var n := |s.log|;
      Act(old(s), Deliver(prepared.put));
      if committed {
        assert s.log[n].key == key && s.log[n].written.wm == Some(w);
        return Some(Saved);
      }
      Contended(old(s).log, got, s, key);
      return None;
    }

    /** What an attempt that nothing disturbs comes to: refused as corrupt, saved if it is due, or stale. */
    ghost predicate Undisturbed(key: Key, w: Wm, s: State, t: State, r: Option<SaveResult>) {
      var found := Lookup(s.items, key);
      if !Readable(found) then r == Some(RefusedCorrupt) && t == s
      else if Due(StoredWm(found), w) then r == Some(Saved) && t == AtOnce(s, key, w)
      else r == Some(StaleWrite) && t == s
    }

    /** Success means that `w` was committed under the key during the call; a stale result means the
        fence rejected `w` against a value the table held during the call; giving up means at
        least six commits on the key meanwhile.  Undisturbed, the first attempt decides. */
    method Save(key: Key, w: Wm) returns (r: SaveResult)
      requires Valid()
      modifies this
      ensures Grown(old(s))
      ensures r.Unencodable? <==> !CheckEncodable(w)
      ensures r.Unencodable? ==> s == old(s)
      ensures r.Saved? ==> CommittedSince(old(s).log, s.log, key, w)
      ensures r.StaleWrite? ==> FencedSince(start, old(s).log, s.log, key, w)
      ensures r.RefusedCorrupt? ==> !Readable(Lookup(s.items, key))
      ensures r.Exhausted? ==> NewCommits(old(s).log, s.log, key) >= 6
      ensures quiet && CheckEncodable(w) ==> Undisturbed(key, w, old(s), s, Some(r))
    {
      assert Exec(s, []) == s;
      if !CheckEncodable(w) { return Unencodable; }
      var attempt := 0;
      while attempt < ATTEMPTS
        invariant 0 <= attempt <= ATTEMPTS
        invariant Grown(old(s))
        invariant NewCommits(old(s).log, s.log, key) >= attempt
        invariant quiet ==> attempt == 0 && s == old(s)
      {
        ghost var before := s;
        var done := Attempt(key, w);
        Step(old(s), before, s);
        if done.Some? { return done.value; }
        NewCommitsAdd(old(s).log, before.log, s.log, key);
        attempt := attempt + 1;
      }
      return Exhausted;
    }

    method Act(ghost before: State, a: Action)
      requires Grown(before)
      modifies this
      ensures s == Next(old(s), a) && Grown(before) && old(s).log <= s.log
    {
      ghost var t := s;
      s := Next(s, a);
      ReachesNext(t, a);
      Step(before, t, s);
    }

    lemma Step(s0: State, t: State, u: State)
      requires Inv(start, t) && Reaches(s0, t) && Reaches(t, u) && s0.log <= t.log
      ensures Inv(start, u) && Reaches(s0, u) && s0.log <= t.log <= u.log
    {
      ReachesTrans(s0, t, u);
      ReachesInv(start, t, u);
    }

    /** A failed condition means somebody committed to the key after this attempt's get. */
    lemma Contended(log0: seq<Commit>, got: State, now: State, key: Key)
      requires Inv(start, got) && Inv(start, now)
      requires log0 <= got.log <= now.log
      requires Lookup(got.items, key) != Lookup(now.items, key)
      ensures NewCommits(log0, now.log, key) >= 1
    {
      ReplayPrefix(start, got.log, now.log, |got.log|);
      Frame(start, now.log, key, |got.log|, |now.log|);
      Frame(start, now.log, key, |log0|, |got.log|);
    }
  }
}
