/** The ConfigMap checkpoint store (internal/checkpoint/configmap/configmap.go): every key lives in
    one object, and a save writes the WHOLE object back under its resource version.

    As in the DynamoDB store, a write request may reach the API server any number of times and in
    any order.  The JSON codec is a parameter, assumed to read back what it writes. */
module ConfigMapCheckpoint {
  import opened Model
  import opened Checkpoint

  type Key = string
  type Wm = Watermark<string>

  const ZERO_WM: Wm := Watermark(ZERO_TIME, "", 0)
  const MAX_BYTES := 900 * 1024

  datatype Codec = Codec(enc: Wm -> string, dec: string -> Option<Wm>)

  ghost predicate ValidCodec(c: Codec) {
    forall w :: CheckEncodable(w) ==> c.dec(c.enc(w)) == Some(w)
  }

  type Data = map<Key, string>

  datatype Object = Object(data: Data, version: int)

  /** `base` is the object the request was computed from; a create has none. */
  datatype Request = Request(base: Option<Object>, key: Key, wm: Wm, data: Data)

  datatype Commit = Commit(key: Key, wm: Wm, prior: Data, written: Data)

  datatype State = State(object_: Option<Object>, requests: set<Request>, log: seq<Commit>)

  datatype Action = GetThenWrite(key: Key, wm: Wm) | Deliver(request: Request)

  function DataOf(o: Option<Object>): Data { if o.Some? then o.value.data else map[] }

  predicate Readable(c: Codec, d: Data, key: Key) { key in d ==> c.dec(d[key]).Some? }

  function StoredWm(c: Codec, d: Data, key: Key): Wm
    requires Readable(c, d, key)
  {
    if key in d then c.dec(d[key]).value else ZERO_WM
  }

  ghost function Size(d: Data): nat {
    if d == map[] then 0
    else var k :| k in d; |k| + |d[k]| + Size(d - {k})
  }

  datatype Prepared = Send(request: Request) | Corrupt | Stale | TooLarge

  ghost function Prepare(c: Codec, o: Option<Object>, key: Key, w: Wm): Prepared {
    var d := DataOf(o);
    if !Readable(c, d, key) then Corrupt
    else if !Accepts(StoredWm(c, d, key), w) then Stale
    else
      var d' := d[key := c.enc(w)];
      if Size(d') > MAX_BYTES then TooLarge else Send(Request(o, key, w, d'))
  }

  /** Create succeeds only on an absent object, update only on the version it was read at. */
  predicate Succeeds(o: Option<Object>, q: Request) {
    if q.base.None? then o.None? else o.Some? && o.value.version == q.base.value.version
  }

  function NextVersion(o: Option<Object>): int { if o.Some? then o.value.version + 1 else 1 }

  ghost function Next(c: Codec, s: State, a: Action): State {
    match a
    case GetThenWrite(key, w) =>
      var r := Prepare(c, s.object_, key, w);
      if CheckEncodable(w) && r.Send? then s.(requests := s.requests + {r.request}) else s
    case Deliver(q) =>
      if q in s.requests && Succeeds(s.object_, q) then
        State(Some(Object(q.data, NextVersion(s.object_))), s.requests,
              s.log + [Commit(q.key, q.wm, DataOf(s.object_), q.data)])
      else s
  }

  ghost function Exec(c: Codec, s: State, acts: seq<Action>): State {
    if acts == [] then s else Next(c, Exec(c, s, acts[..|acts| - 1]), acts[|acts| - 1])
  }

  function Init(o: Option<Object>): State { State(o, {}, []) }

  // ----- invariant -----

  predicate Superseded(base: Option<Object>, now: Option<Object>) {
    base == now || (now.Some? && (base.Some? ==> base.value.version < now.value.version))
  }

  predicate RequestOk(c: Codec, q: Request, now: Option<Object>) {
    && Readable(c, DataOf(q.base), q.key)
    && Accepts(StoredWm(c, DataOf(q.base), q.key), q.wm)
    && CheckEncodable(q.wm)
    && q.data == DataOf(q.base)[q.key := c.enc(q.wm)]
    && Superseded(q.base, now)
  }

  /** The data after the first `n` commits. */
  function DataAt(start: Data, log: seq<Commit>, n: nat): Data
    requires n <= |log|
  {
    if n == 0 then start else log[n - 1].written
  }

  /** A commit replaced exactly the current data, passed the fence against its own key, and changed
      no other key. */
  predicate CommitOk(c: Codec, d: Data, x: Commit) {
    && x.prior == d
    && Readable(c, d, x.key)
    && Accepts(StoredWm(c, d, x.key), x.wm)
    && CheckEncodable(x.wm)
    && x.written == d[x.key := c.enc(x.wm)]
  }

  predicate LinkedAt(c: Codec, start: Data, log: seq<Commit>, i: nat)
    requires i < |log|
  {
    CommitOk(c, DataAt(start, log, i), log[i])
  }

  ghost predicate Linked(c: Codec, start: Data, log: seq<Commit>) {
    forall i: nat {:trigger LinkedAt(c, start, log, i)} :: i < |log| ==> LinkedAt(c, start, log, i)
  }

  ghost predicate Inv(c: Codec, start: Data, s: State) {
    && DataOf(s.object_) == DataAt(start, s.log, |s.log|)
    && Linked(c, start, s.log)
    && forall q :: q in s.requests ==> RequestOk(c, q, s.object_)
  }

  lemma NextInv(c: Codec, start: Data, s: State, a: Action)
    requires Inv(c, start, s)
    ensures Inv(c, start, Next(c, s, a)) && s.log <= Next(c, s, a).log
  {
    var t := Next(c, s, a);
    if t.log != s.log {
      assert a.request.base == s.object_;
      forall i: nat | i < |t.log| ensures LinkedAt(c, start, t.log, i) {
        if i < |s.log| {
          assert LinkedAt(c, start, s.log, i);
        }
      }
    }
  }

  /** Every run: each committed write replaced exactly the object it was fenced against. */
  lemma {:induction false} RunSafe(c: Codec, o: Option<Object>, acts: seq<Action>)
    ensures Inv(c, DataOf(o), Exec(c, Init(o), acts))
  {
    if acts != [] {
      RunSafe(c, o, acts[..|acts| - 1]);
      NextInv(c, DataOf(o), Exec(c, Init(o), acts[..|acts| - 1]), acts[|acts| - 1]);
    }
  }

  /** A save never changes another key, although it writes all of them back. */
  lemma OtherKeysUntouched(c: Codec, o: Option<Object>, acts: seq<Action>, i: nat, key: Key)
    requires i < |Exec(c, Init(o), acts).log|
    requires key != Exec(c, Init(o), acts).log[i].key
    ensures var x := Exec(c, Init(o), acts).log[i];
            && (key in x.written <==> key in x.prior)
            && (key in x.prior ==> x.written[key] == x.prior[key])
  {
    RunSafe(c, o, acts);
    var log := Exec(c, Init(o), acts).log;
    assert LinkedAt(c, DataOf(o), log, i);
  }

  lemma {:induction false} Monotone(c: Codec, start: Data, log: seq<Commit>, key: Key, m: nat, n: nat)
    requires ValidCodec(c) && Linked(c, start, log) && m <= n <= |log|
    requires Readable(c, DataAt(start, log, m), key)
    ensures Readable(c, DataAt(start, log, n), key)
    ensures NotAhead(StoredWm(c, DataAt(start, log, m), key), StoredWm(c, DataAt(start, log, n), key))
  {
    if m < n {
      Monotone(c, start, log, key, m, n - 1);
      assert LinkedAt(c, start, log, n - 1);
    }
  }

  /** On one key, no later commit comes from a lower epoch or an earlier time. */
  lemma CommitsOrdered(c: Codec, o: Option<Object>, acts: seq<Action>, i: nat, j: nat)
    requires ValidCodec(c) && i < j < |Exec(c, Init(o), acts).log|
    requires Exec(c, Init(o), acts).log[i].key == Exec(c, Init(o), acts).log[j].key
    ensures NotAhead(Exec(c, Init(o), acts).log[i].wm, Exec(c, Init(o), acts).log[j].wm)
  {
    RunSafe(c, o, acts);
    var log := Exec(c, Init(o), acts).log;
    assert LinkedAt(c, DataOf(o), log, i);
    assert LinkedAt(c, DataOf(o), log, j);
    Monotone(c, DataOf(o), log, log[i].key, i + 1, j);
  }

  /** In every run a key holds what its last commit wrote, or its initial text: commits on other
      keys, including those computed from old snapshots, never take it back. */
  lemma {:induction false} LastCommitStands(c: Codec, start: Data, log: seq<Commit>, key: Key, m: nat, n: nat)
    requires Linked(c, start, log) && m <= n <= |log|
    requires forall i :: m <= i < n ==> log[i].key != key
    ensures key in DataAt(start, log, m) <==> key in DataAt(start, log, n)
    ensures key in DataAt(start, log, m) ==> DataAt(start, log, m)[key] == DataAt(start, log, n)[key]
  {
    if m < n {
      LastCommitStands(c, start, log, key, m, n - 1);
      assert LinkedAt(c, start, log, n - 1);
    }
  }

  // ----- which saves take effect -----

  /** The watermark that the data hold for the key: the zero watermark when there is no entry. */
  predicate Stands(c: Codec, d: Data, key: Key, stored: Wm) {
    if key in d then c.dec(d[key]) == Some(stored) else stored == Watermark(ZERO_TIME, "", 0)
  }

  ghost predicate Fits(c: Codec, d: Data, key: Key, w: Wm) { Size(d[key := c.enc(w)]) <= 900 * 1024 }

  /** A get, its write and the delivery of that write with nothing in between. */
  ghost function AtOnce(c: Codec, s: State, key: Key, w: Wm): State {
    var d := DataOf(s.object_)[key := c.enc(w)];
    Next(c, Next(c, s, GetThenWrite(key, w)), Deliver(Request(s.object_, key, w, d)))
  }

  lemma AtOnceIff(c: Codec, start: Data, s: State, key: Key, w: Wm, stored: Wm)
    requires Inv(c, start, s) && Stands(c, DataOf(s.object_), key, stored) && Fits(c, DataOf(s.object_), key, w)
    ensures var t := AtOnce(c, s, key, w);
            if Due(stored, w) then
              DataOf(t.object_) == DataOf(s.object_)[key := c.enc(w)] && |t.log| == |s.log| + 1
            else t == s
  {
    AcceptsIff(stored, w);
    var q := Request(s.object_, key, w, DataOf(s.object_)[key := c.enc(w)]);
    assert q in s.requests ==> RequestOk(c, q, s.object_);
  }

  /** In every run, a save that nothing disturbs, and that leaves the object within its size limit, takes
      effect if and only if it is due; it is then what the key holds. */
  lemma UndisturbedSaveIff(c: Codec, o: Option<Object>, acts: seq<Action>, key: Key, w: Wm, stored: Wm)
    requires ValidCodec(c)
    requires var d := DataOf(Exec(c, Init(o), acts).object_); Stands(c, d, key, stored) && Fits(c, d, key, w)
    ensures var s := Exec(c, Init(o), acts);
            var t := AtOnce(c, s, key, w);
            if Due(stored, w) then Stands(c, DataOf(t.object_), key, w) && |t.log| == |s.log| + 1 else t == s
  {
    RunSafe(c, o, acts);
    AtOnceIff(c, DataOf(o), Exec(c, Init(o), acts), key, w, stored);
  }

  // ----- the store object -----

  const ATTEMPTS := 6

  datatype SaveResult = Saved | Unencodable | StaleWrite | RefusedCorrupt | OverCap | Exhausted | TransportError

  ghost predicate Reaches(c: Codec, s: State, t: State) {
    exists acts :: t == Exec(c, s, acts)
  }

  lemma {:induction false} ExecCompose(c: Codec, s: State, a: seq<Action>, b: seq<Action>)
    ensures Exec(c, Exec(c, s, a), b) == Exec(c, s, a + b)
  {
    if b == [] {
      assert a + b == a;
    } else {
      ExecCompose(c, s, a, b[..|b| - 1]);
      assert (a + b)[..|a + b| - 1] == a + b[..|b| - 1];
    }
  }

  lemma {:induction false} ExecInv(c: Codec, start: Data, s: State, acts: seq<Action>)
    requires Inv(c, start, s)
    ensures Inv(c, start, Exec(c, s, acts)) && s.log <= Exec(c, s, acts).log && s.requests <= Exec(c, s, acts).requests
  {
    if acts != [] {
      ExecInv(c, start, s, acts[..|acts| - 1]);
      NextInv(c, start, Exec(c, s, acts[..|acts| - 1]), acts[|acts| - 1]);
    }
  }

  /** `t` is a later state of a run through `s`. */
  ghost predicate Later(c: Codec, start: Data, s: State, t: State) {
    Inv(c, start, t) && Reaches(c, s, t) && s.log <= t.log && s.requests <= t.requests
  }

  lemma LaterSelf(c: Codec, start: Data, s: State)
    requires Inv(c, start, s)
    ensures Later(c, start, s, s)
  {
    assert Exec(c, s, []) == s;
  }

  lemma LaterNext(c: Codec, start: Data, s: State, t: State, a: Action)
    requires Later(c, start, s, t)
    ensures Later(c, start, s, Next(c, t, a)) && t.log <= Next(c, t, a).log
  {
    assert Exec(c, t, []) == t;
    assert [a][..0] == [];
    assert Exec(c, t, [a]) == Next(c, t, a);
    LaterTrans(c, start, s, t, Next(c, t, a));
  }

  lemma LaterTrans(c: Codec, start: Data, s: State, t: State, u: State)
    requires Later(c, start, s, t) && Reaches(c, t, u)
    ensures Later(c, start, s, u) && t.log <= u.log && t.requests <= u.requests
  {
    var a :| t == Exec(c, s, a);
    var b :| u == Exec(c, t, b);
    ExecCompose(c, s, a, b);
    ExecInv(c, start, t, b);
  }

  lemma {:induction false} SizeAny(d: Data, k: Key)
    requires k in d
    ensures Size(d) == |k| + |d[k]| + Size(d - {k})
  {
    var j :| j in d && Size(d) == |j| + |d[j]| + Size(d - {j});
    if j != k {
      SizeAny(d - {j}, k);
      SizeAny(d - {k}, j);
      assert d - {j} - {k} == d - {k} - {j};
    }
  }

  method DataBytes(d: Data) returns (n: nat)
    ensures n == Size(d)
  {
    n := 0;
    var rest := d;
    while rest != map[]
      invariant n + Size(rest) == Size(d)
      decreases |rest|
    {
      var k :| k in rest;
      SizeAny(rest, k);
      n := n + |k| + |rest[k]|;
      rest := rest - {k};
    }
  }

  /** `w` was committed to `key` after the log was `a`. */
  ghost predicate CommittedSince(a: seq<Commit>, b: seq<Commit>, key: Key, w: Wm) {
    exists i :: |a| <= i < |b| && b[i].key == key && b[i].wm == w
  }

  /** After the log was `a` the object held a value of `key` against which the fence rejects `w`. */
  ghost predicate FencedSince(c: Codec, start: Data, a: seq<Commit>, b: seq<Commit>, key: Key, w: Wm) {
    exists n: nat :: |a| <= n <= |b| && Readable(c, DataAt(start, b, n), key)
                     && !Accepts(StoredWm(c, DataAt(start, b, n), key), w)
  }

  class Store {
    const codec: Codec
    ghost const start: Data
    /** No other writer is active and no request fails. */
    const quiet: bool
    var s: State

    ghost predicate Valid() reads this { Inv(codec, start, s) }

    constructor (codec: Codec, o: Option<Object>, quiet: bool)
      ensures this.codec == codec && start == DataOf(o) && this.quiet == quiet && s == Init(o) && Valid()
    {
      this.codec, start, this.quiet, s := codec, DataOf(o), quiet, Init(o);
    }

    /** The other writers and the network: any number of protocol actions. */
    method Others(ghost before: State)
      requires Later(codec, start, before, s)
      modifies this
      ensures Later(codec, start, before, s) && old(s).requests <= s.requests
      ensures if s.object_ == old(s).object_ then old(s).log <= s.log else old(s).log < s.log
      ensures quiet ==> s == old(s)
    {
      var rounds: int := *;
      for i := 0 to if quiet || rounds < 0 then 0 else rounds
        invariant quiet ==> s == old(s)
        invariant Later(codec, start, before, s) && old(s).requests <= s.requests
        invariant if s.object_ == old(s).object_ then old(s).log <= s.log else old(s).log < s.log
      {
        var arrives := Flaky();
        if arrives { Arrive(before); } else { Prepares(before); }
      }
    }

    /** A request that is under way takes effect, or is refused. */
    method Arrive(ghost before: State)
      requires Later(codec, start, before, s)
      modifies this
      ensures Later(codec, start, before, s) && s.requests == old(s).requests
      ensures s == old(s) || old(s).log < s.log
    {
      if s.requests != {} {
        var q :| q in s.requests;
        LaterNext(codec, start, before, s, Deliver(q));
        if Succeeds(s.object_, q) {
          s := State(Some(Object(q.data, NextVersion(s.object_))), s.requests,
                     s.log + [Commit(q.key, q.wm, DataOf(s.object_), q.data)]);
        }
      }
    }

    /** Some writer reads the object and sends its write. */
    method Prepares(ghost before: State)
      requires Later(codec, start, before, s)
      modifies this
      ensures Later(codec, start, before, s) && old(s).requests <= s.requests
      ensures s.object_ == old(s).object_ && s.log == old(s).log
    {
      var key: Key, w: Wm := *, *;
      if CheckEncodable(w) {
        var p := Compute(key, w);
        LaterNext(codec, start, before, s, GetThenWrite(key, w));
        if p.Send? { s := s.(requests := s.requests + {p.request}); }
      }
    }

    method Flaky() returns (failed: bool)
      ensures quiet ==> !failed
    {
      failed := *;
      if quiet { failed := false; }
    }

    /** The read half: what `Save` makes of the object it got. */
    method Compute(key: Key, w: Wm) returns (p: Prepared)
      ensures p == Prepare(codec, s.object_, key, w)
    {
      var d := if s.object_.Some? then s.object_.value.data else map[];
      if key in d && codec.dec(d[key]).None? { return Corrupt; }
      var stored := if key in d then codec.dec(d[key]).value else ZERO_WM;
      if !Accepts(stored, w) { return Stale; }
      d := d[key := codec.enc(w)];
      var size := DataBytes(d);
      if size > MAX_BYTES { return TooLarge; }
      return Send(Request(s.object_, key, w, d));
    }

    /** One get and one conditional write, with the others running before each; `None` is a conflict. */
    method Attempt(key: Key, w: Wm) returns (r: Option<SaveResult>)
      requires Valid() && CheckEncodable(w)
      modifies this
      ensures Later(codec, start, old(s), s)
      ensures r.Some? ==> r.value !in {Unencodable, Exhausted}
      ensures r == Some(Saved) ==> CommittedSince(old(s).log, s.log, key, w)
      ensures r == Some(StaleWrite) ==> FencedSince(codec, start, old(s).log, s.log, key, w)
      ensures r == Some(RefusedCorrupt) ==> !Readable(codec, DataOf(s.object_), key)
      ensures r.None? ==> |s.log| > |old(s).log|
      ensures quiet ==> Undisturbed(key, w, old(s), s, r)
    {
      LaterSelf(codec, start, s);
      Others(old(s));
      var lost := Flaky();
      if lost { return Some(TransportError); }
      var p := Compute(key, w);
      if p.Corrupt? { return Some(RefusedCorrupt); }
      if p.Stale? {
        assert !Accepts(StoredWm(codec, DataAt(start, s.log, |s.log|), key), w);
        return Some(StaleWrite);
      }
      if p.TooLarge? { return Some(OverCap); }
      var q := p.request;
      ghost var got := s;
      LaterNext(codec, start, old(s), s, GetThenWrite(key, w));
      s := s.(requests := s.requests + {q});
      Others(old(s));
      lost := Flaky();
      if lost { return Some(TransportError); }
      if Succeeds(s.object_, q) {
        ghost var n := |s.log|;
        LaterNext(codec, start, old(s), s, Deliver(q));
        s := State(Some(Object(q.data, NextVersion(s.object_))), s.requests,
                   s.log + [Commit(q.key, q.wm, DataOf(s.object_), q.data)]);
        assert s.log[n].key == key && s.log[n].wm == w;
        return Some(Saved);
      }
      return None;
    }

    /** What an attempt that nothing disturbs comes to: refused as corrupt, stale unless it is due, refused
        over the size limit, or saved. */
    ghost predicate Undisturbed(key: Key, w: Wm, s: State, t: State, r: Option<SaveResult>) {
      var d := DataOf(s.object_);
      if !Readable(codec, d, key) then r == Some(RefusedCorrupt) && t == s
      else if !Due(StoredWm(codec, d, key), w) then r == Some(StaleWrite) && t == s
      else if !Fits(codec, d, key, w) then r == Some(OverCap) && t == s
      else r == Some(Saved) && t == AtOnce(codec, s, key, w)
    }

    /** Success means that `w` was committed under the key during the call; a stale result means the fence
        rejected `w` against a value the object held during the call; giving up means that at least
        six commits changed the object meanwhile.  Undisturbed, the first attempt decides. */
    method Save(key: Key, w: Wm) returns (r: SaveResult)
      requires Valid()
      modifies this
      ensures Later(codec, start, old(s), s)
      ensures r.Unencodable? <==> !CheckEncodable(w)
      ensures r.Unencodable? ==> s == old(s)
      ensures r.Saved? ==> CommittedSince(old(s).log, s.log, key, w)
      ensures r.StaleWrite? ==> FencedSince(codec, start, old(s).log, s.log, key, w)
      ensures r.RefusedCorrupt? ==> !Readable(codec, DataOf(s.object_), key)
      ensures r.Exhausted? ==> |s.log| >= |old(s).log| + 6
      ensures quiet && CheckEncodable(w) ==> Undisturbed(key, w, old(s), s, Some(r))
    {
      LaterSelf(codec, start, s);
      if !CheckEncodable(w) { return Unencodable; }
      for attempt := 0 to ATTEMPTS
        invariant Later(codec, start, old(s), s) && |s.log| >= |old(s).log| + attempt
        invariant quiet ==> attempt == 0 && s == old(s)
      {
        ghost var before := s;
        var done := Attempt(key, w);
        LaterTrans(codec, start, old(s), before, s);
        if done.Some? { return done.value; }
      }
      return Exhausted;
    }
  }
}
