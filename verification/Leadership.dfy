/** Leader election over one DynamoDB lock item, composed with the checkpoint fence
    (internal/coordinate/dynamodb/dynamodb.go, internal/checkpoint/dynamodb/dynamodb.go,
    internal/schedule/runner.go).

    Any number of replicas, with clocks that need not agree, send acquire and renew updates and
    checkpoint puts.  A request may reach the table any number of times and at any moment, and a
    reply may be lost.  A demoted replica keeps its term's epoch and may go on sending. */
module Leadership {
  import opened Model
  import opened Checkpoint
  import DynamoCheckpoint

  type Id = string
  type Wm = Watermark<string>

  /** A hand-seeded or half-written item may lack any attribute. */
  datatype Lock = Lock(holder: Option<Id>, expiresAtMs: Option<int>, fence: Option<int>)

  /** One committed acquisition: the replica and the fence it was given. */
  datatype Grant = Grant(id: Id, fence: int)

  datatype Request =
    | Acquire(id: Id, nowMs: int, expMs: int)
    | Renew(id: Id, fence: int, expMs: int)

  /** A committed renewal, with the number of grants there were at that moment. */
  datatype Renewal = Renewal(grant: Grant, at: nat)

  /** An update of the lock item that took effect; `nowMs` is the clock an acquire was sent with. */
  datatype Write = Write(id: Id, fence: int, expMs: int, nowMs: Option<int>)

  datatype State = State(
    lock: Option<Lock>, requests: set<Request>, grants: seq<Grant>, renewals: seq<Renewal>,
    writes: seq<Write>, terms: set<Grant>, ckpt: DynamoCheckpoint.State)

  datatype Action =
    | SendAcquire(id: Id, nowMs: int, expMs: int)
    | SendRenew(term: Grant, expMs: int)
    | DeliverLock(request: Request)
    | EnterTerm(grant: Grant)
    | StartSave(term: Grant, key: string, time: int, cursor: string)
    | DeliverPut(put: DynamoCheckpoint.Put)

  /** The acquire condition: no item, no expiry, expired, or already ours. */
  predicate Acquirable(lock: Option<Lock>, id: Id, nowMs: int) {
    || lock.None?
    || lock.value.expiresAtMs.None?
    || lock.value.expiresAtMs.value < nowMs
    || lock.value.holder == Some(id)
  }

  /** `ADD fence :one` starts from 0 when the attribute is missing. */
  function BumpedFence(lock: Option<Lock>): int {
    if lock.Some? && lock.value.fence.Some? then lock.value.fence.value + 1 else 1
  }

  predicate Renewable(lock: Option<Lock>, id: Id, fence: int) {
    lock.Some? && lock.value.holder == Some(id) && lock.value.fence == Some(fence)
  }

  function Apply(s: State, q: Request): State {
    match q
    case Acquire(id, nowMs, expMs) =>
      if Acquirable(s.lock, id, nowMs) then
        var f := BumpedFence(s.lock);
        s.(lock := Some(Lock(Some(id), Some(expMs), Some(f))), grants := s.grants + [Grant(id, f)],
           writes := s.writes + [Write(id, f, expMs, Some(nowMs))])
      else s
    case Renew(id, fence, expMs) =>
      if Renewable(s.lock, id, fence) then
        s.(lock := Some(s.lock.value.(expiresAtMs := Some(expMs))),
           renewals := s.renewals + [Renewal(Grant(id, fence), |s.grants|)],
           writes := s.writes + [Write(id, fence, expMs, None)])
      else s
  }

  function Next(s: State, a: Action): State {
    match a
    case SendAcquire(id, nowMs, expMs) => s.(requests := s.requests + {Acquire(id, nowMs, expMs)})
    case SendRenew(term, expMs) =>
      if term in s.terms then s.(requests := s.requests + {Renew(term.id, term.fence, expMs)}) else s
    case DeliverLock(q) => if q in s.requests then Apply(s, q) else s
    case EnterTerm(g) => if g in s.grants then s.(terms := s.terms + {g}) else s
    case StartSave(term, key, time, cursor) =>
      if term in s.terms then
        s.(ckpt := DynamoCheckpoint.Next(s.ckpt,
             DynamoCheckpoint.GetThenPut(key, Watermark(time, cursor, term.fence))))
      else s
    case DeliverPut(p) => s.(ckpt := DynamoCheckpoint.Next(s.ckpt, DynamoCheckpoint.Deliver(p)))
  }

  function Exec(s: State, acts: seq<Action>): State {
    if acts == [] then s else Next(Exec(s, acts[..|acts| - 1]), acts[|acts| - 1])
  }

  function Init(lock: Option<Lock>, items: map<string, DynamoCheckpoint.Item>): State {
    State(lock, {}, [], [], [], {}, DynamoCheckpoint.Init(items))
  }

  // ----- the invariant -----

  predicate Increasing(grants: seq<Grant>) {
    forall i, j :: 0 <= i < j < |grants| ==> grants[i].fence < grants[j].fence
  }

  predicate FromTerm(terms: set<Grant>, epoch: int) {
    exists g :: g in terms && g.fence == epoch
  }

  /** The lock item carries the latest grant, every term and request goes back to a grant, and
      every checkpoint write goes back to a term. */
  ghost predicate Inv(items: map<string, DynamoCheckpoint.Item>, s: State) {
    && Increasing(s.grants)
    && (s.grants != [] ==>
          var last := s.grants[|s.grants| - 1];
          Renewable(s.lock, last.id, last.fence))
    && (forall g :: g in s.terms ==> g in s.grants)
    && (forall q :: q in s.requests && q.Renew? ==> Grant(q.id, q.fence) in s.grants)
    && (forall i :: 0 <= i < |s.renewals| ==> RenewalOk(s.grants, s.renewals[i]))
    && DynamoCheckpoint.Inv(items, s.ckpt)
    && (forall p :: p in s.ckpt.puts ==> FromTerm(s.terms, p.wm.epoch))
    && (forall i :: 0 <= i < |s.ckpt.log| ==> CommitFromTerm(s.terms, s.ckpt.log[i]))
  }

  /** A renewal was committed for the acquisition that was the latest one at that moment. */
  predicate RenewalOk(grants: seq<Grant>, r: Renewal) {
    0 < r.at <= |grants| && grants[r.at - 1] == r.grant
  }

  predicate CommitFromTerm(terms: set<Grant>, c: DynamoCheckpoint.Commit) {
    c.written.wm.Some? && FromTerm(terms, c.written.wm.value.epoch)
  }

  lemma LockStep(items: map<string, DynamoCheckpoint.Item>, s: State, q: Request)
    requires Inv(items, s) && q in s.requests
    ensures Inv(items, Apply(s, q))
  {
    var t := Apply(s, q);
    if q.Renew? && t != s {
      // the renewer's fence equals the lock's, which is the latest grant's
      var g := Grant(q.id, q.fence);
      var k :| 0 <= k < |s.grants| && s.grants[k] == g;
      assert g == s.grants[|s.grants| - 1];
      forall i | 0 <= i < |t.renewals| ensures RenewalOk(t.grants, t.renewals[i]) {
        if i < |s.renewals| { assert t.renewals[i] == s.renewals[i]; }
      }
    }
    if q.Acquire? && t != s {
      forall i | 0 <= i < |t.renewals| ensures RenewalOk(t.grants, t.renewals[i]) {
        assert RenewalOk(s.grants, s.renewals[i]);
      }
    }
  }

  lemma SaveStep(items: map<string, DynamoCheckpoint.Item>, s: State, term: Grant, key: string, w: Wm)
    requires Inv(items, s) && term in s.terms && w.epoch == term.fence
    ensures Inv(items, s.(ckpt := DynamoCheckpoint.Next(s.ckpt, DynamoCheckpoint.GetThenPut(key, w))))
  {
    DynamoCheckpoint.NextInv(items, s.ckpt, DynamoCheckpoint.GetThenPut(key, w));
  }

  lemma PutStep(items: map<string, DynamoCheckpoint.Item>, s: State, p: DynamoCheckpoint.Put)
    requires Inv(items, s)
    ensures Inv(items, s.(ckpt := DynamoCheckpoint.Next(s.ckpt, DynamoCheckpoint.Deliver(p))))
  {
    var t := DynamoCheckpoint.Next(s.ckpt, DynamoCheckpoint.Deliver(p));
    DynamoCheckpoint.NextInv(items, s.ckpt, DynamoCheckpoint.Deliver(p));
    forall i | 0 <= i < |t.log| ensures CommitFromTerm(s.terms, t.log[i]) {
      if i < |s.ckpt.log| { assert CommitFromTerm(s.terms, s.ckpt.log[i]); }
    }
  }

  lemma SendStep(items: map<string, DynamoCheckpoint.Item>, s: State, a: Action)
    requires Inv(items, s) && (a.SendAcquire? || a.SendRenew?)
    ensures Inv(items, Next(s, a))
  {
  }

  lemma EnterStep(items: map<string, DynamoCheckpoint.Item>, s: State, g: Grant)
    requires Inv(items, s) && g in s.grants
    ensures Inv(items, s.(terms := s.terms + {g}))
  {
    var t := s.(terms := s.terms + {g});
    forall i | 0 <= i < |t.ckpt.log| ensures CommitFromTerm(t.terms, t.ckpt.log[i]) {
      assert CommitFromTerm(s.terms, s.ckpt.log[i]);
    }
  }

  lemma {:induction false} RunSafe(lock: Option<Lock>, items: map<string, DynamoCheckpoint.Item>, acts: seq<Action>)
    ensures Inv(items, Exec(Init(lock, items), acts))
  {
    if acts != [] {
      var s, a := Exec(Init(lock, items), acts[..|acts| - 1]), acts[|acts| - 1];
      RunSafe(lock, items, acts[..|acts| - 1]);
      match a
      case SendAcquire(_, _, _) => SendStep(items, s, a);
      case SendRenew(_, _) => SendStep(items, s, a);
      case DeliverLock(q) => if q in s.requests { LockStep(items, s, q); }
      case EnterTerm(g) => if g in s.grants { EnterStep(items, s, g); }
      case StartSave(term, key, time, cursor) =>
        if term in s.terms { SaveStep(items, s, term, key, Watermark(time, cursor, term.fence)); }
      case DeliverPut(p) => PutStep(items, s, p);
    }
  }

  // ----- what holds of every run -----

  /** All acquisitions, acknowledged or not, carry strictly increasing fences; hence two terms with
      the same epoch are the same term. */
  lemma FencesDistinct(lock: Option<Lock>, items: map<string, DynamoCheckpoint.Item>, acts: seq<Action>)
    ensures Increasing(Exec(Init(lock, items), acts).grants)
    ensures var terms := Exec(Init(lock, items), acts).terms;
            forall g, h :: g in terms && h in terms && g.fence == h.fence ==> g == h
  {
    RunSafe(lock, items, acts);
    var s := Exec(Init(lock, items), acts);
    forall g, h | g in s.terms && h in s.terms && g.fence == h.fence ensures g == h {
      var i :| 0 <= i < |s.grants| && s.grants[i] == g;
      var j :| 0 <= j < |s.grants| && s.grants[j] == h;
    }
  }

  /** Every renewal that took effect was one of the then latest acquisition. */
  lemma OnlyLatestRenews(lock: Option<Lock>, items: map<string, DynamoCheckpoint.Item>, acts: seq<Action>, i: nat)
    requires i < |Exec(Init(lock, items), acts).renewals|
    ensures var s := Exec(Init(lock, items), acts);
            RenewalOk(s.grants, s.renewals[i])
  {
    RunSafe(lock, items, acts);
  }

  /** No demoted leader moves the frontier: if a term has committed to a key, the term of every
      later commit on that key was granted no earlier. */
  lemma NoDemotedWrite(lock: Option<Lock>, items: map<string, DynamoCheckpoint.Item>, acts: seq<Action>,
                       i: nat, j: nat)
    returns (a: nat, b: nat)
    requires var log := Exec(Init(lock, items), acts).ckpt.log;
             i < j < |log| && log[i].key == log[j].key
    ensures var s := Exec(Init(lock, items), acts);
            && a <= b < |s.grants| && s.grants[a] in s.terms && s.grants[b] in s.terms
            && s.ckpt.log[i].written.wm.Some? && s.ckpt.log[j].written.wm.Some?
            && s.ckpt.log[i].written.wm.value.epoch == s.grants[a].fence
            && s.ckpt.log[j].written.wm.value.epoch == s.grants[b].fence
            && s.ckpt.log[i].written.wm.value.time <= s.ckpt.log[j].written.wm.value.time
  {
    RunSafe(lock, items, acts);
    var s := Exec(Init(lock, items), acts);
    DynamoCheckpoint.LogOrdered(items, s.ckpt.log, i, j);
    assert CommitFromTerm(s.terms, s.ckpt.log[i]) && CommitFromTerm(s.terms, s.ckpt.log[j]);
    var g :| g in s.terms && g.fence == s.ckpt.log[i].written.wm.value.epoch;
    var h :| h in s.terms && h.fence == s.ckpt.log[j].written.wm.value.epoch;
    a :| 0 <= a < |s.grants| && s.grants[a] == g;
    b :| 0 <= b < |s.grants| && s.grants[b] == h;
  }

  /** The lock item that a write leaves behind. */
  function Left(w: Write): Option<Lock> { Some(Lock(Some(w.id), Some(w.expMs), Some(w.fence))) }

  function LockAt(lock: Option<Lock>, writes: seq<Write>, n: nat): Option<Lock>
    requires n <= |writes|
  {
    if n == 0 then lock else Left(writes[n - 1])
  }

  /** What each write found: a renewal its own term, an acquisition no lock of another holder that is not
      past its expiry. */
  predicate WriteOk(found: Option<Lock>, w: Write) {
    match w.nowMs
    case None => found.Some? && found.value.holder == Some(w.id) && found.value.fence == Some(w.fence)
    case Some(now) =>
      found.Some? && found.value.holder != Some(w.id) && found.value.expiresAtMs.Some? ==>
        found.value.expiresAtMs.value < now
  }

  predicate WriteOkAt(lock: Option<Lock>, writes: seq<Write>, i: nat)
    requires i < |writes|
  {
    WriteOk(LockAt(lock, writes, i), writes[i])
  }

  ghost predicate AllWritesOk(lock: Option<Lock>, writes: seq<Write>) {
    forall i: nat {:trigger WriteOkAt(lock, writes, i)} :: i < |writes| ==> WriteOkAt(lock, writes, i)
  }

  ghost predicate WritesOk(lock: Option<Lock>, s: State) {
    s.lock == LockAt(lock, s.writes, |s.writes|) && AllWritesOk(lock, s.writes)
  }

  lemma WritesSnoc(lock: Option<Lock>, writes: seq<Write>, w: Write)
    requires AllWritesOk(lock, writes) && WriteOk(LockAt(lock, writes, |writes|), w)
    ensures AllWritesOk(lock, writes + [w])
  {
    var all := writes + [w];
    forall i: nat | i < |all| ensures WriteOkAt(lock, all, i) {
      assert LockAt(lock, all, i) == LockAt(lock, writes, i);
      if i < |writes| { assert WriteOkAt(lock, writes, i); }
    }
  }

  lemma ApplyWrites(lock: Option<Lock>, s: State, q: Request)
    requires WritesOk(lock, s)
    ensures WritesOk(lock, Apply(s, q))
  {
    var t := Apply(s, q);
    if t.writes != s.writes { WritesSnoc(lock, s.writes, t.writes[|s.writes|]); }
  }

  lemma KeepsWrites(s: State, a: Action)
    requires !a.DeliverLock?
    ensures Next(s, a).writes == s.writes && Next(s, a).lock == s.lock
  {
  }

  lemma {:induction false} WritesSafe(lock: Option<Lock>, items: map<string, DynamoCheckpoint.Item>, acts: seq<Action>)
    ensures WritesOk(lock, Exec(Init(lock, items), acts))
  {
    if acts != [] {
      var s, a := Exec(Init(lock, items), acts[..|acts| - 1]), acts[|acts| - 1];
      WritesSafe(lock, items, acts[..|acts| - 1]);
      if a.DeliverLock? {
        if a.request in s.requests { ApplyWrites(lock, s, a.request); }
      } else {
        KeepsWrites(s, a);
      }
    }
  }

  /** A replica takes the lock from another only with a clock past the expiry that the other last wrote. */
  lemma TakeoverAfterExpiry(lock: Option<Lock>, items: map<string, DynamoCheckpoint.Item>, acts: seq<Action>, i: nat)
    requires i + 1 < |Exec(Init(lock, items), acts).writes|
    requires var ws := Exec(Init(lock, items), acts).writes; ws[i].id != ws[i + 1].id
    ensures var ws := Exec(Init(lock, items), acts).writes;
            ws[i + 1].nowMs.Some? && ws[i].expMs < ws[i + 1].nowMs.value
  {
    WritesSafe(lock, items, acts);
    var ws := Exec(Init(lock, items), acts).writes;
    assert WriteOkAt(lock, ws, i + 1);
  }

  /** In every run, a request that reaches the lock item takes effect if and only if: an acquire finds no
      item, no expiry, a passed expiry or its own lock; a renewal finds its own holder and fence. */
  lemma LockRequestIff(lock: Option<Lock>, items: map<string, DynamoCheckpoint.Item>, acts: seq<Action>, q: Request)
    requires q in Exec(Init(lock, items), acts).requests
    ensures var s := Exec(Init(lock, items), acts);
            var found := LockAt(lock, s.writes, |s.writes|);
            var t := Next(s, DeliverLock(q));
            match q
            case Acquire(id, nowMs, expMs) =>
              if found.None? || found.value.expiresAtMs.None? || found.value.expiresAtMs.value < nowMs
                 || found.value.holder == Some(id)
              then
                var fence := 1 + if found.Some? && found.value.fence.Some? then found.value.fence.value else 0;
                t.grants == s.grants + [Grant(id, fence)] && t.lock == Some(Lock(Some(id), Some(expMs), Some(fence)))
              else t == s
            case Renew(id, fence, expMs) =>
              if found.Some? && found.value.holder == Some(id) && found.value.fence == Some(fence)
              then t.grants == s.grants && t.lock == Some(Lock(Some(id), Some(expMs), Some(fence)))
              else t == s
  {
    WritesSafe(lock, items, acts);
  }

  /** A term's undisturbed save of `w` moves the key to it. */
  ghost predicate Commits(s: State, term: Grant, key: string, w: Wm) {
    exists p :: CommitsBy(s, term, key, w, p)
  }

  predicate CommitsBy(s: State, term: Grant, key: string, w: Wm, p: DynamoCheckpoint.Put) {
    var t := Next(Next(s, StartSave(term, key, w.time, w.cursor)), DeliverPut(p)).ckpt;
    key in t.items && t.items[key].wm == Some(w) && |t.log| == |s.ckpt.log| + 1
  }

  lemma DueCommits(items: map<string, DynamoCheckpoint.Item>, s: State, term: Grant, key: string, w: Wm, stored: Wm)
    requires DynamoCheckpoint.Inv(items, s.ckpt) && term in s.terms && w.epoch == term.fence
    requires DynamoCheckpoint.Stands(DynamoCheckpoint.Lookup(s.ckpt.items, key), stored) && Due(stored, w)
    ensures Commits(s, term, key, w)
  {
    var found := DynamoCheckpoint.Lookup(s.ckpt.items, key);
    var p := DynamoCheckpoint.Put(key, DynamoCheckpoint.ConditionFor(found), w, DynamoCheckpoint.NextVersion(found), found);
    DynamoCheckpoint.AtOnceIff(items, s.ckpt, key, w, stored);
    assert Next(Next(s, StartSave(term, key, w.time, w.cursor)), DeliverPut(p)).ckpt
        == DynamoCheckpoint.AtOnce(s.ckpt, key, w);
    assert CommitsBy(s, term, key, w, p);
  }

  /** A new leader is never kept out: a term that was granted no earlier than the one of the last commit on
      a key, saving a later time undisturbed, moves the key to it. */
  lemma LaterTermCommits(lock: Option<Lock>, items: map<string, DynamoCheckpoint.Item>, acts: seq<Action>, key: string,
                         i: nat, a: nat, b: nat, time: int, cursor: string)
    requires var s := Exec(Init(lock, items), acts);
             && a <= b < |s.grants| && s.grants[b] in s.terms && DynamoCheckpoint.LastOn(s.ckpt.log, key, i)
             && s.ckpt.log[i].written.wm.Some? && s.ckpt.log[i].written.wm.value.epoch == s.grants[a].fence
             && s.ckpt.log[i].written.wm.value.time < time && ZERO_TIME <= time < YEAR_10000
    ensures var s := Exec(Init(lock, items), acts);
            Commits(s, s.grants[b], key, Watermark(time, cursor, s.grants[b].fence))
  {
    RunSafe(lock, items, acts);
    var s := Exec(Init(lock, items), acts);
    var stored, w := s.ckpt.log[i].written.wm.value, Watermark(time, cursor, s.grants[b].fence);
    DynamoCheckpoint.LastStands(items, s.ckpt, key, i);
    assert Due(stored, w);
    DueCommits(items, s, s.grants[b], key, w, stored);
  }
}
