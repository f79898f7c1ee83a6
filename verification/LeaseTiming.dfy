/** The timing of one leadership lease (internal/coordinate/dynamodb/dynamodb.go): expiry of the
    lock item, the renew deadline and the watchdog that enforces it, for replicas that read one
    clock in nanoseconds.

    `lease` is how far a commit extends the lock, `deadline` how long the watchdog waits for an
    acknowledged renew, and `trip` the longest round trip of an acknowledged request.  Unacknowledged
    requests may take arbitrarily long, may be applied more than once (transport retries), or may
    never arrive. */
module LeaseTiming {
  import opened Model

  type Id = string

  /** `fifo`: a request takes effect only before the replica sends its next one.  Without it an
      abandoned request may still be applied later. */
  datatype Config = Config(lease: int, deadline: int, trip: int, fifo: bool)

  predicate ValidConfig(c: Config) { 0 < c.deadline < c.lease && 0 <= c.trip }

  datatype Lock = Lock(holder: Id, expiresAtMs: int, fence: int)

  /** A write to the lock item: sent at `sent`, applied at `at`. */
  datatype Commit = Commit(id: Id, fence: int, sent: int, at: int)

  /** `renews` is the fence to renew, or `None` for an acquire; `applied` lists the commits the
      request has made. */
  datatype Pending = Pending(renews: Option<int>, sent: int, applied: set<nat>)

  /** A replica whose leader context is live: `won` and `last` are the commits of its acquisition
      and of its last acknowledged request, `timer` the moment the watchdog was last reset. */
  datatype Role = Standby | Leading(won: nat, last: nat, since: int, timer: int)

  datatype Replica = Replica(role: Role, pending: Option<Pending>, abandoned: set<Pending>)

  datatype State = State(time: int, lock: Option<Lock>, commits: seq<Commit>, replicas: map<Id, Replica>)

  datatype Action =
    | Pass(dt: int)
    | SendAcquire(id: Id)
    | SendRenew(id: Id)
    | Deliver(id: Id)
    | DeliverAbandoned(id: Id, request: Pending)
    | Acknowledge(id: Id, k: nat)
    | StepDown(id: Id)

  const IDLE := Replica(Standby, None, {})

  function Get(s: State, id: Id): Replica {
    if id in s.replicas then s.replicas[id] else IDLE
  }

  function Set(s: State, id: Id, r: Replica): State {
    s.(replicas := s.replicas[id := r])
  }

  /** The watchdog cancels a leader context no later than `deadline` after its last reset. */
  predicate InTime(c: Config, s: State, now: int) {
    forall id :: id in s.replicas && s.replicas[id].role.Leading? ==>
      now <= s.replicas[id].role.timer + c.deadline
  }

  function Send(c: Config, s: State, id: Id, renews: Option<int>): State {
    var r := Get(s, id);
    var abandoned := if c.fifo || r.pending.None? then r.abandoned else r.abandoned + {r.pending.value};
    Set(s, id, Replica(r.role, Some(Pending(renews, s.time, {})), abandoned))
  }

  /** The condition expressions of `acquire` and `renew`, with the millisecond truncation. */
  predicate Accepted(s: State, id: Id, p: Pending) {
    match p.renews
    case None => s.lock.None? || s.lock.value.expiresAtMs < p.sent / MILLI || s.lock.value.holder == id
    case Some(fence) => s.lock.Some? && s.lock.value.holder == id && s.lock.value.fence == fence
  }

  function Fence(s: State, p: Pending): int {
    match p.renews
    case None => if s.lock.Some? then s.lock.value.fence + 1 else 1
    case Some(fence) => fence
  }

  /** Applies an accepted request to the lock item. */
  function Write(c: Config, s: State, id: Id, p: Pending): State {
    var f := Fence(s, p);
    s.(lock := Some(Lock(id, (p.sent + c.lease) / MILLI, f)),
       commits := s.commits + [Commit(id, f, p.sent, s.time)])
  }

  function Next(c: Config, s: State, a: Action): State {
    match a
    case Pass(dt) => if dt >= 0 && InTime(c, s, s.time + dt) then s.(time := s.time + dt) else s
    case SendAcquire(id) => if Get(s, id).role.Standby? then Send(c, s, id, None) else s
    case SendRenew(id) =>
      var r := Get(s, id);
      if r.role.Leading? && r.role.won < |s.commits| then Send(c, s, id, Some(s.commits[r.role.won].fence)) else s
    case Deliver(id) =>
      var r := Get(s, id);
      if r.pending.Some? && Accepted(s, id, r.pending.value) then
        var p := r.pending.value;
        Set(Write(c, s, id, p), id, r.(pending := Some(p.(applied := p.applied + {|s.commits|}))))
      else s
    case DeliverAbandoned(id, p) =>
      if p in Get(s, id).abandoned && Accepted(s, id, p) then Write(c, s, id, p) else s
    case Acknowledge(id, k) =>
      var r := Get(s, id);
      if r.pending.Some? && k in r.pending.value.applied && s.time <= r.pending.value.sent + c.trip then
        if r.pending.value.renews.None? && r.role.Standby? then
          Set(s, id, r.(role := Leading(k, k, s.time, s.time), pending := None))
        else if r.pending.value.renews.Some? && r.role.Leading? then
          Set(s, id, r.(role := r.role.(last := k, timer := s.time), pending := None))
        else s
      else s
    case StepDown(id) => Set(s, id, Get(s, id).(role := Standby))
  }

  function Exec(c: Config, s: State, acts: seq<Action>): State {
    if acts == [] then s else Next(c, Exec(c, s, acts[..|acts| - 1]), acts[|acts| - 1])
  }

  /** Any moment, any lock item left behind, no replica running. */
  function Init(time: int, lock: Option<Lock>): State { State(time, lock, [], map[]) }

  // ----- invariant -----

  /** Commit order against time, fences and senders; the third clause is the heart: a commit by
      another replica comes after the lease of every earlier commit has run out. */
  predicate Ordered(c: Config, a: Commit, b: Commit) {
    && a.at <= b.at
    && a.fence <= b.fence
    && (a.id != b.id ==> a.sent + c.lease < b.at && a.fence < b.fence)
    && (a.id == b.id ==> a.sent <= b.sent)
  }

  ghost predicate CommitsOk(c: Config, s: State) {
    && (forall i, j :: 0 <= i < j < |s.commits| ==> Ordered(c, s.commits[i], s.commits[j]))
    && (forall i :: 0 <= i < |s.commits| ==> s.commits[i].sent <= s.commits[i].at <= s.time)
    && (s.commits != [] ==>
          var l := s.commits[|s.commits| - 1];
          s.lock == Some(Lock(l.id, (l.sent + c.lease) / MILLI, l.fence)))
  }

  ghost predicate PendingOk(s: State, id: Id, p: Pending) {
    && p.sent <= s.time
    && (forall i :: 0 <= i < |s.commits| && s.commits[i].id == id ==> s.commits[i].sent <= p.sent)
    && (forall k :: k in p.applied ==> k < |s.commits| && s.commits[k].id == id && s.commits[k].sent == p.sent)
    && (p.renews.Some? ==> forall k :: k in p.applied ==> s.commits[k].fence == p.renews.value)
  }

  ghost predicate RoleOk(c: Config, s: State, id: Id, r: Replica) {
    r.role.Leading? ==>
      && r.role.won < |s.commits| && r.role.last < |s.commits|
      && s.commits[r.role.won].id == id && s.commits[r.role.last].id == id
      && s.commits[r.role.won].fence == s.commits[r.role.last].fence
      && s.commits[r.role.won].at <= r.role.since
      && r.role.timer <= s.commits[r.role.last].sent + c.trip
      && s.time <= r.role.timer + c.deadline
      && (r.pending.Some? ==> r.pending.value.renews == Some(s.commits[r.role.won].fence))
  }

  ghost predicate ReplicaOk(c: Config, s: State, id: Id, r: Replica) {
    && (c.fifo ==> r.abandoned == {}) && RoleOk(c, s, id, r)
    && (r.pending.Some? ==> PendingOk(s, id, r.pending.value))
  }

  ghost predicate Inv(c: Config, s: State) {
    CommitsOk(c, s) && forall id :: id in s.replicas ==> ReplicaOk(c, s, id, s.replicas[id])
  }

  lemma WriteOk(c: Config, s: State, id: Id, p: Pending)
    requires CommitsOk(c, s) && PendingOk(s, id, p) && Accepted(s, id, p)
    ensures CommitsOk(c, Write(c, s, id, p))
  {
    var t := Write(c, s, id, p);
    var n := |s.commits|;
    forall i, j | 0 <= i < j < |t.commits| ensures Ordered(c, t.commits[i], t.commits[j]) {
      if j == n && n > 0 {
        var l := s.commits[n - 1];
        assert i < n - 1 ==> Ordered(c, s.commits[i], l);
        if l.id != id {
          // the truncation to milliseconds never runs ahead of the clock
          assert (l.sent + c.lease) / MILLI < p.sent / MILLI;
        }
      }
    }
  }

  lemma DeliverSelf(c: Config, s: State, id: Id)
    requires Inv(c, s) && id in s.replicas && Next(c, s, Deliver(id)) != s
    ensures var t := Next(c, s, Deliver(id)); ReplicaOk(c, t, id, t.replicas[id])
  {
    assert ReplicaOk(c, s, id, s.replicas[id]);
  }

  lemma DeliverOther(c: Config, s: State, id: Id, x: Id)
    requires x in s.replicas && ReplicaOk(c, s, x, s.replicas[x]) && x != id && Next(c, s, Deliver(id)) != s
    ensures ReplicaOk(c, Next(c, s, Deliver(id)), x, s.replicas[x])
  {
  }

  lemma DeliverInv(c: Config, s: State, id: Id)
    requires Inv(c, s) && c.fifo
    ensures Inv(c, Next(c, s, Deliver(id)))
  {
    var t := Next(c, s, Deliver(id));
    if t != s {
      WriteOk(c, s, id, s.replicas[id].pending.value);
      DeliverSelf(c, s, id);
      forall x | x in t.replicas && x != id ensures ReplicaOk(c, t, x, t.replicas[x]) { DeliverOther(c, s, id, x); }
    }
  }

  /** A leader renews the fence it acquired. */
  predicate MaySend(s: State, id: Id, renews: Option<int>) {
    var role := Get(s, id).role;
    role.Leading? ==> role.won < |s.commits| && renews == Some(s.commits[role.won].fence)
  }

  lemma SendSelf(c: Config, s: State, id: Id, renews: Option<int>)
    requires Inv(c, s) && c.fifo && MaySend(s, id, renews)
    ensures var t := Send(c, s, id, renews); ReplicaOk(c, t, id, t.replicas[id])
  {
    assert id in s.replicas ==> ReplicaOk(c, s, id, s.replicas[id]);
  }

  lemma SendInv(c: Config, s: State, id: Id, renews: Option<int>)
    requires Inv(c, s) && c.fifo && MaySend(s, id, renews)
    ensures Inv(c, Send(c, s, id, renews))
  {
    SendSelf(c, s, id, renews);
    SetInv(c, s, id, Send(c, s, id, renews).replicas[id]);
  }

  /** Changing one replica leaves the others alone. */
  lemma SetInv(c: Config, s: State, id: Id, r: Replica)
    requires Inv(c, s) && ReplicaOk(c, Set(s, id, r), id, r)
    ensures Inv(c, Set(s, id, r))
  {
    var t := Set(s, id, r);
    assert CommitsOk(c, t);
    forall x | x in t.replicas && x != id ensures ReplicaOk(c, t, x, t.replicas[x]) { SetFrame(c, s, id, r, x); }
  }

  lemma SetFrame(c: Config, s: State, id: Id, r: Replica, x: Id)
    requires x in s.replicas && x != id && ReplicaOk(c, s, x, s.replicas[x])
    ensures ReplicaOk(c, Set(s, id, r), x, s.replicas[x])
  {
  }

  lemma AcknowledgeInv(c: Config, s: State, id: Id, k: nat)
    requires Inv(c, s) && ValidConfig(c)
    ensures Inv(c, Next(c, s, Acknowledge(id, k)))
  {
    var t := Next(c, s, Acknowledge(id, k));
    if t != s {
      AcknowledgeSelf(c, s, id, k);
      SetInv(c, s, id, t.replicas[id]);
    }
  }

  lemma AcknowledgeSelf(c: Config, s: State, id: Id, k: nat)
    requires Inv(c, s) && ValidConfig(c) && Next(c, s, Acknowledge(id, k)) != s
    ensures var t := Next(c, s, Acknowledge(id, k));
            id in t.replicas && t == Set(s, id, t.replicas[id]) && ReplicaOk(c, t, id, t.replicas[id])
  {
    assert id in s.replicas;
    assert ReplicaOk(c, s, id, s.replicas[id]);
  }

  lemma PassFrame(c: Config, s: State, dt: int, x: Id)
    requires x in s.replicas && ReplicaOk(c, s, x, s.replicas[x]) && dt >= 0 && InTime(c, s, s.time + dt)
    ensures ReplicaOk(c, s.(time := s.time + dt), x, s.replicas[x])
  {
  }

  lemma PassInv(c: Config, s: State, dt: int)
    requires Inv(c, s)
    ensures Inv(c, Next(c, s, Pass(dt)))
  {
    var t := Next(c, s, Pass(dt));
    if t != s {
      assert CommitsOk(c, t);
      forall x | x in t.replicas ensures ReplicaOk(c, t, x, t.replicas[x]) { PassFrame(c, s, dt, x); }
    }
  }

  lemma StepDownInv(c: Config, s: State, id: Id)
    requires Inv(c, s)
    ensures Inv(c, Next(c, s, StepDown(id)))
  {
    assert id in s.replicas ==> ReplicaOk(c, s, id, s.replicas[id]);
    SetInv(c, s, id, Get(s, id).(role := Standby));
  }

  lemma NextInv(c: Config, s: State, a: Action)
    requires Inv(c, s) && c.fifo && ValidConfig(c)
    ensures Inv(c, Next(c, s, a))
  {
    match a
    case Pass(dt) => PassInv(c, s, dt);
    case SendAcquire(id) => if Get(s, id).role.Standby? { SendInv(c, s, id, None); }
    case SendRenew(id) =>
      var r := Get(s, id);
      if r.role.Leading? && r.role.won < |s.commits| { SendInv(c, s, id, Some(s.commits[r.role.won].fence)); }
    case Deliver(id) => DeliverInv(c, s, id);
    case DeliverAbandoned(_, _) =>
    case Acknowledge(id, k) => AcknowledgeInv(c, s, id, k);
    case StepDown(id) => StepDownInv(c, s, id);
  }

  lemma {:induction false} RunSafe(c: Config, time: int, lock: Option<Lock>, acts: seq<Action>)
    requires c.fifo && ValidConfig(c)
    ensures Inv(c, Exec(c, Init(time, lock), acts))
  {
    if acts != [] {
      RunSafe(c, time, lock, acts[..|acts| - 1]);
      NextInv(c, Exec(c, Init(time, lock), acts[..|acts| - 1]), acts[|acts| - 1]);
    }
  }

  // ----- results -----

  predicate Leads(s: State, id: Id) { Get(s, id).role.Leading? }

  /** Two replicas that lead at once have done so for less than `trip + deadline - lease`. */
  lemma OverlapBound(c: Config, time: int, lock: Option<Lock>, acts: seq<Action>, a: Id, b: Id)
    requires c.fifo && ValidConfig(c) && a != b
    requires var s := Exec(c, Init(time, lock), acts); Leads(s, a) && Leads(s, b)
    ensures var s := Exec(c, Init(time, lock), acts);
            || s.time - Get(s, a).role.since < c.trip + c.deadline - c.lease
            || s.time - Get(s, b).role.since < c.trip + c.deadline - c.lease
  {
    RunSafe(c, time, lock, acts);
    var s := Exec(c, Init(time, lock), acts);
    var x, y := s.replicas[a].role, s.replicas[b].role;
    TermsApart(c, s, a, b);
    assert ReplicaOk(c, s, a, s.replicas[a]) && ReplicaOk(c, s, b, s.replicas[b]);
    if x.last < y.won {
      assert Ordered(c, s.commits[x.last], s.commits[y.won]);
    } else {
      assert Ordered(c, s.commits[y.last], s.commits[x.won]);
    }
  }

  /** The commits of one term are never interleaved with those of another. */
  lemma TermsApart(c: Config, s: State, a: Id, b: Id)
    requires Inv(c, s) && a != b && Leads(s, a) && Leads(s, b)
    ensures Get(s, a).role.last < Get(s, b).role.won || Get(s, b).role.last < Get(s, a).role.won
  {
    var x, y := s.replicas[a].role, s.replicas[b].role;
    assert ReplicaOk(c, s, a, s.replicas[a]) && ReplicaOk(c, s, b, s.replicas[b]);
    assert y.won < x.last ==> Ordered(c, s.commits[y.won], s.commits[x.last]);
    assert x.won < y.last ==> Ordered(c, s.commits[x.won], s.commits[y.last]);
  }

  /** With acknowledged round trips of at most `lease - deadline`, never two leaders. */
  lemma Exclusion(c: Config, time: int, lock: Option<Lock>, acts: seq<Action>, a: Id, b: Id)
    requires c.fifo && ValidConfig(c) && a != b
    requires c.trip + c.deadline <= c.lease
    ensures var s := Exec(c, Init(time, lock), acts); !(Leads(s, a) && Leads(s, b))
  {
    var s := Exec(c, Init(time, lock), acts);
    if Leads(s, a) && Leads(s, b) {
      OverlapBound(c, time, lock, acts, a, b);
      RunSafe(c, time, lock, acts);
      SinceInPast(c, time, lock, acts, a);
      SinceInPast(c, time, lock, acts, b);
    }
  }

  lemma {:induction false} SinceInPast(c: Config, time: int, lock: Option<Lock>, acts: seq<Action>, id: Id)
    ensures var s := Exec(c, Init(time, lock), acts);
            Leads(s, id) ==> Get(s, id).role.since <= s.time
  {
    if acts != [] { SinceInPast(c, time, lock, acts[..|acts| - 1], id); }
  }

  lemma {:induction false} ExecSnoc(c: Config, s: State, acts: seq<Action>, a: Action)
    ensures Exec(c, s, acts + [a]) == Next(c, Exec(c, s, acts), a)
  {
    assert (acts + [a])[..|acts + [a]| - 1] == acts;
  }

  /** A run from a fresh table, and one more action. */
  lemma Do(c: Config, s: State, time: int, acts: seq<Action>, a: Action) returns (t: State, more: seq<Action>)
    requires s == Exec(c, Init(time, None), acts)
    ensures t == Next(c, s, a) && more == acts + [a] && t == Exec(c, Init(time, None), more)
  {
    t, more := Next(c, s, a), acts + [a];
    ExecSnoc(c, Init(time, None), acts, a);
  }

  /** `a` holds the fresh lock from its first commit on, with time to wait for the acknowledgement. */
  lemma FirstAcquire(c: Config, a: Id, time: int, wait: int) returns (s: State, acts: seq<Action>)
    requires ValidConfig(c) && 0 <= wait <= c.trip
    ensures s == Exec(c, Init(time, None), acts)
    ensures s == State(time + wait, Some(Lock(a, (time + c.lease) / MILLI, 1)), [Commit(a, 1, time, time)],
                       map[a := Replica(Leading(0, 0, time + wait, time + wait), None, {})])
  {
    s, acts := Init(time, None), [];
    s, acts := Do(c, s, time, acts, SendAcquire(a));
    s, acts := Do(c, s, time, acts, Deliver(a));
    assert {} + {0} == {0};
    assert Get(s, a) == Replica(Standby, Some(Pending(None, time, {0})), {});
    s, acts := Do(c, s, time, acts, Pass(wait));
    assert s.time == time + wait;
    s, acts := Do(c, s, time, acts, Acknowledge(a, 0));
  }

  /** A standby acquires an expired lock at once. */
  lemma TakeOver(c: Config, s: State, time: int, acts: seq<Action>, a: Id, b: Id) returns (more: seq<Action>)
    requires ValidConfig(c) && s == Exec(c, Init(time, None), acts) && a != b && b !in s.replicas && Leads(s, a)
    requires s.lock.Some? && s.lock.value.expiresAtMs < s.time / MILLI
    ensures var t := Exec(c, Init(time, None), more); Leads(t, a) && Leads(t, b)
  {
    var t;
    t, more := Do(c, s, time, acts, SendAcquire(b));
    assert Leads(t, a) && Get(t, b) == Replica(Standby, Some(Pending(None, s.time, {})), {});
    t, more := Do(c, t, time, more, Deliver(b));
    assert {} + {|s.commits|} == {|s.commits|};
    assert Leads(t, a) && Get(t, b) == Replica(Standby, Some(Pending(None, s.time, {|s.commits|})), {});
    t, more := Do(c, t, time, more, Acknowledge(b, |s.commits|));
  }

  /** The bound on round trips is also necessary: one nanosecond more and some run has two leaders. */
  lemma OverlapPossible(c: Config, a: Id, b: Id) returns (time: int, acts: seq<Action>)
    requires ValidConfig(c) && a != b
    requires c.lease < c.trip + c.deadline
    ensures var s := Exec(c, Init(time, None), acts); Leads(s, a) && Leads(s, b)
  {
    time := MILLI - 1 - c.lease;       // so that the truncated expiry is already the next millisecond
    var s;
    s, acts := FirstAcquire(c, a, time, c.lease + 1 - c.deadline);
    s, acts := Do(c, s, time, acts, Pass(c.deadline));
    assert s.time == MILLI;
    acts := TakeOver(c, s, time, acts, a, b);
  }

  // ----- requests that overtake each other -----

  /** The renew sent at time 0. */
  const OLD := Pending(Some(1), 0, {})

  /** `a` has just been acknowledged, and the renew it gave up on is still under way. */
  predicate Renewed(s: State, a: Id) {
    && s.replicas.Keys == {a} && s.commits != [] && s.commits[0].fence == 1
    && s.lock.Some? && s.lock.value.holder == a && s.lock.value.fence == 1
    && var r := Get(s, a); r.role.Leading? && r.role.won == 0 && r.role.timer == s.time && OLD in r.abandoned
  }

  /** A renew that is sent, applied and acknowledged at once. */
  lemma RenewNow(c: Config, s: State, acts: seq<Action>, a: Id) returns (t: State, more: seq<Action>)
    requires ValidConfig(c) && s == Exec(c, Init(0, None), acts)
    requires s.replicas.Keys == {a} && s.commits != [] && s.commits[0].fence == 1
    requires s.lock.Some? && s.lock.value.holder == a && s.lock.value.fence == 1
    requires Leads(s, a) && Get(s, a).role.won == 0 && !c.fifo
    requires OLD in Get(s, a).abandoned || Get(s, a).pending == Some(OLD)
    ensures t == Exec(c, Init(0, None), more) && Renewed(t, a) && t.time == s.time
  {
    var n, now := |s.commits|, s.time;
    t, more := Do(c, s, 0, acts, SendRenew(a));
    assert Get(t, a).pending == Some(Pending(Some(1), now, {})) && OLD in Get(t, a).abandoned;
    t, more := Do(c, t, 0, more, Deliver(a));
    assert {} + {n} == {n};
    assert Get(t, a).pending == Some(Pending(Some(1), now, {n})) && OLD in Get(t, a).abandoned;
    assert t.commits[0] == s.commits[0];
    t, more := Do(c, t, 0, more, Acknowledge(a, n));
  }

  /** A leader that gave up on its first renew can go on renewing for as long as it likes. */
  lemma {:induction false} RenewOn(c: Config, s: State, acts: seq<Action>, a: Id, until: int)
    returns (t: State, more: seq<Action>)
    requires ValidConfig(c) && !c.fifo && s == Exec(c, Init(0, None), acts) && Renewed(s, a)
    ensures t == Exec(c, Init(0, None), more) && Renewed(t, a) && t.time > until
    decreases if s.time > until then 0 else until - s.time + 1
  {
    if s.time > until { return s, acts; }
    t, more := Do(c, s, 0, acts, Pass(c.deadline));
    assert t.time == s.time + c.deadline;
    t, more := RenewNow(c, t, more, a);
    t, more := RenewOn(c, t, more, a, until);
  }

  lemma GiveUpFirstRenew(c: Config, a: Id) returns (s: State, acts: seq<Action>)
    requires ValidConfig(c) && !c.fifo
    ensures s == Exec(c, Init(0, None), acts) && Renewed(s, a)
  {
    s, acts := FirstAcquire(c, a, 0, 0);
    s, acts := Do(c, s, 0, acts, SendRenew(a));
    assert Get(s, a).pending == Some(OLD) && s.replicas.Keys == {a};
    s, acts := RenewNow(c, s, acts, a);
  }

  /** Without the ordering assumption no round-trip bound is enough.  A renew that the leader gave up
      on reaches the table after its successors and pulls the expiry back; the standby acquires while
      the leader's watchdog still counts from the last acknowledgement. */
  lemma ReorderingBreaksExclusion(c: Config, a: Id, b: Id) returns (acts: seq<Action>)
    requires ValidConfig(c) && !c.fifo && a != b
    ensures var s := Exec(c, Init(0, None), acts); Leads(s, a) && Leads(s, b)
  {
    var s;
    s, acts := GiveUpFirstRenew(c, a);
    s, acts := RenewOn(c, s, acts, a, c.lease + 2 * MILLI);
    s, acts := Do(c, s, 0, acts, DeliverAbandoned(a, OLD));
    assert s.lock == Some(Lock(a, c.lease / MILLI, 1)) && s.replicas.Keys == {a} && Leads(s, a);
    acts := TakeOver(c, s, 0, acts, a, b);
  }

  // ----- the exact condition -----

  predicate Both(c: Config, time: int, lock: Option<Lock>, acts: seq<Action>, a: Id, b: Id) {
    var s := Exec(c, Init(time, lock), acts); Leads(s, a) && Leads(s, b)
  }

  /** No run has two leaders. */
  ghost predicate Exclusive(c: Config) {
    forall time, lock, acts, a, b :: a != b ==> !Both(c, time, lock, acts, a, b)
  }

  /** Exclusion holds if and only if a replica's requests take effect in order and acknowledged round
      trips fit between the renew deadline and the lease. */
  lemma ExclusionIff(c: Config)
    requires ValidConfig(c)
    ensures Exclusive(c) <==> c.fifo && c.trip + c.deadline <= c.lease
  {
    if c.fifo && c.trip + c.deadline <= c.lease {
      forall time, lock, acts, a, b | a != b ensures !Both(c, time, lock, acts, a, b) {
        Exclusion(c, time, lock, acts, a, b);
      }
    } else if !c.fifo {
      var acts := ReorderingBreaksExclusion(c, "a", "b");
      assert Both(c, 0, None, acts, "a", "b");
    } else {
      var time, acts := OverlapPossible(c, "a", "b");
      assert Both(c, time, None, acts, "a", "b");
    }
  }
}
