/** The window arithmetic of the analytics loop (`analyticsLoop.Collect` in
    internal/source/portkey/portkey.go) over whole runs of polls.

    A bucket is named by its end, a multiple of the one-minute granularity. */
module Analytics {
  import opened Model

  const GRANULARITY := MINUTE
  const MAX_FETCH := 55 * MINUTE

  datatype Config = Config(window: int, settle: int, bootstrap: int, maxBackfill: int)

  /** What the configuration check and the loop's constructor enforce. */
  predicate Valid(c: Config) {
    0 < c.window <= MAX_FETCH && 0 <= c.settle < c.bootstrap && c.settle < c.maxBackfill
  }

  function Band(c: Config): int { if 2 * c.settle < MINUTE then MINUTE else 2 * c.settle }

  function Max(a: int, b: int): int { if a < b then b else a }

  function Min(a: int, b: int): int { if a < b then a else b }

  /** `start..until` is the window, `fetch` the widened lower edge of the request. */
  datatype Poll = Poll(now: int, start: int, until: int, cutoff: int, fetch: int)

  function Window(c: Config, since: int, now: int): Poll {
    var floor := now - c.maxBackfill;
    var start := Max(if since == ZERO_TIME then now - c.bootstrap else since, floor);
    var until0 := if now - c.settle - start > c.window then start + c.window else now - c.settle;
    var until := if until0 - start > MAX_FETCH then start + MAX_FETCH else until0;
    var fetch := Max(Max(start - Band(c), floor), until - MAX_FETCH);
    Poll(now, start, until, now - c.settle, fetch)
  }

  /** The window ends at the settle cutoff: there is no backlog. */
  predicate Current(p: Poll) { p.until == p.cutoff }

  predicate Empty(p: Poll) { p.until <= p.start }

  /** Requests carry whole seconds. */
  function Seconds(t: int): int { t - t % SECOND }

  predicate Bucket(e: int) { e % GRANULARITY == 0 }

  /** Bucket `e` overlaps the requested interval and passes the forward-only and settled filters. */
  predicate Collects(p: Poll, e: int) {
    && Bucket(e) && Seconds(p.fetch) < e && e - GRANULARITY < Seconds(p.until)
    && p.start < e <= p.cutoff
  }

  /** Every request spans at most 55 minutes, which keeps one-minute buckets, and contains the window.  It
      reaches back over the revision band, twice the settle time but at least a minute, as far as the
      backfill floor and those 55 minutes allow. */
  lemma FetchCovers(c: Config, since: int, now: int)
    requires Valid(c)
    ensures var p := Window(c, since, now);
            !Empty(p) ==>
              && p.fetch <= p.start < p.until && p.until - p.fetch <= 55 * MINUTE && p.until <= p.cutoff == now - c.settle
              && now - c.maxBackfill <= p.fetch
              && (|| (p.start - p.fetch >= 2 * c.settle && p.start - p.fetch >= MINUTE)
                  || p.fetch == now - c.maxBackfill || p.until - p.fetch == 55 * MINUTE)
              && (p.start - p.fetch <= 2 * c.settle || p.start - p.fetch <= MINUTE)
  {
  }

  // ----- runs -----

  /** How a poll's batch ended: not emitted, committed to its end, or committed up to bucket `to`
      because the later bucket `stuck` was not resolved. */
  datatype Outcome = Failed | Full | Partial(to: int, stuck: int)

  datatype Done = Done(poll: Poll, since: int, to: int, full: bool)

  datatype State = State(wm: int, base: Option<int>, polls: seq<Done>)

  datatype Action = Tick(now: int, outcome: Outcome)

  predicate Possible(p: Poll, o: Outcome) {
    o.Full? || (o.Partial? && o.to < o.stuck && Collects(p, o.to) && Collects(p, o.stuck))
  }

  function Next(c: Config, s: State, a: Action): State {
    var p := Window(c, s.wm, a.now);
    if Empty(p) || !Possible(p, a.outcome) then s
    else
      var to := if a.outcome.Full? then p.until else a.outcome.to;
      State(to, if s.base.None? then Some(p.start) else s.base, s.polls + [Done(p, s.wm, to, a.outcome.Full?)])
  }

  function Exec(c: Config, s: State, acts: seq<Action>): State {
    if acts == [] then s else Next(c, Exec(c, s, acts[..|acts| - 1]), acts[|acts| - 1])
  }

  /** A fresh key (`wm` zero) or a stored watermark. */
  function Init(wm: int): State { State(wm, if wm == ZERO_TIME then None else Some(wm), []) }

  /** Emitted, or skipped with a counted gap, and committed. */
  predicate Resolved(d: Done, e: int) { Collects(d.poll, e) && (d.full || e <= d.to) }

  /** Too old to be stored when it was reached; the scheduler counts it. */
  predicate Abandoned(c: Config, d: Done, e: int) { d.since < e <= d.poll.now - c.maxBackfill }

  ghost predicate Handled(c: Config, polls: seq<Done>, e: int) {
    exists i :: 0 <= i < |polls| && (Resolved(polls[i], e) || Abandoned(c, polls[i], e))
  }

  ghost predicate Covered(c: Config, s: State) {
    forall e :: Bucket(e) && s.base.Some? && s.base.value < e <= s.wm ==> Handled(c, s.polls, e)
  }

  predicate DoneOk(c: Config, d: Done) {
    && d.poll == Window(c, d.since, d.poll.now) && !Empty(d.poll) && d.poll.start < d.to <= d.poll.until
    && (d.full ==> d.to == d.poll.until)
  }

  ghost predicate Chained(c: Config, s: State) {
    && (forall i :: 0 <= i < |s.polls| ==> DoneOk(c, s.polls[i]) && s.polls[i].to <= s.wm)
    && (forall i, j :: 0 <= i < j < |s.polls| ==> s.polls[i].to <= s.polls[j].poll.start)
    && (s.base.None? ==> s.wm == ZERO_TIME && s.polls == [])
    && (s.base.Some? ==> s.wm > ZERO_TIME)
  }

  ghost predicate Inv(c: Config, s: State) { Chained(c, s) && Covered(c, s) }

  /** The clock never reads less than the longest look-back after Go's zero time. */
  predicate Sane(c: Config, acts: seq<Action>) {
    forall i :: 0 <= i < |acts| ==> acts[i].now - c.bootstrap > ZERO_TIME && acts[i].now - c.maxBackfill > ZERO_TIME
  }

  lemma InsideCollected(c: Config, since: int, now: int, e: int)
    requires Valid(c) && Bucket(e)
    requires var p := Window(c, since, now); p.start < e <= p.until
    ensures Collects(Window(c, since, now), e)
  {
    FetchCovers(c, since, now);
  }

  lemma PartialInside(p: Poll, to: int, stuck: int)
    requires Collects(p, to) && Collects(p, stuck) && to < stuck
    ensures p.start < to < p.until
  {
    NextBucket(to, stuck);
  }

  lemma NextBucket(a: int, b: int)
    requires Bucket(a) && Bucket(b) && a < b
    ensures a + GRANULARITY <= b
  {
  }

  lemma NextChained(c: Config, s: State, a: Action)
    requires Valid(c) && Chained(c, s)
    requires a.now - c.bootstrap > ZERO_TIME && a.now - c.maxBackfill > ZERO_TIME
    ensures Chained(c, Next(c, s, a))
  {
    var p, t := Window(c, s.wm, a.now), Next(c, s, a);
    if t != s {
      if a.outcome.Partial? { PartialInside(p, a.outcome.to, a.outcome.stuck); }
      ChainedMore(c, s, t.polls[|s.polls|]);
      assert t.polls == s.polls + [t.polls[|s.polls|]];
    }
  }

  lemma ChainedMore(c: Config, s: State, d: Done)
    requires Chained(c, s) && DoneOk(c, d) && d.poll.start >= s.wm && d.to > ZERO_TIME
    ensures Chained(c, State(d.to, if s.base.None? then Some(d.poll.start) else s.base, s.polls + [d]))
  {
    var ps := s.polls + [d];
    forall i, j | 0 <= i < j < |ps| ensures ps[i].to <= ps[j].poll.start {
      if j < |s.polls| { assert s.polls[i].to <= s.polls[j].poll.start; }
    }
  }

  lemma NextCovered(c: Config, s: State, a: Action)
    requires Valid(c) && Inv(c, s) && Chained(c, Next(c, s, a))
    ensures Covered(c, Next(c, s, a))
  {
    var t := Next(c, s, a);
    if t != s {
      var d := t.polls[|s.polls|];
      forall e | Bucket(e) && t.base.value < e <= t.wm ensures Handled(c, t.polls, e) {
        if s.base.Some? && e <= s.wm {
          var i :| 0 <= i < |s.polls| && (Resolved(s.polls[i], e) || Abandoned(c, s.polls[i], e));
          assert t.polls[i] == s.polls[i];
        } else {
          assert t.polls[|s.polls|] == d;
          if d.poll.start < e { InsideCollected(c, s.wm, a.now, e); }
        }
      }
    }
  }

  lemma {:induction false} RunSafe(c: Config, wm: int, acts: seq<Action>)
    requires Valid(c) && ZERO_TIME <= wm && Sane(c, acts)
    ensures Inv(c, Exec(c, Init(wm), acts))
  {
    if acts != [] {
      var before, a := acts[..|acts| - 1], acts[|acts| - 1];
      RunSafe(c, wm, before);
      NextChained(c, Exec(c, Init(wm), before), a);
      NextCovered(c, Exec(c, Init(wm), before), a);
    }
  }

  /** Every bucket between the first start and the watermark was emitted or counted, or was already older
      than the backfill limit when a poll reached it, whatever the clock, the emits and the commits did. */
  lemma NothingSkipped(c: Config, wm: int, acts: seq<Action>, e: int)
    requires Valid(c) && ZERO_TIME <= wm && Sane(c, acts) && Bucket(e)
    requires var s := Exec(c, Init(wm), acts); s.base.Some? && s.base.value < e <= s.wm
    ensures Handled(c, Exec(c, Init(wm), acts).polls, e)
  {
    RunSafe(c, wm, acts);
  }

  ghost predicate FromFresh(c: Config, s: State) {
    && (s.base.None? ==> s.wm == ZERO_TIME && s.polls == [])
    && (s.base.Some? ==> s.wm > ZERO_TIME && s.polls != [] && FirstPoll(c, s.polls[0], s.base.value))
  }

  /** The first poll of a fresh key looks back by the bootstrap span, or by the backfill limit if that is
      shorter. */
  predicate FirstPoll(c: Config, d: Done, base: int) {
    && base == d.poll.start && (base == d.poll.now - c.bootstrap || base == d.poll.now - c.maxBackfill)
    && base >= d.poll.now - c.bootstrap && base >= d.poll.now - c.maxBackfill
  }

  lemma NextFresh(c: Config, s: State, a: Action)
    requires Valid(c) && FromFresh(c, s)
    requires a.now - c.bootstrap > ZERO_TIME && a.now - c.maxBackfill > ZERO_TIME
    ensures FromFresh(c, Next(c, s, a))
  {
    var p := Window(c, s.wm, a.now);
    if !Empty(p) && a.outcome.Partial? && Possible(p, a.outcome) {
      PartialInside(p, a.outcome.to, a.outcome.stuck);
    }
  }

  /** On a fresh key everything from that first start on is covered. */
  lemma {:induction false} FreshStart(c: Config, acts: seq<Action>)
    requires Valid(c) && Sane(c, acts)
    ensures FromFresh(c, Exec(c, Init(ZERO_TIME), acts))
  {
    if acts != [] {
      FreshStart(c, acts[..|acts| - 1]);
      NextFresh(c, Exec(c, Init(ZERO_TIME), acts[..|acts| - 1]), acts[|acts| - 1]);
    }
  }

  /** Two polls resolve the same bucket only if it straddles the end of the earlier one, which a
      backlog had cut short of the settle cutoff. */
  lemma RepeatsStraddle(c: Config, wm: int, acts: seq<Action>, i: nat, j: nat, e: int)
    requires Valid(c) && ZERO_TIME <= wm && Sane(c, acts)
    requires i < j < |Exec(c, Init(wm), acts).polls|
    requires var ps := Exec(c, Init(wm), acts).polls; Resolved(ps[i], e) && Resolved(ps[j], e)
    ensures var d := Exec(c, Init(wm), acts).polls[i];
            d.full && d.poll.until < e < d.poll.until + GRANULARITY && !Current(d.poll)
  {
    RunSafe(c, wm, acts);
  }

  /** Without a backlog, no bucket is resolved twice. */
  lemma ExactlyOnce(c: Config, wm: int, acts: seq<Action>, i: nat, j: nat, e: int)
    requires Valid(c) && ZERO_TIME <= wm && Sane(c, acts)
    requires i < j < |Exec(c, Init(wm), acts).polls| && Current(Exec(c, Init(wm), acts).polls[i].poll)
    ensures var ps := Exec(c, Init(wm), acts).polls; !(Resolved(ps[i], e) && Resolved(ps[j], e))
  {
    var ps := Exec(c, Init(wm), acts).polls;
    if Resolved(ps[i], e) && Resolved(ps[j], e) { RepeatsStraddle(c, wm, acts, i, j, e); }
  }

  /** Conversely, a straddling bucket is collected by a completed window and again by the next one. */
  lemma StraddlerRepeats(c: Config, since: int, now: int, later: int, e: int)
    requires Valid(c) && since != ZERO_TIME && now <= later && Bucket(e)
    requires var p := Window(c, since, now);
             && !Empty(p) && p.until != ZERO_TIME && later - c.maxBackfill <= p.until
             && !Empty(Window(c, p.until, later))
    ensures var p := Window(c, since, now);
            var q := Window(c, p.until, later);
            Collects(p, e) && Collects(q, e) <==> p.until < e <= p.cutoff && e - GRANULARITY < Seconds(p.until)
  {
    var p := Window(c, since, now);
    var q := Window(c, p.until, later);
    FetchCovers(c, since, now);
    FetchCovers(c, p.until, later);
    SecondsMono(p.until, q.until);
  }

  lemma SecondsMono(a: int, b: int)
    requires a <= b
    ensures Seconds(a) <= Seconds(b)
  {
  }

  /** Deep in a backlog there is such a bucket exactly when the window does not end in the first
      second of a minute. */
  lemma BacklogStraddles(p: Poll)
    requires p.until + GRANULARITY <= p.cutoff
    ensures (exists e :: Bucket(e) && p.until < e <= p.cutoff && e - GRANULARITY < Seconds(p.until))
            <==> p.until % MINUTE >= SECOND
  {
    var e := p.until - p.until % MINUTE + MINUTE;
    NextMinute(p.until);
    if p.until % MINUTE >= SECOND {
      assert Bucket(e) && p.until < e <= p.cutoff && e - GRANULARITY < Seconds(p.until);
    } else {
      forall f | Bucket(f) && p.until < f ensures Seconds(p.until) <= f - GRANULARITY {
        SameMinute(p.until, f);
      }
    }
  }

  lemma NextMinute(t: int)
    ensures Bucket(t - t % MINUTE + MINUTE)
    ensures t % MINUTE >= SECOND <==> t - t % MINUTE < Seconds(t)
  {
    var q, r := t / MINUTE, t % MINUTE;
    assert t == q * MINUTE + r && t - r == q * MINUTE;
    Remainder(60 * q + r / SECOND, r % SECOND, t);
  }

  lemma Remainder(q: int, r: int, t: int)
    requires t == q * SECOND + r && 0 <= r < SECOND
    ensures t % SECOND == r
  {
  }

  lemma SameMinute(t: int, f: int)
    requires Bucket(f) && t < f
    ensures t - t % MINUTE + MINUTE <= f
  {
  }

  // ----- catching up -----

  /** The watermark after the first `n` polls at the instants `nows`, all of them committed in full. */
  function After(c: Config, wm: int, nows: seq<int>, n: nat): int
    requires n <= |nows|
  {
    if n == 0 then wm
    else
      var before := After(c, wm, nows, n - 1);
      var p := Window(c, before, nows[n - 1]);
      if Empty(p) then before else p.until
  }

  /** The `n`-th of those polls. */
  function PollAt(c: Config, wm: int, nows: seq<int>, n: nat): Poll
    requires n < |nows|
  {
    Window(c, After(c, wm, nows, n), nows[n])
  }

  predicate Steady(nows: seq<int>, gap: int) {
    forall i :: 0 <= i < |nows| - 1 ==> nows[i] <= nows[i + 1] <= nows[i] + gap
  }

  lemma {:induction false} StaysPositive(c: Config, wm: int, nows: seq<int>, n: nat)
    requires Valid(c) && wm > ZERO_TIME && n <= |nows|
    ensures After(c, wm, nows, n) > ZERO_TIME
  {
    if n > 0 {
      StaysPositive(c, wm, nows, n - 1);
      WindowForward(c, After(c, wm, nows, n - 1), nows[n - 1]);
    }
  }

  lemma WindowForward(c: Config, since: int, now: int)
    requires since > ZERO_TIME
    ensures Window(c, since, now).start >= since
  {
  }

  /** As long as a backlog remains, each poll gains at least `window - gap` on the clock. */
  lemma {:induction false} LagFalls(c: Config, wm: int, nows: seq<int>, gap: int, n: nat)
    requires Valid(c) && wm > ZERO_TIME && Steady(nows, gap) && n < |nows|
    requires forall k :: 0 <= k < n ==> !CurrentAt(c, wm, nows, k)
    ensures nows[n] - After(c, wm, nows, n) <= nows[0] - wm - n * (c.window - gap)
  {
    if n > 0 {
      LagFalls(c, wm, nows, gap, n - 1);
      StaysPositive(c, wm, nows, n - 1);
      assert !CurrentAt(c, wm, nows, n - 1);
      assert n * (c.window - gap) == (n - 1) * (c.window - gap) + (c.window - gap);
    }
  }

  /** Once current, always current. */
  lemma StaysCurrent(c: Config, wm: int, nows: seq<int>, gap: int, n: nat)
    requires Valid(c) && wm > ZERO_TIME && Steady(nows, gap) && gap <= c.window && n + 1 < |nows|
    requires CurrentAt(c, wm, nows, n)
    ensures CurrentAt(c, wm, nows, n + 1)
  {
    StaysPositive(c, wm, nows, n);
    StaysPositive(c, wm, nows, n + 1);
  }

  predicate CurrentAt(c: Config, wm: int, nows: seq<int>, n: nat)
    requires n < |nows|
  {
    Current(PollAt(c, wm, nows, n))
  }

  function CurrentBy(c: Config, wm: int, nows: seq<int>): nat -> bool {
    (n: nat) => n < |nows| && CurrentAt(c, wm, nows, n)
  }

  lemma {:induction false} Persists(p: nat -> bool, k: nat, n: nat)
    requires k <= n && p(k) && forall i: nat :: k <= i < n && p(i) ==> p(i + 1)
    ensures p(n)
  {
    if k < n { Persists(p, k, n - 1); }
  }

  lemma CurrentFrom(c: Config, wm: int, nows: seq<int>, gap: int, k: nat, n: nat)
    requires Valid(c) && wm > ZERO_TIME && Steady(nows, gap) && gap <= c.window && k <= n < |nows|
    requires CurrentAt(c, wm, nows, k)
    ensures CurrentAt(c, wm, nows, n)
  {
    var p := CurrentBy(c, wm, nows);
    forall i: nat | k <= i < n && p(i) ensures p(i + 1) { StaysCurrent(c, wm, nows, gap, i); }
    Persists(p, k, n);
  }

  /** With ticks closer together than the window, the loop is current from poll `n` on, for every `n`
      that outweighs the initial lag. */
  lemma CatchesUp(c: Config, wm: int, nows: seq<int>, gap: int, n: nat)
    requires Valid(c) && wm > ZERO_TIME && Steady(nows, gap) && gap < c.window && n < |nows|
    requires nows[0] - wm - c.settle <= n * (c.window - gap)
    ensures Current(PollAt(c, wm, nows, n))
  {
    if exists k: nat :: k < n && CurrentAt(c, wm, nows, k) {
      var k: nat :| k < n && CurrentAt(c, wm, nows, k);
      CurrentFrom(c, wm, nows, gap, k, n);
    } else {
      LagFalls(c, wm, nows, gap, n);
      StaysPositive(c, wm, nows, n);
    }
  }
}
