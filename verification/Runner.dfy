/** One loop's emit worker (internal/schedule/runner.go): processing a batch, committing its
    watermark, and the flags the scheduler reads. */
module Runner {
  import opened Model
  import opened Selection
  import opened Coalesce
  import opened Buckets
  import opened Grouping
  import opened Governance
  import opened Answers
  import opened Emitter
  import opened Walk
  import Backfill

  datatype Batch = Batch(samples: seq<Sample>, logs: seq<LogRecord>, time: int, cursor: string)

  type Mark = Watermark<string>

  /** How `Save` ended; `Cancelled` is a leadership lost before the call. */
  datatype SaveResult = Cancelled | Saved | SaveFailed | Stale(stored: Option<Mark>)

  datatype State = State(busy: bool, front: Option<Mark>, saveFails: nat, degraded: bool)

  const FAIL_THRESHOLD := 5

  predicate Moves(front: Option<Mark>, w: Mark) {
    || front.None?
    || w.time > front.value.time
    || (w.time == front.value.time && w.cursor != "" && w.cursor != front.value.cursor)
  }

  /** The in-memory state after a commit attempt. */
  function Committed(s: State, w: Mark, r: SaveResult): State {
    match r
    case Cancelled => s
    case Saved => s.(saveFails := 0, degraded := false, front := if Moves(s.front, w) then Some(w) else s.front)
    case SaveFailed => s.(saveFails := s.saveFails + 1, degraded := s.degraded || s.saveFails + 1 >= FAIL_THRESHOLD)
    case Stale(stored) => if stored.Some? then s.(front := stored) else s
  }

  // ----- sequences of commits -----

  datatype Attempt = Attempt(mark: Mark, result: SaveResult)

  function Commits(s: State, ops: seq<Attempt>): State {
    if ops == [] then s
    else Committed(Commits(s, ops[..|ops| - 1]), ops[|ops| - 1].mark, ops[|ops| - 1].result)
  }

  /** Failed saves since the last one that succeeded. */
  function FailsSince(ops: seq<Attempt>): nat {
    if ops == [] || ops[|ops| - 1].result.Saved? then 0
    else FailsSince(ops[..|ops| - 1]) + if ops[|ops| - 1].result.SaveFailed? then 1 else 0
  }

  /** Starting healthy, a loop is degraded by its saves exactly while five or more have failed without a
      success in between. */
  lemma {:induction false} DegradedIff(s: State, ops: seq<Attempt>)
    requires !s.degraded && s.saveFails == 0
    ensures Commits(s, ops).degraded <==> FailsSince(ops) >= 5
    ensures Commits(s, ops).saveFails == FailsSince(ops)
  {
    if ops != [] { DegradedIff(s, ops[..|ops| - 1]); }
  }

  /** The frontier only leaves the highest committed time when a refused save brings the stored one in. */
  lemma {:induction false} FrontierCovers(s: State, ops: seq<Attempt>, i: nat)
    requires i < |ops| && ops[i].result.Saved? && forall j :: i < j < |ops| ==> !ops[j].result.Stale?
    ensures Commits(s, ops).front.Some? && ops[i].mark.time <= Commits(s, ops).front.value.time
  {
    if i < |ops| - 1 {
      var before := ops[..|ops| - 1];
      assert forall j :: i < j < |before| ==> before[j] == ops[j];
      FrontierCovers(s, before, i);
    }
  }

  /** Nothing after attempt `i` says where the frontier stands. */
  predicate Silent(ops: seq<Attempt>, i: nat) {
    forall j :: i < j < |ops| ==> !ops[j].result.Saved? && (ops[j].result.Stale? ==> ops[j].result.stored.None?)
  }

  lemma {:induction false} FrontKept(s: State, ops: seq<Attempt>, n: nat)
    requires n <= |ops|
    requires forall j :: n <= j < |ops| ==> !ops[j].result.Saved? && (ops[j].result.Stale? ==> ops[j].result.stored.None?)
    ensures Commits(s, ops).front == Commits(s, ops[..n]).front
  {
    if n < |ops| {
      var before := ops[..|ops| - 1];
      assert before[..n] == ops[..n] && forall j :: n <= j < |before| ==> before[j] == ops[j];
      FrontKept(s, before, n);
    } else {
      assert ops[..n] == ops;
    }
  }

  /** After a refused save that read a stored mark, the frontier is that mark, until a save succeeds or
      another refusal reads one. */
  lemma ResyncHolds(s: State, ops: seq<Attempt>, i: nat, stored: Mark)
    requires i < |ops| && ops[i].result == Stale(Some(stored)) && Silent(ops, i)
    ensures Commits(s, ops).front == Some(stored)
  {
    FrontKept(s, ops, i + 1);
    assert ops[..i + 1][..i] == ops[..i];
  }

  /** An acknowledged save becomes the frontier if there is none, or if it has a later time, or the same time
      and another cursor that is not empty; otherwise the frontier stays. */
  lemma SavedFrontier(s: State, ops: seq<Attempt>, i: nat)
    requires i < |ops| && ops[i].result.Saved? && Silent(ops, i)
    ensures var f, w := Commits(s, ops[..i]).front, ops[i].mark;
            if f.None? || f.value.time < w.time
               || (f.value.time == w.time && w.cursor != "" && w.cursor != f.value.cursor)
            then Commits(s, ops).front == Some(w) else Commits(s, ops).front == f
  {
    FrontKept(s, ops, i + 1);
    assert ops[..i + 1][..i] == ops[..i];
  }

  // ----- the sample path -----

  /** Where each sample of a batch ended up. */
  datatype Books = Books(
    capped: seq<Sample>, dropped: seq<Sample>, emitted: seq<Sample>, skipped: seq<Sample>, pending: seq<Sample>)

  ghost predicate Balanced(samples: seq<Sample>, k: Books) {
    multiset(samples)
    == multiset(k.capped) + multiset(k.dropped) + multiset(k.emitted) + multiset(k.skipped) + multiset(k.pending)
  }

  /** Nothing pending lies at or before `front`, and everything sent does. */
  ghost predicate Divides(front: Option<int>, k: Books) {
    && (forall x :: x in k.pending && front.Some? ==> front.value < x.timestamp)
    && (forall x :: x in k.emitted || x in k.skipped ==> front.Some? && x.timestamp <= front.value)
  }

  function Settled(posts: seq<Post>, stuck: bool): seq<Post> {
    if stuck && posts != [] then posts[..|posts| - 1] else posts
  }

  function Pending(bs: seq<seq<Sample>>, n: nat, posts: seq<Post>): seq<Sample> {
    if n < |bs| && posts != [] then posts[|posts| - 1].samples + Flat(bs[n + 1..]) else []
  }

  lemma {:induction false} ResolvedSplit(posts: seq<Post>)
    requires Resolved(posts)
    ensures multiset(All(posts)) == multiset(Judged(posts, Done)) + multiset(Judged(posts, Gap))
  {
    if posts != [] { ResolvedSplit(posts[..|posts| - 1]); }
  }

  lemma {:induction false} JudgedMember(posts: seq<Post>, v: Verdict, x: Sample) returns (i: nat)
    requires x in Judged(posts, v)
    ensures i < |posts| && x in posts[i].samples
  {
    var n := |posts| - 1;
    if x in posts[n].samples { i := n; } else { i := JudgedMember(posts[..n], v, x); }
  }

  /** The accounts of a walk that reached the end. */
  lemma ThroughBalances(guard: Guard, bs: seq<seq<Sample>>, posts: seq<Post>, dropped: seq<Sample>)
    requires Through(guard, bs, |bs|, posts, dropped)
    ensures multiset(Flat(bs)) == multiset(dropped) + multiset(Judged(posts, Done)) + multiset(Judged(posts, Gap))
  {
    ResolvedSplit(posts);
    assert bs[..|bs|] == bs;
  }

  /** The accounts of a walk that got stuck. */
  lemma StuckBalances(guard: Guard, bs: seq<seq<Sample>>, n: nat, posts: seq<Post>, dropped: seq<Sample>)
    requires Stuck(guard, bs, n, posts, dropped)
    ensures var done := posts[..|posts| - 1];
            multiset(Flat(bs)) == multiset(dropped) + (multiset(Judged(done, Done)) + multiset(Judged(done, Gap)))
                                  + multiset(Pending(bs, n, posts))
  {
    FlatAround(bs, n + 1);
    ResolvedSplit(posts[..|posts| - 1]);
    Regroup(Flat(bs[..n + 1]), All(posts[..|posts| - 1]), posts[|posts| - 1].samples, dropped, Flat(bs[n + 1..]));
  }

  lemma FlatAround(bs: seq<seq<Sample>>, n: nat)
    requires n <= |bs|
    ensures Flat(bs) == Flat(bs[..n]) + Flat(bs[n..])
  {
    assert bs == bs[..n] + bs[n..];
    FlatConcat(bs[..n], bs[n..]);
  }

  lemma Regroup(all: seq<Sample>, sent: seq<Sample>, last: seq<Sample>, dropped: seq<Sample>, rest: seq<Sample>)
    requires multiset(all) == multiset(sent + last) + multiset(dropped)
    ensures multiset(all + rest) == multiset(dropped) + multiset(sent) + multiset(last + rest)
  {
  }

  lemma PendingLater(bs: seq<seq<Sample>>, n: nat, posts: seq<Post>, x: Sample)
    requires Risen(bs) && n < |bs| && posts != [] && From(posts[|posts| - 1].samples, bs[n])
    requires x in Pending(bs, n, posts)
    ensures bs[n][0].timestamp <= x.timestamp
  {
    if x !in posts[|posts| - 1].samples {
      var i := FlatMember(bs[n + 1..], x);
      assert bs[n + 1..][i] == bs[n + 1 + i];
    }
  }

  lemma {:induction false} AllMember(posts: seq<Post>, i: nat, x: Sample)
    requires i < |posts| && x in posts[i].samples
    ensures x in All(posts)
  {
    if i < |posts| - 1 { AllMember(posts[..|posts| - 1], i, x); }
  }

  lemma SentEarlier(bs: seq<seq<Sample>>, m: nat, posts: seq<Post>, dropped: seq<Sample>, i: nat, x: Sample)
    returns (j: nat)
    requires m <= |bs| && Accounts(bs, m, posts, dropped) && i < |posts| && x in posts[i].samples
    ensures j < m && x in bs[j]
  {
    AllMember(posts, i, x);
    assert x in multiset(All(posts));
    assert x in multiset(Flat(bs[..m]));
    j := FlatMember(bs[..m], x);
  }

  ghost predicate Walked(guard: Guard, bs: seq<seq<Sample>>, n: nat, posts: seq<Post>, dropped: seq<Sample>) {
    && Risen(bs) && InOrder(posts) && n <= |bs|
    && if n == |bs| then Through(guard, bs, n, posts, dropped) else Stuck(guard, bs, n, posts, dropped)
  }

  lemma InBucket(bs: seq<seq<Sample>>, j: nat, m: nat, x: Sample)
    requires Risen(bs) && j <= m < |bs| && x in bs[j]
    ensures x.timestamp <= bs[m][0].timestamp && (x.timestamp == bs[m][0].timestamp ==> j == m)
  {
  }

  lemma PostTime(bs: seq<seq<Sample>>, n: nat, p: Post)
    requires Risen(bs) && n < |bs| && p.samples != [] && From(p.samples, bs[n])
    ensures p.samples[0].timestamp == bs[n][0].timestamp
  {
    assert p.samples[0] in p.samples;
  }

  lemma Successive(posts: seq<Post>, i: nat, j: nat, x: Sample)
    requires InOrder(posts) && i < j < |posts| && x in posts[i].samples
    ensures x.timestamp < posts[j].samples[0].timestamp
  {
  }

  lemma ThroughEarlier(bs: seq<seq<Sample>>, posts: seq<Post>, dropped: seq<Sample>, i: nat, x: Sample)
    requires Risen(bs) && Accounts(bs, |bs|, posts, dropped) && i < |posts| && x in posts[i].samples
    ensures |bs| > 0 && x.timestamp <= bs[|bs| - 1][0].timestamp
  {
    var j := SentEarlier(bs, |bs|, posts, dropped, i, x);
    InBucket(bs, j, |bs| - 1, x);
  }

  lemma StuckEarlier(bs: seq<seq<Sample>>, n: nat, posts: seq<Post>, dropped: seq<Sample>, i: nat, x: Sample)
    requires Risen(bs) && n < |bs| && Accounts(bs, n + 1, posts, dropped) && InOrder(posts)
    requires i + 1 < |posts| && x in posts[i].samples && From(posts[|posts| - 1].samples, bs[n])
    ensures n > 0 && x.timestamp <= bs[n - 1][0].timestamp
  {
    var j := SentEarlier(bs, n + 1, posts, dropped, i, x);
    Successive(posts, i, |posts| - 1, x);
    PostTime(bs, n, posts[|posts| - 1]);
    InBucket(bs, j, n, x);
    InBucket(bs, j, n - 1, x);
  }

  /** A settled post lies in one of the resolved buckets. */
  lemma SettledEarlier(guard: Guard, bs: seq<seq<Sample>>, n: nat, posts: seq<Post>, dropped: seq<Sample>, i: nat,
                       x: Sample)
    requires Walked(guard, bs, n, posts, dropped)
    requires i < |Settled(posts, n < |bs|)| && x in posts[i].samples
    ensures n > 0 && x.timestamp <= bs[n - 1][0].timestamp
  {
    if n == |bs| {
      ThroughEarlier(bs, posts, dropped, i, x);
    } else {
      StuckEarlier(bs, n, posts, dropped, i, x);
    }
  }

  lemma WalkDivides(guard: Guard, bs: seq<seq<Sample>>, n: nat, posts: seq<Post>, k: Books)
    requires Walked(guard, bs, n, posts, k.dropped)
    requires k.emitted == Judged(Settled(posts, n < |bs|), Done) && k.skipped == Judged(Settled(posts, n < |bs|), Gap)
    requires k.pending == Pending(bs, n, posts)
    ensures Divides(Reached(bs, n), k)
  {
    forall x | x in k.pending ensures n > 0 ==> bs[n - 1][0].timestamp < x.timestamp {
      PendingLater(bs, n, posts, x);
    }
    var done := Settled(posts, n < |bs|);
    forall x | x in k.emitted || x in k.skipped ensures n > 0 && x.timestamp <= bs[n - 1][0].timestamp {
      var i := JudgedMember(done, if x in k.emitted then Done else Gap, x);
      SettledEarlier(guard, bs, n, posts, k.dropped, i, x);
    }
  }

  lemma SplitRisen(s: seq<Sample>, bs: seq<seq<Sample>>)
    requires IsSplit(s, bs)
    ensures Risen(bs)
  {
    forall i, x | 0 <= i < |bs| && x in bs[i] ensures x.timestamp == bs[i][0].timestamp {
      WhereMember(s, Stamp(), bs[i][0].timestamp, x);
    }
  }

  lemma EmptySplit(s: seq<Sample>, bs: seq<seq<Sample>>)
    requires IsSplit(s, bs)
    ensures bs == [] <==> s == []
  {
    assert |multiset(Flat(bs))| == |multiset(s)|;
    if bs != [] { assert Flat(bs) == Flat(bs[..|bs| - 1]) + bs[|bs| - 1]; }
  }

  /** The books of a walk over the buckets of the capped samples balance against the whole batch. */
  lemma BooksBalance(samples: seq<Sample>, max: nat, bs: seq<seq<Sample>>, k: Books)
    requires multiset(Flat(bs)) == multiset(Kept(samples, max))
    requires multiset(Flat(bs)) == multiset(k.dropped) + (multiset(k.emitted) + multiset(k.skipped)) + multiset(k.pending)
    requires k.capped == Select(samples, Negate(Flags(samples, max)))
    ensures Balanced(samples, k) && |k.capped| == |samples| - |Kept(samples, max)|
  {
    SelectPartition(samples, Flags(samples, max));
  }

  /** How far the sample path came. */
  datatype Course = Course(posts: seq<Post>, capped: nat, dropped: nat, stuck: bool, frontier: Option<int>)

  /** Where a walk started and where it left the guard: the gateway, the payloads posted before, and
      the admissions asked of the guard by the end. */
  datatype Scene<!T> = Scene(gateway: Gateway<T>, start: nat, asks: seq<Ask>)

  ghost predicate Followed(guard: Guard, at: Scene<Sample>, c: Course, k: Books) {
    && AllClean(guard, c.posts) && InOrder(c.posts) && Wired(at.gateway, at.start, c.posts)
    && c.capped == |k.capped| && Lost(guard, k.dropped, c.dropped, at.asks)
    && (c.stuck ==> c.posts != [] && !Resolves(c.posts[|c.posts| - 1].answer))
    && (!c.stuck ==> k.pending == [])
    && k.emitted == Judged(Settled(c.posts, c.stuck), Done) && k.skipped == Judged(Settled(c.posts, c.stuck), Gap)
    && Divides(c.frontier, k)
  }

  /** The books of a walk, over the buckets `bs` of what the cap left. */
  function BooksOf(samples: seq<Sample>, max: nat, bs: seq<seq<Sample>>, n: nat, posts: seq<Post>,
                   lost: seq<Sample>): Books {
    var done := Settled(posts, n < |bs|);
    Books(Select(samples, Negate(Flags(samples, max))), lost, Judged(done, Done), Judged(done, Gap), Pending(bs, n, posts))
  }

  lemma WalkBalances(guard: Guard, samples: seq<Sample>, max: nat, bs: seq<seq<Sample>>, n: nat, posts: seq<Post>,
                     k: Books)
    requires Walked(guard, bs, n, posts, k.dropped) && k == BooksOf(samples, max, bs, n, posts, k.dropped)
    requires multiset(Flat(bs)) == multiset(Kept(samples, max))
    ensures Balanced(samples, k) && |k.capped| == |samples| - |Kept(samples, max)|
  {
    if n < |bs| { StuckBalances(guard, bs, n, posts, k.dropped); } else { ThroughBalances(guard, bs, posts, k.dropped); }
    BooksBalance(samples, max, bs, k);
  }

  lemma WalkFollowed(guard: Guard, at: Scene<Sample>, samples: seq<Sample>, max: nat, bs: seq<seq<Sample>>,
                     n: nat, c: Course, k: Books)
    requires Walked(guard, bs, n, c.posts, k.dropped) && k == BooksOf(samples, max, bs, n, c.posts, k.dropped)
    requires Wired(at.gateway, at.start, c.posts) && Lost(guard, k.dropped, c.dropped, at.asks)
    requires c == Course(c.posts, |k.capped|, c.dropped, n < |bs|, Reached(bs, n))
    ensures Followed(guard, at, c, k)
  {
    WalkDivides(guard, bs, n, c.posts, k);
  }

  method ProcessSamples(guard: Guard, sender: Sender<Sample>, samples: seq<Sample>, maxDPM: int)
    returns (c: Course, ghost k: Books)
    requires guard.Valid()
    modifies guard, sender
    ensures guard.Valid() && old(guard.asks) <= guard.asks && Balanced(samples, k)
    ensures Followed(guard, Scene(sender.gateway, |old(sender.log)|, guard.asks), c, k)
    ensures !c.stuck ==> (c.frontier.Some? <==> c.capped < |samples|)
    ensures k.capped == Select(samples, Negate(Flags(samples, Cap(maxDPM))))
  {
    var kept, capped := CoalesceDPM(samples, maxDPM);
    var bs := SplitByBucket(kept);
    SplitRisen(kept, bs);
    var posts, dropped, n, frontier, lost := EmitBuckets(guard, sender, bs);
    c := Course(posts, capped, dropped, n < |bs|, frontier);
    k := BooksOf(samples, Cap(maxDPM), bs, n, posts, lost);
    WalkBalances(guard, samples, Cap(maxDPM), bs, n, posts, k);
    WalkFollowed(guard, Scene(sender.gateway, |old(sender.log)|, guard.asks), samples, Cap(maxDPM), bs, n, c, k);
    EmptySplit(kept, bs);
  }

  /** The samples counted as skipped are those that did not arrive if and only if no skipped bucket had
      its first payload that was not cut in two accepted; those emitted all arrived. */
  lemma SkippedBooks(guard: Guard, at: Scene<Sample>, c: Course, k: Books)
    requires Followed(guard, at, c, k)
    ensures var done := Settled(c.posts, c.stuck);
            && multiset(k.emitted) == multiset(Arrived(done, Done))
            && multiset(k.skipped) == multiset(Arrived(done, Gap)) + multiset(Missing(done, Gap))
            && (multiset(k.skipped) == multiset(Missing(done, Gap)) <==> SkipsWhole(done))
  {
    var done := Settled(c.posts, c.stuck);
    WiredPrefix(at.gateway, at.start, c.posts, |done|);
    assert done == c.posts[..|done|];
    SkippedArrivals(at.gateway, at.start, done);
  }

  // ----- the log path -----

  datatype LogCourse = LogCourse(sent: Option<seq<LogRecord>>, dropped: nat, verdict: Verdict,
                                 log: seq<Payload<LogRecord>>)

  ghost predicate LogsBarred(guard: Guard, loop: string, lost: seq<LogRecord>, asks: seq<Ask>) {
    forall r :: r in lost ==> guard.LogBarred(loop, r, asks)
  }

  lemma LogsBarredMore(guard: Guard, loop: string, lost: seq<LogRecord>, asks: seq<Ask>, more: seq<Ask>)
    requires LogsBarred(guard, loop, lost, asks) && asks <= more
    ensures LogsBarred(guard, loop, lost, more)
  {
    forall r | r in lost ensures guard.LogBarred(loop, r, more) {
      assert guard.LogRuled(loop, r, false, asks);
      guard.LogRuledMore(loop, r, false, asks, more);
    }
  }

  /** Every record is kept or counted, and counted for a reason; what is sent is kept, free of a body,
      and clean; the verdict is that of the sender. */
  ghost predicate LogsFollowed(guard: Guard, at: Scene<LogRecord>, loop: string, logs: seq<LogRecord>, c: LogCourse,
                               lost: seq<LogRecord>)
  {
    && |lost| == c.dropped && LogsBarred(guard, loop, lost, at.asks)
    && multiset(Bodiless(logs)) == multiset(lost) + multiset(if c.sent.Some? then c.sent.value else [])
    && (c.sent.Some? ==> c.sent.value != [] && forall r :: r in c.sent.value ==> r.body == ""
                                                                                 && guard.LogAllowed(loop, r))
    && (c.sent.None? ==> c.verdict == Done && c.log == [])
    && (c.sent.Some? && c.sent.value != [] ==>
          var s := Sends(at.gateway, c.sent.value, at.start); c.log == s.log && c.verdict == Judge(s.answer))
  }

  method CleanLogs(guard: Guard, loop: string, logs: seq<LogRecord>)
    returns (kept: seq<LogRecord>, dropped: nat, ghost lost: seq<LogRecord>)
    requires guard.Valid()
    modifies guard
    ensures guard.Valid() && old(guard.asks) <= guard.asks
    ensures multiset(Bodiless(logs)) == multiset(lost) + multiset(kept) && |lost| == dropped
    ensures LogsBarred(guard, loop, lost, guard.asks)
    ensures forall r :: r in kept ==> r.body == "" && guard.LogAllowed(loop, r)
  {
    ghost var fine;
    kept, dropped, fine := guard.SanitizeLogs(loop, logs);
    lost := Select(Bodiless(logs), Negate(fine));
    SelectPartition(Bodiless(logs), fine);
    forall r | r in kept ensures r.body == "" && guard.LogAllowed(loop, r) {
      var i := SelectMember(Bodiless(logs), fine, r);
      assert guard.LogRuled(loop, Bodiless(logs)[i], fine[i], guard.asks);
    }
    forall r | r in lost ensures guard.LogBarred(loop, r, guard.asks) {
      var i := SelectMember(Bodiless(logs), Negate(fine), r);
      assert guard.LogRuled(loop, Bodiless(logs)[i], fine[i], guard.asks);
    }
  }

  method ProcessLogs(guard: Guard, sender: Sender<LogRecord>, loop: string, logs: seq<LogRecord>)
    returns (c: LogCourse, ghost lost: seq<LogRecord>)
    requires guard.Valid()
    modifies guard, sender
    ensures guard.Valid() && old(guard.asks) <= guard.asks
    ensures LogsFollowed(guard, Scene(sender.gateway, |old(sender.log)|, guard.asks), loop, logs, c, lost)
  {
    var kept, dropped, out := CleanLogs(guard, loop, logs);
    lost := out;
    if kept == [] {
      c := LogCourse(None, dropped, Done, []);
    } else {
      var from := |sender.log|;
      var answer := sender.Emit(kept);
      c := LogCourse(Some(kept), dropped, Judge(answer), sender.log[from..]);
    }
  }

  // ----- the runner -----

  datatype Stage = NotStarted | LogsStuck | Ran

  datatype Report = Report(stage: Stage, logs: LogCourse, course: Course, commit: Option<Mark>)

  /** The environment of one `ProcessBatch`: is the leader alive, and what does the save return. */
  datatype Env = Env(alive: bool, save: SaveResult)

  const NO_LOGS := LogCourse(None, 0, Done, [])
  const NO_COURSE := Course([], 0, 0, false, None)

  function StuckVerdict(c: Course): Verdict
    requires c.stuck && c.posts != []
  {
    Judge(c.posts[|c.posts| - 1].answer)
  }

  predicate Halted(r: Report) {
    || (r.stage.LogsStuck? && r.logs.verdict.Halt?)
    || (r.stage.Ran? && r.course.stuck && r.course.posts != [] && StuckVerdict(r.course).Halt?)
  }

  /** The runner's state after the batch: one commit attempt at most, then the halt flag. */
  function Finished(s: State, r: Report, save: SaveResult): State {
    var s1 := if r.commit.Some? then Committed(s, r.commit.value, save) else s;
    s1.(degraded := s1.degraded || Halted(r), busy := false)
  }

  /** What may be committed: nothing if the batch never got to its samples; an interior bucket with
      an empty cursor if it got stuck; the whole window, with its cursor, if it completed. */
  ghost predicate CommitRule(b: Batch, epoch: int, r: Report, k: Books) {
    if !r.stage.Ran? then
      r.commit == None && r.course == NO_COURSE
    else if r.course.stuck then
      r.commit == if r.course.frontier.Some? then Some(Watermark(r.course.frontier.value, "", epoch)) else None
    else
      r.commit == if r.course.capped < |b.samples| || b.time != ZERO_TIME || b.cursor != ""
                  then Some(Watermark(b.time, b.cursor, epoch)) else None
  }

  /** A stuck batch commits strictly before everything it leaves behind, never its window end, and
      never a cursor. */
  lemma StuckStaysShort(b: Batch, epoch: int, guard: Guard, at: Scene<Sample>, r: Report, k: Books)
    requires CommitRule(b, epoch, r, k) && Followed(guard, at, r.course, k) && Balanced(b.samples, k)
    requires k.pending != [] && r.commit.Some?
    ensures r.commit.value.cursor == "" && forall x :: x in k.pending ==> r.commit.value.time < x.timestamp
    ensures (forall x :: x in b.samples ==> x.timestamp <= b.time) ==> r.commit.value.time < b.time
  {
    var x := k.pending[0];
    assert x in multiset(k.pending);
    assert x in multiset(b.samples);
    assert x in b.samples;
  }

  /** What is committed, read off the books: a batch with nothing pending commits its own time and cursor
      unless it carried nothing at all; one that got stuck commits a time between what is resolved and
      what is pending, if anything is resolved; one that never got to its samples commits nothing. */
  lemma CommitFollows(b: Batch, epoch: int, guard: Guard, at: Scene<Sample>, r: Report, k: Books)
    requires CommitRule(b, epoch, r, k) && r.stage.Ran? && Followed(guard, at, r.course, k)
    ensures !r.course.stuck ==>
              && k.pending == []
              && (r.commit.Some? ==> r.commit.value == Watermark(b.time, b.cursor, epoch))
              && (r.commit.None? ==> |b.samples| <= |k.capped| && b.time == ZERO_TIME && b.cursor == "")
    ensures r.course.stuck && r.commit.None? ==> k.emitted == [] && k.skipped == []
    ensures r.course.stuck && r.commit.Some? ==>
              && r.commit.value.epoch == epoch
              && (forall x :: x in k.emitted || x in k.skipped ==> x.timestamp <= r.commit.value.time)
              && (forall x :: x in k.pending ==> r.commit.value.time < x.timestamp)
  {
    assert k.emitted == [] || k.emitted[0] in k.emitted;
    assert k.skipped == [] || k.skipped[0] in k.skipped;
  }

  /** The flags after a batch: never busy; degraded if the logs or the last bucket met a malformed payload or
      an unknown rejection, even if the commit succeeded; otherwise as the save left them. */
  lemma HaltDegrades(s: State, r: Report, save: SaveResult)
    ensures !Finished(s, r, save).busy
    ensures r.stage.LogsStuck? && r.logs.verdict == Halt ==> Finished(s, r, save).degraded
    ensures r.stage.Ran? && r.course.stuck && r.course.posts != []
            && r.course.posts[|r.course.posts| - 1].answer in {Rejected(BadEncoding), Rejected(UnknownReason)} ==>
              Finished(s, r, save).degraded
    ensures !(r.stage.LogsStuck? && r.logs.verdict == Halt)
            && !(r.stage.Ran? && r.course.stuck && r.course.posts != []
                 && r.course.posts[|r.course.posts| - 1].answer in {Rejected(BadEncoding), Rejected(UnknownReason)}) ==>
              Finished(s, r, save).degraded == if r.commit.Some? then Committed(s, r.commit.value, save).degraded
                                               else s.degraded
    ensures r.commit.None? ==> Finished(s, r, save).front == s.front
  {
  }

  /** The commit that `CommitRule` asks for after the samples were walked. */
  function CommitFor(b: Batch, epoch: int, c: Course): Option<Mark> {
    if c.stuck then
      if c.frontier.Some? then Some(Watermark(c.frontier.value, "", epoch)) else None
    else if c.frontier.Some? || b.time != ZERO_TIME || b.cursor != "" then
      Some(Watermark(b.time, b.cursor, epoch))
    else None
  }

  /** What the books and the report of one batch promise. */
  ghost predicate Sound(guard: Guard, loop: string, b: Batch, epoch: int, env: Env, logsAt: Scene<LogRecord>,
                        at: Scene<Sample>, r: Report, k: Books, lost: seq<LogRecord>)
  {
    && Balanced(b.samples, k) && CommitRule(b, epoch, r, k)
    && (r.stage.NotStarted? <==> !env.alive)
    && (r.stage.LogsStuck? <==> env.alive && b.logs != [] && (r.logs.verdict.Halt? || r.logs.verdict.Retry?))
    && (env.alive && b.logs != [] ==> LogsFollowed(guard, logsAt, loop, b.logs, r.logs, lost))
    && (r.stage.Ran? ==> Followed(guard, at, r.course, k))
    && (!r.stage.Ran? ==> k == Books([], [], [], [], b.samples))
  }

  /** Nothing is committed past log records that were neither accepted nor rejected for good. */
  lemma LogsBeforeCommit(guard: Guard, loop: string, b: Batch, epoch: int, env: Env, logsAt: Scene<LogRecord>,
                         at: Scene<Sample>, r: Report, k: Books, lost: seq<LogRecord>)
    requires Sound(guard, loop, b, epoch, env, logsAt, at, r, k, lost) && b.logs != [] && r.commit.Some?
    ensures r.logs.sent.None? ||
            Sends(logsAt.gateway, r.logs.sent.value, logsAt.start).answer
              in {Accepted, Rejected(DuplicateTimestamp), Rejected(TooOld), Rejected(PayloadTooLarge)}
  {
    if r.logs.sent.Some? { JudgeIs(Sends(logsAt.gateway, r.logs.sent.value, logsAt.start).answer); }
  }

  lemma RanSound(guard: Guard, loop: string, b: Batch, epoch: int, env: Env, logsAt: Scene<LogRecord>,
                 at: Scene<Sample>, logs: LogCourse, c: Course, k: Books, lost: seq<LogRecord>)
    requires env.alive && (b.logs != [] ==> LogsFollowed(guard, logsAt, loop, b.logs, logs, lost))
    requires b.logs == [] || !(logs.verdict.Halt? || logs.verdict.Retry?)
    requires Followed(guard, at, c, k) && Balanced(b.samples, k)
    requires !c.stuck ==> (c.frontier.Some? <==> c.capped < |b.samples|)
    ensures Sound(guard, loop, b, epoch, env, logsAt, at, Report(Ran, logs, c, CommitFor(b, epoch, c)), k, lost)
  {
  }

  method LogStage(guard: Guard, sender: Sender<LogRecord>, loop: string, logs: seq<LogRecord>)
    returns (c: LogCourse, proceed: bool, ghost lost: seq<LogRecord>)
    requires guard.Valid()
    modifies guard, sender
    ensures guard.Valid() && old(guard.asks) <= guard.asks
    ensures logs != [] ==>
              LogsFollowed(guard, Scene(sender.gateway, |old(sender.log)|, guard.asks), loop, logs, c, lost)
    ensures proceed <==> logs == [] || !(c.verdict.Halt? || c.verdict.Retry?)
  {
    if logs == [] { return NO_LOGS, true, []; }
    c, lost := ProcessLogs(guard, sender, loop, logs);
    proceed := !(c.verdict.Halt? || c.verdict.Retry?);
  }

  class LoopRunner {
    const guard: Guard
    const samples: Sender<Sample>
    const logs: Sender<LogRecord>
    const loop: string
    const maxDPM: int
    var busy: bool
    var front: Option<Mark>
    var saveFails: nat
    var degraded: bool
    /** The pinned frontier and the floor up to which its unstorable minutes are counted. */
    var countedWm: int
    var countedFloor: int

    function Flags(): State reads this { State(busy, front, saveFails, degraded) }

    constructor (guard: Guard, samples: Sender<Sample>, logs: Sender<LogRecord>, loop: string, maxDPM: int)
      ensures this.guard == guard && this.samples == samples && this.logs == logs
      ensures this.loop == loop && this.maxDPM == maxDPM
      ensures Flags() == State(false, None, 0, false) && countedWm == countedFloor == ZERO_TIME
    {
      this.guard, this.samples, this.logs, this.loop, this.maxDPM := guard, samples, logs, loop, maxDPM;
      busy, front, saveFails, degraded, countedWm, countedFloor := false, None, 0, false, ZERO_TIME, ZERO_TIME;
    }

    method Commit(w: Mark, r: SaveResult)
      modifies `front, `saveFails, `degraded
      ensures Flags() == Committed(old(Flags()), w, r)
    {
      match r
      case Cancelled =>
      case SaveFailed =>
        saveFails := saveFails + 1;
        if saveFails >= FAIL_THRESHOLD && !degraded { degraded := true; }
      case Stale(stored) =>
        if stored.Some? { front := stored; }
      case Saved =>
        saveFails, degraded := 0, false;
        if Moves(front, w) { front := Some(w); }
    }

    /** The stages of a batch under a live leader; the commit is only decided here. */
    method RunStages(b: Batch, epoch: int, env: Env) returns (r: Report, ghost k: Books, ghost lost: seq<LogRecord>)
      requires guard.Valid() && env.alive
      modifies guard, samples, logs
      ensures guard.Valid()
      ensures Sound(guard, loop, b, epoch, env, Scene(logs.gateway, |old(logs.log)|, guard.asks),
                    Scene(samples.gateway, |old(samples.log)|, guard.asks), r, k, lost)
    {
      ghost var start := |samples.log|;
      var logged, proceed;
      logged, proceed, lost := LogStage(guard, logs, loop, b.logs);
      if !proceed {
        k := Books([], [], [], [], b.samples);
        r := Report(LogsStuck, logged, NO_COURSE, None);
        return;
      }
      ghost var asks := guard.asks;
      var c;
      c, k := ProcessSamples(guard, samples, b.samples, maxDPM);
      r := Report(Ran, logged, c, CommitFor(b, epoch, c));
      if b.logs != [] { LogsBarredMore(guard, loop, lost, asks, guard.asks); }
      RanSound(guard, loop, b, epoch, env, Scene(logs.gateway, |old(logs.log)|, guard.asks),
               Scene(samples.gateway, start, guard.asks), logged, c, k, lost);
    }

    /** The commit that the stages decided on, and the flags after it. */
    method Finish(r: Report, save: SaveResult)
      modifies `busy, `front, `saveFails, `degraded
      ensures Flags() == Finished(old(Flags()), r, save)
    {
      if r.commit.Some? { Commit(r.commit.value, save); }
      if Halted(r) { degraded := true; }
      busy := false;
    }

    /** For every answer of the gateway and the store: no sample is lost from the books, and the
        commit obeys `CommitRule`. */
    method ProcessBatch(b: Batch, epoch: int, env: Env)
      returns (r: Report, ghost k: Books, ghost lost: seq<LogRecord>)
      requires guard.Valid()
      modifies `busy, `front, `saveFails, `degraded, guard, samples, logs
      ensures guard.Valid()
      ensures Sound(guard, loop, b, epoch, env, Scene(logs.gateway, |old(logs.log)|, guard.asks),
                    Scene(samples.gateway, |old(samples.log)|, guard.asks), r, k, lost)
      ensures Flags() == Finished(old(Flags()), r, env.save)
    {
      if env.alive {
        r, k, lost := RunStages(b, epoch, env);
      } else {
        r, k, lost := Report(NotStarted, NO_LOGS, NO_COURSE, None), Books([], [], [], [], b.samples), [];
      }
      Finish(r, env.save);
    }

    method BackfillUnstorableMinutes(mark: int, floor: int) returns (mins: nat)
      modifies `countedWm, `countedFloor
      ensures var t := Backfill.Tally(old(countedWm), old(countedFloor));
              mins == Backfill.Newly(t, mark, floor)
              && Backfill.Tally(countedWm, countedFloor) == Backfill.Step(t, mark, floor)
    {
      var from := mark;
      if countedWm == mark && countedFloor > from { from := countedFloor; }
      if (floor - from) / MINUTE <= 0 { return 0; }
      mins := (floor - from) / MINUTE;
      countedWm, countedFloor := mark, from + mins * MINUTE;
    }

    /** A new leadership forgets everything the last one held in memory. */
    method Reset()
      modifies this
      ensures Flags() == State(false, None, 0, false) && countedWm == countedFloor == ZERO_TIME
    {
      busy, front, saveFails, degraded := false, None, 0, false;
      countedWm, countedFloor := ZERO_TIME, ZERO_TIME;
    }
  }
}
