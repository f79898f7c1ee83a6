/** A run of the job machine that closes a window over an unread line: one replica, no failure, and a
    server whose second range stops short. */
module LossyExport {
  import opened Model
  import opened Checkpoint
  import opened Lines
  import opened Export
  import D = Download
  import opened Pages

  /** A window of one page that is read in two chunks: the job, the answers and what they serve. */
  datatype Case = Case(c: Config, id: string, job: string, window: Window, first: D.Reply, second: D.Reply,
                       one: D.Served, two: D.Served)

  predicate CaseOk(x: Case, o: Objects) {
    && ValidConfig(x.c) && x.job != "" && x.c.maxPages <= 0
    && 0 < x.window.min < x.window.max && x.window == WindowBounds(x.c, x.window.min, x.window.max + x.c.settle)
    && 0 < x.window.max + x.c.settle - x.c.window
    && D.Serve(o(x.job), 0, 0, x.c.limits, x.first) == Some(x.one) && !x.one.eof && x.one.count > 0
    && D.Serve(o(x.job), x.one.count, x.one.next, x.c.limits, x.second) == Some(x.two) && x.two.eof
  }

  function Answers(x: Case, reply: D.Reply): Env {
    Env(x.window.max + x.c.settle, Some((x.job, 1)), true, Some(Success), reply)
  }

  function Stored(x: Case, phase: Phase, lines: nat, bytes: nat, deadline: int): Wm {
    Watermark(x.window.min, Json(Cursor(phase, x.job, Some(x.window), 0, 1, lines, bytes, deadline)), 1)
  }

  /** The trail of the window, with the answers used so far. */
  function Way(x: Case, startedAt: int, replies: seq<D.Reply>): Trail {
    Trail(Opening(x.window.min, x.window.max + x.c.settle, 1), [], startedAt, replies)
  }

  function Clock(x: Case): int { x.window.max + x.c.settle }

  function Deadline(x: Case): int { x.window.max + x.c.settle + x.c.pollTimeout }

  /** The replica collects, emits and commits. */
  function Tick(x: Case, o: Objects, s: State, reply: D.Reply): State
    requires ValidConfig(x.c)
  {
    Next(x.c, o, Next(x.c, o, s, DoCollect(x.id, Answers(x, reply))), Finish(x.id, true, true, true))
  }

  predicate Rests(x: Case, s: State, h: Held) {
    && s.durable == h && x.id in s.replicas
    && s.replicas[x.id].since == h && s.replicas[x.id].epoch == 1 && s.replicas[x.id].batch.Failed?
  }

  lemma TickIs(x: Case, o: Objects, s: State, h: Held, reply: D.Reply, r: Outcome, trail: Trail)
    requires CaseOk(x, o) && Rests(x, s, h)
    requires r == Collect(x.c, o, h.wm, Answers(x, reply)) && trail == Follow(x.c, o, h, Answers(x, reply))
    requires r.Batch? && Accepts(h.wm, r.wm.(epoch := 1))
    ensures var t := Tick(x, o, s, reply);
            && Rests(x, t, Reached(h, r, trail).(wm := r.wm.(epoch := 1)))
            && t.facts.accounts == s.facts.accounts + SpanAccounts(r.span)
            && t.closed == s.closed + (if r.closes.Some? then [ReportOf(r.closes.value, trail)] else [])
  {
    var m := Next(x.c, o, s, DoCollect(x.id, Answers(x, reply)));
    assert m == DoStep(x.c, o, s, x.id, Answers(x, reply));
    assert m.replicas[x.id].batch == r && m.replicas[x.id].trail == trail;
  }

  predicate Untouched(s: State) { s.facts.accounts == {} && s.closed == [] }

  lemma CreateTick(x: Case, o: Objects, s: State)
    requires CaseOk(x, o) && Rests(x, s, Held(Watermark(x.window.min, Empty, 0), START, [])) && Untouched(s)
    ensures var t := Tick(x, o, s, x.first);
            Rests(x, t, Held(Stored(x, Created, 0, 0, 0), Way(x, ZERO_TIME, []), [])) && Untouched(t)
  {
    var h := Held(Watermark(x.window.min, Empty, 0), START, []);
    var r := Collect(x.c, o, h.wm, Answers(x, x.first));
    OnePage(x.c.pageSize);
    assert r == Persist(h.wm, Cursor(Created, x.job, Some(x.window), 0, 1, 0, 0, 0));
    TickIs(x, o, s, h, x.first, r, Way(x, ZERO_TIME, []));
  }

  lemma OnePage(size: int)
    requires size > 0
    ensures (1 + size - 1) / size == 1
  {
  }

  lemma StartTick(x: Case, o: Objects, s: State)
    requires CaseOk(x, o) && Rests(x, s, Held(Stored(x, Created, 0, 0, 0), Way(x, ZERO_TIME, []), [])) && Untouched(s)
    ensures var t := Tick(x, o, s, x.first);
            Rests(x, t, Held(Stored(x, Polling, 0, 0, Deadline(x)), Way(x, Clock(x), []), [])) && Untouched(t)
  {
    var h := Held(Stored(x, Created, 0, 0, 0), Way(x, ZERO_TIME, []), []);
    var r := StepCreated(x.c, h.wm, Decode(h.wm.cursor), Answers(x, x.first));
    assert r == Batch(None, Stored(x, Polling, 0, 0, Deadline(x)).(epoch := 0), None);
    TickIs(x, o, s, h, x.first, r, Way(x, Clock(x), []));
  }

  lemma PollTick(x: Case, o: Objects, s: State)
    requires CaseOk(x, o) && Untouched(s)
    requires Rests(x, s, Held(Stored(x, Polling, 0, 0, Deadline(x)), Way(x, Clock(x), []), []))
    ensures var t := Tick(x, o, s, x.first);
            Rests(x, t, Held(Stored(x, Downloading, 0, 0, Deadline(x)), Way(x, Clock(x), []), [])) && Untouched(t)
  {
    var h := Held(Stored(x, Polling, 0, 0, Deadline(x)), Way(x, Clock(x), []), []);
    TickIs(x, o, s, h, x.first, Collect(x.c, o, h.wm, Answers(x, x.first)), Way(x, Clock(x), []));
  }

  function Lines1(x: Case): Option<Span> { Some(Span(x.window, 0, x.job, 0, x.one.text)) }

  function Lines2(x: Case): Option<Span> { Some(Span(x.window, 0, x.job, x.one.count, x.two.text)) }

  lemma ReadTick(x: Case, o: Objects, s: State)
    requires CaseOk(x, o) && Untouched(s)
    requires Rests(x, s, Held(Stored(x, Downloading, 0, 0, Deadline(x)), Way(x, Clock(x), []), []))
    ensures var t := Tick(x, o, s, x.first);
            && Rests(x, t, Held(Stored(x, Downloading, x.one.count, x.one.next, Deadline(x)), Way(x, Clock(x), [x.first]), []))
            && t.facts.accounts == SpanAccounts(Lines1(x)) && t.closed == []
  {
    var h := Held(Stored(x, Downloading, 0, 0, Deadline(x)), Way(x, Clock(x), []), []);
    assert h.trail.replies + [x.first] == [x.first];
    var r := StepDownloading(x.c, o, h.wm, Decode(h.wm.cursor), Answers(x, x.first));
    assert r == Batch(Lines1(x), Stored(x, Downloading, x.one.count, x.one.next, Deadline(x)).(epoch := 0), None);
    TickIs(x, o, s, h, x.first, r, Way(x, Clock(x), [x.first]));
  }

  lemma LastTick(x: Case, o: Objects, s: State)
    requires CaseOk(x, o)
    requires Rests(x, s, Held(Stored(x, Downloading, x.one.count, x.one.next, Deadline(x)), Way(x, Clock(x), [x.first]), []))
    requires s.facts.accounts == SpanAccounts(Lines1(x)) && s.closed == []
    ensures var t := Tick(x, o, s, x.second);
            && t.closed == [Report(Closed(x.window, 1), Way(x, 0, []).opening, [PageRead(x.job, [x.first, x.second])])]
            && t.durable.wm.time == x.window.max
            && t.facts.accounts == SpanAccounts(Lines1(x)) + SpanAccounts(Lines2(x))
  {
    var h := Held(Stored(x, Downloading, x.one.count, x.one.next, Deadline(x)), Way(x, Clock(x), [x.first]), []);
    assert [x.first] + [x.second] == [x.first, x.second];
    var done := [PageRead(x.job, [x.first, x.second])];
    assert [] + done == done;
    TickIs(x, o, s, h, x.second, Collect(x.c, o, h.wm, Answers(x, x.second)), Way(x, Clock(x), []).(done := done));
  }

  function TickActions(x: Case, reply: D.Reply): seq<Action> {
    [DoCollect(x.id, Answers(x, reply)), Finish(x.id, true, true, true)]
  }

  lemma TickRuns(x: Case, o: Objects, s: State, acts: seq<Action>, reply: D.Reply)
    requires ValidConfig(x.c)
    ensures Exec(x.c, o, s, acts + TickActions(x, reply)) == Tick(x, o, Exec(x.c, o, s, acts), reply)
  {
    var a, b := DoCollect(x.id, Answers(x, reply)), Finish(x.id, true, true, true);
    assert acts + TickActions(x, reply) == (acts + [a]) + [b];
    ExecMore(x.c, o, s, acts, a);
    ExecMore(x.c, o, s, acts + [a], b);
  }

  /** Load; create the job, start it, see it succeed; read both chunks. */
  function Run(x: Case): seq<Action> {
    [Load(x.id, 1)] + TickActions(x, x.first) + TickActions(x, x.first) + TickActions(x, x.first)
    + TickActions(x, x.first) + TickActions(x, x.second)
  }

  lemma FirstTicks(x: Case, o: Objects)
    requires CaseOk(x, o)
    ensures var s := Next(x.c, o, Init(x.window.min, 0), Load(x.id, 1));
            var t := Tick(x, o, Tick(x, o, Tick(x, o, s, x.first), x.first), x.first);
            Rests(x, t, Held(Stored(x, Downloading, 0, 0, Deadline(x)), Way(x, Clock(x), []), [])) && Untouched(t)
  {
    var s := Next(x.c, o, Init(x.window.min, 0), Load(x.id, 1));
    CreateTick(x, o, s);
    StartTick(x, o, Tick(x, o, s, x.first));
    PollTick(x, o, Tick(x, o, Tick(x, o, s, x.first), x.first));
  }

  lemma RunIs(x: Case, o: Objects)
    requires ValidConfig(x.c)
    ensures var s := Next(x.c, o, Init(x.window.min, 0), Load(x.id, 1));
            var t := Tick(x, o, Tick(x, o, Tick(x, o, s, x.first), x.first), x.first);
            Exec(x.c, o, Init(x.window.min, 0), Run(x)) == Tick(x, o, Tick(x, o, t, x.first), x.second)
  {
    var i, a := Init(x.window.min, 0), [Load(x.id, 1)];
    var f := TickActions(x, x.first);
    ExecMore(x.c, o, i, [], a[0]);
    assert [] + [a[0]] == a;
    TickRuns(x, o, i, a, x.first);
    TickRuns(x, o, i, a + f, x.first);
    TickRuns(x, o, i, a + f + f, x.first);
    TickRuns(x, o, i, a + f + f + f, x.first);
    TickRuns(x, o, i, a + f + f + f + f, x.second);
  }

  /** Whatever the two answers serve, the run closes the window and accounts for just those lines. */
  lemma TwoChunksClose(x: Case, o: Objects)
    requires CaseOk(x, o)
    ensures var s := Exec(x.c, o, Init(x.window.min, 0), Run(x));
            && s.closed == [Report(Closed(x.window, 1), Way(x, 0, []).opening, [PageRead(x.job, [x.first, x.second])])]
            && s.durable.wm.time == x.window.max
            && s.facts.accounts == SpanAccounts(Lines1(x)) + SpanAccounts(Lines2(x))
            && forall y :: y in s.facts.accounts ==> y.line in x.one.text || y.line in x.two.text
  {
    var s := Next(x.c, o, Init(x.window.min, 0), Load(x.id, 1));
    var t := Tick(x, o, Tick(x, o, Tick(x, o, s, x.first), x.first), x.first);
    FirstTicks(x, o);
    ReadTick(x, o, t);
    LastTick(x, o, Tick(x, o, t, x.first));
    RunIs(x, o);
  }

  // ----- the four-line page -----

  const FOUR := "a\nb\nc\nd\n"

  const LIMITS := D.Limits(2, 100, 10)

  const SHORT := D.Partial(Some(4), 2)

  function Instance(job: string): Case {
    Case(Config(100, 0, 1000, 10, 0, LIMITS, 50), "a", job, Window(1000, 1100), D.Full, SHORT,
         D.ChunkAt(FOUR, 0, 0, LIMITS), D.Served(1, 6, true, ["c\n"]))
  }

  lemma FirstTwo()
    ensures |Split(FOUR)| == 4
    ensures var s := D.ChunkAt(FOUR, 0, 0, LIMITS);
            s.count == 2 && s.next == 4 && !s.eof && Split(FOUR)[3] !in s.text && Split(FOUR)[3] !in ["c\n"]
  {
    D.FourLines(FOUR);
    NextLine(FOUR, 0);
    NextLine(FOUR, 1);
    NextLine(FOUR, 3);
    assert Split(FOUR)[0][0] == 'a' && Split(FOUR)[1][0] == 'b' && Split(FOUR)[3][0] == 'd';
  }

  lemma InstanceOk(o: Objects, job: string)
    requires job != "" && o(job) == FOUR
    ensures CaseOk(Instance(job), o)
  {
    FirstTwo();
    D.ShortRangeHidesATail();
    D.CapReached(FOUR, 0, LIMITS);
  }

  /** The run closes its window without accounting for the line. */
  ghost predicate ClosesWithout(x: Case, o: Objects, line: string)
    requires ValidConfig(x.c)
  {
    var s := Exec(x.c, o, Init(x.window.min, 0), Run(x));
    && |s.closed| == 1 && s.closed[0].closed == Closed(x.window, 1) && s.durable.wm.time == x.window.max
    && forall y :: y in s.facts.accounts ==> y.line != line
  }

  lemma Unaccounted(x: Case, o: Objects, line: string)
    requires CaseOk(x, o) && line !in x.one.text && line !in x.two.text
    ensures ClosesWithout(x, o, line)
  {
    TwoChunksClose(x, o);
  }

  /** A window is closed, and the stored time moved to its end, though its last line was never read. */
  lemma WindowClosesOverUnreadLine(o: Objects, job: string)
    requires job != "" && o(job) == FOUR
    ensures |Split(o(job))| == 4 && ClosesWithout(Instance(job), o, Split(o(job))[3])
  {
    InstanceOk(o, job);
    FirstTwo();
    Unaccounted(Instance(job), o, Split(FOUR)[3]);
  }
}
