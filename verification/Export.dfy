/** The logs-export job machine (internal/source/portkey/logs_export.go) together with the commit
    that persists it (internal/schedule/runner.go).

    The phase and job state ride in the watermark cursor.  Any number of replicas step the machine
    from watermarks they loaded or committed, against a server that answers as it likes; emits may
    fail, acknowledgements may be lost, and old leaders may keep going. */
module Export {
  import opened Model
  import opened Checkpoint
  import opened Lines
  import D = Download
  import opened Pages

  datatype Phase = Idle | Created | Polling | Downloading | Blocked

  datatype Window = Window(min: int, max: int)

  /** `window` is `None` when the stored edges do not parse; `job` is empty when the page's job has
      still to be created. */
  datatype Cursor = Cursor(phase: Phase, job: string, window: Option<Window>, page: nat, pages: nat,
                           linesDone: nat, bytesDone: nat, deadline: int)

  /** The cursor text: empty, unparseable, or the JSON of a cursor. */
  datatype Text = Empty | Garbage(s: string) | Json(cursor: Cursor)

  type Wm = Watermark<Text>

  const IDLE := Cursor(Idle, "", None, 0, 0, 0, 0, 0)

  function Decode(t: Text): Cursor { if t.Json? then t.cursor else IDLE }

  datatype Config = Config(window: int, settle: int, maxBackfill: int, pageSize: int, maxPages: int,
                           limits: D.Limits, pollTimeout: int)

  predicate ValidConfig(c: Config) { 0 < c.window && 0 < c.pageSize && 0 < c.limits.max }

  datatype Status = Draft | Queued | InProgress | Success | Other

  /** Everything outside: the clock and what each call returned (`None` for an error).  `reply` answers
      the download request; one that came to nothing counts as refused. */
  datatype Env = Env(now: int, create: Option<(string, int)>, started: bool, poll: Option<Status>, reply: D.Reply)

  /** The exported object of each job; it does not change. */
  type Objects = string -> string

  /** The lines that the batch carries, the first of them line `from` of those handed out for the page. */
  datatype Span = Span(window: Window, page: nat, job: string, from: nat, text: seq<string>)

  /** A window reported as complete, with the number of pages it had. */
  datatype Closed = Closed(window: Window, pages: nat)

  datatype Outcome = Failed | Batch(span: Option<Span>, wm: Wm, closes: Option<Closed>)

  function WindowBounds(c: Config, since: int, now: int): Window {
    var min := if since == ZERO_TIME then now - c.window else since;
    var min' := if min < now - c.maxBackfill then now - c.maxBackfill else min;
    var max := if min' + c.window > now - c.settle then now - c.settle else min' + c.window;
    Window(min', max)
  }

  predicate Settled(w: Window) { w.max > w.min }

  function Stay(since: Wm): Outcome { Batch(None, since, None) }

  function Persist(since: Wm, cur: Cursor): Outcome { Batch(None, Watermark(since.time, Json(cur), 0), None) }

  function StepIdle(c: Config, since: Wm, env: Env): Outcome
    requires ValidConfig(c)
  {
    var w := WindowBounds(c, since.time, env.now);
    if !Settled(w) then Stay(since)
    else match env.create
      case None => Failed
      case Some((job, total)) =>
        if total <= 0 then Batch(None, Watermark(w.max, Empty, 0), Some(Closed(w, 0)))
        else
          var pages := (total + c.pageSize - 1) / c.pageSize;
          if pages == 0 then Batch(None, Watermark(w.max, Empty, 0), Some(Closed(w, 0)))
          else if 0 < c.maxPages < pages then Persist(since, Cursor(Blocked, "", Some(w), 0, pages, 0, 0, 0))
          else Persist(since, Cursor(Created, job, Some(w), 0, pages, 0, 0, 0))
  }

  function StepBlocked(c: Config, since: Wm, cur: Cursor, env: Env): Outcome {
    var w := WindowBounds(c, since.time, env.now);
    if !Settled(w) || cur.window != Some(w) then Persist(since, IDLE) else Failed
  }

  function StepCreated(c: Config, since: Wm, cur: Cursor, env: Env): Outcome {
    if cur.job == "" then
      if cur.window.None? then Persist(since, IDLE)
      else match env.create
        case None => Failed
        case Some((job, _)) => Persist(since, cur.(job := job))
    else if !env.started && (env.poll.None? || env.poll.value.Draft?) then Failed
    else Persist(since, cur.(phase := Polling, deadline := env.now + c.pollTimeout))
  }

  function StepPolling(since: Wm, cur: Cursor, env: Env): Outcome {
    match env.poll
    case None => Failed
    case Some(Success) => Persist(since, cur.(phase := Downloading, linesDone := 0))
    case Some(Draft) => Persist(since, cur.(phase := Created))
    case Some(Other) => Persist(since, IDLE)
    case Some(_) => if env.now > cur.deadline then Persist(since, IDLE) else Stay(since)
  }

  function StepDownloading(c: Config, o: Objects, since: Wm, cur: Cursor, env: Env): Outcome {
    if cur.window.None? then Persist(since, IDLE)
    else match D.Serve(o(cur.job), cur.linesDone, cur.bytesDone, c.limits, env.reply)
      case None => Failed
      case Some(s) =>
        var span := Some(Span(cur.window.value, cur.page, cur.job, cur.linesDone, s.text));
        if !s.eof then
          var cur' := cur.(linesDone := cur.linesDone + s.count, bytesDone := s.next);
          Batch(span, Watermark(since.time, Json(cur'), 0), None)
        else if cur.page + 1 < cur.pages then
          var cur' := cur.(phase := Created, job := "", page := cur.page + 1, linesDone := 0, bytesDone := 0);
          Batch(span, Watermark(since.time, Json(cur'), 0), None)
        else
          Batch(span, Watermark(cur.window.value.max, Empty, 0), Some(Closed(cur.window.value, cur.pages)))
  }

  function Collect(c: Config, o: Objects, since: Wm, env: Env): Outcome
    requires ValidConfig(c)
  {
    var cur := Decode(since.cursor);
    match cur.phase
    case Created => StepCreated(c, since, cur, env)
    case Polling => StepPolling(since, cur, env)
    case Downloading => StepDownloading(c, o, since, cur, env)
    case Blocked => StepBlocked(c, since, cur, env)
    case Idle => StepIdle(c, since, env)
  }

  // ----- what a watermark stands for -----

  /** The job whose object was read as a page, and the answers it was read from. */
  datatype PageRead = PageRead(job: string, replies: seq<D.Reply>)

  /** The poll that opened a window: the stored time and the clock it read, and how many records the server
      said the window has. */
  datatype Opening = Opening(since: int, now: int, total: int)

  /** How a watermark came about: the opening of its window, the finished pages, and of the page at hand the
      clock when its job was started and the answers so far. */
  datatype Trail = Trail(opening: Opening, done: seq<PageRead>, startedAt: int, replies: seq<D.Reply>)

  const START := Trail(Opening(ZERO_TIME, ZERO_TIME, 0), [], ZERO_TIME, [])

  /** A window reported as complete, with how it was opened and how its pages were read. */
  datatype Report = Report(closed: Closed, opening: Opening, done: seq<PageRead>)

  /** A watermark with its trail and the windows that lead up to it. */
  datatype Held = Held(wm: Wm, trail: Trail, chain: seq<Report>)

  /** Line `index` handed out for page `page` of a window, from the object of `job`, was emitted, or
      counted as dropped or skipped. */
  datatype Account = Account(window: Window, page: nat, job: string, index: nat, line: string)

  /** The server created `job` when asked for page `page` of a window. */
  datatype Handed = Handed(window: Window, page: nat, job: string)

  datatype Facts = Facts(accounts: set<Account>, handed: set<Handed>)

  predicate Grown(f: Facts, g: Facts) { f.accounts <= g.accounts && f.handed <= g.handed }

  function Follow(c: Config, o: Objects, since: Held, env: Env): Trail
    requires ValidConfig(c)
  {
    var cur := Decode(since.wm.cursor);
    if cur.phase.Downloading? && cur.window.Some? then
      var more := since.trail.replies + [env.reply];
      match D.Serve(o(cur.job), cur.linesDone, cur.bytesDone, c.limits, env.reply)
      case None => since.trail
      case Some(s) =>
        if s.eof then since.trail.(done := since.trail.done + [PageRead(cur.job, more)], replies := [])
        else since.trail.(replies := more)
    else
      match Collect(c, o, since.wm, env)
      case Failed => since.trail
      case Batch(_, wm, closes) =>
        if cur.phase.Idle? && env.create.Some? && Settled(WindowBounds(c, since.wm.time, env.now)) then
          Trail(Opening(since.wm.time, env.now, env.create.value.1), [], ZERO_TIME, [])
        else if Decode(wm.cursor).phase.Idle? then START
        else if cur.phase.Created? && cur.job != "" then since.trail.(startedAt := env.now)
        else since.trail
  }

  /** The job that a step is given, if it asks for one. */
  function Hands(c: Config, since: Wm, env: Env): set<Handed> {
    var cur := Decode(since.cursor);
    var w := WindowBounds(c, since.time, env.now);
    if env.create.None? then {}
    else if cur.phase.Idle? && Settled(w) then {Handed(w, 0, env.create.value.0)}
    else if cur.phase.Created? && cur.job == "" && cur.window.Some? then
      {Handed(cur.window.value, cur.page, env.create.value.0)}
    else {}
  }

  function SpanAccounts(s: Option<Span>): set<Account> {
    if s.None? then {}
    else
      set i | 0 <= i < |s.value.text| ::
        Account(s.value.window, s.value.page, s.value.job, s.value.from + i, s.value.text[i])
  }

  ghost predicate LinesDone(f: Facts, w: Window, page: nat, job: string, text: seq<string>) {
    forall i :: 0 <= i < |text| ==> Account(w, page, job, i, text[i]) in f.accounts
  }

  /** The page's job was handed out for this page, its read ended, and every line handed out is
      accounted for. */
  ghost predicate PageDone(c: Config, o: Objects, f: Facts, w: Window, page: nat, x: PageRead) {
    var p := Read(o(x.job), c.limits, x.replies);
    Handed(w, page, x.job) in f.handed && p.eof && LinesDone(f, w, page, x.job, p.text)
  }

  ghost predicate PagesDone(c: Config, o: Objects, f: Facts, w: Window, done: seq<PageRead>) {
    forall p: nat :: p < |done| ==> PageDone(c, o, f, w, p, done[p])
  }

  /** The stored offsets are those of the page at hand, and what was handed out is accounted for. */
  ghost predicate OffsetsOk(c: Config, o: Objects, f: Facts, w: Window, cur: Cursor, replies: seq<D.Reply>) {
    var p := Read(o(cur.job), c.limits, replies);
    !p.eof && cur.linesDone == p.lines && cur.bytesDone == p.at && LinesDone(f, w, cur.page, cur.job, p.text)
  }

  /** Where a window lies.  It starts at the stored time, or on a fresh key one window before the clock, but
      not before the backfill limit; it is one window long unless the settle cutoff comes first. */
  predicate WindowFrom(c: Config, x: Opening, w: Window) {
    && (w.min == x.since || (x.since == ZERO_TIME && w.min == x.now - c.window) || w.min == x.now - c.maxBackfill)
    && w.min >= x.now - c.maxBackfill && w.min >= (if x.since == ZERO_TIME then x.now - c.window else x.since)
    && (w.max == x.now - c.settle || w.max == w.min + c.window)
    && w.min < w.max <= x.now - c.settle && w.max <= w.min + c.window
  }

  function Times(a: int, b: int): int { a * b }

  /** The pages are as many as hold the records, and no more. */
  predicate PagesHold(c: Config, total: int, pages: nat) {
    if total <= 0 then pages == 0 else Times(pages - 1, c.pageSize) < total <= Times(pages, c.pageSize)
  }

  /** Inside a window: it was opened where the frontier stands and ends after it, its pages hold the records
      and are not too many unless it is parked, the earlier ones are done, and the job at hand was handed
      out for the page at hand. */
  ghost predicate WindowOk(c: Config, o: Objects, f: Facts, time: int, cur: Cursor, trail: Trail) {
    && cur.window.Some? && cur.window.value.max > time && trail.opening.since == time
    && WindowFrom(c, trail.opening, cur.window.value) && PagesHold(c, trail.opening.total, cur.pages)
    && (cur.phase.Blocked? <==> 0 < c.maxPages < cur.pages)
    && (cur.phase.Polling? ==> cur.deadline == trail.startedAt + c.pollTimeout)
    && cur.page < cur.pages && |trail.done| == cur.page && PagesDone(c, o, f, cur.window.value, trail.done)
    && (cur.job == "" ==> cur.phase in {Created, Blocked})
    && (cur.job != "" ==> Handed(cur.window.value, cur.page, cur.job) in f.handed)
  }

  /** Nothing in the cursor is ahead of the accounts. */
  ghost predicate Justified(c: Config, o: Objects, f: Facts, h: Held) {
    var cur := Decode(h.wm.cursor);
    && ZERO_TIME <= h.wm.time
    && (cur.phase.Idle? ==> h.trail == START)
    && (!cur.phase.Idle? ==> WindowOk(c, o, f, h.wm.time, cur, h.trail))
    && (if cur.phase.Downloading? then OffsetsOk(c, o, f, cur.window.value, cur, h.trail.replies)
        else cur.linesDone == 0 && cur.bytesDone == 0 && h.trail.replies == [])
  }

  ghost predicate ReportOk(c: Config, o: Objects, f: Facts, x: Report) {
    && WindowFrom(c, x.opening, x.closed.window) && PagesHold(c, x.opening.total, x.closed.pages)
    && |x.done| == x.closed.pages && PagesDone(c, o, f, x.closed.window, x.done)
  }

  lemma PagesFor(c: Config, total: int)
    requires 0 < c.pageSize && 0 < total
    ensures var pages := (total + c.pageSize - 1) / c.pageSize; pages > 0 && PagesHold(c, total, pages)
  {
    var n, d := total + c.pageSize - 1, c.pageSize;
    var q := n / d;
    assert n == Times(q, d) + n % d;
    assert Times(q - 1, d) == Times(q, d) - d;
    if q <= 0 { NonPositive(q, d); }
  }

  lemma NonPositive(a: int, b: int)
    requires a <= 0 <= b
    ensures Times(a, b) <= 0
  {
    assert (-a) * b >= 0;
  }

  lemma FactsGrow(c: Config, o: Objects, f: Facts, g: Facts, h: Held)
    requires Justified(c, o, f, h) && Grown(f, g)
    ensures Justified(c, o, g, h)
  {
    var cur := Decode(h.wm.cursor);
    if !cur.phase.Idle? { PagesGrow(c, o, f, g, cur.window.value, h.trail.done); }
  }

  lemma PagesGrow(c: Config, o: Objects, f: Facts, g: Facts, w: Window, done: seq<PageRead>)
    requires PagesDone(c, o, f, w, done) && Grown(f, g)
    ensures PagesDone(c, o, g, w, done)
  {
    forall p: nat | p < |done| ensures PageDone(c, o, g, w, p, done[p]) {
      assert PageDone(c, o, f, w, p, done[p]);
    }
  }

  function After(f: Facts, span: Option<Span>): Facts { f.(accounts := f.accounts + SpanAccounts(span)) }

  function ReportOf(x: Closed, trail: Trail): Report { Report(x, trail.opening, trail.done) }

  /** What a batch leads to, once it is committed. */
  function Reached(since: Held, batch: Outcome, trail: Trail): Held
    requires batch.Batch?
  {
    if batch.closes.None? then Held(batch.wm, trail, since.chain)
    else Held(batch.wm, START, since.chain + [ReportOf(batch.closes.value, trail)])
  }

  /** What a batch claims: its watermark, once its own lines are accounted for, and the window it
      closes. */
  ghost predicate BatchOk(c: Config, o: Objects, f: Facts, since: Held, batch: Outcome, trail: Trail) {
    batch.Batch? ==>
      var f' := After(f, batch.span);
      && Justified(c, o, f', Reached(since, batch, trail))
      && (batch.closes.None? ==> batch.wm.time == since.wm.time)
      && (batch.closes.Some? ==>
            && trail.opening.since == since.wm.time < batch.wm.time == batch.closes.value.window.max
            && ReportOk(c, o, f', ReportOf(batch.closes.value, trail)))
  }

  /** A step from a justified watermark, whatever the answers, yields a batch whose claims hold. */
  lemma StepJustified(c: Config, o: Objects, f: Facts, since: Held, env: Env)
    requires ValidConfig(c) && Justified(c, o, f, since) && ZERO_TIME < env.now - c.window
    requires Hands(c, since.wm, env) <= f.handed
    ensures BatchOk(c, o, f, since, Collect(c, o, since.wm, env), Follow(c, o, since, env))
  {
    var cur := Decode(since.wm.cursor);
    match cur.phase
    case Downloading => DownloadStep(c, o, f, since, env);
    case Idle => IdleStep(c, o, f, since, env);
    case _ => WaitingStep(c, o, f, since, env);
  }

  lemma BoundsFrom(c: Config, since: int, now: int, total: int)
    requires 0 < c.window && ZERO_TIME < now - c.window && Settled(WindowBounds(c, since, now))
    ensures WindowFrom(c, Opening(since, now, total), WindowBounds(c, since, now))
  {
  }

  lemma IdleStep(c: Config, o: Objects, f: Facts, since: Held, env: Env)
    requires ValidConfig(c) && Justified(c, o, f, since) && ZERO_TIME < env.now - c.window
    requires Hands(c, since.wm, env) <= f.handed && Decode(since.wm.cursor).phase.Idle?
    ensures BatchOk(c, o, f, since, Collect(c, o, since.wm, env), Follow(c, o, since, env))
  {
    var w := WindowBounds(c, since.wm.time, env.now);
    assert After(f, None) == f;
    if Settled(w) && env.create.Some? {
      BoundsFrom(c, since.wm.time, env.now, env.create.value.1);
      if env.create.value.1 > 0 { PagesFor(c, env.create.value.1); }
      assert Handed(w, 0, env.create.value.0) in f.handed;
    }
  }

  lemma WaitingStep(c: Config, o: Objects, f: Facts, since: Held, env: Env)
    requires ValidConfig(c) && Justified(c, o, f, since) && Hands(c, since.wm, env) <= f.handed
    requires Decode(since.wm.cursor).phase in {Created, Polling, Blocked}
    ensures BatchOk(c, o, f, since, Collect(c, o, since.wm, env), Follow(c, o, since, env))
  {
    assert After(f, None) == f;
  }

  lemma Appended(f: Facts, w: Window, page: nat, job: string, text: seq<string>, more: seq<string>)
    requires LinesDone(f, w, page, job, text)
    ensures LinesDone(After(f, Some(Span(w, page, job, |text|, more))), w, page, job, text + more)
  {
    var all, f' := text + more, After(f, Some(Span(w, page, job, |text|, more)));
    forall i | 0 <= i < |all| ensures Account(w, page, job, i, all[i]) in f'.accounts {
      if i >= |text| {
        assert Account(w, page, job, |text| + (i - |text|), more[i - |text|]) in f'.accounts;
      }
    }
  }

  lemma DownloadStep(c: Config, o: Objects, f: Facts, since: Held, env: Env)
    requires ValidConfig(c) && Justified(c, o, f, since) && Decode(since.wm.cursor).phase.Downloading?
    ensures BatchOk(c, o, f, since, Collect(c, o, since.wm, env), Follow(c, o, since, env))
  {
    var r, cur := Collect(c, o, since.wm, env), Decode(since.wm.cursor);
    if r.Batch? {
      var f', x := After(f, r.span), PageRead(cur.job, since.trail.replies + [env.reply]);
      PagesGrow(c, o, f, f', cur.window.value, since.trail.done);
      ChunkLines(c, o, f, since, env);
      if Read(o(cur.job), c.limits, x.replies).eof { OneMore(c, o, f', cur.window.value, since.trail.done, x); }
    }
  }

  /** The page after one more answer, with its lines accounted for. */
  lemma ChunkLines(c: Config, o: Objects, f: Facts, since: Held, env: Env)
    requires ValidConfig(c) && Justified(c, o, f, since) && Decode(since.wm.cursor).phase.Downloading?
    requires Collect(c, o, since.wm, env).Batch?
    ensures var r, cur := Collect(c, o, since.wm, env), Decode(since.wm.cursor);
            var s := D.Serve(o(cur.job), cur.linesDone, cur.bytesDone, c.limits, env.reply).value;
            var p := Read(o(cur.job), c.limits, since.trail.replies + [env.reply]);
            && p.lines == cur.linesDone + s.count && p.at == s.next && p.eof == s.eof
            && LinesDone(After(f, r.span), cur.window.value, cur.page, cur.job, p.text)
  {
    var r, cur := Collect(c, o, since.wm, env), Decode(since.wm.cursor);
    var past := since.trail.replies;
    ReadInBounds(o(cur.job), c.limits, past);
    ReadMore(o(cur.job), c.limits, past, env.reply);
    Appended(f, cur.window.value, cur.page, cur.job, Read(o(cur.job), c.limits, past).text, r.span.value.text);
  }

  lemma OneMore(c: Config, o: Objects, f: Facts, w: Window, done: seq<PageRead>, x: PageRead)
    requires PagesDone(c, o, f, w, done) && PageDone(c, o, f, w, |done|, x)
    ensures PagesDone(c, o, f, w, done + [x])
  {
    var all := done + [x];
    forall p: nat | p < |all| ensures PageDone(c, o, f, w, p, all[p]) {
      if p < |done| { assert PageDone(c, o, f, w, p, done[p]); }
    }
  }

  // ----- every run -----

  /** `since` is the frontier the replica works from, `batch` what it collected and has not finished,
      with the trail it leaves. */
  datatype Replica = Replica(since: Held, epoch: int, batch: Outcome, trail: Trail)

  /** `durable` is the stored watermark; `closed` the windows whose closing was committed. */
  datatype State = State(durable: Held, facts: Facts, closed: seq<Report>, replicas: map<string, Replica>)

  datatype Action =
    | Load(id: string, epoch: int)
    | DoCollect(id: string, env: Env)
    | Finish(id: string, emitted: bool, reached: bool, acknowledged: bool)

  /** The commit after a successful emit: the put may not reach the table (`reached`), and its
      acknowledgement may be lost. A stale write re-reads the stored watermark. */
  function Commit(s: State, id: string, r: Replica, reached: bool, acknowledged: bool): State
    requires r.batch.Batch?
  {
    var w := r.batch.wm.(epoch := r.epoch);
    var idle := r.(batch := Failed);
    if !reached then s.(replicas := s.replicas[id := idle])
    else if Accepts(s.durable.wm, w) then
      var h := Reached(r.since, r.batch, r.trail).(wm := w);
      State(h, s.facts,
            if r.batch.closes.Some? then s.closed + [ReportOf(r.batch.closes.value, r.trail)] else s.closed,
            s.replicas[id := if acknowledged then idle.(since := h) else idle])
    else s.(replicas := s.replicas[id := if acknowledged then idle.(since := s.durable) else idle])
  }

  function DoStep(c: Config, o: Objects, s: State, id: string, env: Env): State
    requires ValidConfig(c) && id in s.replicas
  {
    var r := s.replicas[id];
    s.(facts := s.facts.(handed := s.facts.handed + Hands(c, r.since.wm, env)),
       replicas := s.replicas[id := r.(batch := Collect(c, o, r.since.wm, env), trail := Follow(c, o, r.since, env))])
  }

  function Next(c: Config, o: Objects, s: State, a: Action): State
    requires ValidConfig(c)
  {
    match a
    case Load(id, epoch) => s.(replicas := s.replicas[id := Replica(s.durable, epoch, Failed, START)])
    case DoCollect(id, env) =>
      if id in s.replicas && s.replicas[id].batch.Failed? && ZERO_TIME < env.now - c.window then DoStep(c, o, s, id, env)
      else s
    case Finish(id, emitted, reached, acknowledged) =>
      if id !in s.replicas || s.replicas[id].batch.Failed? then s
      else if !emitted then s.(replicas := s.replicas[id := s.replicas[id].(batch := Failed)])
      else
        var r := s.replicas[id];
        Commit(s.(facts := After(s.facts, r.batch.span)), id, r, reached, acknowledged)
  }

  function Exec(c: Config, o: Objects, s: State, acts: seq<Action>): State
    requires ValidConfig(c)
  {
    if acts == [] then s else Next(c, o, Exec(c, o, s, acts[..|acts| - 1]), acts[|acts| - 1])
  }

  lemma ExecMore(c: Config, o: Objects, s: State, acts: seq<Action>, a: Action)
    requires ValidConfig(c)
    ensures Exec(c, o, s, acts + [a]) == Next(c, o, Exec(c, o, s, acts), a)
  {
    assert (acts + [a])[..|acts|] == acts;
  }

  /** A fresh key, or one left idle. */
  function Init(time: int, epoch: int): State {
    State(Held(Watermark(time, Empty, epoch), START, []), Facts({}, {}), [], map[])
  }

  /** Every window of the chain was opened where the one before it ended, the first at `start`, and the last
      ends at `time`; all of them were committed. */
  ghost predicate Tiles(start: int, chain: seq<Report>, time: int, closed: seq<Report>) {
    && (forall i :: 0 <= i < |chain| ==> chain[i] in closed)
    && (forall i :: 0 <= i < |chain| ==> chain[i].opening.since == EndOf(start, chain, i))
    && time == EndOf(start, chain, |chain|)
  }

  /** Where the first `n` windows of the chain end. */
  function EndOf(start: int, chain: seq<Report>, n: nat): int
    requires n <= |chain|
  {
    if n == 0 then start else chain[n - 1].closed.window.max
  }

  ghost predicate ReplicaOk(c: Config, o: Objects, f: Facts, limit: int, r: Replica) {
    Justified(c, o, f, r.since) && r.since.wm.time <= limit && BatchOk(c, o, f, r.since, r.batch, r.trail)
  }

  ghost predicate Chained(s: State, start: int) {
    && Tiles(start, s.durable.chain, s.durable.wm.time, s.closed)
    && forall id :: id in s.replicas ==> Tiles(start, s.replicas[id].since.chain, s.replicas[id].since.wm.time, s.closed)
  }

  ghost predicate Inv(c: Config, o: Objects, s: State, start: int) {
    && Justified(c, o, s.facts, s.durable)
    && (forall id :: id in s.replicas ==> ReplicaOk(c, o, s.facts, s.durable.wm.time, s.replicas[id]))
    && (forall i :: 0 <= i < |s.closed| ==> ReportOk(c, o, s.facts, s.closed[i]))
    && (s.durable.wm.time == if s.closed == [] then start else s.closed[|s.closed| - 1].closed.window.max)
  }

  lemma ReplicaGrow(c: Config, o: Objects, f: Facts, g: Facts, limit: int, r: Replica)
    requires ReplicaOk(c, o, f, limit, r) && Grown(f, g)
    ensures ReplicaOk(c, o, g, limit, r)
  {
    FactsGrow(c, o, f, g, r.since);
    if r.batch.Batch? {
      var x, y := After(f, r.batch.span), After(g, r.batch.span);
      FactsGrow(c, o, x, y, Reached(r.since, r.batch, r.trail));
      if r.batch.closes.Some? { PagesGrow(c, o, x, y, r.batch.closes.value.window, r.trail.done); }
    }
  }

  /** More facts keep everything that was justified. */
  lemma InvGrow(c: Config, o: Objects, s: State, g: Facts, start: int)
    requires Inv(c, o, s, start) && Grown(s.facts, g)
    ensures Inv(c, o, s.(facts := g), start)
  {
    FactsGrow(c, o, s.facts, g, s.durable);
    forall id | id in s.replicas ensures ReplicaOk(c, o, g, s.durable.wm.time, s.replicas[id]) {
      ReplicaGrow(c, o, s.facts, g, s.durable.wm.time, s.replicas[id]);
    }
    forall i | 0 <= i < |s.closed| ensures ReportOk(c, o, g, s.closed[i]) {
      assert ReportOk(c, o, s.facts, s.closed[i]);
      PagesGrow(c, o, s.facts, g, s.closed[i].closed.window, s.closed[i].done);
    }
  }

  lemma SetReplica(c: Config, o: Objects, s: State, id: string, r: Replica, start: int)
    requires Inv(c, o, s, start) && ReplicaOk(c, o, s.facts, s.durable.wm.time, r)
    ensures Inv(c, o, s.(replicas := s.replicas[id := r]), start)
  {}

  /** Storing a justified watermark that is not older, with the window it closes, if any. */
  lemma StoreInv(c: Config, o: Objects, s: State, h: Held, closes: Option<Report>, start: int)
    requires Inv(c, o, s, start) && Justified(c, o, s.facts, h) && s.durable.wm.time <= h.wm.time
    requires if closes.Some? then ReportOk(c, o, s.facts, closes.value) && h.wm.time == closes.value.closed.window.max
             else h.wm.time == s.durable.wm.time
    ensures Inv(c, o, s.(durable := h, closed := if closes.Some? then s.closed + [closes.value] else s.closed), start)
  {
    var t := s.(durable := h, closed := if closes.Some? then s.closed + [closes.value] else s.closed);
    forall i | 0 <= i < |t.closed| ensures ReportOk(c, o, t.facts, t.closed[i]) {
      if i < |s.closed| { assert ReportOk(c, o, s.facts, s.closed[i]); }
    }
    forall id | id in t.replicas ensures ReplicaOk(c, o, t.facts, t.durable.wm.time, t.replicas[id]) {
      assert ReplicaOk(c, o, s.facts, s.durable.wm.time, s.replicas[id]);
    }
  }

  lemma CommitInv(c: Config, o: Objects, s: State, id: string, reached: bool, acknowledged: bool, start: int)
    requires Inv(c, o, s, start) && id in s.replicas && s.replicas[id].batch.Batch?
    requires After(s.facts, s.replicas[id].batch.span) == s.facts
    ensures Inv(c, o, Commit(s, id, s.replicas[id], reached, acknowledged), start)
  {
    var r := s.replicas[id];
    var t := Commit(s, id, r, reached, acknowledged);
    var w := r.batch.wm.(epoch := r.epoch);
    var s' := s;
    if reached && Accepts(s.durable.wm, w) {
      var closes := if r.batch.closes.Some? then Some(ReportOf(r.batch.closes.value, r.trail)) else None;
      var h := Reached(r.since, r.batch, r.trail).(wm := w);
      StoreInv(c, o, s, h, closes, start);
      s' := s.(durable := h, closed := t.closed);
    }
    SetReplica(c, o, s', id, t.replicas[id], start);
  }

  lemma NextInv(c: Config, o: Objects, s: State, a: Action, start: int)
    requires ValidConfig(c) && Inv(c, o, s, start)
    ensures Inv(c, o, Next(c, o, s, a), start)
  {
    match a
    case Load(id, epoch) => SetReplica(c, o, s, id, Replica(s.durable, epoch, Failed, START), start);
    case DoCollect(id, env) =>
      if Next(c, o, s, a) != s {
        var r := s.replicas[id];
        var g := s.facts.(handed := s.facts.handed + Hands(c, r.since.wm, env));
        InvGrow(c, o, s, g, start);
        StepJustified(c, o, g, r.since, env);
        SetReplica(c, o, s.(facts := g), id, DoStep(c, o, s, id, env).replicas[id], start);
      }
    case Finish(id, emitted, reached, acknowledged) =>
      if id in s.replicas && s.replicas[id].batch.Batch? {
        if emitted {
          var g := After(s.facts, s.replicas[id].batch.span);
          assert After(g, s.replicas[id].batch.span) == g;
          InvGrow(c, o, s, g, start);
          CommitInv(c, o, s.(facts := g), id, reached, acknowledged, start);
        } else {
          SetReplica(c, o, s, id, s.replicas[id].(batch := Failed), start);
        }
      }
  }

  lemma {:induction false} RunSafe(c: Config, o: Objects, time: int, epoch: int, acts: seq<Action>)
    requires ValidConfig(c) && ZERO_TIME <= time
    ensures Inv(c, o, Exec(c, o, Init(time, epoch), acts), time)
  {
    if acts != [] {
      RunSafe(c, o, time, epoch, acts[..|acts| - 1]);
      NextInv(c, o, Exec(c, o, Init(time, epoch), acts[..|acts| - 1]), acts[|acts| - 1], time);
    }
  }

  // ----- the windows follow each other -----

  lemma TilesMore(start: int, chain: seq<Report>, time: int, closed: seq<Report>, x: Report)
    requires Tiles(start, chain, time, closed) && x.opening.since == time
    ensures Tiles(start, chain + [x], x.closed.window.max, closed + [x])
  {
    var all := chain + [x];
    forall i | 0 <= i < |all| ensures all[i] in closed + [x] && all[i].opening.since == EndOf(start, all, i) {
      assert EndOf(start, all, i) == EndOf(start, chain, i);
      if i < |chain| { assert all[i] == chain[i]; }
    }
  }

  lemma TilesLater(start: int, chain: seq<Report>, time: int, closed: seq<Report>, more: seq<Report>)
    requires Tiles(start, chain, time, closed) && closed <= more
    ensures Tiles(start, chain, time, more)
  {
    forall i | 0 <= i < |chain| ensures chain[i] in more {
      var j :| 0 <= j < |closed| && closed[j] == chain[i];
      assert more[j] == closed[j];
    }
  }

  lemma CommitChained(c: Config, o: Objects, s: State, id: string, reached: bool, acknowledged: bool, start: int)
    requires Chained(s, start) && id in s.replicas && s.replicas[id].batch.Batch?
    requires BatchOk(c, o, s.facts, s.replicas[id].since, s.replicas[id].batch, s.replicas[id].trail)
    ensures Chained(Commit(s, id, s.replicas[id], reached, acknowledged), start)
  {
    var r, t := s.replicas[id], Commit(s, id, s.replicas[id], reached, acknowledged);
    TilesLater(start, s.durable.chain, s.durable.wm.time, s.closed, t.closed);
    forall x | x in s.replicas ensures Tiles(start, s.replicas[x].since.chain, s.replicas[x].since.wm.time, t.closed) {
      TilesLater(start, s.replicas[x].since.chain, s.replicas[x].since.wm.time, s.closed, t.closed);
    }
    if reached && Accepts(s.durable.wm, r.batch.wm.(epoch := r.epoch)) && r.batch.closes.Some? {
      TilesMore(start, r.since.chain, r.since.wm.time, s.closed, ReportOf(r.batch.closes.value, r.trail));
    }
  }

  lemma NextChained(c: Config, o: Objects, s: State, a: Action, start: int)
    requires ValidConfig(c) && Inv(c, o, s, start) && Chained(s, start)
    ensures Chained(Next(c, o, s, a), start)
  {
    if a.Finish? && a.id in s.replicas && s.replicas[a.id].batch.Batch? && a.emitted {
      var g := After(s.facts, s.replicas[a.id].batch.span);
      InvGrow(c, o, s, g, start);
      assert ReplicaOk(c, o, g, s.durable.wm.time, s.replicas[a.id]);
      CommitChained(c, o, s.(facts := g), a.id, a.reached, a.acknowledged, start);
    }
  }

  /** In every run the stored time is reached by windows that were all committed and follow each other
      without a gap, but for spans below the backfill limit of the poll that opened the next one.  Each
      window ends before the settle cutoff of that poll, is no longer than the configured window, and has
      as many pages as the records the server announced. */
  lemma {:induction false} WindowsTile(c: Config, o: Objects, time: int, epoch: int, acts: seq<Action>)
    requires ValidConfig(c) && ZERO_TIME <= time
    ensures var s := Exec(c, o, Init(time, epoch), acts);
            && Tiles(time, s.durable.chain, s.durable.wm.time, s.closed) && Chained(s, time)
            && forall i :: 0 <= i < |s.closed| ==>
                 && WindowFrom(c, s.closed[i].opening, s.closed[i].closed.window)
                 && PagesHold(c, s.closed[i].opening.total, s.closed[i].closed.pages)
  {
    RunSafe(c, o, time, epoch, acts);
    if acts != [] {
      WindowsTile(c, o, time, epoch, acts[..|acts| - 1]);
      RunSafe(c, o, time, epoch, acts[..|acts| - 1]);
      NextChained(c, o, Exec(c, o, Init(time, epoch), acts[..|acts| - 1]), acts[|acts| - 1], time);
    }
  }

  // ----- when a closed window is complete -----

  /** The lines handed out for the page are the lines of its object. */
  predicate WholePage(c: Config, o: Objects, x: PageRead) {
    Read(o(x.job), c.limits, x.replies).text == Split(o(x.job))
  }

  predicate Whole(c: Config, o: Objects, done: seq<PageRead>) {
    forall p :: 0 <= p < |done| ==> WholePage(c, o, done[p])
  }

  predicate Lossless(c: Config, o: Objects, x: PageRead) { LosesNone(o(x.job), c.limits, x.replies) }

  /** No page received an answer that lost lines. */
  predicate AllLossless(c: Config, o: Objects, done: seq<PageRead>) {
    forall p :: 0 <= p < |done| ==> Lossless(c, o, done[p])
  }

  /** Every line of every page of the window, read from a job handed out for that page, was emitted
      or counted. */
  ghost predicate AllAccounted(o: Objects, f: Facts, x: Report) {
    && |x.done| == x.closed.pages
    && forall p: nat :: p < |x.done| ==>
         && Handed(x.closed.window, p, x.done[p].job) in f.handed
         && LinesDone(f, x.closed.window, p, x.done[p].job, Split(o(x.done[p].job)))
  }

  lemma WholeIff(c: Config, o: Objects, f: Facts, x: Report)
    requires ReportOk(c, o, f, x)
    ensures Whole(c, o, x.done) <==> AllLossless(c, o, x.done)
    ensures Whole(c, o, x.done) ==> AllAccounted(o, f, x)
  {
    forall p: nat | p < |x.done| ensures WholePage(c, o, x.done[p]) <==> Lossless(c, o, x.done[p]) {
      assert PageDone(c, o, f, x.closed.window, p, x.done[p]);
      FinishedPageComplete(o(x.done[p].job), c.limits, x.done[p].replies);
    }
    forall p: nat | Whole(c, o, x.done) && p < |x.done|
      ensures LinesDone(f, x.closed.window, p, x.done[p].job, Split(o(x.done[p].job)))
    {
      assert PageDone(c, o, f, x.closed.window, p, x.done[p]) && WholePage(c, o, x.done[p]);
    }
  }

  /** In every run the stored time is the end of the last window that was closed.  Every page of a
      closed window was read to the end of its answers, and handed out the lines of its object if and
      only if no answer lost lines; then every line was emitted or counted. */
  lemma ClosedWindows(c: Config, o: Objects, time: int, epoch: int, acts: seq<Action>)
    requires ValidConfig(c) && ZERO_TIME <= time
    ensures var s := Exec(c, o, Init(time, epoch), acts);
            && s.durable.wm.time == (if s.closed == [] then time else s.closed[|s.closed| - 1].closed.window.max)
            && forall i :: 0 <= i < |s.closed| ==>
                 var x := s.closed[i];
                 && ReportOk(c, o, s.facts, x)
                 && (Whole(c, o, x.done) <==> AllLossless(c, o, x.done))
                 && (Whole(c, o, x.done) ==> AllAccounted(o, s.facts, x))
  {
    RunSafe(c, o, time, epoch, acts);
    var s := Exec(c, o, Init(time, epoch), acts);
    forall i | 0 <= i < |s.closed|
      ensures var x := s.closed[i];
              && ReportOk(c, o, s.facts, x)
              && (Whole(c, o, x.done) <==> AllLossless(c, o, x.done))
              && (Whole(c, o, x.done) ==> AllAccounted(o, s.facts, x))
    {
      WholeIff(c, o, s.facts, s.closed[i]);
    }
  }

  /** In every run the stored offsets are 0 outside the downloading phase.  Inside it they are those of
      the answers used so far, and as long as none lost lines they point at the first line of the page
      that is not accounted for yet. */
  lemma StoredOffsets(c: Config, o: Objects, time: int, epoch: int, acts: seq<Action>)
    requires ValidConfig(c) && ZERO_TIME <= time
    ensures var s := Exec(c, o, Init(time, epoch), acts);
            var cur := Decode(s.durable.wm.cursor);
            if !cur.phase.Downloading? then cur.linesDone == 0 && cur.bytesDone == 0
            else
              var obj := o(cur.job);
              && cur.window.Some?
              && OffsetsOk(c, o, s.facts, cur.window.value, cur, s.durable.trail.replies)
              && (LosesNone(obj, c.limits, s.durable.trail.replies) ==>
                    && cur.linesDone <= |Split(obj)| && cur.bytesDone == Start(obj, cur.linesDone)
                    && LinesDone(s.facts, cur.window.value, cur.page, cur.job, Split(obj)[..cur.linesDone]))
  {
    RunSafe(c, o, time, epoch, acts);
    var s := Exec(c, o, Init(time, epoch), acts);
    var cur := Decode(s.durable.wm.cursor);
    if cur.phase.Downloading? { CourseOf(o(cur.job), c.limits, s.durable.trail.replies); }
  }

  // ----- progress -----

  function Rank(cur: Cursor): nat {
    match cur.phase
    case Idle => 5
    case Blocked => 5
    case Created => if cur.job == "" then 4 else 3
    case Polling => 2
    case Downloading => 1
  }

  function Remaining(o: Objects, cur: Cursor): int {
    if cur.phase.Downloading? then |o(cur.job)| - cur.linesDone else 0
  }

  /** Fewer pages left, or an earlier rank on the same page, or fewer lines that can be left in it. */
  predicate Closer(o: Objects, a: Cursor, b: Cursor) {
    || a.pages - a.page < b.pages - b.page
    || (a.pages - a.page == b.pages - b.page &&
        (Rank(a) < Rank(b) || (Rank(a) == Rank(b) && 0 <= Remaining(o, a) < Remaining(o, b))))
  }

  /** A step inside a window that succeeds and does not wait closes the window, starts it over, or
      brings it closer to its end, whatever the answers, unless the job is still a draft after all or
      comes without a name. */
  lemma StepsMakeProgress(c: Config, o: Objects, f: Facts, since: Held, env: Env)
    requires ValidConfig(c) && Justified(c, o, f, since)
    requires Decode(since.wm.cursor).phase in {Created, Polling, Downloading}
    requires var r := Collect(c, o, since.wm, env);
             r.Batch? && r.wm != since.wm && !Decode(r.wm.cursor).phase.Idle?
    ensures var cur := Decode(since.wm.cursor);
            Closer(o, Decode(Collect(c, o, since.wm, env).wm.cursor), cur) <==>
            !(cur.phase.Polling? && env.poll == Some(Draft)) &&
            !(cur.phase.Created? && cur.job == "" && env.create.value.0 == "")
  {
    var cur := Decode(since.wm.cursor);
    if cur.phase.Downloading? {
      var p := Read(o(cur.job), c.limits, since.trail.replies);
      ReadInBounds(o(cur.job), c.limits, since.trail.replies);
      StepInBounds(o(cur.job), c.limits, p, env.reply);
    }
  }

  /** A page's job counts as started if and only if the start call succeeded or the job has left its draft. */
  lemma StartedIff(c: Config, o: Objects, f: Facts, since: Held, env: Env)
    requires ValidConfig(c) && Justified(c, o, f, since) && Decode(since.wm.cursor).phase.Created?
    requires Decode(since.wm.cursor).job != ""
    ensures var r, cur := Collect(c, o, since.wm, env), Decode(since.wm.cursor);
            if env.started || (env.poll.Some? && env.poll != Some(Draft))
            then r.Batch? && r.span.None? && Decode(r.wm.cursor).phase.Polling? && Decode(r.wm.cursor).job == cur.job
                 && r.wm.time == since.wm.time
            else r.Failed?
  {
  }

  /** A job that is still queued or running is waited for, and the window started over, if and only if more
      than the poll timeout has passed since it was started. */
  lemma AbandonedIff(c: Config, o: Objects, f: Facts, since: Held, env: Env)
    requires ValidConfig(c) && Justified(c, o, f, since) && Decode(since.wm.cursor).phase.Polling?
    requires env.poll == Some(Queued) || env.poll == Some(InProgress)
    ensures var r := Collect(c, o, since.wm, env);
            && r.Batch? && r.span.None? && r.closes.None? && r.wm.time == since.wm.time
            && if env.now > since.trail.startedAt + c.pollTimeout then Decode(r.wm.cursor).phase.Idle?
               else r.wm == since.wm
  {
  }

  /** What ends the wait: success leads to the download of this page from its first byte, a draft to another
      start of the same job, and any other end starts the window over. */
  lemma WaitEnds(c: Config, o: Objects, f: Facts, since: Held, env: Env)
    requires ValidConfig(c) && Justified(c, o, f, since) && Decode(since.wm.cursor).phase.Polling?
    requires env.poll.Some? && env.poll.value in {Success, Draft, Other}
    ensures var r, cur := Collect(c, o, since.wm, env), Decode(since.wm.cursor);
            r.Batch? && r.closes.None? && r.wm.time == since.wm.time &&
            var next := Decode(r.wm.cursor);
            if env.poll.value == Other then next.phase.Idle?
            else
              && next.job == cur.job && next.page == cur.page && next.window == cur.window
              && (env.poll.value == Success ==> next.phase.Downloading? && next.linesDone == next.bytesDone == 0)
              && (env.poll.value == Draft ==> next.phase.Created?)
  {
  }

  /** A window with too many pages stays parked, and is opened afresh if and only if the bounds have moved. */
  lemma ParkedUntilMoved(c: Config, o: Objects, f: Facts, since: Held, env: Env)
    requires ValidConfig(c) && Justified(c, o, f, since) && Decode(since.wm.cursor).phase.Blocked?
    requires ZERO_TIME < env.now - c.window
    ensures var r, w := Collect(c, o, since.wm, env), Decode(since.wm.cursor).window.value;
            if WindowFrom(c, Opening(since.wm.time, env.now, 0), w) then r.Failed?
            else r.Batch? && r.closes.None? && r.wm.time == since.wm.time && Decode(r.wm.cursor).phase.Idle?
  {
    if Settled(WindowBounds(c, since.wm.time, env.now)) { BoundsFrom(c, since.wm.time, env.now, 0); }
  }

  /** Such a step leads out of the window only by closing it or by starting it over. */
  lemma WindowEnds(c: Config, o: Objects, f: Facts, since: Held, env: Env)
    requires ValidConfig(c) && Justified(c, o, f, since)
    requires Decode(since.wm.cursor).phase in {Created, Polling, Downloading}
    requires var r := Collect(c, o, since.wm, env); r.Batch? && Decode(r.wm.cursor).phase.Idle?
    ensures var r := Collect(c, o, since.wm, env);
            var cur := Decode(since.wm.cursor);
            || (r.closes == Some(Closed(cur.window.value, cur.pages)) && cur.phase.Downloading?
                && cur.page + 1 == cur.pages)
            || (r.closes.None? && r.wm.time == since.wm.time && cur.phase.Polling? && env.poll.Some?
                && env.poll.value != Success)
  {}

  /** A cursor that cannot be read is dropped: the step is that of an idle one. */
  lemma GarbageRestarts(c: Config, o: Objects, time: int, epoch: int, text: string, env: Env)
    requires ValidConfig(c)
    ensures var a := Collect(c, o, Watermark(time, Garbage(text), epoch), env);
            var b := Collect(c, o, Watermark(time, Empty, epoch), env);
            a == b || (a == Stay(Watermark(time, Garbage(text), epoch)) && b == Stay(Watermark(time, Empty, epoch)))
  {
  }
}
