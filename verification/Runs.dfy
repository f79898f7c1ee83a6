/** The windowed, paged drain of runs (`runsLoop.Collect` in internal/source/langsmith/runs.go) with the
    commits that persist it.

    Any number of replicas step from watermarks they loaded or committed, the server answers each
    query as it likes, and commits may be refused or lose their acknowledgement. */
module Runs {
  import opened Model
  import opened Checkpoint

  datatype Config = Config(window: int, settle: int, maxBackfill: int, maxPages: int)

  predicate Valid(c: Config) { 0 <= c.settle < c.window && 0 < c.maxBackfill && 1 <= c.maxPages }

  datatype Window = Window(min: int, max: int)

  /** `next` resumes after the `page` pages already drained. */
  datatype Cursor = Cursor(window: Window, next: string, page: int)

  /** The cursor text: empty, without a usable window, or the JSON of a cursor. */
  datatype Text = Blank | Garbage(s: string) | Json(cursor: Cursor)

  type Wm = Watermark<Text>

  /** A query that failed, or a page with the token of the next one. */
  datatype Reply = Error | Page(next: string)

  /** A stretch of time the loop has put behind it: a span below the backfill floor of the instant `now`, or
      a window opened by the poll of the instant `now`, with the token and the page count at which it was
      left. */
  datatype Span = Skipped(min: int, max: int, now: int) | Closed(min: int, max: int, now: int, token: string, pages: int)

  /** A window that is left, and how. */
  datatype Ending = Ending(window: Window, token: string, pages: int)

  /** `skip` fires the backfill-skip counter; a `closes` with a token fires the truncation counter. */
  datatype Outcome = Failed | Nothing | Batch(wm: Wm, skip: Option<Span>, closes: Option<Ending>)

  datatype Opening = Opening(window: Window, skip: Option<Span>)

  /** The window a fresh drain starts with. */
  function Open(c: Config, since: int, now: int): Opening {
    var from := if since == ZERO_TIME then now - c.window else since;
    var floor := now - c.maxBackfill;
    var min := if from < floor then floor else from;
    var max := if min + c.window > now - c.settle then now - c.settle else min + c.window;
    Opening(Window(min, max), if from < floor then Some(Skipped(from, floor, now)) else None)
  }

  function Drain(c: Config, since: Wm, w: Window, page: int, skip: Option<Span>, reply: Reply): Outcome {
    if reply.Error? then Failed
    else if reply.next != "" && page + 1 < c.maxPages then
      Batch(Watermark(since.time, Json(Cursor(w, reply.next, page + 1)), since.epoch), skip, None)
    else
      Batch(Watermark(w.max, Blank, since.epoch), skip, Some(Ending(w, reply.next, page + 1)))
  }

  function Collect(c: Config, since: Wm, now: int, reply: Reply): Outcome {
    if since.cursor.Json? then
      Drain(c, since, since.cursor.cursor.window, since.cursor.cursor.page, None, reply)
    else
      var o := Open(c, since.time, now);
      if o.window.max <= o.window.min then Nothing else Drain(c, since, o.window, 0, o.skip, reply)
  }

  // ----- tiling -----

  /** A watermark with the spans that lead up to it, and of the window in its cursor the skip in front of
      it and the clock of the poll that opened it. */
  datatype Held = Held(wm: Wm, chain: seq<Span>, lead: seq<Span>, openedAt: int)

  /** One window long, unless the settle cutoff comes first. */
  predicate Sized(c: Config, min: int, max: int, now: int) {
    max - min <= c.window && max <= now - c.settle && (max - min == c.window || max == now - c.settle)
  }

  predicate SpanOk(c: Config, s: Span) {
    && s.min < s.max
    && match s
       case Skipped(_, max, now) => max == now - c.maxBackfill
       case Closed(min, max, now, token, pages) => Sized(c, min, max, now)
                                                   && (token == "" || pages == c.maxPages) && pages <= c.maxPages
  }

  /** Every span starts where the one before it ends. */
  ghost predicate Tiles(c: Config, spans: seq<Span>) {
    && (forall i :: 0 <= i < |spans| ==> SpanOk(c, spans[i]))
    && (forall i :: 0 <= i < |spans| - 1 ==> spans[i].max == spans[i + 1].min)
  }

  /** The spans lead from `from` to `to`; a key that never had a watermark starts one window before the clock
      of its first poll. */
  ghost predicate Leads(c: Config, from: int, spans: seq<Span>, to: int) {
    && Tiles(c, spans)
    && (if spans == [] then from == to else spans[|spans| - 1].max == to
                                            && spans[0].min == FirstFrom(c, from, spans[0].now))
  }

  function FirstFrom(c: Config, from: int, now: int): int { if from == ZERO_TIME then now - c.window else from }

  ghost predicate CursorOk(c: Config, from: int, h: Held, cur: Cursor) {
    && ZERO_TIME < cur.window.min < cur.window.max && Sized(c, cur.window.min, cur.window.max, h.openedAt)
    && 1 <= cur.page < c.maxPages
    && if h.wm.time == ZERO_TIME && h.lead == [] then cur.window.min == h.openedAt - c.window
       else Leads(c, from, h.chain + h.lead, cur.window.min)
  }

  ghost predicate HeldOk(c: Config, from: int, h: Held) {
    && ZERO_TIME <= h.wm.time && Leads(c, from, h.chain, h.wm.time)
    && (h.wm.time == ZERO_TIME ==> h.chain == [])
    && (h.wm.cursor.Json? ==> CursorOk(c, from, h, h.wm.cursor.cursor))
  }

  function Left(e: Ending, openedAt: int): Span { Closed(e.window.min, e.window.max, openedAt, e.token, e.pages) }

  function Advance(h: Held, now: int, o: Outcome): Held
    requires o.Batch?
  {
    var lead := if h.wm.cursor.Json? then h.lead else if o.skip.Some? then [o.skip.value] else [];
    var openedAt := if h.wm.cursor.Json? then h.openedAt else now;
    if o.closes.Some? then Held(o.wm, h.chain + lead + [Left(o.closes.value, openedAt)], [], openedAt)
    else Held(o.wm, h.chain, lead, openedAt)
  }

  lemma LeadsSnoc(c: Config, from: int, spans: seq<Span>, to: int, s: Span)
    requires Leads(c, from, spans, to) && SpanOk(c, s) && s.min == to && (spans == [] ==> from != ZERO_TIME)
    ensures Leads(c, from, spans + [s], s.max)
  {
    var t := spans + [s];
    forall i | 0 <= i < |t| - 1 ensures t[i].max == t[i + 1].min {
      if i + 1 < |spans| { assert spans[i].max == spans[i + 1].min; }
    }
  }

  /** A key without a watermark starts its chain one window back. */
  lemma LeadsFirst(c: Config, from: int, s: Span)
    requires from == ZERO_TIME && SpanOk(c, s) && s.min == s.now - c.window
    ensures Leads(c, from, [s], s.max)
  {
  }

  lemma LeadsTo(c: Config, from: int, h: Held, w: Window, lead: seq<Span>, s: Span)
    requires SpanOk(c, s) && s.min == w.min && Leads(c, from, h.chain, h.wm.time)
             && (h.wm.time == ZERO_TIME ==> h.chain == [])
    requires if h.wm.time == ZERO_TIME && lead == [] then s.min == s.now - c.window
             else Leads(c, from, h.chain + lead, w.min)
    ensures Leads(c, from, h.chain + lead + [s], s.max)
  {
    if h.wm.time == ZERO_TIME && lead == [] {
      LeadsFirst(c, from, s);
      assert h.chain + lead + [s] == [s];
    } else {
      LeadsSnoc(c, from, h.chain + lead, w.min, s);
    }
  }

  /** Where a fresh window starts: at the watermark, or behind a counted skip. */
  lemma OpenLeads(c: Config, from: int, h: Held, now: int)
    requires Valid(c) && HeldOk(c, from, h) && now - c.window > ZERO_TIME
    ensures var o := Open(c, h.wm.time, now);
            var lead := if o.skip.Some? then [o.skip.value] else [];
            && o.window.min > ZERO_TIME && (o.window.min < o.window.max ==> Sized(c, o.window.min, o.window.max, now))
            && if h.wm.time == ZERO_TIME && lead == [] then o.window.min == now - c.window
               else Leads(c, from, h.chain + lead, o.window.min)
  {
    var o := Open(c, h.wm.time, now);
    if o.skip.Some? {
      var s := o.skip.value;
      if h.wm.time == ZERO_TIME {
        LeadsFirst(c, from, s);
        assert h.chain + [s] == [s];
      } else {
        LeadsSnoc(c, from, h.chain, h.wm.time, s);
      }
    } else {
      assert h.chain + [] == h.chain;
    }
  }

  /** One poll keeps the tiling, whatever the server says. */
  lemma CollectOk(c: Config, from: int, h: Held, now: int, reply: Reply)
    requires Valid(c) && HeldOk(c, from, h) && now - c.window > ZERO_TIME
    requires Collect(c, h.wm, now, reply).Batch?
    ensures HeldOk(c, from, Advance(h, now, Collect(c, h.wm, now, reply)))
  {
    var o := Collect(c, h.wm, now, reply);
    if h.wm.cursor.Json? {
      if o.closes.Some? { LeadsTo(c, from, h, h.wm.cursor.cursor.window, h.lead, Left(o.closes.value, h.openedAt)); }
    } else {
      OpenLeads(c, from, h, now);
      if o.closes.Some? {
        var lead := if o.skip.Some? then [o.skip.value] else [];
        LeadsTo(c, from, h, Open(c, h.wm.time, now).window, lead, Left(o.closes.value, now));
      }
    }
  }

  // ----- runs with any number of replicas -----

  datatype Replica = Replica(since: Held, epoch: int, batch: Option<Held>)

  datatype State = State(durable: Held, replicas: map<nat, Replica>)

  datatype Action =
    | Load(id: nat, epoch: int)
    | Poll(id: nat, now: int, reply: Reply)
    | Finish(id: nat, emitted: bool, reached: bool, acknowledged: bool)

  function Stamp(h: Held, epoch: int): Held { h.(wm := h.wm.(epoch := epoch)) }

  function Next(c: Config, s: State, a: Action): State {
    match a
    case Load(id, epoch) => s.(replicas := s.replicas[id := Replica(s.durable, epoch, None)])
    case Poll(id, now, reply) =>
      if id !in s.replicas || s.replicas[id].batch.Some? || now - c.window <= ZERO_TIME then s
      else
        var r := s.replicas[id];
        var o := Collect(c, r.since.wm, now, reply);
        if o.Batch? then s.(replicas := s.replicas[id := r.(batch := Some(Advance(r.since, now, o)))]) else s
    case Finish(id, emitted, reached, acknowledged) =>
      if id !in s.replicas || s.replicas[id].batch.None? then s
      else
        var r := s.replicas[id];
        var h := Stamp(r.batch.value, r.epoch);
        var written := emitted && reached && Accepts(s.durable.wm, h.wm);
        State(if written then h else s.durable,
              s.replicas[id := Replica(if written && acknowledged then h else r.since, r.epoch, None)])
  }

  function Exec(c: Config, s: State, acts: seq<Action>): State {
    if acts == [] then s else Next(c, Exec(c, s, acts[..|acts| - 1]), acts[|acts| - 1])
  }

  function Init(time: int, epoch: int): State { State(Held(Watermark(time, Blank, epoch), [], [], ZERO_TIME), map[]) }

  ghost predicate Inv(c: Config, from: int, s: State) {
    && HeldOk(c, from, s.durable)
    && forall id :: id in s.replicas ==> ReplicaOk(c, from, s.replicas[id])
  }

  ghost predicate ReplicaOk(c: Config, from: int, r: Replica) {
    HeldOk(c, from, r.since) && (r.batch.Some? ==> HeldOk(c, from, r.batch.value))
  }

  lemma NextInv(c: Config, from: int, s: State, a: Action)
    requires Valid(c) && Inv(c, from, s)
    ensures Inv(c, from, Next(c, s, a))
  {
    if a.Poll? && a.id in s.replicas && s.replicas[a.id].batch.None? && a.now - c.window > ZERO_TIME {
      var r := s.replicas[a.id];
      assert ReplicaOk(c, from, r);
      if Collect(c, r.since.wm, a.now, a.reply).Batch? { CollectOk(c, from, r.since, a.now, a.reply); }
    }
  }

  lemma {:induction false} RunSafe(c: Config, time: int, epoch: int, acts: seq<Action>)
    requires Valid(c) && ZERO_TIME <= time
    ensures Inv(c, time, Exec(c, Init(time, epoch), acts))
  {
    if acts != [] {
      RunSafe(c, time, epoch, acts[..|acts| - 1]);
      NextInv(c, time, Exec(c, Init(time, epoch), acts[..|acts| - 1]), acts[|acts| - 1]);
    }
  }

  /** In every run the stored time is reached by windows and counted skips that follow each other without
      a gap or an overlap; each window was drained to its last token or truncated at the page cap, and
      ends before the settle cutoff of the poll that opened it. */
  lemma WindowsTile(c: Config, time: int, epoch: int, acts: seq<Action>)
    requires Valid(c) && ZERO_TIME <= time
    ensures var s := Exec(c, Init(time, epoch), acts); Leads(c, time, s.durable.chain, s.durable.wm.time)
  {
    RunSafe(c, time, epoch, acts);
  }

  // ----- progress -----

  datatype Answered = Answered(now: int, next: string)

  /** The watermark after consecutive polls that are answered and committed, up to the end of the window. */
  function After(c: Config, since: Wm, polls: seq<Answered>): Wm {
    if polls == [] then since
    else
      var n := |polls| - 1;
      var w := After(c, since, polls[..n]);
      var o := Collect(c, w, polls[n].now, Page(polls[n].next));
      if w.time == since.time && o.Batch? then o.wm else w
  }

  /** An idle watermark with a settled window in front of it. */
  predicate Opens(c: Config, since: Wm, now: int) {
    var w := Open(c, since.time, now).window;
    !since.cursor.Json? && w.min < w.max && ZERO_TIME <= since.time && now - c.window > ZERO_TIME
  }

  /** A window stays open exactly while fewer than the page cap have been answered and every answer had a
      token; until then each poll moves one page on and keeps the last token to resume from, and the fence
      lets the new cursor through even if the server repeats its token. */
  lemma {:induction false} PagesCount(c: Config, since: Wm, polls: seq<Answered>)
    requires Valid(c) && polls != [] && Opens(c, since, polls[0].now)
    ensures var w := After(c, since, polls);
            var window := Open(c, since.time, polls[0].now).window;
            if |polls| < c.maxPages && forall i :: 0 <= i < |polls| ==> polls[i].next != ""
            then w.time == since.time && w.cursor == Json(Cursor(window, polls[|polls| - 1].next, |polls|))
            else w.time == window.max > since.time && w.cursor.Blank?
    ensures var v := After(c, since, polls[..|polls| - 1]);
            v.time == since.time ==> Accepts(v, After(c, since, polls))
  {
    var n := |polls| - 1;
    if n > 0 { PagesCount(c, since, polls[..n]); }
  }

  /** Every window is closed after at most `maxPages` answered polls. */
  lemma WindowFinishes(c: Config, since: Wm, polls: seq<Answered>)
    requires Valid(c) && |polls| >= c.maxPages && Opens(c, since, polls[0].now)
    ensures After(c, since, polls).time == Open(c, since.time, polls[0].now).window.max > since.time
  {
    PagesCount(c, since, polls);
  }
}
