/** The chunked, resumable page download (internal/source/portkey/logs_download.go).

    The exported object is stable.  Every request, the server chooses whether to honour the Range
    (206) or ignore it (200), the buffered reader returns fragments of any size, reads may break,
    and the counting reader may have read ahead. */
module Download {
  import opened Model
  import opened Lines

  /** How `ReadSlice` ended. */
  datatype ReadStatus = Delimiter | BufferFull | EndOfFile | Failed

  predicate NoNewline(s: string) { forall i :: 0 <= i < |s| ==> s[i] != '\n' }

  lemma Taken(d: string, p: nat, n: nat)
    requires p + n <= |d|
    ensures d[p..][..n] == d[p..p + n]
  {
  }

  /** What a buffer with room for `size` bytes hands out of the rest of a stream. */
  method NextFragment(rest: string, size: int) returns (frag: string, st: ReadStatus)
    ensures frag <= rest && !st.Failed?
    ensures st.Delimiter? ==> frag != [] && frag[|frag| - 1] == '\n' && NoNewline(frag[..|frag| - 1])
    ensures st.BufferFull? ==> frag != [] && NoNewline(frag)
    ensures st.EndOfFile? ==> frag == rest && NoNewline(frag)
  {
    var n := FirstLen(rest);
    if rest != [] { FirstLenShape(rest); }
    if 0 < size < n { return rest[..size], BufferFull; }
    if n > 0 && rest[n - 1] == '\n' { return rest[..n], Delimiter; }
    return rest, EndOfFile;
  }

  /** The response body behind `io.LimitReader` and `bufio.Reader`. */
  class Stream {
    const data: string
    /** The transport may fail before the body is read. */
    const breaks: bool
    var pos: nat
    /** A read has reported the end of the file. */
    var ended: bool

    ghost predicate Valid() reads this { pos <= |data| && (ended ==> pos == |data|) }

    constructor (d: string, b: bool)
      ensures data == d && breaks == b && pos == 0 && !ended && Valid()
    {
      data, breaks, pos, ended := d, b, 0, false;
    }

    method ReadSlice() returns (frag: string, st: ReadStatus)
      requires Valid()
      modifies this
      ensures Valid() && old(pos) <= pos && frag == data[old(pos)..pos]
      ensures ended == (old(ended) || st.EndOfFile?)
      ensures st.Delimiter? ==> frag != [] && frag[|frag| - 1] == '\n' && NoNewline(frag[..|frag| - 1])
      ensures st.BufferFull? ==> frag != [] && NoNewline(frag)
      ensures st.EndOfFile? ==> pos == |data| && NoNewline(frag)
      ensures st.Failed? ==> breaks
    {
      var size: int := *;
      if breaks && size < 0 { return [], Failed; }
      frag, st := NextFragment(data[pos..], size);
      Taken(data, pos, |frag|);
      ended := ended || st.EndOfFile?;
      pos := pos + |frag|;
    }
  }

  datatype LineStatus = Got | End | Broken

  lemma Join(d: string, p: nat, q: nat, r: nat)
    requires p <= q <= r <= |d|
    ensures d[p..q] + d[q..r] == d[p..r]
  {
  }

  /** `line` is the first line of `d`, or its stand-in when that is longer than `limit`. */
  predicate LineRead(d: string, limit: nat, line: string, tooLong: bool, consumed: nat, ended: bool) {
    && d != [] && consumed == FirstLen(d) && tooLong == (|Content(d[..consumed])| > limit)
    && (!tooLong ==> line == Content(d[..consumed]))
    && (!ended ==> d[consumed - 1] == '\n')
  }

  /** What is retained of `text`: all of it, or nothing once it is longer than `limit`. */
  predicate Retains(limit: nat, text: string, buf: string, tooLong: bool) {
    if |text| > limit then tooLong && buf == [] else !tooLong && buf == text
  }

  method Retain(limit: nat, ghost text: string, buf: string, tooLong: bool, total: nat, chunk: string)
    returns (buf': string, tooLong': bool)
    requires Retains(limit, text, buf, tooLong) && total == |text| + |chunk|
    ensures Retains(limit, text + chunk, buf', tooLong')
  {
    if tooLong || total > limit { return [], true; }
    return buf + chunk, false;
  }

  /** `seen` and the last fragment make up the line at `p`. */
  lemma LineFound(data: string, p: nat, seen: string, frag: string, delimited: bool, limit: nat, line: string,
                  tooLong: bool, ended: bool)
    requires p + |seen| + |frag| <= |data| && data[p..p + |seen| + |frag|] == seen + frag
    requires NoNewline(seen) && |seen| + |frag| > 0
    requires if delimited then frag != [] && frag[|frag| - 1] == '\n' && NoNewline(frag[..|frag| - 1])
             else NoNewline(frag) && p + |seen| + |frag| == |data| && ended
    requires Retains(limit, seen + (if delimited then frag[..|frag| - 1] else frag), line, tooLong)
    ensures LineRead(data[p..], limit, line, tooLong, |seen| + |frag|, ended)
  {
    var d, n := data[p..], |seen| + |frag|;
    assert d[..n] == seen + frag;
    assert forall i :: 0 <= i < n ==> d[i] == (seen + frag)[i];
    FirstLenIs(d, n);
  }

  /** The text at `p` begins with `seen`, which has no delimiter. */
  predicate Seen(data: string, p: nat, seen: string) {
    p + |seen| <= |data| && data[p..p + |seen|] == seen && NoNewline(seen)
  }

  lemma SeenMore(data: string, p: nat, seen: string, f: string)
    requires Seen(data, p, seen) && p + |seen| + |f| <= |data| && f == data[p + |seen|..p + |seen| + |f|]
    ensures data[p..p + |seen| + |f|] == seen + f && (NoNewline(f) ==> Seen(data, p, seen + f))
  {
    Join(data, p, p + |seen|, p + |seen| + |f|);
    if NoNewline(f) { NoNewlineConcat(seen, f); }
  }

  /** Reads fragments up to the end of a line or of the stream: `seen` without a delimiter, then `frag`. */
  method ReadFragments(br: Stream, limit: nat)
    returns (buf: string, tooLong: bool, consumed: nat, e: ReadStatus, ghost seen: string, ghost frag: string)
    requires br.Valid()
    modifies br
    ensures br.Valid() && !e.BufferFull? && consumed == |seen| + |frag| && br.pos == old(br.pos) + consumed
    ensures br.data[old(br.pos)..br.pos] == seen + frag && NoNewline(seen)
    ensures e.Delimiter? ==> frag != [] && frag[|frag| - 1] == '\n' && NoNewline(frag[..|frag| - 1])
                             && Retains(limit, seen + frag[..|frag| - 1], buf, tooLong)
    ensures e.EndOfFile? ==> NoNewline(frag) && br.pos == |br.data| && br.ended
                             && Retains(limit, seen + frag, buf, tooLong)
    ensures e.Failed? ==> br.breaks
  {
    buf, tooLong, consumed := [], false, 0;
    ghost var p := br.pos;
    seen := [];
    while true
      invariant br.Valid() && br.pos == p + consumed && consumed == |seen| && Seen(br.data, p, seen)
      invariant Retains(limit, seen, buf, tooLong)
      decreases |br.data| - br.pos
    {
      var f;
      f, e := br.ReadSlice();
      frag := f;
      SeenMore(br.data, p, seen, f);
      var chunk := if e.Delimiter? then f[..|f| - 1] else f;
      buf, tooLong := Retain(limit, seen, buf, tooLong, consumed + |chunk|, chunk);
      consumed := consumed + |f|;
      if !e.BufferFull? { return; }
      seen := seen + f;
    }
  }

  /** Reads one line.  Never retains more than `limit` bytes; an over-long line is drained and passed
      like any other. */
  method ReadLine(br: Stream, limit: nat) returns (line: string, tooLong: bool, consumed: nat, st: LineStatus)
    requires br.Valid()
    modifies br
    ensures br.Valid() && |line| <= limit
    ensures st.Got? ==> br.pos == old(br.pos) + consumed
                        && LineRead(br.data[old(br.pos)..], limit, line, tooLong, consumed, br.ended)
    ensures st.End? ==> br.pos == old(br.pos) == |br.data| && consumed == 0 && br.ended
    ensures st.Broken? ==> br.breaks
  {
    ghost var p := br.pos;
    var e;
    ghost var seen, frag;
    line, tooLong, consumed, e, seen, frag := ReadFragments(br, limit);
    if e.Failed? { return [], false, consumed, Broken; }
    if e.EndOfFile? && consumed == 0 { return [], false, 0, End; }
    LineFound(br.data, p, seen, frag, e.Delimiter?, limit, line, tooLong, br.ended);
    st := Got;
  }

  lemma NoNewlineConcat(a: string, b: string)
    requires NoNewline(a) && NoNewline(b)
    ensures NoNewline(a + b)
  {
  }

  // ----- what a run of lines yields -----

  function RecordOf<R>(raw: string, cap: nat, parse: string -> Option<R>): seq<R> {
    if |Content(raw)| > cap then []
    else match parse(Content(raw)) case None => [] case Some(r) => [r]
  }

  /** The records of lines `a` to `b - 1` that are neither over-long nor malformed, in order. */
  function Records<R>(lines: seq<string>, a: nat, b: nat, cap: nat, parse: string -> Option<R>): seq<R>
    requires a <= b <= |lines|
  {
    if a == b then [] else Records(lines, a, b - 1, cap, parse) + RecordOf(lines[b - 1], cap, parse)
  }

  function Oversize(lines: seq<string>, a: nat, b: nat, cap: nat): nat
    requires a <= b <= |lines|
  {
    if a == b then 0 else Oversize(lines, a, b - 1, cap) + if |Content(lines[b - 1])| > cap then 1 else 0
  }

  lemma {:induction false} RecordsConcat<R>(lines: seq<string>, a: nat, b: nat, c: nat, cap: nat,
                                            parse: string -> Option<R>)
    requires a <= b <= c <= |lines|
    ensures Records(lines, a, c, cap, parse) == Records(lines, a, b, cap, parse) + Records(lines, b, c, cap, parse)
    ensures Oversize(lines, a, c, cap) == Oversize(lines, a, b, cap) + Oversize(lines, b, c, cap)
  {
    if b < c { RecordsConcat(lines, a, b, c - 1, cap, parse); }
  }

  lemma {:induction false} RecordsSame<R>(x: seq<string>, i: nat, y: seq<string>, j: nat, n: nat, cap: nat,
                                          parse: string -> Option<R>)
    requires i + n <= |x| && j + n <= |y| && forall m :: i <= m < i + n ==> x[m] == y[m - i + j]
    ensures Records(x, i, i + n, cap, parse) == Records(y, j, j + n, cap, parse)
    ensures Oversize(x, i, i + n, cap) == Oversize(y, j, j + n, cap)
  {
    if n > 0 {
      RecordsSame(x, i, y, j, n - 1, cap, parse);
    }
  }

  /** The records of a stretch of lines come from exactly the lines that are within the cap and parse. */
  lemma {:induction false} RecordsExact<R>(lines: seq<string>, a: nat, b: nat, cap: nat, parse: string -> Option<R>, r: R)
    requires a <= b <= |lines|
    ensures r in Records(lines, a, b, cap, parse) <==>
            exists i: nat {:trigger FromLine(lines, i, cap, parse, r)} :: a <= i < b && FromLine(lines, i, cap, parse, r)
  {
    if a < b {
      RecordsExact(lines, a, b - 1, cap, parse, r);
      assert r in RecordOf(lines[b - 1], cap, parse) <==> FromLine(lines, b - 1, cap, parse, r);
    }
  }

  /** The record is that of line `i`, which is within the cap. */
  predicate FromLine<R(==)>(lines: seq<string>, i: nat, cap: nat, parse: string -> Option<R>, r: R)
    requires i < |lines|
  {
    |Content(lines[i])| <= cap && parse(Content(lines[i])) == Some(r)
  }

  /** The stream stands at the start of line `k`. */
  ghost predicate At(br: Stream, k: nat) reads br {
    && br.Valid() && k <= |Split(br.data)| && br.pos == Start(br.data, k)
    && (!br.ended ==> Terminated(br.data, k))
  }

  /** Reading a line from line start `k`. */
  lemma Advance(data: string, p: nat, k: nat, consumed: nat, ended: bool)
    requires k <= |Split(data)| && p == Start(data, k)
    requires data[p..] != [] && consumed == FirstLen(data[p..])
    requires !ended ==> data[p..][consumed - 1] == '\n'
    ensures k < |Split(data)| && Split(data)[k] == data[p..][..consumed]
    ensures Start(data, k + 1) == p + consumed
    ensures !ended ==> Terminated(data, k + 1)
  {
    NextLine(data, k);
    assert data[p..][..consumed] == data[p..p + consumed];
    assert data[p..][consumed - 1] == data[p + consumed - 1];
  }

  /** The skip loop of the 200 fallback. */
  method SkipLines(br: Stream, n: nat, cap: nat) returns (consumed: nat, st: LineStatus)
    requires At(br, 0)
    modifies br
    ensures st.Got? ==> At(br, n) && consumed == br.pos
    ensures st.End? ==> |Split(br.data)| < n && consumed == |br.data|
    ensures st.Broken? ==> br.breaks
  {
    consumed := 0;
    for i := 0 to n
      invariant At(br, i) && consumed == br.pos
    {
      ghost var p := br.pos;
      var _, _, c, e := ReadLine(br, cap);
      consumed := consumed + c;
      if e.End? { NextLine(br.data, i); return consumed, End; }
      if e.Broken? { return consumed, Broken; }
      Advance(br.data, p, i, c, br.ended);
    }
    return consumed, Got;
  }

  /** One pass of the chunk loop: what line `k` contributes. */
  method ReadRecord<R>(br: Stream, ghost k: nat, cap: nat, parse: string -> Option<R>)
    returns (recs: seq<R>, tooLong: bool, consumed: nat, st: LineStatus)
    requires At(br, k)
    modifies br
    ensures st.Got? ==>
              && k < |Split(br.data)| && At(br, k + 1) && br.pos == old(br.pos) + consumed
              && recs == RecordOf(Split(br.data)[k], cap, parse)
              && tooLong == (|Content(Split(br.data)[k])| > cap)
    ensures st.End? ==> At(br, k) && k == |Split(br.data)| && br.ended && br.pos == old(br.pos)
    ensures st.Broken? ==> br.breaks
  {
    ghost var p := br.pos;
    var line;
    line, tooLong, consumed, st := ReadLine(br, cap);
    recs := [];
    if st.End? { NextLine(br.data, k); }
    if !st.Got? { return; }
    Advance(br.data, p, k, consumed, br.ended);
    if tooLong { return; }
    match parse(line) {
      case None =>
      case Some(r) => recs := [r];
    }
  }

  /** The records and the over-long count of the `n` lines from line `k` on. */
  ghost predicate Yields<R>(lines: seq<string>, k: nat, n: nat, cap: nat, parse: string -> Option<R>, recs: seq<R>,
                            oversize: nat) {
    k + n <= |lines| && recs == Records(lines, k, k + n, cap, parse) && oversize == Oversize(lines, k, k + n, cap)
  }

  lemma YieldsMore<R>(lines: seq<string>, k: nat, n: nat, cap: nat, parse: string -> Option<R>, recs: seq<R>,
                      oversize: nat,
                      more: seq<R>, tooLong: bool)
    requires Yields(lines, k, n, cap, parse, recs, oversize) && k + n < |lines|
    requires more == RecordOf(lines[k + n], cap, parse) && tooLong == (|Content(lines[k + n])| > cap)
    ensures Yields(lines, k, n + 1, cap, parse, recs + more, if tooLong then oversize + 1 else oversize)
  {
  }

  lemma YieldsJoin<R>(lines: seq<string>, n: nat, m: nat, cap: nat, parse: string -> Option<R>, recs: seq<R>,
                      oversize: nat,
                      more: seq<R>, further: nat)
    requires Yields(lines, 0, n, cap, parse, recs, oversize) && Yields(lines, n, m, cap, parse, more, further)
    ensures Yields(lines, 0, n + m, cap, parse, recs + more, oversize + further)
  {
    RecordsConcat(lines, 0, n, n + m, cap, parse);
  }

  /** The part is what lines `k..` yield, cut short only by the end of the stream. */
  ghost predicate Took<R>(lines: seq<string>, k: nat, l: Limits, parse: string -> Option<R>, p: Part<R>, ended: bool) {
    && p.lines <= l.max && p.eof == (p.lines < l.max) && (p.eof ==> k + p.lines == |lines| && ended)
    && Yields(lines, k, p.lines, l.lineCap, parse, p.recs, p.oversize)
  }

  /** The chunk loop: at most `max` lines, stopping early only at the end of the stream. */
  method ReadChunk<R>(br: Stream, ghost k: nat, l: Limits, parse: string -> Option<R>)
    returns (part: Part<R>, consumed: nat, broken: bool)
    requires At(br, k)
    modifies br
    ensures !broken ==> At(br, k + part.lines) && br.pos == old(br.pos) + consumed
                        && Took(Split(br.data), k, l, parse, part, br.ended)
    ensures broken ==> br.breaks
  {
    var recs, lines, oversize := [], 0, 0;
    consumed := 0;
    ghost var all := Split(br.data);
    while lines < l.max
      invariant lines <= l.max && At(br, k + lines) && br.pos == old(br.pos) + consumed
      invariant Yields(all, k, lines, l.lineCap, parse, recs, oversize)
    {
      var more, tooLong, c, e := ReadRecord(br, k + lines, l.lineCap, parse);
      if !e.Got? { return Part(recs, lines, true, oversize), consumed, e.Broken?; }
      YieldsMore(all, k, lines, l.lineCap, parse, recs, oversize, more, tooLong);
      lines, consumed := lines + 1, consumed + c;
      if tooLong { oversize := oversize + 1; }
      recs := recs + more;
    }
    return Part(recs, lines, false, oversize), consumed, false;
  }

  // ----- one chunk -----

  /** The server's answer to a request for the bytes from an offset on: the whole object; a body of
      `size` bytes that starts where its Content-Range says (`None` when the header cannot be read)
      and may stop short of the end of the object; or any other status, among them 416 for an offset
      at the end of the object. */
  datatype Reply = Full | Partial(start: Option<int>, size: nat) | OtherStatus

  datatype Part<R> = Part(recs: seq<R>, lines: nat, eof: bool, oversize: nat)
  datatype Chunk<R> = Error | Chunk(part: Part<R>, next: nat)

  datatype Limits = Limits(max: nat, maxBytes: nat, lineCap: nat)

  /** The part is lines `skip..`, `max` of them unless they run out first. */
  ghost predicate LinesFrom<R>(lines: seq<string>, skip: nat, l: Limits, parse: string -> Option<R>, p: Part<R>) {
    && skip <= |lines| && p.lines == (if |lines| - skip < l.max then |lines| - skip else l.max)
    && p.eof == (p.lines < l.max)
    && Yields(lines, skip, p.lines, l.lineCap, parse, p.recs, p.oversize)
  }

  /** The chunk is the next lines of the object, and `next` the byte at which the following line
      starts. */
  ghost predicate Faithful<R>(obj: string, skip: nat, l: Limits, parse: string -> Option<R>, c: Chunk<R>) {
    c.Chunk? && LinesFrom(Split(obj), skip, l, parse, c.part) && c.next == Start(obj, skip + c.part.lines)
  }

  predicate Honoured(byteOffset: nat, reply: Reply) {
    byteOffset > 0 && reply.Partial? && reply.start == Some(byteOffset)
  }

  /** The `size` bytes from `at` on, or as many as there are. */
  function Ranged(obj: string, at: nat, size: nat): string {
    if |obj| < at then [] else if |obj| - at <= size then obj[at..] else obj[at..][..size]
  }

  /** The bytes that an answer carries, whatever was asked for. */
  function BodyOf(obj: string, reply: Reply): string {
    match reply
    case Full => obj
    case Partial(start, size) => if start.Some? && start.value >= 0 then Ranged(obj, start.value, size) else []
    case OtherStatus => []
  }

  function Limited(body: string, l: Limits): string {
    if |body| <= l.maxBytes + 1 then body else body[..l.maxBytes + 1]
  }

  lemma LinesCarry<R>(x: seq<string>, y: seq<string>, k: nat, l: Limits, parse: string -> Option<R>, p: Part<R>,
                      ended: bool)
    requires Took(x, k, l, parse, p, ended) && k + p.lines <= |y| && x[..k + p.lines] == y[..k + p.lines]
    requires ended ==> x == y
    ensures LinesFrom(y, k, l, parse, p)
  {
    SameLines(x, y, k, l, parse, p);
  }

  lemma PartLines<R>(body: string, d: string, k: nat, l: Limits, parse: string -> Option<R>, part: Part<R>, ended: bool)
    requires d <= body && Took(Split(d), k, l, parse, part, ended)
    requires if ended then d == body else k + part.lines <= |Split(d)| && Terminated(d, k + part.lines)
    ensures LinesFrom(Split(body), k, l, parse, part)
  {
    BelowCap(body, d, k + part.lines, ended);
    LinesCarry(Split(d), Split(body), k, l, parse, part, ended);
  }

  /** Lines `k..` read below the cap make a faithful chunk of the whole body. */
  lemma PartFaithful<R>(body: string, d: string, k: nat, l: Limits, parse: string -> Option<R>, part: Part<R>,
                        ended: bool, next: nat)
    requires d <= body && Took(Split(d), k, l, parse, part, ended)
    requires k + part.lines <= |Split(d)| && next == Start(d, k + part.lines)
    requires if ended then d == body else Terminated(d, k + part.lines)
    ensures Faithful(body, k, l, parse, Chunk(part, next))
  {
    assert k + part.lines <= |Split(body)| && next == Start(body, k + part.lines) by {
      BelowCap(body, d, k + part.lines, ended);
    }
    PartLines(body, d, k, l, parse, part, ended);
  }

  lemma CapUnreached<R>(body: string, k: nat, l: Limits, parse: string -> Option<R>, part: Part<R>, ended: bool,
                        next: nat)
    requires Took(Split(Limited(body, l)), k, l, parse, part, ended)
    requires k + part.lines <= |Split(Limited(body, l))| && next == Start(Limited(body, l), k + part.lines)
    requires if ended then |Limited(body, l)| <= l.maxBytes else Terminated(Limited(body, l), k + part.lines)
    ensures Faithful(body, k, l, parse, Chunk(part, next))
  {
    PartFaithful(body, Limited(body, l), k, l, parse, part, ended, next);
  }

  /** Reads `max` lines from line `k` on, where the stream stands. */
  method ReadRest<R(==)>(br: Stream, ghost body: string, ghost k: nat, l: Limits, parse: string -> Option<R>)
    returns (c: Chunk<R>)
    requires br.data == Limited(body, l) && At(br, k) && k <= |Split(body)|
    modifies br
    ensures c.Error? || Faithful(body, k, l, parse, c)
    ensures c.Error? ==> br.breaks || |body| > l.maxBytes
  {
    var skipped := br.pos;
    var part, consumed, failed := ReadChunk(br, k, l, parse);
    if failed { return Error; }
    var pulled := Pulled(br);
    if pulled > l.maxBytes { return Error; }
    CapUnreached(body, k, l, parse, part, br.ended, skipped + consumed);
    return Chunk(part, skipped + consumed);
  }

  /** How much the buffered reader has taken from the body: at least what was handed out. */
  method Pulled(br: Stream) returns (n: nat)
    requires br.Valid()
    ensures br.pos <= n <= |br.data| && (br.ended ==> n == |br.data|)
  {
    n :| br.pos <= n <= |br.data| && (br.ended ==> n == |br.data|);
  }

  /** Reads `max` lines from line `k` of a body, through the cap. `None` means the body ended while
      skipping. */
  method ReadBody<R(==)>(body: string, k: nat, l: Limits, parse: string -> Option<R>, breaks: bool)
    returns (c: Option<Chunk<R>>, skipped: nat)
    ensures c.None? ==> |Split(Limited(body, l))| < k && skipped == |Limited(body, l)|
    ensures c.Some? ==> c.value.Error? || (k <= |Split(Limited(body, l))| && Faithful(body, k, l, parse, c.value))
    ensures c == Some(Error) ==> breaks || |body| > l.maxBytes
  {
    var br := new Stream(Limited(body, l), breaks);
    var st;
    skipped, st := SkipLines(br, k, l.lineCap);
    if st.End? { return None, skipped; }
    if st.Broken? { return Some(Error), skipped; }
    LimitedLines(body, l);
    var r := ReadRest(br, body, k, l, parse);
    return Some(r), skipped;
  }

  /** A part depends only on the lines it was read from, and on whether they ran out. */
  lemma SameLines<R>(x: seq<string>, y: seq<string>, k: nat, l: Limits, parse: string -> Option<R>, p: Part<R>)
    requires k + p.lines <= |x| && k + p.lines <= |y| && x[..k + p.lines] == y[..k + p.lines]
    requires p.lines <= l.max && p.eof == (p.lines < l.max) && (p.eof ==> k + p.lines == |x| == |y|)
    requires Yields(x, k, p.lines, l.lineCap, parse, p.recs, p.oversize)
    ensures LinesFrom(y, k, l, parse, p)
  {
    forall m | k <= m < k + p.lines ensures x[m] == y[m - k + k] {
      assert x[..k + p.lines][m] == y[..k + p.lines][m];
    }
    RecordsSame(x, k, y, k, p.lines, l.lineCap, parse);
  }

  /** Lines read below the cap are lines of the whole body. */
  lemma BelowCap(body: string, d: string, n: nat, ended: bool)
    requires d <= body && n <= |Split(d)|
    requires if ended then d == body else Terminated(d, n)
    ensures n <= |Split(body)| && Start(body, n) == Start(d, n) && Split(body)[..n] == Split(d)[..n]
  {
    if !ended {
      assert body == d + body[|d|..];
      SplitPrefix(d, body[|d|..], n);
    }
  }

  // ----- which chunk an answer leads to -----

  /** How many of `n` lines a chunk that starts at line `skip` has. */
  function Due(n: nat, skip: nat, max: nat): (d: nat)
    requires skip <= n
    ensures d <= max && skip + d <= n
  {
    if n - skip < max then n - skip else max
  }

  /** What a chunk counts as read, where it says the next one starts, whether it ends the page, and
      the lines it holds. */
  datatype Served = Served(count: nat, next: nat, eof: bool, text: seq<string>)

  /** The chunk at line `k` of a body that starts at byte `base` of the object. */
  function ChunkAt(body: string, k: nat, base: nat, l: Limits): Served
    requires k <= |Split(body)|
  {
    var n := Due(|Split(body)|, k, l.max);
    Served(n, base + Start(body, k + n), n < l.max, Split(body)[k..k + n])
  }

  /** The chunk that an answer leads to, for any object and any pair of offsets. */
  function Serve(obj: string, skip: nat, at: nat, l: Limits, reply: Reply): Option<Served> {
    if Honoured(at, reply) then Some(ChunkAt(BodyOf(obj, reply), 0, at, l))
    else if !reply.Full? then None
    else if |Split(Limited(obj, l))| < skip then Some(Served(skip, |Limited(obj, l)|, true, []))
    else LimitedLines(obj, l); Some(ChunkAt(obj, skip, 0, l))
  }

  lemma LimitedLines(body: string, l: Limits)
    ensures |Split(Limited(body, l))| <= |Split(body)|
  {
    if |body| > l.maxBytes + 1 { FewerLines(body, l.maxBytes + 1); }
  }

  /** The returned chunk is the served one, with the records of its lines. */
  ghost predicate Delivers<R>(s: Option<Served>, l: Limits, parse: string -> Option<R>, c: Chunk<R>) {
    && s.Some? && c.Chunk? && c.part.lines == s.value.count && c.next == s.value.next && c.part.eof == s.value.eof
    && Yields(s.value.text, 0, |s.value.text|, l.lineCap, parse, c.part.recs, c.part.oversize)
  }

  lemma TextYields<R>(lines: seq<string>, k: nat, n: nat, text: seq<string>, cap: nat, parse: string -> Option<R>,
                      recs: seq<R>, oversize: nat)
    requires k + n <= |lines| && text == lines[k..k + n]
    ensures Yields(lines, k, n, cap, parse, recs, oversize) <==> Yields(text, 0, |text|, cap, parse, recs, oversize)
  {
    RecordsSame(lines, k, text, 0, n, cap, parse);
  }

  lemma FaithfulDelivers<R>(body: string, k: nat, base: nat, l: Limits, parse: string -> Option<R>, part: Part<R>,
                            next: nat)
    requires k <= |Split(body)|
    ensures Faithful(body, k, l, parse, Chunk(part, next)) <==>
            Delivers(Some(ChunkAt(body, k, base, l)), l, parse, Chunk(part, base + next))
  {
    var lines, s := Split(body), ChunkAt(body, k, base, l);
    if part.lines == s.count {
      TextYields(lines, k, part.lines, s.text, l.lineCap, parse, part.recs, part.oversize);
      assert LinesFrom(lines, k, l, parse, part) <==>
             part.eof == s.eof && Yields(lines, k, part.lines, l.lineCap, parse, part.recs, part.oversize);
    } else {
      assert !LinesFrom(lines, k, l, parse, part);
    }
  }

  /** For every object, pair of offsets and answer: a chunk that is returned is the served one. */
  method DownloadChunk<R(==)>(obj: string, skip: nat, byteOffset: nat, l: Limits, parse: string -> Option<R>,
                              reply: Reply, breaks: bool)
    returns (c: Chunk<R>)
    ensures c.Chunk? ==> Delivers(Serve(obj, skip, byteOffset, l, reply), l, parse, c)
    ensures c.Error? ==> breaks || |obj| > l.maxBytes || Serve(obj, skip, byteOffset, l, reply).None?
  {
    if Honoured(byteOffset, reply) {
      var body := BodyOf(obj, reply);
      var r, _ := ReadBody(body, 0, l, parse, breaks);
      if r.value.Error? { return Error; }
      FaithfulDelivers(body, 0, byteOffset, l, parse, r.value.part, r.value.next);
      return Chunk(r.value.part, byteOffset + r.value.next);
    }
    if !reply.Full? { return Error; }
    var r, skipped := ReadBody(BodyOf(obj, reply), skip, l, parse, breaks);
    if r.None? { return Chunk(Part([], skip, true, 0), skipped); }
    if r.value.Chunk? { FaithfulDelivers(obj, skip, 0, l, parse, r.value.part, r.value.next); }
    return r.value;
  }

  /** An answer is used if and only if it is a 200, or a 206 to a Range request whose stated start is the
      byte that was asked for. */
  lemma UsedIff(obj: string, skip: nat, at: nat, l: Limits, reply: Reply)
    ensures Serve(obj, skip, at, l, reply).Some? <==>
            reply == Full || (at > 0 && exists size :: reply == Partial(Some(at), size))
  {
  }

  // ----- when that is the right chunk -----

  /** The answer holds the lines due: the cap is not reached while skipping, or the range reaches
      the end of the last of them. */
  predicate Complete(obj: string, skip: nat, l: Limits, reply: Reply)
    requires skip <= |Split(obj)|
  {
    match reply
    case Full => !(skip > 0 && Start(obj, skip - 1) > l.maxBytes)
    case Partial(_, size) => Start(obj, skip + Due(|Split(obj)|, skip, l.max)) <= Start(obj, skip) + size
    case OtherStatus => false
  }

  /** The limited body ends inside the skipped lines exactly when the last of them starts beyond
      the cap. */
  lemma CapReached(obj: string, skip: nat, l: Limits)
    requires skip <= |Split(obj)|
    ensures |Split(Limited(obj, l))| < skip <==> skip > 0 && Start(obj, skip - 1) > l.maxBytes
  {
    if skip > 0 {
      NextLine(obj, skip - 1);
      if |obj| > l.maxBytes + 1 { SplitTruncated(obj, l.maxBytes + 1, skip - 1); }
    }
  }

  lemma TailChunk(obj: string, skip: nat, at: nat, l: Limits)
    requires skip <= |Split(obj)| && at == Start(obj, skip)
    ensures ChunkAt(obj[at..], 0, at, l) == ChunkAt(obj, skip, 0, l)
  {
    SplitFrom(obj, skip);
    StartAdd(obj, skip, Due(|Split(obj)|, skip, l.max));
  }

  /** A body cut no earlier than after the lines due gives the same chunk. */
  lemma CutChunk(t: string, size: nat, base: nat, l: Limits)
    requires size < |t| && Start(t, Due(|Split(t)|, 0, l.max)) <= size
    ensures ChunkAt(t[..size], 0, base, l) == ChunkAt(t, 0, base, l)
  {
    var n := Due(|Split(t)|, 0, l.max);
    SplitKeeps(t, size, n);
    NextLine(t, n);
    FewerLines(t, size);
  }

  /** A range that reaches the end of the lines due leads to them. */
  lemma EnoughRange(obj: string, skip: nat, at: nat, l: Limits, size: nat)
    requires skip <= |Split(obj)| && at == Start(obj, skip) && Complete(obj, skip, l, Partial(Some(at), size))
    ensures ChunkAt(Ranged(obj, at, size), 0, at, l) == ChunkAt(obj, skip, 0, l)
  {
    TailChunk(obj, skip, at, l);
    if size < |obj| - at { CutChunk(obj[at..], size, at, l); }
  }

  /** For offsets left by earlier right chunks, an accepted answer leads to the right chunk exactly
      when it is complete; otherwise the count or the next offset is wrong. */
  lemma ServesRight(obj: string, skip: nat, at: nat, l: Limits, reply: Reply)
    requires skip <= |Split(obj)| && at == Start(obj, skip) && Serve(obj, skip, at, l, reply).Some?
    ensures var s := Serve(obj, skip, at, l, reply).value;
            var right := ChunkAt(obj, skip, 0, l);
            if Complete(obj, skip, l, reply) then s == right else s.count != right.count || s.next < right.next
  {
    var n := Due(|Split(obj)|, skip, l.max);
    if Honoured(at, reply) {
      if Complete(obj, skip, l, reply) { EnoughRange(obj, skip, at, l, reply.size); }
    } else {
      CapReached(obj, skip, l);
      if !Complete(obj, skip, l, reply) { PastCap(obj, skip, n, l); }
    }
  }

  lemma PastCap(obj: string, skip: nat, n: nat, l: Limits)
    requires 0 < skip && skip + n <= |Split(obj)| && Start(obj, skip - 1) > l.maxBytes
    ensures |Limited(obj, l)| < Start(obj, skip + n)
  {
    StartMono(obj, skip - 1, skip + n);
  }

  /** The chunk that is returned is faithful if and only if the answer was complete. */
  lemma FaithfulIffComplete<R>(obj: string, skip: nat, l: Limits, parse: string -> Option<R>, reply: Reply, c: Chunk<R>)
    requires skip <= |Split(obj)| && c.Chunk? && Delivers(Serve(obj, skip, Start(obj, skip), l, reply), l, parse, c)
    ensures Faithful(obj, skip, l, parse, c) <==> Complete(obj, skip, l, reply)
  {
    ServesRight(obj, skip, Start(obj, skip), l, reply);
    FaithfulDelivers(obj, skip, 0, l, parse, c.part, c.next);
  }

  // ----- two answers that lose lines -----

  lemma FourLines(obj: string)
    requires obj == "a\nb\nc\nd\n"
    ensures |Split(obj)| == 4 && forall k :: 0 <= k <= 4 ==> Start(obj, k) == 2 * k
  {
    assert obj[2..] == "b\nc\nd\n" && obj[2..][2..] == "c\nd\n" && obj[2..][2..][2..] == "d\n"
           && obj[2..][2..][2..][2..] == "";
    FirstLenIs(obj, 2);
    FirstLenIs(obj[2..], 2);
    FirstLenIs(obj[2..][2..], 2);
    FirstLenIs(obj[2..][2..][2..], 2);
    assert Split(obj[2..][2..][2..][2..]) == [];
    assert |Split(obj[2..][2..][2..])| == 1;
    assert |Split(obj[2..][2..])| == 2;
    assert |Split(obj[2..])| == 3;
    forall k | 0 <= k <= 4 ensures Start(obj, k) == 2 * k { EvenStarts(obj, k); }
  }

  lemma {:induction false} EvenStarts(obj: string, k: nat)
    requires k <= |Split(obj)| && |obj| % 2 == 0
    requires forall i :: 0 <= i < |obj| ==> (obj[i] == '\n' <==> i % 2 == 1)
    ensures Start(obj, k) == 2 * k
  {
    if k > 0 {
      FirstLenIs(obj, 2);
      EvenStarts(obj[2..], k - 1);
    }
  }

  /** The cap matters: a reader that got past the cap by Range requests is told, on an ignored Range,
      that the page is finished while a line is still unread. */
  lemma CapHidesATail()
    ensures var obj, l := "a\nb\nc\nd\n", Limits(1, 3, 10);
            && |Split(obj)| == 4 && Start(obj, 3) == 6 && !Complete(obj, 3, l, Full)
            && Serve(obj, 3, 6, l, Full) == Some(Served(3, 4, true, []))
  {
    var obj, l := "a\nb\nc\nd\n", Limits(1, 3, 10);
    FourLines(obj);
    CapReached(obj, 3, l);
  }

  /** So does the end of the range: a 206 that starts where asked and stops after one line is taken
      for the end of the page while another line is still unread. */
  lemma ShortRangeHidesATail()
    ensures var obj, l := "a\nb\nc\nd\n", Limits(2, 100, 10);
            && |Split(obj)| == 4 && Start(obj, 2) == 4 && !Complete(obj, 2, l, Partial(Some(4), 2))
            && Serve(obj, 2, 4, l, Partial(Some(4), 2)) == Some(Served(1, 6, true, ["c\n"]))
  {
    var obj, l := "a\nb\nc\nd\n", Limits(2, 100, 10);
    FourLines(obj);
    assert Ranged(obj, 4, 2) == "c\n";
    OneLine("c\n", l);
  }

  lemma OneLine(d: string, l: Limits)
    requires d == "c\n" && l.max == 2
    ensures ChunkAt(d, 0, 4, l) == Served(1, 6, true, [d])
  {
    FirstLenIs(d, 2);
    assert d[..2] == d && d[2..] == [];
    assert Split(d[2..]) == [];
    assert Split(d) == [d[..2]] + [];
    assert Tail(d, 1) == Tail(d[2..], 0) == [];
    assert Start(d, 1) == 2 && Split(d)[0..1] == [d];
  }
}
