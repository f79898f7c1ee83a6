/** A whole exported page, fetched chunk by chunk from the offsets that each chunk returns
    (internal/source/portkey/logs_export.go, stepDownloading). */
module Pages {
  import opened Model
  import opened Lines
  import opened Download

  /** How far a page is: the two stored offsets, whether a chunk ended it, and the lines handed out. */
  datatype Place = Place(lines: nat, at: nat, eof: bool, text: seq<string>)

  const TOP := Place(0, 0, false, [])

  function Step(obj: string, l: Limits, p: Place, reply: Reply): Place {
    if p.eof then p
    else match Serve(obj, p.lines, p.at, l, reply)
      case None => p
      case Some(s) => Place(p.lines + s.count, s.next, s.eof, p.text + s.text)
  }

  /** The page after a request for each answer; a refused or failed request is repeated. */
  function Read(obj: string, l: Limits, replies: seq<Reply>): Place {
    if replies == [] then TOP
    else Step(obj, l, Read(obj, l, replies[..|replies| - 1]), replies[|replies| - 1])
  }

  lemma ReadMore(obj: string, l: Limits, replies: seq<Reply>, reply: Reply)
    ensures Read(obj, l, replies + [reply]) == Step(obj, l, Read(obj, l, replies), reply)
  {
    assert (replies + [reply])[..|replies|] == replies;
  }

  /** While a page has not ended, the line offset counts the lines handed out, and neither it nor the
      byte offset runs past the object, whatever the answers. */
  predicate InBounds(obj: string, p: Place) {
    !p.eof ==> |p.text| == p.lines <= p.at <= |obj|
  }

  lemma StepInBounds(obj: string, l: Limits, p: Place, reply: Reply)
    requires l.max > 0 && InBounds(obj, p)
    ensures InBounds(obj, Step(obj, l, p, reply))
    ensures var s := Serve(obj, p.lines, p.at, l, reply); !p.eof && s.Some? && !s.value.eof ==> s.value.count > 0
  {
    if !p.eof {
      if Honoured(p.at, reply) {
        var body := Ranged(obj, p.at, reply.size);
        StartAtLeast(body, Due(|Split(body)|, 0, l.max));
      } else if reply.Full? && p.lines <= |Split(Limited(obj, l))| {
        LimitedLines(obj, l);
        StartAtLeast(obj, p.lines + Due(|Split(obj)|, p.lines, l.max));
      }
    }
  }

  lemma {:induction false} ReadInBounds(obj: string, l: Limits, replies: seq<Reply>)
    requires l.max > 0
    ensures InBounds(obj, Read(obj, l, replies))
  {
    if replies != [] {
      ReadInBounds(obj, l, replies[..|replies| - 1]);
      StepInBounds(obj, l, Read(obj, l, replies[..|replies| - 1]), replies[|replies| - 1]);
    }
  }

  // ----- when a finished page is complete -----

  /** The answer is used, lines are left to read, and it does not hold those due. */
  predicate Loses(obj: string, l: Limits, p: Place, reply: Reply) {
    && !p.eof && Serve(obj, p.lines, p.at, l, reply).Some?
    && p.lines < |Split(obj)| && !Complete(obj, p.lines, l, reply)
  }

  predicate LosesNone(obj: string, l: Limits, replies: seq<Reply>) {
    replies == [] ||
    (var before := replies[..|replies| - 1];
     LosesNone(obj, l, before) && !Loses(obj, l, Read(obj, l, before), replies[|replies| - 1]))
  }

  /** What was handed out is the first lines of the object, all of them once the page ended; until
      then the offsets are those of the next line. */
  predicate OnCourse(obj: string, p: Place) {
    if p.eof then p.text == Split(obj)
    else p.lines <= |Split(obj)| && p.at == Start(obj, p.lines) && p.text == Split(obj)[..p.lines]
  }

  /** Whatever follows, the lines handed out are not those of the object. */
  predicate Spoiled(obj: string, p: Place) {
    !(p.text <= Split(obj)) || (p.eof && p.text != Split(obj))
  }

  lemma Joined(all: seq<string>, k: nat, n: nat)
    requires k + n <= |all|
    ensures all[..k] + all[k..k + n] == all[..k + n]
  {
  }

  lemma RightStep(obj: string, l: Limits, p: Place)
    requires OnCourse(obj, p) && !p.eof
    ensures var s := ChunkAt(obj, p.lines, 0, l);
            OnCourse(obj, Place(p.lines + s.count, s.next, s.eof, p.text + s.text))
  {
    Joined(Split(obj), p.lines, ChunkAt(obj, p.lines, 0, l).count);
  }

  lemma GoodStep(obj: string, l: Limits, p: Place, reply: Reply)
    requires OnCourse(obj, p) && !Loses(obj, l, p, reply)
    ensures OnCourse(obj, Step(obj, l, p, reply))
  {
    var s := Serve(obj, p.lines, p.at, l, reply);
    if !p.eof && s.Some? {
      ServesRight(obj, p.lines, p.at, l, reply);
      if Complete(obj, p.lines, l, reply) {
        RightStep(obj, l, p);
      } else {
        assert p.text == Split(obj);
        LateFull(obj, p.lines, p.at, l, reply);
      }
    }
  }

  /** Past the last line only an ignored Range can be incomplete, and it ends the page. */
  lemma LateFull(obj: string, skip: nat, at: nat, l: Limits, reply: Reply)
    requires skip == |Split(obj)| && at == Start(obj, skip) && Serve(obj, skip, at, l, reply).Some?
    requires !Complete(obj, skip, l, reply)
    ensures var s := Serve(obj, skip, at, l, reply).value; s.eof && s.text == []
  {
    CapReached(obj, skip, l);
  }

  /** The lines of a range that stops before the lines due end are not those lines, or they end the
      page early. */
  lemma ShortRange(t: string, size: nat, base: nat, l: Limits)
    requires Start(t, Due(|Split(t)|, 0, l.max)) > size
    ensures var s := ChunkAt(t[..size], 0, base, l);
            !(s.text <= Split(t)) || (s.eof && |s.text| < |Split(t)|)
  {
    var n, body := Due(|Split(t)|, 0, l.max), t[..size];
    var m := Due(|Split(body)|, 0, l.max);
    FewerLines(t, size);
    assert Split(body)[0..m] == Split(body)[..m];
    if Split(body)[..m] <= Split(t) && m == n {
      assert Split(body)[..m] == Split(t)[..m];
      BytesBefore(body, m);
      BytesBefore(t, m);
    }
  }

  lemma BadStep(obj: string, l: Limits, p: Place, reply: Reply)
    requires OnCourse(obj, p) && Loses(obj, l, p, reply)
    ensures Spoiled(obj, Step(obj, l, p, reply))
  {
    if Honoured(p.at, reply) {
      CutBody(obj, l, p, reply.size);
      var t := obj[p.at..];
      var s := ChunkAt(t[..reply.size], 0, p.at, l);
      SplitFrom(obj, p.lines);
      if p.text + s.text <= Split(obj) { PrefixRest(p.text, s.text, Split(obj)); }
    } else {
      CapReached(obj, p.lines, l);
    }
  }

  lemma CutBody(obj: string, l: Limits, p: Place, size: nat)
    requires p.lines <= |Split(obj)| && p.at == Start(obj, p.lines)
    requires Start(obj, p.lines + Due(|Split(obj)|, p.lines, l.max)) > p.at + size
    ensures size < |obj| - p.at && Ranged(obj, p.at, size) == obj[p.at..][..size]
    ensures var s := ChunkAt(obj[p.at..][..size], 0, p.at, l);
            !(s.text <= Split(obj[p.at..])) || (s.eof && |s.text| < |Split(obj[p.at..])|)
  {
    SplitFrom(obj, p.lines);
    StartAdd(obj, p.lines, Due(|Split(obj)|, p.lines, l.max));
    ShortRange(obj[p.at..], size, p.at, l);
  }

  lemma PrefixRest(a: seq<string>, b: seq<string>, all: seq<string>)
    requires a + b <= all
    ensures b <= all[|a|..]
  {
    assert (a + b)[|a|..] == b;
  }

  lemma SpoiledStays(obj: string, l: Limits, p: Place, reply: Reply)
    requires Spoiled(obj, p)
    ensures Spoiled(obj, Step(obj, l, p, reply))
  {
    var q := Step(obj, l, p, reply);
    assert p.text <= q.text;
    if q.text <= Split(obj) { assert p.text <= Split(obj); }
  }

  lemma {:induction false} CourseOf(obj: string, l: Limits, replies: seq<Reply>)
    ensures LosesNone(obj, l, replies) ==> OnCourse(obj, Read(obj, l, replies))
    ensures !LosesNone(obj, l, replies) ==> Spoiled(obj, Read(obj, l, replies))
  {
    if replies != [] {
      var before, last := replies[..|replies| - 1], replies[|replies| - 1];
      var p := Read(obj, l, before);
      CourseOf(obj, l, before);
      if !LosesNone(obj, l, before) {
        SpoiledStays(obj, l, p, last);
      } else if Loses(obj, l, p, last) {
        BadStep(obj, l, p, last);
      } else {
        GoodStep(obj, l, p, last);
      }
    }
  }

  /** A page that ended was read line for line if and only if no answer lost lines. */
  lemma FinishedPageComplete(obj: string, l: Limits, replies: seq<Reply>)
    requires Read(obj, l, replies).eof
    ensures Read(obj, l, replies).text == Split(obj) <==> LosesNone(obj, l, replies)
  {
    CourseOf(obj, l, replies);
  }

  // ----- when a page finishes -----

  /** How many of the requests led to a chunk. */
  function Chunks(obj: string, l: Limits, replies: seq<Reply>): (n: nat)
    ensures n <= |replies|
  {
    if replies == [] then 0
    else
      var before := replies[..|replies| - 1];
      var p := Read(obj, l, before);
      Chunks(obj, l, before) +
      if !p.eof && Serve(obj, p.lines, p.at, l, replies[|replies| - 1]).Some? then 1 else 0
  }

  lemma ChunksMore(obj: string, l: Limits, replies: seq<Reply>, reply: Reply)
    ensures var p := Read(obj, l, replies);
            Chunks(obj, l, replies + [reply]) == Chunks(obj, l, replies) +
            if !p.eof && Serve(obj, p.lines, p.at, l, reply).Some? then 1 else 0
  {
    assert (replies + [reply])[..|replies|] == replies;
  }

  /** `n` lines in chunks of `max`: `chunks` full ones, and one more that ends the page. */
  predicate Tally(n: nat, chunks: nat, max: nat, p: Place) {
    if p.eof then chunks > 0 && (chunks - 1) * max <= n < chunks * max else chunks * max == p.lines
  }

  lemma NextChunk(n: nat, chunks: nat, max: nat, p: Place, q: Place)
    requires Tally(n, chunks, max, p) && !p.eof && p.lines <= n && max > 0
    requires q.eof == (n - p.lines < max) && (!q.eof ==> q.lines == p.lines + max)
    ensures Tally(n, chunks + 1, max, q)
  {
    assert (chunks + 1) * max == chunks * max + max;
  }

  lemma {:induction false} ChunkTally(obj: string, l: Limits, replies: seq<Reply>)
    requires l.max > 0 && LosesNone(obj, l, replies)
    ensures Tally(|Split(obj)|, Chunks(obj, l, replies), l.max, Read(obj, l, replies))
  {
    if replies != [] {
      var before, last := replies[..|replies| - 1], replies[|replies| - 1];
      var p := Read(obj, l, before);
      ChunkTally(obj, l, before);
      CourseOf(obj, l, before);
      if !p.eof && Serve(obj, p.lines, p.at, l, last).Some? {
        StepEnds(obj, l, p, last);
        NextChunk(|Split(obj)|, Chunks(obj, l, before), l.max, p, Step(obj, l, p, last));
      }
    }
  }

  /** A chunk ends the page exactly when fewer than `max` lines were left. */
  lemma StepEnds(obj: string, l: Limits, p: Place, reply: Reply)
    requires OnCourse(obj, p) && !p.eof && l.max > 0
    requires Serve(obj, p.lines, p.at, l, reply).Some? && !Loses(obj, l, p, reply)
    ensures var q := Step(obj, l, p, reply);
            q.eof == (|Split(obj)| - p.lines < l.max) && (!q.eof ==> q.lines == p.lines + l.max)
  {
    ServesRight(obj, p.lines, p.at, l, reply);
    if !Complete(obj, p.lines, l, reply) { LateFull(obj, p.lines, p.at, l, reply); }
  }

  lemma MulMono(a: nat, b: nat, m: nat)
    requires a <= b
    ensures a * m <= b * m
  {
    assert (b - a) * m >= 0;
  }

  lemma DivIs(n: nat, max: nat, q: nat)
    requires max > 0 && q * max <= n < (q + 1) * max
    ensures n / max == q
  {
    var d := n / max;
    assert d * max <= n < (d + 1) * max;
    if d < q { MulMono(d + 1, q, max); } else if d > q { MulMono(q + 1, d, max); }
  }

  lemma FullChunks(n: nat, max: nat, chunks: nat)
    requires max > 0 && chunks * max <= n
    ensures chunks <= n / max
  {
    if chunks > n / max { MulMono(n / max + 1, chunks, max); }
  }

  /** When no answer lost lines the page ends exactly at chunk number `lines / max + 1`: one chunk
      more than fill it, also when they fill it to the last line. */
  lemma PageEndsIff(obj: string, l: Limits, replies: seq<Reply>)
    requires l.max > 0 && LosesNone(obj, l, replies)
    ensures Read(obj, l, replies).eof <==> Chunks(obj, l, replies) == |Split(obj)| / l.max + 1
    ensures Chunks(obj, l, replies) <= |Split(obj)| / l.max + 1
  {
    ChunkTally(obj, l, replies);
    CourseOf(obj, l, replies);
    TallyEnds(|Split(obj)|, Chunks(obj, l, replies), l.max, Read(obj, l, replies));
  }

  lemma TallyEnds(n: nat, k: nat, max: nat, p: Place)
    requires max > 0 && Tally(n, k, max, p) && (!p.eof ==> p.lines <= n)
    ensures k <= n / max + 1 && (p.eof <==> k == n / max + 1)
  {
    if p.eof { DivIs(n, max, k - 1); } else { FullChunks(n, max, k); }
  }

  /** A server that always sends the page, whole or from the requested byte to its end. */
  predicate Serving(obj: string, l: Limits, replies: seq<Reply>) {
    replies == [] ||
    (var before, last := replies[..|replies| - 1], replies[|replies| - 1];
     var p := Read(obj, l, before);
     && Serving(obj, l, before)
     && (p.eof || last.Full? || (Honoured(p.at, last) && p.at + last.size >= |obj|)))
  }

  lemma {:induction false} ServingAccepted(obj: string, l: Limits, replies: seq<Reply>)
    requires |obj| <= l.maxBytes && Serving(obj, l, replies)
    ensures LosesNone(obj, l, replies)
    ensures Read(obj, l, replies).eof || Chunks(obj, l, replies) == |replies|
  {
    if replies != [] {
      var before := replies[..|replies| - 1];
      ServingAccepted(obj, l, before);
      CourseOf(obj, l, before);
    }
  }

  /** From such a server a page within the cap ends after `lines / max + 1` requests, and no sooner. */
  lemma ServedPageEnds(obj: string, l: Limits, replies: seq<Reply>)
    requires l.max > 0 && |obj| <= l.maxBytes && Serving(obj, l, replies)
    ensures Read(obj, l, replies).eof <==> |replies| > |Split(obj)| / l.max
  {
    ServingAccepted(obj, l, replies);
    PageEndsIff(obj, l, replies);
  }

  // ----- pages that are filled to the last line -----

  /** Request `i` asked for the bytes from the end of the object on, and was sent a body. */
  predicate EndSent(obj: string, l: Limits, replies: seq<Reply>, i: nat)
    requires i < |replies|
  {
    var p := Read(obj, l, replies[..i]);
    !p.eof && p.at == |obj| && (replies[i].Full? || Honoured(|obj|, replies[i]))
  }

  predicate SomeEndSent(obj: string, l: Limits, replies: seq<Reply>) {
    exists i: nat {:trigger EndSent(obj, l, replies, i)} :: i < |replies| && EndSent(obj, l, replies, i)
  }

  lemma SomeEndSentStep(obj: string, l: Limits, replies: seq<Reply>)
    requires replies != []
    ensures var before := replies[..|replies| - 1];
            SomeEndSent(obj, l, replies) <==>
            SomeEndSent(obj, l, before) || EndSent(obj, l, replies, |replies| - 1)
  {
    var before := replies[..|replies| - 1];
    forall i: nat | i < |before| ensures EndSent(obj, l, before, i) <==> EndSent(obj, l, replies, i) {
      assert before[..i] == replies[..i];
    }
  }

  lemma Quotient(n: nat, max: nat) returns (d: nat)
    requires max > 0 && n % max == 0
    ensures d == n / max && d * max == n
  {
    d := n / max;
  }

  lemma MultiplesApart(n: nat, k: nat, max: nat)
    requires max > 0 && n % max == 0 && k * max <= n
    ensures n - k * max < max <==> k * max == n
    ensures k >= n / max ==> k * max == n
  {
    var d := Quotient(n, max);
    if k < d { Below(k, d, max); } else { MulMono(d, k, max); }
  }

  lemma Below(k: nat, d: nat, max: nat)
    requires k < d && max > 0
    ensures k * max + max <= d * max
  {
    MulMono(k + 1, d, max);
    assert (k + 1) * max == k * max + max;
  }

  lemma FilledStep(obj: string, l: Limits, p: Place, chunks: nat, reply: Reply)
    requires l.max > 0 && |Split(obj)| % l.max == 0 && OnCourse(obj, p) && !p.eof && !Loses(obj, l, p, reply)
    requires Tally(|Split(obj)|, chunks, l.max, p)
    ensures Step(obj, l, p, reply).eof <==> p.at == |obj| && (reply.Full? || Honoured(p.at, reply))
  {
    if Serve(obj, p.lines, p.at, l, reply).Some? {
      MultiplesApart(|Split(obj)|, chunks, l.max);
      NextLine(obj, p.lines);
      StepEnds(obj, l, p, reply);
    }
  }

  /** A page of a positive multiple of `max` lines ends if and only if a request for the bytes from
      the end of the object on is answered with a body. */
  lemma {:induction false} FilledPageEndsIff(obj: string, l: Limits, replies: seq<Reply>)
    requires l.max > 0 && LosesNone(obj, l, replies) && obj != [] && |Split(obj)| % l.max == 0
    ensures Read(obj, l, replies).eof <==> SomeEndSent(obj, l, replies)
  {
    if replies != [] {
      var before, last := replies[..|replies| - 1], replies[|replies| - 1];
      var p := Read(obj, l, before);
      FilledPageEndsIff(obj, l, before);
      SomeEndSentStep(obj, l, replies);
      CourseOf(obj, l, before);
      ChunkTally(obj, l, before);
      if !p.eof { FilledStep(obj, l, p, Chunks(obj, l, before), last); }
    }
  }

  /** A server that honours every Range it can satisfy and answers 416 at the end of the object, as
      section 15.5.17 of RFC 9110 describes. */
  function Strict(obj: string, at: nat): Reply {
    if at == 0 then Full else if at < |obj| then Partial(Some(at), |obj| - at) else OtherStatus
  }

  function StrictReplies(obj: string, l: Limits, n: nat): (r: seq<Reply>)
    ensures |r| == n
  {
    if n == 0 then []
    else
      var before := StrictReplies(obj, l, n - 1);
      before + [Strict(obj, Read(obj, l, before).at)]
  }

  lemma {:induction false} StrictKeeps(obj: string, l: Limits, n: nat)
    ensures LosesNone(obj, l, StrictReplies(obj, l, n))
    ensures obj != [] ==> !SomeEndSent(obj, l, StrictReplies(obj, l, n))
  {
    if n > 0 {
      var before, all := StrictReplies(obj, l, n - 1), StrictReplies(obj, l, n);
      StrictKeeps(obj, l, n - 1);
      CourseOf(obj, l, before);
      assert all[..n - 1] == before;
      SomeEndSentStep(obj, l, all);
    }
  }

  /** From such a server a page of a positive multiple of `max` lines never ends, however often it is
      asked, although all its lines were handed out. */
  lemma FilledPageNeverEnds(obj: string, l: Limits, n: nat)
    requires l.max > 0 && obj != [] && |Split(obj)| % l.max == 0
    ensures !Read(obj, l, StrictReplies(obj, l, n)).eof
    ensures n >= |Split(obj)| / l.max ==> Read(obj, l, StrictReplies(obj, l, n)).text == Split(obj)
  {
    var all := StrictReplies(obj, l, n);
    StrictKeeps(obj, l, n);
    FilledPageEndsIff(obj, l, all);
    CourseOf(obj, l, all);
    if n >= |Split(obj)| / l.max { FilledLines(obj, l, n); }
  }

  lemma FilledLines(obj: string, l: Limits, n: nat)
    requires l.max > 0 && obj != [] && |Split(obj)| % l.max == 0 && n >= |Split(obj)| / l.max
    requires !Read(obj, l, StrictReplies(obj, l, n)).eof
    ensures Read(obj, l, StrictReplies(obj, l, n)).lines == |Split(obj)|
  {
    var all := StrictReplies(obj, l, n);
    StrictProgress(obj, l, n);
    StrictKeeps(obj, l, n);
    ChunkTally(obj, l, all);
    CourseOf(obj, l, all);
    MultiplesApart(|Split(obj)|, Chunks(obj, l, all), l.max);
  }

  lemma {:induction false} StrictProgress(obj: string, l: Limits, n: nat)
    requires obj != []
    ensures var all := StrictReplies(obj, l, n);
            Read(obj, l, all).eof || Read(obj, l, all).lines == |Split(obj)| || Chunks(obj, l, all) == n
  {
    if n > 0 {
      var before := StrictReplies(obj, l, n - 1);
      var p := Read(obj, l, before);
      StrictProgress(obj, l, n - 1);
      StrictKeeps(obj, l, n - 1);
      CourseOf(obj, l, before);
      ReadMore(obj, l, before, Strict(obj, p.at));
      ChunksMore(obj, l, before, Strict(obj, p.at));
      StrictStep(obj, l, p, Chunks(obj, l, before), n - 1);
    }
  }

  lemma StrictStep(obj: string, l: Limits, p: Place, k: nat, n: nat)
    requires obj != [] && OnCourse(obj, p) && (p.eof || p.lines == |Split(obj)| || k == n)
    ensures var q := Step(obj, l, p, Strict(obj, p.at));
            var more := if !p.eof && Serve(obj, p.lines, p.at, l, Strict(obj, p.at)).Some? then 1 else 0;
            q.eof || q.lines == |Split(obj)| || k + more == n + 1
  {
    if !p.eof { StrictServes(obj, l, p); }
  }

  lemma StrictServes(obj: string, l: Limits, p: Place)
    requires OnCourse(obj, p) && !p.eof && obj != []
    ensures Serve(obj, p.lines, p.at, l, Strict(obj, p.at)).None? <==> p.lines == |Split(obj)|
  {
    NextLine(obj, p.lines);
  }

  // ----- the loop over requests -----

  /** A request: the server's answer, and whether reading it may break. */
  datatype Request = Request(reply: Reply, breaks: bool)

  /** `used` holds the answers, with those that came to nothing put down as refused. */
  ghost predicate UsedOf(obj: string, l: Limits, requests: seq<Request>, used: seq<Reply>) {
    |used| == |requests| && forall i :: 0 <= i < |used| ==> UsedAt(obj, l, requests[i], used[i])
  }

  ghost predicate UsedAt(obj: string, l: Limits, r: Request, used: Reply) {
    used == r.reply || (used.OtherStatus? && (r.breaks || |obj| > l.maxBytes))
  }

  /** What was fetched is what the place stands for. */
  ghost predicate Holds<R>(p: Place, cap: nat, parse: string -> Option<R>, recs: seq<R>, oversize: nat) {
    Yields(p.text, 0, |p.text|, cap, parse, recs, oversize)
  }

  lemma HoldsMore<R>(p: Place, text: seq<string>, q: Place, cap: nat, parse: string -> Option<R>, recs: seq<R>,
                     oversize: nat, more: seq<R>, further: nat)
    requires Holds(p, cap, parse, recs, oversize) && q.text == p.text + text
    requires Yields(text, 0, |text|, cap, parse, more, further)
    ensures Holds(q, cap, parse, recs + more, oversize + further)
  {
    var n, m := |p.text|, |text|;
    TextYields(q.text, 0, n, p.text, cap, parse, recs, oversize);
    TextYields(q.text, n, m, text, cap, parse, more, further);
    YieldsJoin(q.text, n, m, cap, parse, recs, oversize, more, further);
  }

  /** One request added to what was fetched before. */
  method Fetch<R(==)>(obj: string, l: Limits, parse: string -> Option<R>, r: Request, ghost p: Place, lines: nat,
                      at: nat, recs: seq<R>, oversize: nat)
    returns (ghost used: Reply, lines': nat, at': nat, eof: bool, recs': seq<R>, oversize': nat)
    requires !p.eof && lines == p.lines && at == p.at && Holds(p, l.lineCap, parse, recs, oversize)
    ensures UsedAt(obj, l, r, used)
    ensures var q := Step(obj, l, p, used);
            lines' == q.lines && at' == q.at && eof == q.eof && Holds(q, l.lineCap, parse, recs', oversize')
  {
    var c := DownloadChunk(obj, lines, at, l, parse, r.reply, r.breaks);
    if c.Error? {
      used := if Serve(obj, lines, at, l, r.reply).None? then r.reply else OtherStatus;
      return used, lines, at, false, recs, oversize;
    }
    used := r.reply;
    ghost var s := Serve(obj, lines, at, l, used).value;
    HoldsMore(p, s.text, Step(obj, l, p, used), l.lineCap, parse, recs, oversize, c.part.recs, c.part.oversize);
    return used, lines + c.part.lines, c.next, c.part.eof, recs + c.part.recs, oversize + c.part.oversize;
  }

  /** Fetches a page from its own returned offsets, one request after the other, until a chunk ends
      it.  The offsets and the records are those of the page after the answers that were used. */
  method DrainPage<R(==)>(obj: string, l: Limits, parse: string -> Option<R>, requests: seq<Request>)
    returns (lines: nat, at: nat, eof: bool, recs: seq<R>, oversize: nat, ghost used: seq<Reply>)
    ensures UsedOf(obj, l, requests, used)
    ensures var p := Read(obj, l, used);
            lines == p.lines && at == p.at && eof == p.eof && Holds(p, l.lineCap, parse, recs, oversize)
  {
    lines, at, eof, recs, oversize, used := 0, 0, false, [], 0, [];
    for i := 0 to |requests|
      invariant UsedOf(obj, l, requests[..i], used)
      invariant var p := Read(obj, l, used);
                lines == p.lines && at == p.at && eof == p.eof && Holds(p, l.lineCap, parse, recs, oversize)
    {
      ghost var u := requests[i].reply;
      if !eof {
        u, lines, at, eof, recs, oversize := Fetch(obj, l, parse, requests[i], Read(obj, l, used), lines, at, recs, oversize);
      }
      ReadMore(obj, l, used, u);
      UsedMore(obj, l, requests, i, used, u);
      used := used + [u];
    }
    assert requests[..|requests|] == requests;
  }

  lemma UsedMore(obj: string, l: Limits, requests: seq<Request>, i: nat, used: seq<Reply>, u: Reply)
    requires i < |requests| && UsedOf(obj, l, requests[..i], used) && UsedAt(obj, l, requests[i], u)
    ensures UsedOf(obj, l, requests[..i + 1], used + [u])
  {
    var all := used + [u];
    forall j | 0 <= j < |all| ensures UsedAt(obj, l, requests[..i + 1][j], all[j]) {
      if j < i { assert UsedAt(obj, l, requests[..i][j], used[j]); }
    }
  }
}
