/** The retry loop of one post and the wait the gateway may ask for (internal/emit/otlp/otlp.go;
    section 7.1.3 of RFC 7231). */
module Retry {
  import opened Model
  import opened Answers

  /** `multiplier` and `jitter` are floating point in the source; their rounding is not modelled. */
  datatype Policy = Policy(initial: int, maxDelay: int, maxElapsed: int, multiplier: real, jitter: real)

  predicate Valid(p: Policy) {
    0 <= p.initial && 0 <= p.maxDelay && 0 <= p.maxElapsed && 0.0 <= p.multiplier && 0.0 <= p.jitter <= 1.0
  }

  // ----- the header -----

  const MAX_INT64 := 0x7fff_ffff_ffff_ffff

  /** The low 64 bits, read as a signed number: what Go's multiplication leaves. */
  function Wrap(n: int): int {
    var m := n % 0x1_0000_0000_0000_0000;
    if m > MAX_INT64 then m - 0x1_0000_0000_0000_0000 else m
  }

  /** A delay in whole seconds, a date, or neither. */
  datatype Header = Seconds(n: int) | Date(at: int) | Unreadable

  /** The wait that the header asks for at the instant `now`. */
  function Asked(h: Header, now: int): (d: int)
    ensures d >= 0
  {
    match h
    case Seconds(n) => if n <= 0 then 0 else n * SECOND
    case Date(at) => if at - now > 0 then at - now else 0
    case Unreadable => 0
  }

  /** The wait that is read from it: the product in seconds wraps, the difference to a date saturates. */
  function ParseRetryAfter(h: Header, now: int): int {
    match h
    case Seconds(n) => if n <= 0 then 0 else Wrap(n * SECOND)
    case Date(at) => if at - now > MAX_INT64 then MAX_INT64 else if at - now > 0 then at - now else 0
    case Unreadable => 0
  }

  /** A wait is honoured exactly up to the largest duration, some 292 years. */
  lemma HonouredIff(h: Header, now: int)
    ensures ParseRetryAfter(h, now) == Asked(h, now) <==> Asked(h, now) <= MAX_INT64
  {
  }

  /** Beyond it the product wraps: this header asks for more than a thousand million years and gets no wait
      at all. */
  lemma HugeDelayIgnored(now: int)
    ensures ParseRetryAfter(Seconds(36_028_797_018_963_968), now) == 0
  {
  }

  // ----- the loop -----

  /** One attempt: a transport failure or a status with the body's reject class, its `Retry-After` header, how
      long it took, the random factor of the backoff after it, and how long into that wait the leader is
      cancelled, if it is. */
  datatype Attempt = Attempt(failed: bool, status: int, body: Reason, header: Header, took: int, draw: real,
                             cancelled: Option<nat>)

  predicate Success(a: Attempt) { !a.failed && 200 <= a.status < 300 }

  predicate Terminal(a: Attempt) { 400 <= a.status < 500 && a.status != 429 }

  predicate Transient(a: Attempt) { a.failed || a.status in {429, 502, 503, 504} }

  function Classify(a: Attempt): Answer { Rejected(if a.status == 413 then PayloadTooLarge else a.body) }

  /** A transport error reports status 0, and a request takes time but no longer than the client's timeout. */
  predicate Plausible(a: Attempt, timeout: int) {
    (a.failed ==> a.status == 0) && 1 <= a.took <= timeout && -1.0 <= a.draw <= 1.0
  }

  function Jittered(p: Policy, delay: int, draw: real): int {
    if p.jitter <= 0.0 then delay else delay + Times(Times(delay as real, p.jitter), draw).Floor
  }

  function Times(a: real, b: real): real { a * b }

  function Grow(p: Policy, delay: int): int {
    var d := Times(delay as real, p.multiplier).Floor;
    if d > p.maxDelay then p.maxDelay else d
  }

  function Longest(p: Policy): int { if p.initial < p.maxDelay then p.maxDelay else p.initial }

  /** The longest backoff the policy can draw. */
  function MaxBackoff(p: Policy): int { Longest(p) + Times(Longest(p) as real, p.jitter).Floor }

  lemma Product(a: real, b: real)
    requires 0.0 <= a && 0.0 <= b
    ensures 0.0 <= a * b
  {
  }

  lemma Scaled(x: real, r: real)
    requires 0.0 <= x && -1.0 <= r <= 1.0
    ensures -x <= Times(x, r) <= x
  {
    Product(x, 1.0 - r);
    Product(x, 1.0 + r);
    assert x * (1.0 - r) == x - x * r && x * (1.0 + r) == x + x * r;
  }

  lemma Share(d: real, e: real, j: real)
    requires 0.0 <= d <= e && 0.0 <= j <= 1.0
    ensures 0.0 <= Times(d, j) <= Times(e, j) && Times(d, j) <= d
  {
    Product(d, j);
    Product(d, 1.0 - j);
    Product(e - d, j);
    assert d * (1.0 - j) == d - d * j && (e - d) * j == e * j - d * j;
  }

  lemma JitteredBounds(p: Policy, delay: int, draw: real)
    requires Valid(p) && 0 <= delay <= Longest(p) && -1.0 <= draw <= 1.0
    ensures 0 <= Jittered(p, delay, draw) <= MaxBackoff(p)
  {
    var d, longest := delay as real, Longest(p) as real;
    Share(d, longest, p.jitter);
    Scaled(Times(d, p.jitter), draw);
    FloorBounds(Times(Times(d, p.jitter), draw), delay, Times(longest, p.jitter));
  }

  lemma FloorBounds(x: real, d: int, y: real)
    requires -(d as real) <= x <= y
    ensures -d <= x.Floor <= y.Floor
  {
  }

  lemma GrowBounds(p: Policy, delay: int)
    requires Valid(p) && 0 <= delay
    ensures 0 <= Grow(p, delay) <= p.maxDelay
  {
    Product(delay as real, p.multiplier);
  }

  /** A request as it went out: when it was sent and answered, and what came back. */
  datatype Sent = Sent(at: int, ended: int, attempt: Attempt)

  /** The wait read from the header when the answer is in. */
  function Waits(s: Sent): int { ParseRetryAfter(s.attempt.header, s.ended) }

  /** Only transient outcomes are retried, and a 429 never before the wait that was read. */
  ghost predicate Polite(log: seq<Sent>) {
    forall i :: 0 <= i < |log| - 1 ==> Spaced(log[i], log[i + 1])
  }

  predicate Spaced(a: Sent, b: Sent) {
    && Transient(a.attempt) && !Success(a.attempt) && !Terminal(a.attempt) && a.ended <= b.at
    && (a.attempt.status == 429 ==> a.ended + Waits(a) <= b.at)
  }

  /** The answer follows from the last attempt. */
  predicate Concludes(a: Attempt, r: Answer) {
    if !a.failed && 200 <= a.status < 300 then r == Accepted
    else if 400 <= a.status < 500 && a.status != 429 then
      r == Rejected(if a.status == 413 then PayloadTooLarge else a.body)
    else r == Retryable
  }

  lemma PoliteSnoc(log: seq<Sent>, s: Sent)
    requires Polite(log) && (log != [] ==> Spaced(log[|log| - 1], s))
    ensures Polite(log + [s])
  {
    var t := log + [s];
    forall i | 0 <= i < |t| - 1 ensures Spaced(t[i], t[i + 1]) {
      if i + 1 < |log| { assert Spaced(log[i], log[i + 1]); }
    }
  }

  // ----- when a retry has to happen -----

  /** The backoff after attempt `i`, before jitter. */
  function Backoff(p: Policy, i: nat): int {
    if i == 0 then p.initial else Grow(p, Backoff(p, i - 1))
  }

  /** It starts at the initial delay, and each time is the last one times the multiplier, less than a
      nanosecond short, but never above the largest delay. */
  lemma BackoffGrows(p: Policy, i: nat)
    requires Valid(p)
    ensures Backoff(p, 0) == p.initial && Backoff(p, i + 1) <= p.maxDelay
    ensures var exact := Times(Backoff(p, i) as real, p.multiplier);
            if exact < (p.maxDelay + 1) as real
            then Backoff(p, i + 1) as real <= exact < (Backoff(p, i + 1) + 1) as real
            else Backoff(p, i + 1) == p.maxDelay
  {
  }

  /** The jitter moves a delay by at most its share of it, and by the drawn part of that share. */
  lemma JitterShare(p: Policy, delay: int, draw: real)
    ensures p.jitter <= 0.0 ==> Jittered(p, delay, draw) == delay
    ensures p.jitter > 0.0 ==>
              var exact := delay as real + Times(Times(delay as real, p.jitter), draw);
              Jittered(p, delay, draw) as real <= exact < (Jittered(p, delay, draw) + 1) as real
  {
  }

  /** The next request goes out after the jittered backoff, or after the wait read from a 429 if that is
      longer. */
  function NextAt(p: Policy, s: Sent, i: nat): int {
    var wait := Jittered(p, Backoff(p, i), s.attempt.draw);
    s.ended + if s.attempt.status == 429 && Waits(s) > wait then Waits(s) else wait
  }

  predicate Paced(p: Policy, log: seq<Sent>, i: nat)
    requires i + 1 < |log|
  {
    log[i + 1].at == NextAt(p, log[i], i)
  }

  ghost predicate AllPaced(p: Policy, log: seq<Sent>) {
    forall i: nat {:trigger Paced(p, log, i)} :: i + 1 < |log| ==> Paced(p, log, i)
  }

  lemma PacedSnoc(p: Policy, log: seq<Sent>, s: Sent)
    requires AllPaced(p, log) && (log != [] ==> s.at == NextAt(p, log[|log| - 1], |log| - 1))
    ensures AllPaced(p, log + [s])
  {
    var t := log + [s];
    forall i: nat | i + 1 < |t| ensures Paced(p, t, i) {
      if i + 1 < |log| { assert Paced(p, log, i); }
    }
  }

  /** The only grounds for giving up on an attempt that is neither a success nor a final rejection: its
      status is not one that is retried, the budget is spent, the wait asked for exceeds what is left of
      it, or the leader is cancelled during the wait. */
  predicate GivesUp(p: Policy, start: int, s: Sent, i: nat, end: int) {
    var a := s.attempt;
    || (!a.failed && a.status != 429 && a.status != 502 && a.status != 503 && a.status != 504)
    || s.ended > start + p.maxElapsed
    || (a.status == 429 && s.ended + Waits(s) > start + p.maxElapsed)
    || (a.cancelled.Some? && end == s.ended + a.cancelled.value < NextAt(p, s, i))
  }

  /** After an attempt that is neither a success nor a final rejection: give up, or wait until `now`. */
  method Pause(p: Policy, start: int, s: Sent, delay: int, ghost i: nat) returns (gaveUp: bool, now: int)
    requires Valid(p) && delay == Backoff(p, i) && 0 <= delay <= Longest(p) && -1.0 <= s.attempt.draw <= 1.0
    ensures gaveUp ==> GivesUp(p, start, s, i, now)
    ensures !gaveUp ==> Transient(s.attempt) && now == NextAt(p, s, i)
    ensures s.ended <= now && (now == s.ended || now <= start + p.maxElapsed + MaxBackoff(p))
    ensures !gaveUp ==>
              now <= start + p.maxElapsed + MaxBackoff(p) && (s.attempt.status == 429 ==> s.ended + Waits(s) <= now)
  {
    var a, deadline := s.attempt, start + p.maxElapsed;
    now := s.ended;
    if !Transient(a) || now > deadline { return true, now; }
    JitteredBounds(p, delay, a.draw);
    var wait := Jittered(p, delay, a.draw);
    var retryAfter := ParseRetryAfter(a.header, now);
    if a.status == 429 && retryAfter > 0 {
      if retryAfter > deadline - now { return true, now; }
      if retryAfter > wait { wait := retryAfter; }
    }
    if a.cancelled.Some? && a.cancelled.value < wait { return true, now + a.cancelled.value; }
    return false, now + wait;
  }

  /** The requests that went out: each as the attempts say, in the budget, in pace, and only after transient
      outcomes. */
  ghost predicate Logged(p: Policy, start: int, attempts: nat -> Attempt, log: seq<Sent>) {
    && InBudget(p, start, log) && AllPaced(p, log) && Polite(log) && (log != [] ==> log[0].at == start)
    && forall i :: 0 <= i < |log| ==> log[i].attempt == attempts(i) && log[i].ended == log[i].at + attempts(i).took
  }

  /** The next request may go out at `now`. */
  ghost predicate Ready(p: Policy, start: int, log: seq<Sent>, now: int, delay: int) {
    && 0 <= delay <= Longest(p) && delay == Backoff(p, |log|) && start <= now <= start + p.maxElapsed + MaxBackoff(p)
    && if log == [] then now == start else Due(log[|log| - 1], now) && now == NextAt(p, log[|log| - 1], |log| - 1)
  }

  lemma LoggedMore(p: Policy, start: int, attempts: nat -> Attempt, log: seq<Sent>, now: int, delay: int)
    requires Logged(p, start, attempts, log) && Ready(p, start, log, now, delay)
    ensures var a := attempts(|log|); Logged(p, start, attempts, log + [Sent(now, now + a.took, a)])
  {
    var s := Sent(now, now + attempts(|log|).took, attempts(|log|));
    PoliteSnoc(log, s);
    PacedSnoc(p, log, s);
  }

  /** What a post comes to: the answer follows from the last request, and giving up has its grounds. */
  ghost predicate Concluded(p: Policy, start: int, timeout: int, attempts: nat -> Attempt, r: Answer, end: int,
                            log: seq<Sent>)
  {
    && start <= end <= start + p.maxElapsed + MaxBackoff(p) + timeout
    && log != [] && Logged(p, start, attempts, log) && Concludes(log[|log| - 1].attempt, r)
    && (r == Retryable ==> GivesUp(p, start, log[|log| - 1], |log| - 1, end))
  }

  lemma ReadyMore(p: Policy, start: int, log: seq<Sent>, now: int, delay: int)
    requires Valid(p) && log != [] && delay == Backoff(p, |log| - 1) && 0 <= delay
    requires start <= log[|log| - 1].ended <= now <= start + p.maxElapsed + MaxBackoff(p)
    requires Due(log[|log| - 1], now) && now == NextAt(p, log[|log| - 1], |log| - 1)
    ensures Ready(p, start, log, now, Grow(p, delay))
  {
    GrowBounds(p, delay);
  }

  /** One request: the last, or followed by a wait. */
  method Round(p: Policy, start: int, ghost timeout: int, attempts: nat -> Attempt, log: seq<Sent>, now: int, delay: int)
    returns (done: bool, r: Answer, until: int, delay': int, log': seq<Sent>)
    requires Valid(p) && Plausible(attempts(|log|), timeout)
    requires Logged(p, start, attempts, log) && Ready(p, start, log, now, delay)
    ensures done ==> Concluded(p, start, timeout, attempts, r, until, log')
    ensures !done ==> Logged(p, start, attempts, log') && Ready(p, start, log', until, delay') && now < until
  {
    var a := attempts(|log|);
    var s := Sent(now, now + a.took, a);
    LoggedMore(p, start, attempts, log, now, delay);
    log', delay', r := log + [s], delay, Retryable;
    if Success(a) { return true, Accepted, s.ended, delay, log'; }
    if Terminal(a) { return true, Classify(a), s.ended, delay, log'; }
    done, until := Pause(p, start, s, delay, |log|);
    if !done {
      ReadyMore(p, start, log', until, delay);
      delay' := Grow(p, delay);
    }
  }

  /** Always returns, no later than the budget plus one maximal backoff plus one request. */
  method Post(p: Policy, start: int, timeout: int, attempts: nat -> Attempt)
    returns (r: Answer, end: int, log: seq<Sent>)
    requires Valid(p) && forall i: nat :: Plausible(attempts(i), timeout)
    ensures Concluded(p, start, timeout, attempts, r, end, log)
  {
    ReadyFirst(p, start);
    var delay, done;
    r, end, delay, log, done := Retryable, start, p.initial, [], false;
    while !done
      invariant if done then Concluded(p, start, timeout, attempts, r, end, log)
                else Logged(p, start, attempts, log) && Ready(p, start, log, end, delay)
      decreases !done, start + p.maxElapsed + MaxBackoff(p) - end
    {
      done, r, end, delay, log := Round(p, start, timeout, attempts, log, end, delay);
    }
  }

  lemma ReadyFirst(p: Policy, start: int)
    requires Valid(p)
    ensures Ready(p, start, [], start, p.initial)
  {
    Product(Longest(p) as real, p.jitter);
  }

  /** No request goes out before the start, or later than one maximal backoff after the budget. */
  ghost predicate InBudget(p: Policy, start: int, log: seq<Sent>) {
    forall i :: 0 <= i < |log| ==> start <= log[i].at <= start + p.maxElapsed + MaxBackoff(p)
  }

  /** Under a policy that gives up within 292 years, a 429 that is retried at all is retried before the wait
      that its header asks for if and only if that wait exceeds the largest duration. */
  lemma RetriedEarlyIff(p: Policy, start: int, log: seq<Sent>, i: nat)
    requires Valid(p) && Polite(log) && InBudget(p, start, log) && i + 1 < |log|
    requires log[i].attempt.status == 429 && log[i].at <= log[i].ended && p.maxElapsed + MaxBackoff(p) <= MAX_INT64
    ensures log[i + 1].at < log[i].ended + Asked(log[i].attempt.header, log[i].ended) <==>
            Asked(log[i].attempt.header, log[i].ended) > MAX_INT64
  {
    HonouredIff(log[i].attempt.header, log[i].ended);
    assert Spaced(log[i], log[i + 1]);
  }

  /** A next request at `now` keeps the distance to `a`. */
  predicate Due(a: Sent, now: int) {
    && Transient(a.attempt) && !Success(a.attempt) && !Terminal(a.attempt) && a.ended <= now
    && (a.attempt.status == 429 ==> a.ended + Waits(a) <= now)
  }
}
