/** Emitting the buckets of a batch one after the other (the loop of `ProcessBatch` in
    internal/schedule/runner.go). */
module Walk {
  import opened Model
  import opened Selection
  import opened Buckets
  import opened Grouping
  import opened Governance
  import opened Answers
  import opened Emitter

  /** One `Emit` call: its samples, what it reported, and the payloads it posted, the first of them
      after `from` others. */
  datatype Post = Post(samples: seq<Sample>, answer: Answer, from: nat, log: seq<Payload<Sample>>)

  /** The samples of the posts judged `v`. */
  function Judged(posts: seq<Post>, v: Verdict): seq<Sample> {
    if posts == [] then []
    else
      var p := posts[|posts| - 1];
      Judged(posts[..|posts| - 1], v) + if Judge(p.answer) == v then p.samples else []
  }

  function All(posts: seq<Post>): seq<Sample> {
    if posts == [] then [] else All(posts[..|posts| - 1]) + posts[|posts| - 1].samples
  }

  ghost predicate Allowed(guard: Guard, s: seq<Sample>) {
    forall x :: x in s ==> guard.LabelsAllowed(x.labels)
  }

  ghost predicate From(s: seq<Sample>, bucket: seq<Sample>) { forall x :: x in s ==> x in bucket }

  /** Every one of them carries a key that is not allowed, or others have used up its series. */
  ghost predicate AllBarred(guard: Guard, s: seq<Sample>, asks: seq<Ask>) {
    forall x :: x in s ==> guard.SampleBarred(x, asks)
  }

  lemma BarredMore(guard: Guard, s: seq<Sample>, asks: seq<Ask>, more: seq<Ask>)
    requires AllBarred(guard, s, asks) && asks <= more
    ensures AllBarred(guard, s, more)
  {
    forall x | x in s ensures guard.SampleBarred(x, more) {
      assert guard.SampleRuled(x, false, asks);
      guard.SampleRuledMore(x, false, asks, more);
    }
  }

  /** `Sanitize` on one bucket: what is not kept is dropped for a reason, and what is kept may be sent. */
  method Clean(guard: Guard, bucket: seq<Sample>) returns (kept: seq<Sample>, count: nat, ghost dropped: seq<Sample>)
    requires guard.Valid()
    modifies guard
    ensures guard.Valid() && old(guard.asks) <= guard.asks
    ensures multiset(bucket) == multiset(kept) + multiset(dropped) && |dropped| == count
    ensures From(kept, bucket) && Allowed(guard, kept) && AllBarred(guard, dropped, guard.asks)
  {
    ghost var fine;
    kept, count, fine := guard.Sanitize(bucket);
    dropped := Select(bucket, Negate(fine));
    SelectPartition(bucket, fine);
    forall x | x in kept ensures x in bucket && guard.LabelsAllowed(x.labels) {
      var i := SelectMember(bucket, fine, x);
      assert guard.SampleRuled(bucket[i], fine[i], guard.asks);
    }
    forall x | x in dropped ensures guard.SampleBarred(x, guard.asks) {
      var i := SelectMember(bucket, Negate(fine), x);
      assert guard.SampleRuled(bucket[i], fine[i], guard.asks);
    }
  }

  predicate Risen(bs: seq<seq<Sample>>) {
    && (forall i :: 0 <= i < |bs| ==> bs[i] != [])
    && (forall i, x :: 0 <= i < |bs| && x in bs[i] ==> x.timestamp == bs[i][0].timestamp)
    && (forall i, j :: 0 <= i < j < |bs| ==> bs[i][0].timestamp < bs[j][0].timestamp)
  }

  /** The timestamp of the last of the first `n` buckets. */
  function Reached(bs: seq<seq<Sample>>, n: nat): Option<int>
    requires n <= |bs| && forall i :: 0 <= i < |bs| ==> bs[i] != []
  {
    if n == 0 then None else Some(bs[n - 1][0].timestamp)
  }

  ghost predicate Resolved(posts: seq<Post>) { forall i :: 0 <= i < |posts| ==> Resolves(posts[i].answer) }

  /** Nothing is lost: every sample of the first `n` buckets was posted or dropped by the guard. */
  ghost predicate Accounts(bs: seq<seq<Sample>>, n: nat, posts: seq<Post>, dropped: seq<Sample>)
    requires n <= |bs|
  {
    multiset(Flat(bs[..n])) == multiset(All(posts)) + multiset(dropped)
  }

  lemma AccountsStep(bs: seq<seq<Sample>>, n: nat, posts: seq<Post>, dropped: seq<Sample>, p: Post, out: seq<Sample>)
    requires n < |bs| && Accounts(bs, n, posts, dropped)
    requires multiset(bs[n]) == multiset(p.samples) + multiset(out)
    ensures Accounts(bs, n + 1, posts + [p], dropped + out)
    ensures p.samples == [] ==> Accounts(bs, n + 1, posts, dropped + out)
  {
    assert bs[..n + 1] == bs[..n] + [bs[n]];
    FlatSnoc(bs[..n], bs[n]);
    assert (posts + [p])[..|posts|] == posts;
  }

  /** Whatever was posted is not empty and carries only labels that the guard allows. */
  ghost predicate AllClean(guard: Guard, posts: seq<Post>) {
    forall i :: 0 <= i < |posts| ==> posts[i].samples != [] && Allowed(guard, posts[i].samples)
  }

  /** Each post holds one bucket, and the posts follow the order of time. */
  ghost predicate InOrder(posts: seq<Post>) {
    && (forall i :: 0 <= i < |posts| ==> posts[i].samples != [])
    && (forall i, j :: 0 <= i < j < |posts| ==> posts[i].samples[0].timestamp < posts[j].samples[0].timestamp)
    && (forall i, x :: 0 <= i < |posts| && x in posts[i].samples ==> x.timestamp == posts[i].samples[0].timestamp)
  }

  ghost predicate Before(posts: seq<Post>, t: int) {
    forall i, x :: 0 <= i < |posts| && x in posts[i].samples ==> x.timestamp < t
  }

  /** How many payloads were posted by the end of the posts. */
  function Posted(start: nat, posts: seq<Post>): nat {
    if posts == [] then start else posts[|posts| - 1].from + |posts[|posts| - 1].log|
  }

  /** Post `i` is what the sender does with its samples after the payloads before it. */
  ghost predicate WiredAt(g: Gateway<Sample>, start: nat, posts: seq<Post>, i: nat)
    requires i < |posts|
  {
    var p := posts[i];
    p.from == Posted(start, posts[..i]) && p.samples != [] && Sends(g, p.samples, p.from) == Sent(p.log, p.answer)
  }

  ghost predicate Wired(g: Gateway<Sample>, start: nat, posts: seq<Post>) {
    forall i: nat {:trigger WiredAt(g, start, posts, i)} :: i < |posts| ==> WiredAt(g, start, posts, i)
  }

  lemma WiredStep(g: Gateway<Sample>, start: nat, posts: seq<Post>, p: Post)
    requires Wired(g, start, posts) && p.from == Posted(start, posts) && p.samples != []
    requires Sends(g, p.samples, p.from) == Sent(p.log, p.answer)
    ensures Wired(g, start, posts + [p])
  {
    var all := posts + [p];
    forall i: nat | i < |all| ensures WiredAt(g, start, all, i) {
      assert all[..i] == posts[..i];
      if i < |posts| { assert WiredAt(g, start, posts, i); } else { assert posts[..i] == posts; }
    }
  }

  ghost predicate Orderly(bs: seq<seq<Sample>>, n: nat, posts: seq<Post>) {
    InOrder(posts) && (n < |bs| ==> bs[n] != [] && Before(posts, bs[n][0].timestamp))
  }

  lemma OrderStep(bs: seq<seq<Sample>>, n: nat, sent: seq<Post>, posts: seq<Post>)
    requires Risen(bs) && n < |bs| && Orderly(bs, n, sent) && sent <= posts && |posts| <= |sent| + 1
    requires |posts| > |sent| ==> posts[|sent|].samples != [] && From(posts[|sent|].samples, bs[n])
    ensures Orderly(bs, n + 1, posts)
  {
    if |posts| > |sent| {
      forall x | x in posts[|sent|].samples ensures x.timestamp == bs[n][0].timestamp { assert x in bs[n]; }
      forall i | 0 <= i < |sent| ensures posts[i] == sent[i] && sent[i].samples[0].timestamp < bs[n][0].timestamp {
        assert sent[i].samples[0] in sent[i].samples;
      }
      assert posts[|sent|].samples[0] in posts[|sent|].samples;
    }
  }

  /** The first `n` buckets are resolved: posted and settled for good, or dropped by the guard. */
  ghost predicate Through(guard: Guard, bs: seq<seq<Sample>>, n: nat, posts: seq<Post>, dropped: seq<Sample>) {
    n <= |bs| && Resolved(posts) && AllClean(guard, posts) && Accounts(bs, n, posts, dropped)
  }

  /** The last post, from bucket `n`, is neither accepted nor known to be rejected for good. */
  ghost predicate Stuck(guard: Guard, bs: seq<seq<Sample>>, n: nat, posts: seq<Post>, dropped: seq<Sample>) {
    && n < |bs| && posts != [] && AllClean(guard, posts) && Accounts(bs, n + 1, posts, dropped)
    && Resolved(posts[..|posts| - 1]) && !Resolves(posts[|posts| - 1].answer)
    && From(posts[|posts| - 1].samples, bs[n])
  }

  lemma SnocKept(guard: Guard, sent: seq<Post>, p: Post)
    requires AllClean(guard, sent) && p.samples != [] && Allowed(guard, p.samples)
    ensures AllClean(guard, sent + [p])
  {
  }

  lemma Settle(guard: Guard, bs: seq<seq<Sample>>, n: nat, sent: seq<Post>, lost: seq<Sample>, p: Post,
               out: seq<Sample>)
    requires n < |bs| && Through(guard, bs, n, sent, lost) && multiset(bs[n]) == multiset(p.samples) + multiset(out)
    requires From(p.samples, bs[n]) && Allowed(guard, p.samples) && p.samples != []
    ensures if Resolves(p.answer) then Through(guard, bs, n + 1, sent + [p], lost + out)
            else Stuck(guard, bs, n, sent + [p], lost + out)
  {
    SnocKept(guard, sent, p);
    AccountsStep(bs, n, sent, lost, p, out);
    assert (sent + [p])[..|sent + [p]| - 1] == sent;
  }

  /** Sends what is left of a bucket. */
  method SendBucket(sender: Sender<Sample>, sub: seq<Sample>, ghost start: nat, sent: seq<Post>) returns (p: Post)
    requires sub != [] && Wired(sender.gateway, start, sent) && Posted(start, sent) == |sender.log|
    modifies sender
    ensures p.samples == sub && Wired(sender.gateway, start, sent + [p])
    ensures Posted(start, sent + [p]) == |sender.log|
  {
    var from := |sender.log|;
    var answer := sender.Emit(sub);
    p := Post(sub, answer, from, sender.log[from..]);
    WiredStep(sender.gateway, start, sent, p);
  }

  /** The samples dropped so far, all of them barred by now. */
  ghost predicate Lost(guard: Guard, dropped: seq<Sample>, count: nat, asks: seq<Ask>) {
    |dropped| == count && AllBarred(guard, dropped, asks)
  }

  /** The state of the walk after `n` buckets. */
  ghost predicate Walking(guard: Guard, g: Gateway<Sample>, bs: seq<seq<Sample>>, n: nat, start: nat, posts: seq<Post>,
                          count: nat, dropped: seq<Sample>, asks: seq<Ask>, posted: nat)
  {
    && Through(guard, bs, n, posts, dropped) && Orderly(bs, n, posts) && Lost(guard, dropped, count, asks)
    && Wired(g, start, posts) && Posted(start, posts) == posted
  }

  method EmitBucket(guard: Guard, sender: Sender<Sample>, ghost bs: seq<seq<Sample>>, ghost n: nat,
                    bucket: seq<Sample>, ghost start: nat, sent: seq<Post>, count: nat, ghost lost: seq<Sample>)
    returns (posts: seq<Post>, count': nat, stop: bool, ghost dropped: seq<Sample>)
    requires guard.Valid() && n < |bs| && bucket == bs[n] && Risen(bs)
    requires Walking(guard, sender.gateway, bs, n, start, sent, count, lost, guard.asks, |sender.log|)
    modifies guard, sender
    ensures guard.Valid() && old(guard.asks) <= guard.asks
    ensures !stop ==> Walking(guard, sender.gateway, bs, n + 1, start, posts, count', dropped, guard.asks, |sender.log|)
    ensures stop ==> Stuck(guard, bs, n, posts, dropped) && InOrder(posts) && Lost(guard, dropped, count', guard.asks)
                     && Wired(sender.gateway, start, posts) && Posted(start, posts) == |sender.log|
  {
    var sub, k, out := Clean(guard, bucket);
    BarredMore(guard, lost, old(guard.asks), guard.asks);
    dropped, count' := lost + out, count + k;
    if sub == [] {
      posts, stop := sent, false;
      AccountsStep(bs, n, sent, lost, Post([], Accepted, 0, []), out);
    } else {
      var p := SendBucket(sender, sub, start, sent);
      posts, stop := sent + [p], !Resolves(p.answer);
      Settle(guard, bs, n, sent, lost, p, out);
    }
    OrderStep(bs, n, sent, posts);
  }

  /** Walks the buckets in order until one gets stuck; `n` were resolved, and `frontier` is the
      timestamp of the last of them. */
  method EmitBuckets(guard: Guard, sender: Sender<Sample>, bs: seq<seq<Sample>>)
    returns (posts: seq<Post>, count: nat, n: nat, frontier: Option<int>, ghost dropped: seq<Sample>)
    requires guard.Valid() && Risen(bs)
    modifies guard, sender
    ensures guard.Valid() && old(guard.asks) <= guard.asks && Lost(guard, dropped, count, guard.asks)
    ensures n <= |bs| && frontier == Reached(bs, n)
    ensures if n == |bs| then Through(guard, bs, n, posts, dropped) else Stuck(guard, bs, n, posts, dropped)
    ensures InOrder(posts)
    ensures Wired(sender.gateway, |old(sender.log)|, posts) && Posted(|old(sender.log)|, posts) == |sender.log|
  {
    posts, count, n, frontier, dropped := [], 0, 0, None, [];
    ghost var start := |sender.log|;
    while n < |bs|
      invariant n <= |bs| && guard.Valid() && frontier == Reached(bs, n) && old(guard.asks) <= guard.asks
      invariant Walking(guard, sender.gateway, bs, n, start, posts, count, dropped, guard.asks, |sender.log|)
    {
      var stop;
      posts, count, stop, dropped := EmitBucket(guard, sender, bs, n, bs[n], start, posts, count, dropped);
      if stop { return; }
      frontier := Some(bs[n][0].timestamp);
      n := n + 1;
    }
  }

  // ----- skipped buckets of which a part was delivered -----

  /** The samples that reached the gateway in the posts judged `v`. */
  function Arrived(posts: seq<Post>, v: Verdict): seq<Sample> {
    if posts == [] then []
    else
      var p := posts[|posts| - 1];
      Arrived(posts[..|posts| - 1], v) + if Judge(p.answer) == v then Acked(p.log) else []
  }

  /** Those that did not. */
  function Missing(posts: seq<Post>, v: Verdict): seq<Sample> {
    if posts == [] then []
    else
      var p := posts[|posts| - 1];
      Missing(posts[..|posts| - 1], v) +
      if Judge(p.answer) == v && |Acked(p.log)| <= |p.samples| then p.samples[|Acked(p.log)|..] else []
  }

  ghost predicate SkipsWhole(posts: seq<Post>) {
    forall i :: 0 <= i < |posts| ==> Judge(posts[i].answer) == Gap ==> !FirstAccepted(posts[i].log)
  }

  lemma WiredPrefix(g: Gateway<Sample>, start: nat, posts: seq<Post>, n: nat)
    requires Wired(g, start, posts) && n <= |posts|
    ensures Wired(g, start, posts[..n])
  {
    forall i: nat | i < n ensures WiredAt(g, start, posts[..n], i) {
      assert WiredAt(g, start, posts, i) && posts[..n][..i] == posts[..i];
    }
  }

  /** What a post reports of its samples. */
  ghost predicate PartOk(p: Post) {
    && Acked(p.log) <= p.samples && (p.answer.Accepted? ==> Acked(p.log) == p.samples)
    && (Acked(p.log) != [] <==> FirstAccepted(p.log))
  }

  lemma PostParts(g: Gateway<Sample>, start: nat, posts: seq<Post>)
    requires Wired(g, start, posts)
    ensures forall i :: 0 <= i < |posts| ==> PartOk(posts[i])
  {
    forall i: nat | i < |posts| ensures PartOk(posts[i]) {
      assert WiredAt(g, start, posts, i);
      SendsDelivered(g, posts[i].samples, posts[i].from);
      PartlyDelivered(g, posts[i].samples, posts[i].from);
    }
  }

  lemma {:induction false} DoneArrives(posts: seq<Post>)
    requires forall i :: 0 <= i < |posts| ==> PartOk(posts[i])
    ensures Arrived(posts, Done) == Judged(posts, Done)
  {
    if posts != [] {
      DoneArrives(posts[..|posts| - 1]);
      assert PartOk(posts[|posts| - 1]);
    }
  }

  lemma {:induction false} GapsDivide(posts: seq<Post>)
    requires forall i :: 0 <= i < |posts| ==> PartOk(posts[i])
    ensures multiset(Judged(posts, Gap)) == multiset(Arrived(posts, Gap)) + multiset(Missing(posts, Gap))
  {
    if posts != [] {
      var p := posts[|posts| - 1];
      GapsDivide(posts[..|posts| - 1]);
      assert PartOk(p);
      PartsOf(p.samples, Acked(p.log));
    }
  }

  lemma {:induction false} GapsWhole(posts: seq<Post>)
    requires forall i :: 0 <= i < |posts| ==> PartOk(posts[i])
    ensures Arrived(posts, Gap) == [] <==> SkipsWhole(posts)
  {
    if posts != [] {
      var n := |posts| - 1;
      GapsWhole(posts[..n]);
      assert PartOk(posts[n]);
      assert forall i :: 0 <= i < n ==> posts[..n][i] == posts[i];
      assert SkipsWhole(posts) <==>
             SkipsWhole(posts[..n]) && (Judge(posts[n].answer) == Gap ==> !FirstAccepted(posts[n].log));
    }
  }

  /** Everything in an accepted bucket arrived.  A skipped bucket is delivered in part exactly when the
      first payload of it that was not cut in two is accepted, so the samples counted as skipped are
      the samples that did not arrive if and only if there is no such bucket. */
  lemma SkippedArrivals(g: Gateway<Sample>, start: nat, posts: seq<Post>)
    requires Wired(g, start, posts)
    ensures Arrived(posts, Done) == Judged(posts, Done)
    ensures multiset(Judged(posts, Gap)) == multiset(Arrived(posts, Gap)) + multiset(Missing(posts, Gap))
    ensures multiset(Judged(posts, Gap)) == multiset(Missing(posts, Gap)) <==> SkipsWhole(posts)
  {
    PostParts(g, start, posts);
    DoneArrives(posts);
    GapsDivide(posts);
    GapsWhole(posts);
    NoneLeft(Judged(posts, Gap), Arrived(posts, Gap), Missing(posts, Gap));
  }

  lemma NoneLeft(all: seq<Sample>, a: seq<Sample>, b: seq<Sample>)
    requires multiset(all) == multiset(a) + multiset(b)
    ensures multiset(all) == multiset(b) <==> a == []
  {
    assert |multiset(all)| == |multiset(a)| + |multiset(b)|;
  }

  lemma PartsOf(all: seq<Sample>, part: seq<Sample>)
    requires part <= all
    ensures multiset(all) == multiset(part) + multiset(all[|part|..])
  {
    assert all == part + all[|part|..];
  }
}
