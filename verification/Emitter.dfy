/** Sending a payload (internal/emit/otlp/otlp.go): splitting what is too large. */
module Emitter {
  import opened Answers
  import opened Model

  datatype Payload<T> = Payload(items: seq<T>, answer: Answer)

  const TOO_LARGE := Rejected(PayloadTooLarge)
  const BAD_ENCODING := Rejected(BadEncoding)

  /** The collaborators of the recursion: does a payload encode, does it exceed the byte limit, and what does
      the `i`-th post report. */
  datatype Gateway<!T> = Gateway(encodes: seq<T> -> bool, oversize: seq<T> -> bool, replies: nat -> Answer)

  /** The payloads posted, in order, and what is reported. */
  datatype Sent<T> = Sent(log: seq<Payload<T>>, answer: Answer)

  /** Sending `items` when `n` payloads have been posted before. */
  function Sends<T>(g: Gateway<T>, items: seq<T>, n: nat): Sent<T>
    requires items != []
    decreases |items|, 1
  {
    if !g.encodes(items) then Sent([], BAD_ENCODING)
    else if g.oversize(items) && |items| > 1 then SendsHalves(g, items, n)
    else if g.replies(n) == TOO_LARGE && |items| > 1 then
      var h := SendsHalves(g, items, n + 1);
      Sent([Payload(items, TOO_LARGE)] + h.log, h.answer)
    else Sent([Payload(items, g.replies(n))], g.replies(n))
  }

  function SendsHalves<T>(g: Gateway<T>, items: seq<T>, n: nat): Sent<T>
    requires |items| > 1
    decreases |items|, 0
  {
    var mid := |items| / 2;
    var a := Sends(g, items[..mid], n);
    if !a.answer.Accepted? then a
    else
      var b := Sends(g, items[mid..], n + |a.log|);
      Sent(a.log + b.log, b.answer)
  }

  class Sender<T(!new)> {
    const gateway: Gateway<T>
    var log: seq<Payload<T>>

    constructor (gateway: Gateway<T>)
      ensures this.gateway == gateway && log == []
    {
      this.gateway, log := gateway, [];
    }

    method Halves(items: seq<T>) returns (r: Answer)
      requires |items| > 1
      modifies `log
      ensures var s := SendsHalves(gateway, items, |old(log)|); log == old(log) + s.log && r == s.answer
      decreases |items|, 0
    {
      var mid := |items| / 2;
      r := Emit(items[..mid]);
      if r.Accepted? { r := Emit(items[mid..]); }
    }

    method Emit(items: seq<T>) returns (r: Answer)
      requires items != []
      modifies `log
      ensures var s := Sends(gateway, items, |old(log)|); log == old(log) + s.log && r == s.answer
      decreases |items|, 1
    {
      if !gateway.encodes(items) { return BAD_ENCODING; }
      if gateway.oversize(items) && |items| > 1 {
        r := Halves(items);
        return;
      }
      r := gateway.replies(|log|);
      log := log + [Payload(items, r)];
      if r == TOO_LARGE && |items| > 1 { r := Halves(items); }
    }
  }

  // ----- what was delivered -----

  /** The items of the acknowledged payloads, in the order sent. */
  function Acked<T>(log: seq<Payload<T>>): seq<T> {
    if log == [] then []
    else Acked(log[..|log| - 1]) + if log[|log| - 1].answer.Accepted? then log[|log| - 1].items else []
  }

  /** The payload was not cut in two afterwards. */
  predicate Final<T>(p: Payload<T>) { p.answer != TOO_LARGE || |p.items| <= 1 }

  /** The items of the payloads that were not cut in two. */
  function Tried<T>(log: seq<Payload<T>>): seq<T> {
    if log == [] then []
    else Tried(log[..|log| - 1]) + if Final(log[|log| - 1]) then log[|log| - 1].items else []
  }

  lemma {:induction false} AckedConcat<T>(a: seq<Payload<T>>, b: seq<Payload<T>>)
    ensures Acked(a + b) == Acked(a) + Acked(b)
  {
    if b == [] {
      assert a + b == a;
    } else {
      var n := |b| - 1;
      AckedConcat(a, b[..n]);
      assert (a + b)[..|a + b| - 1] == a + b[..n];
    }
  }

  lemma {:induction false} TriedConcat<T>(a: seq<Payload<T>>, b: seq<Payload<T>>)
    ensures Tried(a + b) == Tried(a) + Tried(b)
  {
    if b == [] {
      assert a + b == a;
    } else {
      var n := |b| - 1;
      TriedConcat(a, b[..n]);
      assert (a + b)[..|a + b| - 1] == a + b[..n];
    }
  }

  /** Every payload but the last was accepted or cut in two. */
  predicate Steady<T>(log: seq<Payload<T>>) {
    forall i :: 0 <= i < |log| - 1 ==> Final(log[i]) ==> log[i].answer.Accepted?
  }

  ghost predicate Payable<T>(g: Gateway<T>, p: Payload<T>) {
    p.items != [] && g.encodes(p.items) && (g.oversize(p.items) ==> |p.items| == 1)
  }

  ghost predicate AllPayable<T>(g: Gateway<T>, n: nat, log: seq<Payload<T>>) {
    forall i :: 0 <= i < |log| ==> Payable(g, log[i]) && log[i].answer == g.replies(n + i)
  }

  /** How the last payload ended it all. */
  predicate Ended<T>(log: seq<Payload<T>>, r: Answer) {
    || (r == BAD_ENCODING && (log != [] ==> !Final(log[|log| - 1]) || log[|log| - 1].answer.Accepted?))
    || (log != [] && log[|log| - 1].answer == r && Final(log[|log| - 1]))
  }

  /** An encoding error that no payload was answered with comes from a part, right after what was tried, that
      does not encode. */
  ghost predicate Grounds<T(!new)>(g: Gateway<T>, items: seq<T>, tried: seq<T>, s: Sent<T>) {
    s.answer == Rejected(BadEncoding) && !(s.log != [] && s.log[|s.log| - 1].answer == Rejected(BadEncoding)) ==>
      exists b: nat {:trigger Unencodable(g, items, |tried|, b)} :: Unencodable(g, items, |tried|, b)
  }

  predicate Unencodable<T>(g: Gateway<T>, items: seq<T>, a: nat, b: nat) {
    a < b <= |items| && !g.encodes(items[a..b])
  }

  lemma PartUnencodable<T>(g: Gateway<T>, items: seq<T>, from: nat, to: nat, a: nat, b: nat)
    requires from <= to <= |items| && Unencodable(g, items[from..to], a, b)
    ensures Unencodable(g, items, from + a, from + b)
  {
    var x, y := items[from..to][a..b], items[from + a..from + b];
    forall k | 0 <= k < |x| ensures x[k] == y[k] { assert x[k] == items[from..to][a + k]; }
    assert x == y;
  }

  /** What was acknowledged and what was tried begin the items; success means all of them. */
  predicate InPrefix<T(==)>(items: seq<T>, s: Sent<T>) {
    Begins(items, Acked(s.log), Tried(s.log), s.answer.Accepted?)
  }

  predicate Begins<T(==)>(items: seq<T>, acked: seq<T>, tried: seq<T>, ok: bool) {
    acked <= tried <= items && (ok ==> acked == items)
  }

  /** The payloads for `items`: at most `2n - 1` of them, in the order of the items. */
  ghost predicate Delivered<T(!new)>(g: Gateway<T>, items: seq<T>, n: nat, s: Sent<T>) {
    && |s.log| <= 2 * |items| - 1 && AllPayable(g, n, s.log) && Steady(s.log) && Ended(s.log, s.answer)
    && Grounds(g, items, Tried(s.log), s)
    && InPrefix(items, s)
  }

  lemma PrefixConcat<T>(a: seq<T>, items: seq<T>, mid: nat)
    requires mid <= |items| && a <= items[mid..]
    ensures items[..mid] + a <= items && (a == items[mid..] ==> items[..mid] + a == items)
  {
    assert items == items[..mid] + items[mid..];
  }

  lemma PayableConcat<T>(g: Gateway<T>, n: nat, a: seq<Payload<T>>, b: seq<Payload<T>>)
    requires AllPayable(g, n, a) && AllPayable(g, n + |a|, b)
    ensures AllPayable(g, n, a + b)
  {
    forall i | 0 <= i < |a + b| ensures Payable(g, (a + b)[i]) && (a + b)[i].answer == g.replies(n + i) {
      if i >= |a| { assert (a + b)[i] == b[i - |a|]; }
    }
  }

  lemma SteadyConcat<T>(a: seq<Payload<T>>, b: seq<Payload<T>>, r: Answer)
    requires Steady(a) && Steady(b) && a != [] && Ended(b, r)
    requires Final(a[|a| - 1]) ==> a[|a| - 1].answer.Accepted?
    ensures Steady(a + b) && Ended(a + b, r)
  {
    var c := a + b;
    forall i | 0 <= i < |c| - 1 && Final(c[i]) ensures c[i].answer.Accepted? {
      if i >= |a| { assert c[i] == b[i - |a|]; }
    }
  }

  lemma HalvesItems<T>(items: seq<T>, mid: nat, a: Sent<T>, b: Sent<T>)
    requires mid <= |items| && a.answer.Accepted? && InPrefix(items[..mid], a) && InPrefix(items[mid..], b)
    ensures InPrefix(items, Sent(a.log + b.log, b.answer))
  {
    AckedConcat(a.log, b.log);
    TriedConcat(a.log, b.log);
    JoinPrefix(items, mid, Acked(a.log), Tried(a.log), Acked(b.log), Tried(b.log), b.answer.Accepted?);
  }

  lemma JoinPrefix<T>(items: seq<T>, mid: nat, acked: seq<T>, tried: seq<T>, acked': seq<T>, tried': seq<T>, ok: bool)
    requires mid <= |items| && Begins(items[..mid], acked, tried, true) && Begins(items[mid..], acked', tried', ok)
    ensures Begins(items, acked + acked', tried + tried', ok)
  {
    assert acked == tried == items[..mid];
    PrefixConcat(tried', items, mid);
    PrefixConcat(acked', items, mid);
  }

  /** Two halves, one after the other. */
  lemma HalvesDelivered<T(!new)>(g: Gateway<T>, items: seq<T>, mid: nat, n: nat, a: Sent<T>, b: Sent<T>)
    requires 0 < mid < |items| && a.answer.Accepted?
    requires Delivered(g, items[..mid], n, a) && Delivered(g, items[mid..], n + |a.log|, b)
    ensures Delivered(g, items, n, Sent(a.log + b.log, b.answer)) && |a.log + b.log| <= 2 * |items| - 2
  {
    HalvesItems(items, mid, a, b);
    PayableConcat(g, n, a.log, b.log);
    SteadyConcat(a.log, b.log, b.answer);
    HalvesGrounds(g, items, mid, a, b);
  }

  lemma HalvesGrounds<T(!new)>(g: Gateway<T>, items: seq<T>, mid: nat, a: Sent<T>, b: Sent<T>)
    requires 0 < mid < |items| && a.answer.Accepted? && InPrefix(items[..mid], a)
    requires Grounds(g, items[mid..], Tried(b.log), b) && Ended(a.log, a.answer)
    ensures Grounds(g, items, Tried(a.log + b.log), Sent(a.log + b.log, b.answer))
  {
    TriedConcat(a.log, b.log);
    assert |Tried(a.log)| == mid;
    if b.answer == BAD_ENCODING && !(b.log != [] && b.log[|b.log| - 1].answer == BAD_ENCODING) {
      var e: nat :| Unencodable(g, items[mid..], |Tried(b.log)|, e);
      assert items[mid..] == items[mid..|items|];
      PartUnencodable(g, items, mid, |items|, |Tried(b.log)|, e);
    }
  }

  lemma FirstHalfOnly<T(!new)>(g: Gateway<T>, items: seq<T>, mid: nat, n: nat, a: Sent<T>)
    requires 0 < mid < |items| && !a.answer.Accepted? && Delivered(g, items[..mid], n, a)
    ensures Delivered(g, items, n, a) && |a.log| <= 2 * |items| - 2
  {
    assert items == items[..mid] + items[mid..];
    FirstGrounds(g, items, mid, Tried(a.log), a);
  }

  lemma FirstGrounds<T(!new)>(g: Gateway<T>, items: seq<T>, mid: nat, tried: seq<T>, a: Sent<T>)
    requires mid <= |items| && Grounds(g, items[..mid], tried, a)
    ensures Grounds(g, items, tried, a)
  {
    if a.answer == BAD_ENCODING && !(a.log != [] && a.log[|a.log| - 1].answer == BAD_ENCODING) {
      var e: nat :| Unencodable(g, items[..mid], |tried|, e);
      assert items[..mid] == items[0..mid];
      PartUnencodable(g, items, 0, mid, |tried|, e);
    }
  }

  /** A refused whole in front of its parts. */
  lemma RefusedFirst<T(!new)>(g: Gateway<T>, items: seq<T>, n: nat, p: Payload<T>, h: Sent<T>)
    requires p.items == items && |items| > 1 && Payable(g, p) && p.answer == TOO_LARGE == g.replies(n)
    requires Delivered(g, items, n + 1, h) && |h.log| <= 2 * |items| - 2
    ensures Delivered(g, items, n, Sent([p] + h.log, h.answer))
  {
    AckedConcat([p], h.log);
    TriedConcat([p], h.log);
    assert [p][..0] == [];
    PayableConcat(g, n, [p], h.log);
    SteadyConcat([p], h.log, h.answer);
    assert Tried([p] + h.log) == Tried(h.log);
  }

  /** For every gateway and every payload: at most `2n - 1` posts; success means that all the items
      were acknowledged, in order; an error leaves a prefix acknowledged and a prefix tried. */
  lemma {:induction false} SendsDelivered<T(!new)>(g: Gateway<T>, items: seq<T>, n: nat)
    requires items != []
    ensures Delivered(g, items, n, Sends(g, items, n))
    decreases |items|, 1
  {
    var p := Payload(items, g.replies(n));
    if !g.encodes(items) {
      assert items[0..|items|] == items;
      assert Unencodable(g, items, 0, |items|);
    } else {
      if g.oversize(items) && |items| > 1 {
        SendsHalvesDelivered(g, items, n);
      } else if g.replies(n) == TOO_LARGE && |items| > 1 {
        SendsHalvesDelivered(g, items, n + 1);
        RefusedFirst(g, items, n, p, SendsHalves(g, items, n + 1));
      } else {
        assert [p][..0] == [];
      }
    }
  }

  lemma {:induction false} SendsHalvesDelivered<T(!new)>(g: Gateway<T>, items: seq<T>, n: nat)
    requires |items| > 1
    ensures Delivered(g, items, n, SendsHalves(g, items, n)) && |SendsHalves(g, items, n).log| <= 2 * |items| - 2
    decreases |items|, 0
  {
    var mid := |items| / 2;
    var a := Sends(g, items[..mid], n);
    SendsDelivered(g, items[..mid], n);
    if a.answer.Accepted? {
      SendsDelivered(g, items[mid..], n + |a.log|);
      HalvesDelivered(g, items, mid, n, a, Sends(g, items[mid..], n + |a.log|));
    } else {
      FirstHalfOnly(g, items, mid, n, a);
    }
  }

  /** Items go out in one payload if and only if they encode, do not exceed the limit or are one, and are not
      then found too large while they could be cut. */
  lemma WholeIff<T(!new)>(g: Gateway<T>, items: seq<T>, n: nat)
    requires items != []
    ensures Sends(g, items, n) == Sent([Payload(items, g.replies(n))], g.replies(n)) <==>
            g.encodes(items) && (|items| == 1 || (!g.oversize(items) && g.replies(n) != Rejected(PayloadTooLarge)))
  {
    var one := Sent([Payload(items, g.replies(n))], g.replies(n));
    if |items| > 1 && g.encodes(items) {
      if g.oversize(items) {
        if SendsHalves(g, items, n) == one { HalvesSmallerAt(g, items, n, 0); }
      } else if g.replies(n) == TOO_LARGE {
        SendsHalvesDelivered(g, items, n + 1);
        assert |Sends(g, items, n).log| == 1 + |SendsHalves(g, items, n + 1).log|;
      }
    }
  }

  lemma {:induction false} Smaller<T(!new)>(g: Gateway<T>, items: seq<T>, n: nat, i: nat)
    requires items != [] && i < |Sends(g, items, n).log|
    ensures |Sends(g, items, n).log[i].items| <= |items|
    decreases |items|, 1
  {
    if g.encodes(items) && |items| > 1 {
      if g.oversize(items) {
        HalvesSmallerAt(g, items, n, i);
      } else if g.replies(n) == TOO_LARGE && i > 0 {
        HalvesSmallerAt(g, items, n + 1, i - 1);
      }
    }
  }

  lemma {:induction false} HalvesSmallerAt<T(!new)>(g: Gateway<T>, items: seq<T>, n: nat, i: nat)
    requires |items| > 1 && i < |SendsHalves(g, items, n).log|
    ensures |SendsHalves(g, items, n).log[i].items| < |items|
    decreases |items|, 0
  {
    var mid := |items| / 2;
    var a := Sends(g, items[..mid], n);
    if i < |a.log| {
      Smaller(g, items[..mid], n, i);
    } else {
      Smaller(g, items[mid..], n + |a.log|, i - |a.log|);
    }
  }

  // ----- an error after a part was delivered -----

  /** The first payload that was not cut in two. */
  function FirstTried<T>(log: seq<Payload<T>>): Option<Payload<T>> {
    if log == [] then None
    else
      var f := FirstTried(log[..|log| - 1]);
      if f.Some? then f else if Final(log[|log| - 1]) then Some(log[|log| - 1]) else None
  }

  predicate FirstAccepted<T>(log: seq<Payload<T>>) {
    FirstTried(log).Some? && FirstTried(log).value.answer.Accepted?
  }

  lemma {:induction false} AllAccepted<T>(log: seq<Payload<T>>)
    requires forall i :: 0 <= i < |log| && Final(log[i]) ==> log[i].answer.Accepted? && log[i].items != []
    ensures Acked(log) == Tried(log) && (Acked(log) != [] <==> FirstTried(log).Some?)
    ensures FirstTried(log).Some? ==> FirstAccepted(log)
  {
    if log != [] { AllAccepted(log[..|log| - 1]); }
  }

  /** The items of the payload that ended it all, unless that was accepted. */
  function Refused<T>(log: seq<Payload<T>>): seq<T> {
    if log != [] && Final(log[|log| - 1]) && !log[|log| - 1].answer.Accepted? then log[|log| - 1].items else []
  }

  /** An emit delivers something if and only if its first payload that was not cut in two is accepted.
      What it tried is what it delivered and then the one payload that was refused; the items after
      those were only ever part of payloads that were too large. */
  lemma PartlyDelivered<T(!new)>(g: Gateway<T>, items: seq<T>, n: nat)
    requires items != []
    ensures var log := Sends(g, items, n).log;
            && (Acked(log) != [] <==> FirstAccepted(log))
            && Tried(log) == Acked(log) + Refused(log) && Tried(log) <= items
  {
    var log := Sends(g, items, n).log;
    SendsDelivered(g, items, n);
    if log != [] {
      var before := log[..|log| - 1];
      AllAccepted(before);
    }
  }

  /** Four items of which the first is delivered, the second refused as a duplicate, and the other two
      never sent on their own. */
  lemma FourItems<T(!new)>(g: Gateway<T>, items: seq<T>)
    requires |items| == 4 && (forall x :: g.encodes(x)) && (forall x :: !g.oversize(x))
    requires g.replies(0) == g.replies(1) == Rejected(PayloadTooLarge) && g.replies(2) == Accepted
    requires g.replies(3) == Rejected(DuplicateTimestamp)
    ensures var s := Sends(g, items, 0);
            && s.answer == Rejected(DuplicateTimestamp) && Judge(s.answer) == Gap
            && Acked(s.log) == items[..1] && Tried(s.log) == items[..2]
            && s.log == [Payload(items, TOO_LARGE), Payload(items[..2], TOO_LARGE), Payload(items[..1], Accepted),
                         Payload(items[1..2], Rejected(DuplicateTimestamp))]
  {
    var two := items[..2];
    assert two[..1] == items[..1] && two[1..] == items[1..2];
    var a, b := Payload(items[..1], Accepted), Payload(items[1..2], Rejected(DuplicateTimestamp));
    assert Sends(g, two[..1], 2) == Sent([a], Accepted) && Sends(g, two[1..], 3) == Sent([b], b.answer);
    assert SendsHalves(g, two, 2) == Sent([a] + [b], b.answer);
    assert Sends(g, two, 1) == Sent([Payload(two, TOO_LARGE)] + ([a] + [b]), b.answer);
    assert SendsHalves(g, items, 1) == Sends(g, two, 1);
    var log := Sends(g, items, 0).log;
    assert log == [Payload(items, TOO_LARGE), Payload(two, TOO_LARGE), a, b];
    PartlyDelivered(g, items, 0);
    FourLog(log, a, b);
  }

  lemma FourLog<T>(log: seq<Payload<T>>, a: Payload<T>, b: Payload<T>)
    requires |log| == 4 && !Final(log[0]) && !Final(log[1]) && log[2] == a && log[3] == b
    requires a.answer.Accepted? && Final(b) && !b.answer.Accepted?
    ensures Acked(log) == a.items && Tried(log) == a.items + b.items
  {
    assert log[..3][..2] == log[..2] && log[..2][..1] == log[..1] && log[..1][..0] == [];
    assert Acked(log[..1][..0]) == [] && Tried(log[..1][..0]) == [];
    assert Acked(log[..1]) == [] && Tried(log[..1]) == [];
    assert Acked(log[..2]) == [] && Tried(log[..2]) == [];
    assert Acked(log[..3]) == a.items && Tried(log[..3]) == a.items;
  }
}
