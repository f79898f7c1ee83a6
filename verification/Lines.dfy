/** Newline-delimited text: the one full read that chunked downloads are measured against. */
module Lines {

  /** The end of the line that position `i` is in, delimiter included. */
  function LineEnd(d: string, i: nat): (n: nat)
    requires i <= |d|
    ensures i <= n <= |d| && (i < |d| ==> i < n)
    decreases |d| - i
  {
    if i == |d| then i else if d[i] == '\n' then i + 1 else LineEnd(d, i + 1)
  }

  /** Length of the first line of `d`, delimiter included. */
  function FirstLen(d: string): (n: nat)
    ensures n <= |d| && (d != [] ==> n > 0)
  {
    LineEnd(d, 0)
  }

  /** The lines of `d` with their delimiters; a final unterminated line counts. */
  function Split(d: string): seq<string> {
    if d == [] then [] else [d[..FirstLen(d)]] + Split(d[FirstLen(d)..])
  }

  function Content(raw: string): string {
    if raw != [] && raw[|raw| - 1] == '\n' then raw[..|raw| - 1] else raw
  }

  /** The text after the first `k` lines. */
  function Tail(d: string, k: nat): (t: string)
    ensures |t| <= |d|
  {
    if k == 0 then d else Tail(d[FirstLen(d)..], k - 1)
  }

  /** Byte offset at which line `k` starts; the end of the text for `k == |Split(d)|`. */
  function Start(d: string, k: nat): (n: nat)
    requires k <= |Split(d)|
    ensures n <= |d|
  {
    |d| - |Tail(d, k)|
  }

  lemma {:induction false} LineEndIs(d: string, i: nat, n: nat)
    requires i < n <= |d|
    requires forall j :: i <= j < n - 1 ==> d[j] != '\n'
    requires d[n - 1] == '\n' || n == |d|
    ensures LineEnd(d, i) == n
    decreases n - i
  {
    if i + 1 < n { LineEndIs(d, i + 1, n); }
  }

  lemma FirstLenIs(d: string, n: nat)
    requires 0 < n <= |d|
    requires forall i :: 0 <= i < n - 1 ==> d[i] != '\n'
    requires d[n - 1] == '\n' || n == |d|
    ensures FirstLen(d) == n
  {
    LineEndIs(d, 0, n);
  }

  lemma {:induction false} LineEndShape(d: string, i: nat)
    requires i < |d|
    ensures var n := LineEnd(d, i);
            && (forall j :: i <= j < n - 1 ==> d[j] != '\n')
            && (d[n - 1] == '\n' || n == |d|)
    decreases |d| - i
  {
    if d[i] != '\n' && i + 1 < |d| { LineEndShape(d, i + 1); }
  }

  lemma FirstLenShape(d: string)
    requires d != []
    ensures var n := FirstLen(d);
            && (forall i :: 0 <= i < n - 1 ==> d[i] != '\n')
            && (d[n - 1] == '\n' || n == |d|)
  {
    LineEndShape(d, 0);
  }

  predicate Suffix(t: string, d: string) { |t| <= |d| && t == d[|d| - |t|..] }

  lemma SuffixTrans(a: string, b: string, c: string)
    requires Suffix(a, b) && Suffix(b, c)
    ensures Suffix(a, c)
  {
  }

  lemma {:induction false} TailIs(d: string, k: nat)
    ensures Suffix(Tail(d, k), d)
  {
    if k > 0 {
      TailIs(d[FirstLen(d)..], k - 1);
      SuffixTrans(Tail(d, k), d[FirstLen(d)..], d);
    }
  }

  lemma {:induction false} TailAdd(d: string, k: nat, j: nat)
    ensures Tail(Tail(d, k), j) == Tail(d, k + j)
  {
    if k > 0 { TailAdd(d[FirstLen(d)..], k - 1, j); }
  }

  lemma DropCons(h: string, s: seq<string>, k: nat)
    requires 0 < k <= |s| + 1
    ensures ([h] + s)[k..] == s[k - 1..]
  {
  }

  /** Reading on from a line start gives the remaining lines. */
  lemma {:induction false} SplitTail(d: string, k: nat)
    requires k <= |Split(d)|
    ensures Split(Tail(d, k)) == Split(d)[k..]
  {
    if k > 0 {
      var n := FirstLen(d);
      SplitTail(d[n..], k - 1);
      DropCons(d[..n], Split(d[n..]), k);
    }
  }

  lemma SplitFrom(d: string, k: nat)
    requires k <= |Split(d)|
    ensures Split(d[Start(d, k)..]) == Split(d)[k..]
  {
    TailIs(d, k);
    SplitTail(d, k);
  }

  lemma StartStep(d: string, k: nat)
    requires k < |Split(d)|
    ensures Start(d, k + 1) == Start(d, k) + FirstLen(d[Start(d, k)..])
  {
    TailIs(d, k);
    TailAdd(d, k, 1);
    var t := Tail(d, k);
    assert Tail(t, 1) == Tail(t[FirstLen(t)..], 0);
  }

  /** The next line after line start `k`. */
  lemma NextLine(d: string, k: nat)
    requires k <= |Split(d)|
    ensures Start(d, k) < |d| <==> k < |Split(d)|
    ensures k < |Split(d)| ==>
              var s := Start(d, k);
              && Split(d)[k] == d[s..s + FirstLen(d[s..])]
              && Start(d, k + 1) == s + FirstLen(d[s..])
  {
    SplitFrom(d, k);
    var s := Start(d, k);
    assert Split(d[s..]) == [] <==> d[s..] == [];
    if k < |Split(d)| {
      assert Split(d)[k] == Split(d[s..])[0];
      assert d[s..][..FirstLen(d[s..])] == d[s..s + FirstLen(d[s..])];
      StartStep(d, k);
    }
  }

  /** Line starts of a suffix are line starts of the whole. */
  lemma StartAdd(d: string, k: nat, j: nat)
    requires k + j <= |Split(d)|
    ensures j <= |Split(d[Start(d, k)..])|
    ensures Start(d, k + j) == Start(d, k) + Start(d[Start(d, k)..], j)
  {
    SplitFrom(d, k);
    TailIs(d, k);
    TailAdd(d, k, j);
  }

  /** Line `k` starts right after a delimiter (or at the beginning). */
  predicate Terminated(d: string, k: nat)
    requires k <= |Split(d)|
  {
    k > 0 ==> Start(d, k) > 0 && d[Start(d, k) - 1] == '\n'
  }

  lemma TerminatedTail(d: string, k: nat)
    requires 0 < k <= |Split(d)| && Terminated(d, k)
    ensures d[FirstLen(d) - 1] == '\n' && Terminated(d[FirstLen(d)..], k - 1)
  {
    var n := FirstLen(d);
    FirstLenShape(d);
    if k > 1 {
      StartPositive(d[n..], k - 1);
      assert d[n..][Start(d[n..], k - 1) - 1] == d[Start(d, k) - 1];
    }
  }

  lemma FirstLenAppend(d: string, rest: string)
    requires d != [] && d[FirstLen(d) - 1] == '\n'
    ensures FirstLen(d + rest) == FirstLen(d)
    ensures (d + rest)[FirstLen(d)..] == d[FirstLen(d)..] + rest
    ensures (d + rest)[..FirstLen(d)] == d[..FirstLen(d)]
  {
    FirstLenShape(d);
    assert forall i :: 0 <= i < FirstLen(d) ==> (d + rest)[i] == d[i];
    FirstLenIs(d + rest, FirstLen(d));
  }

  /** Lines that end in a delimiter do not depend on what follows them. */
  lemma {:induction false} SplitPrefix(d: string, rest: string, k: nat)
    requires k <= |Split(d)| && Terminated(d, k)
    ensures k <= |Split(d + rest)| && Start(d + rest, k) == Start(d, k)
    ensures Split(d + rest)[..k] == Split(d)[..k]
  {
    TailPrefix(d, rest, k);
  }

  lemma {:induction false} TailPrefix(d: string, rest: string, k: nat)
    requires k <= |Split(d)| && Terminated(d, k)
    ensures k <= |Split(d + rest)| && Tail(d + rest, k) == Tail(d, k) + rest
    ensures Split(d + rest)[..k] == Split(d)[..k]
  {
    if k > 0 {
      var n := FirstLen(d);
      var t := d[n..];
      TerminatedTail(d, k);
      FirstLenAppend(d, rest);
      TailPrefix(t, rest, k - 1);
      TakeCons(d[..n], Split(t), Split(t + rest), k);
    }
  }

  lemma TakeCons(h: string, a: seq<string>, b: seq<string>, k: nat)
    requires 0 < k <= |a| + 1 && k <= |b| + 1 && a[..k - 1] == b[..k - 1]
    ensures ([h] + b)[..k] == ([h] + a)[..k]
  {
    assert ([h] + a)[..k] == [h] + a[..k - 1];
    assert ([h] + b)[..k] == [h] + b[..k - 1];
  }

  lemma StartPositive(d: string, k: nat)
    requires 0 < k <= |Split(d)|
    ensures Start(d, k) > 0
  {
    assert |Tail(d, k)| <= |d[FirstLen(d)..]|;
  }

  lemma {:induction false} StartMono(d: string, j: nat, k: nat)
    requires j < k <= |Split(d)|
    ensures Start(d, j) < Start(d, k)
  {
    NextLine(d, k - 1);
    if j < k - 1 { StartMono(d, j, k - 1); }
  }

  lemma CutAfter(d: string, m: nat)
    requires d != [] && FirstLen(d) <= m <= |d|
    ensures FirstLen(d[..m]) == FirstLen(d) && d[..m][FirstLen(d)..] == d[FirstLen(d)..][..m - FirstLen(d)]
  {
    FirstLenShape(d);
    FirstLenIs(d[..m], FirstLen(d));
  }

  lemma CutInside(d: string, m: nat)
    requires 0 < m < FirstLen(d)
    ensures FirstLen(d[..m]) == m && |Split(d[..m])| == 1
  {
    FirstLenShape(d);
    FirstLenIs(d[..m], m);
    assert d[..m][m..] == [];
  }

  /** A truncated text has exactly the lines that start before the cut. */
  lemma {:induction false} SplitTruncated(d: string, m: nat, k: nat)
    requires m <= |d| && k < |Split(d)|
    ensures k < |Split(d[..m])| <==> Start(d, k) < m
  {
    if m > 0 && k > 0 {
      var n := FirstLen(d);
      if n <= m {
        CutAfter(d, m);
        SplitTruncated(d[n..], m - n, k - 1);
      } else {
        CutInside(d, m);
      }
    }
  }

  /** A cut at or after the start of line `k` keeps the lines before it as they are. */
  lemma {:induction false} SplitKeeps(d: string, m: nat, k: nat)
    requires k <= |Split(d)| && Start(d, k) <= m <= |d|
    ensures k <= |Split(d[..m])| && Split(d[..m])[..k] == Split(d)[..k] && Start(d[..m], k) == Start(d, k)
  {
    if k > 0 {
      var n := FirstLen(d);
      CutAfter(d, m);
      SplitKeeps(d[n..], m - n, k - 1);
      assert d[..m][..n] == d[..n];
      TakeCons(d[..n], Split(d[n..]), Split(d[n..][..m - n]), k);
    }
  }

  /** A cut never adds lines. */
  lemma {:induction false} FewerLines(d: string, m: nat)
    requires m <= |d|
    ensures |Split(d[..m])| <= |Split(d)|
  {
    if 0 < m < FirstLen(d) {
      CutInside(d, m);
    } else if 0 < m {
      CutAfter(d, m);
      FewerLines(d[FirstLen(d)..], m - FirstLen(d));
    }
  }

  /** Every line has at least one byte. */
  lemma {:induction false} StartAtLeast(d: string, k: nat)
    requires k <= |Split(d)|
    ensures k <= Start(d, k)
  {
    if k > 0 { StartAtLeast(d[FirstLen(d)..], k - 1); }
  }

  function Bytes(ls: seq<string>): nat {
    if ls == [] then 0 else |ls[0]| + Bytes(ls[1..])
  }

  /** The lines before line `k` are the bytes before its start. */
  lemma {:induction false} BytesBefore(d: string, k: nat)
    requires k <= |Split(d)|
    ensures Bytes(Split(d)[..k]) == Start(d, k)
  {
    if k > 0 {
      var n := FirstLen(d);
      BytesBefore(d[n..], k - 1);
      assert Split(d)[..k] == [d[..n]] + Split(d[n..])[..k - 1];
    }
  }
}
