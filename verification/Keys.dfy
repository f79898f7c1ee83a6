/** The collision-safe identities of series and label sets: `labelKey`
    (internal/emit/otlp/encode.go), `seriesKey` (internal/emit/coalesce.go), `revisionKey`
    (internal/source/portkey/revision.go) and `labelSig` (internal/source/guard.go).  Each is proved
    injective. */
module Keys {
  import opened Model
  import opened Sorting
  import opened Grouping

  type Pairs = seq<(string, string)>

  const UNIX_EPOCH := 62_135_596_800 * SECOND

  // ----- sorted view of a label set -----

  lemma {:induction false} LeastExists(ks: set<string>) returns (m: string)
    requires ks != {}
    ensures m in ks && forall k :: k in ks ==> !StrLess(k, m)
  {
    StrOrder();
    var x :| x in ks;
    if ks == {x} {
      m := x;
    } else {
      var y := LeastExists(ks - {x});
      m := if StrLess(x, y) then x else y;
      forall k | k in ks ensures !StrLess(k, m) {
        assert k == x || k in ks - {x};
      }
    }
  }

  function Least(ks: set<string>): (m: string)
    requires ks != {}
    ensures m in ks && forall k :: k in ks ==> !StrLess(k, m)
  {
    assert exists m :: m in ks && forall k :: k in ks ==> !StrLess(k, m) by {
      var m := LeastExists(ks);
    }
    StrOrder();
    var m :| m in ks && forall k :: k in ks ==> !StrLess(k, m);
    m
  }

  predicate Ascending(s: seq<string>) {
    forall i, j :: 0 <= i < j < |s| ==> StrLess(s[i], s[j])
  }

  function SortedKeys(ks: set<string>): (r: seq<string>)
    ensures forall k :: k in r <==> k in ks
    ensures Ascending(r)
    ensures multiset(r) == multiset(ks)
  {
    if ks == {} then []
    else
      var m := Least(ks);
      var rest := SortedKeys(ks - {m});
      LeastFirst(m, rest, ks);
      [m] + rest
  }

  lemma LeastFirst(m: string, rest: seq<string>, ks: set<string>)
    requires m in ks && (forall k :: k in ks ==> !StrLess(k, m)) && Ascending(rest)
    requires (forall k :: k in rest <==> k in ks - {m}) && multiset(rest) == multiset(ks - {m})
    ensures Ascending([m] + rest) && multiset([m] + rest) == multiset(ks) && forall k :: k in [m] + rest <==> k in ks
  {
    assert ks == {m} + (ks - {m});
    forall i | 0 <= i < |rest| ensures StrLess(m, rest[i]) {
      assert rest[i] in rest;
      StrTotal(m, rest[i]);
    }
  }

  /** Collecting the keys of a map in any order and sorting them gives `SortedKeys`. */
  lemma SortedAnyOrder(keys: seq<string>, ks: set<string>)
    requires multiset(keys) == multiset(ks)
    ensures Sort(keys, StrLess) == SortedKeys(ks)
  {
    StrOrder();
    SortSorted(keys, StrLess);
    var a, b := Sort(keys, StrLess), SortedKeys(ks);
    forall i, j | 0 <= i < j < |b| ensures !StrLess(b[j], b[i]) {
      if StrLess(b[j], b[i]) { StrTrans(b[i], b[j], b[i]); }
    }
    SortedUnique(a, b, StrLess);
  }

  function PairsFor(keys: seq<string>, m: Labels): (r: Pairs)
    requires forall k :: k in keys ==> k in m
    ensures |r| == |keys|
    ensures forall i :: 0 <= i < |r| ==> r[i] == (keys[i], m[keys[i]])
  {
    if keys == [] then [] else [(keys[0], m[keys[0]])] + PairsFor(keys[1..], m)
  }

  /** `sortedKVs`. */
  function SortedPairs(m: Labels): Pairs { PairsFor(SortedKeys(m.Keys), m) }

  lemma PairsDetermine(a: seq<string>, m: Labels, b: seq<string>, n: Labels)
    requires forall k :: k in a <==> k in m
    requires forall k :: k in b <==> k in n
    requires PairsFor(a, m) == PairsFor(b, n)
    ensures m == n
  {
    var p := PairsFor(a, m);
    assert forall i :: 0 <= i < |p| ==> p[i] == (a[i], m[a[i]]);
    assert forall i :: 0 <= i < |p| ==> p[i] == (b[i], n[b[i]]);
    assert a == b;
    forall k | k in m ensures m[k] == n[k] {
      assert k in a;
      var i :| 0 <= i < |a| && a[i] == k;
      assert p[i] == (b[i], n[b[i]]);
    }
    assert m.Keys == n.Keys;
  }

  /** A label set is recovered from its sorted pairs. */
  lemma SortedPairsInjective(m: Labels, n: Labels)
    requires SortedPairs(m) == SortedPairs(n)
    ensures m == n
  {
    PairsDetermine(SortedKeys(m.Keys), m, SortedKeys(n.Keys), n);
  }

  // ----- length-prefixed components: fmt "%d:%s" -----

  function Digit(d: nat): char
    requires d < 10
  {
    ('0' as int + d) as char
  }

  predicate IsDigit(c: char) { '0' <= c <= '9' }

  function Decimal(n: nat): (r: string)
    ensures r != [] && forall i :: 0 <= i < |r| ==> IsDigit(r[i])
  {
    if n < 10 then [Digit(n)] else Decimal(n / 10) + [Digit(n % 10)]
  }

  lemma {:induction false} DecimalInjective(m: nat, n: nat)
    requires Decimal(m) == Decimal(n)
    ensures m == n
  {
    var a, b := Decimal(m), Decimal(n);
    assert a[|a| - 1] == Digit(m % 10) && b[|b| - 1] == Digit(n % 10);
    if m >= 10 || n >= 10 {
      assert m >= 10 ==> a[..|a| - 1] == Decimal(m / 10);
      assert n >= 10 ==> b[..|b| - 1] == Decimal(n / 10);
      DecimalInjective(m / 10, n / 10);
    }
  }

  function Component(s: string): string { Decimal(|s|) + ":" + s }

  /** A component can be split off the front of a text in only one way. */
  lemma ComponentCancel(a: string, x: string, b: string, y: string)
    requires Component(a) + x == Component(b) + y
    ensures a == b && x == y
  {
    var p := Component(a) + x;
    var m, n := Decimal(|a|), Decimal(|b|);
    assert p[|m|] == ':' && p[|n|] == ':';
    assert forall i :: 0 <= i < |m| ==> p[i] == m[i];
    assert forall i :: 0 <= i < |n| ==> p[i] == n[i];
    assert |m| == |n|;
    assert m == p[..|m|] == n;
    DecimalInjective(|a|, |b|);
    assert a == p[|m| + 1..|m| + 1 + |a|];
    assert b == p[|m| + 1..|m| + 1 + |a|];
    assert x == p[|m| + 1 + |a|..];
    assert y == p[|m| + 1 + |a|..];
  }

  lemma Assoc(a: string, b: string, c: string)
    ensures (a + b) + c == a + (b + c)
  {}

  function EncodePair(kv: (string, string)): string { Component(kv.0) + Component(kv.1) }

  function EncodePairs(kvs: Pairs): string {
    if kvs == [] then "" else EncodePair(kvs[0]) + EncodePairs(kvs[1..])
  }

  /** A text that cannot continue a list of components. */
  predicate Terminator(s: string) { s == [] || !IsDigit(s[0]) }

  lemma PairsStart(kvs: Pairs, s: string)
    requires kvs != []
    ensures EncodePairs(kvs) + s != [] && IsDigit((EncodePairs(kvs) + s)[0])
  {}

  lemma TwoComponentsCancel(k: string, v: string, x: string, k': string, v': string, y: string)
    requires Component(k) + Component(v) + x == Component(k') + Component(v') + y
    ensures k == k' && v == v' && x == y
  {
    Assoc(Component(k), Component(v), x);
    Assoc(Component(k'), Component(v'), y);
    ComponentCancel(k, Component(v) + x, k', Component(v') + y);
    ComponentCancel(v, x, v', y);
  }

  lemma {:induction false} PairsCancel(a: Pairs, s: string, b: Pairs, t: string)
    requires EncodePairs(a) + s == EncodePairs(b) + t && Terminator(s) && Terminator(t)
    ensures a == b && s == t
  {
    if a == [] || b == [] {
      PairsCancelEmpty(a, s, b, t);
    } else {
      var x, y := EncodePairs(a[1..]), EncodePairs(b[1..]);
      Assoc(EncodePair(a[0]), x, s);
      Assoc(EncodePair(b[0]), y, t);
      TwoComponentsCancel(a[0].0, a[0].1, x + s, b[0].0, b[0].1, y + t);
      PairsCancel(a[1..], s, b[1..], t);
      assert a == [a[0]] + a[1..] && b == [b[0]] + b[1..];
    }
  }

  lemma PairsCancelEmpty(a: Pairs, s: string, b: Pairs, t: string)
    requires EncodePairs(a) + s == EncodePairs(b) + t && Terminator(s) && Terminator(t)
    requires a == [] || b == []
    ensures a == b && s == t
  {
    assert a == [] ==> EncodePairs(a) + s == s;
    assert b == [] ==> EncodePairs(b) + t == t;
    if a != [] { PairsStart(a, s); }
    if b != [] { PairsStart(b, t); }
  }

  // ----- the keys -----

  function LabelKey(m: Labels): string { EncodePairs(SortedPairs(m)) }

  function SeriesKey(s: Sample): string { Component(s.name) + Component(s.unit) + LabelKey(s.labels) }

  function Signed(n: int): string { if n < 0 then "-" + Decimal(-n) else Decimal(n) }

  function RevisionKey(s: Sample): string { SeriesKey(s) + "@" + Signed(s.timestamp - UNIX_EPOCH) }

  predicate SameSeries(s: Sample, t: Sample) {
    s.name == t.name && s.unit == t.unit && s.labels == t.labels
  }

  lemma LabelKeyInjective(m: Labels, n: Labels)
    ensures LabelKey(m) == LabelKey(n) <==> m == n
  {
    if LabelKey(m) == LabelKey(n) {
      assert LabelKey(m) + [] == LabelKey(n) + [];
      PairsCancel(SortedPairs(m), [], SortedPairs(n), []);
      SortedPairsInjective(m, n);
    }
  }

  lemma SeriesCancel(s: Sample, x: string, t: Sample, y: string)
    requires SeriesKey(s) + x == SeriesKey(t) + y && Terminator(x) && Terminator(y)
    ensures SameSeries(s, t) && x == y
  {
    var p, q := SortedPairs(s.labels), SortedPairs(t.labels);
    TextCancel(s.name, s.unit, p, x, t.name, t.unit, q, y);
    SortedPairsInjective(s.labels, t.labels);
  }

  lemma TextCancel(n: string, u: string, p: Pairs, x: string, n': string, u': string, q: Pairs, y: string)
    requires Component(n) + Component(u) + EncodePairs(p) + x == Component(n') + Component(u') + EncodePairs(q) + y
    requires Terminator(x) && Terminator(y)
    ensures n == n' && u == u' && p == q && x == y
  {
    var v, w := EncodePairs(p) + x, EncodePairs(q) + y;
    Assoc(Component(n) + Component(u), EncodePairs(p), x);
    Assoc(Component(n') + Component(u'), EncodePairs(q), y);
    TwoComponentsCancel(n, u, v, n', u', w);
    PairsCancel(p, x, q, y);
  }

  lemma SeriesKeyInjective(s: Sample, t: Sample)
    ensures SeriesKey(s) == SeriesKey(t) <==> SameSeries(s, t)
  {
    if SeriesKey(s) == SeriesKey(t) {
      assert SeriesKey(s) + [] == SeriesKey(t) + [];
      SeriesCancel(s, [], t, []);
    }
  }

  lemma SignedInjective(m: int, n: int)
    requires Signed(m) == Signed(n)
    ensures m == n
  {
    var a, b := Signed(m), Signed(n);
    assert m >= 0 ==> IsDigit(a[0]);
    assert n >= 0 ==> IsDigit(b[0]);
    if m < 0 {
      assert a[1..] == Decimal(-m) && b[1..] == Decimal(-n);
      DecimalInjective(-m, -n);
    } else {
      DecimalInjective(m, n);
    }
  }

  lemma RevisionKeyInjective(s: Sample, t: Sample)
    ensures RevisionKey(s) == RevisionKey(t) <==> SameSeries(s, t) && s.timestamp == t.timestamp
  {
    if RevisionKey(s) == RevisionKey(t) {
      StampedCancel(s, s.timestamp - UNIX_EPOCH, t, t.timestamp - UNIX_EPOCH);
    }
  }

  lemma StampedCancel(s: Sample, m: int, t: Sample, n: int)
    requires SeriesKey(s) + "@" + Signed(m) == SeriesKey(t) + "@" + Signed(n)
    ensures SameSeries(s, t) && m == n
  {
    StampCancel(SeriesKey(s), m, SeriesKey(t), n);
    SeriesCancel(s, "@" + Signed(m), t, "@" + Signed(n));
    SignedInjective(m, n);
  }

  lemma StampCancel(a: string, m: int, b: string, n: int)
    requires a + "@" + Signed(m) == b + "@" + Signed(n)
    ensures a + ("@" + Signed(m)) == b + ("@" + Signed(n))
    ensures "@" + Signed(m) == "@" + Signed(n) ==> Signed(m) == Signed(n)
  {
    Assoc(a, "@", Signed(m));
    Assoc(b, "@", Signed(n));
    HeadCancel("@", Signed(m), Signed(n));
  }

  lemma HeadCancel(h: string, a: string, b: string)
    ensures h + a == h + b ==> a == b
  {
    assert (h + a)[|h|..] == a && (h + b)[|h|..] == b;
  }

  // ----- escaped signature -----

  function EscapeChar(c: char): string { if c in {'\\', '=', ';'} then ['\\', c] else [c] }

  /** The string replacer of the guard, one byte at a time. */
  function Escape(s: string): string { if s == [] then "" else EscapeChar(s[0]) + Escape(s[1..]) }

  function SigPair(kv: (string, string)): string { Escape(kv.0) + "=" + (Escape(kv.1) + ";") }

  function SigPairs(kvs: Pairs): string {
    if kvs == [] then "" else SigPair(kvs[0]) + SigPairs(kvs[1..])
  }

  function LabelSig(m: Labels): string { SigPairs(SortedPairs(m)) }

  lemma EscapeStart(a: string, d: char, x: string)
    requires a != [] && (d == '=' || d == ';')
    ensures (Escape(a) + [d] + x)[0] != d
  {
    assert (Escape(a) + [d] + x)[0] == EscapeChar(a[0])[0];
  }

  lemma EscapeCharCancel(a: char, x: string, b: char, y: string)
    requires EscapeChar(a) + x == EscapeChar(b) + y
    ensures a == b && x == y
  {
    var p := EscapeChar(a) + x;
    assert p[0] == EscapeChar(a)[0] == EscapeChar(b)[0];
    if p[0] == '\\' {
      assert p[1] == a && p[1] == b && p[2..] == x && p[2..] == y;
    } else {
      assert p[1..] == x && p[1..] == y;
    }
  }

  /** An escaped text up to a bare delimiter can be split off in only one way. */
  lemma {:induction false} EscapeCancel(a: string, x: string, b: string, y: string, d: char)
    requires d == '=' || d == ';'
    requires Escape(a) + [d] + x == Escape(b) + [d] + y
    ensures a == b && x == y
  {
    if a == [] || b == [] {
      EscapeCancelEmpty(a, x, b, y, d);
    } else {
      var u, v := Escape(a[1..]) + [d] + x, Escape(b[1..]) + [d] + y;
      assert Escape(a) + [d] + x == EscapeChar(a[0]) + u;
      assert Escape(b) + [d] + y == EscapeChar(b[0]) + v;
      EscapeCharCancel(a[0], u, b[0], v);
      EscapeCancel(a[1..], x, b[1..], y, d);
      assert a == [a[0]] + a[1..] && b == [b[0]] + b[1..];
    }
  }

  lemma EscapeCancelEmpty(a: string, x: string, b: string, y: string, d: char)
    requires d == '=' || d == ';'
    requires Escape(a) + [d] + x == Escape(b) + [d] + y
    requires a == [] || b == []
    ensures a == b && x == y
  {
    var p, q := Escape(a) + [d] + x, Escape(b) + [d] + y;
    assert a == [] ==> p[0] == d && p[1..] == x;
    assert b == [] ==> q[0] == d && q[1..] == y;
    if a != [] { EscapeStart(a, d, x); }
    if b != [] { EscapeStart(b, d, y); }
  }

  lemma SigPairCancel(a: (string, string), x: string, b: (string, string), y: string)
    requires SigPair(a) + x == SigPair(b) + y
    ensures a == b && x == y
  {
    var u, v := Escape(a.1) + [';'] + x, Escape(b.1) + [';'] + y;
    assert SigPair(a) + x == Escape(a.0) + ['='] + u;
    assert SigPair(b) + y == Escape(b.0) + ['='] + v;
    EscapeCancel(a.0, u, b.0, v, '=');
    EscapeCancel(a.1, x, b.1, y, ';');
  }

  lemma {:induction false} SigPairsInjective(a: Pairs, b: Pairs)
    requires SigPairs(a) == SigPairs(b)
    ensures a == b
  {
    if a != [] && b != [] {
      SigPairCancel(a[0], SigPairs(a[1..]), b[0], SigPairs(b[1..]));
      SigPairsInjective(a[1..], b[1..]);
      assert a == [a[0]] + a[1..] && b == [b[0]] + b[1..];
    }
  }

  lemma LabelSigInjective(m: Labels, n: Labels)
    ensures LabelSig(m) == LabelSig(n) <==> m == n
  {
    if LabelSig(m) == LabelSig(n) {
      SigPairsInjective(SortedPairs(m), SortedPairs(n));
      SortedPairsInjective(m, n);
    }
  }

  // ----- the loops that build them -----

  lemma {:induction false} EncodePairsSnoc(kvs: Pairs, kv: (string, string))
    ensures EncodePairs(kvs + [kv]) == EncodePairs(kvs) + EncodePair(kv)
  {
    if kvs == [] {
      assert kvs + [kv] == [kv] && [kv][1..] == [];
    } else {
      EncodePairsSnoc(kvs[1..], kv);
      assert (kvs + [kv])[1..] == kvs[1..] + [kv];
      Assoc(EncodePair(kvs[0]), EncodePairs(kvs[1..]), EncodePair(kv));
    }
  }

  lemma {:induction false} SigPairsSnoc(kvs: Pairs, kv: (string, string))
    ensures SigPairs(kvs + [kv]) == SigPairs(kvs) + SigPair(kv)
  {
    if kvs == [] {
      assert kvs + [kv] == [kv] && [kv][1..] == [];
    } else {
      SigPairsSnoc(kvs[1..], kv);
      assert (kvs + [kv])[1..] == kvs[1..] + [kv];
      Assoc(SigPair(kvs[0]), SigPairs(kvs[1..]), SigPair(kv));
    }
  }

  method SortedMapKeys(m: Labels) returns (keys: seq<string>)
    ensures keys == SortedKeys(m.Keys)
  {
    keys := KeysOf(m);
    SortedAnyOrder(keys, m.Keys);
    keys := Sort(keys, StrLess);
  }

  method WritePairs(keys: seq<string>, m: Labels) returns (r: string)
    requires forall k :: k in keys ==> k in m
    ensures r == EncodePairs(PairsFor(keys, m))
  {
    ghost var kvs := PairsFor(keys, m);
    r := "";
    for i := 0 to |keys|
      invariant r == EncodePairs(kvs[..i])
    {
      EncodePairsSnoc(kvs[..i], kvs[i]);
      assert kvs[..i + 1] == kvs[..i] + [kvs[i]];
      r := r + EncodePair((keys[i], m[keys[i]]));
    }
    assert kvs[..|keys|] == kvs;
  }

  method WriteSig(keys: seq<string>, m: Labels) returns (r: string)
    requires forall k :: k in keys ==> k in m
    ensures r == SigPairs(PairsFor(keys, m))
  {
    ghost var kvs := PairsFor(keys, m);
    r := "";
    for i := 0 to |keys|
      invariant r == SigPairs(kvs[..i])
    {
      SigPairsSnoc(kvs[..i], kvs[i]);
      assert kvs[..i + 1] == kvs[..i] + [kvs[i]];
      r := r + SigPair((keys[i], m[keys[i]]));
    }
    assert kvs[..|keys|] == kvs;
  }

  method BuildSeriesKey(s: Sample) returns (r: string)
    ensures r == SeriesKey(s)
  {
    var keys := SortedMapKeys(s.labels);
    var pairs := WritePairs(keys, s.labels);
    r := Component(s.name) + Component(s.unit) + pairs;
  }

  method BuildLabelSig(m: Labels) returns (r: string)
    ensures r == LabelSig(m)
  {
    var keys := SortedMapKeys(m);
    r := WriteSig(keys, m);
  }
}
