/** The governance guard (internal/source/guard.go, internal/source/content.go): content floor,
    allow and deny lists, and a per-series budget of distinct label sets.

    One guard is shared by every loop runner; its lock makes each admission atomic, so what the
    runners do together is some sequence of admissions. */
module Governance {
  import opened Model
  import opened Keys
  import opened Selection

  function Floor(): seq<string> {
    ["gen_ai.prompt", "gen_ai.completion", "gen_ai.input.messages", "gen_ai.output.messages",
     "gen_ai.system_instructions", "input.value", "output.value",
     "request", "response", "inputs", "outputs", "messages",
     "inputs_preview", "outputs_preview", "metadata", "portkeyHeaders"]
  }

  function FloorNamespaces(): seq<string> {
    ["gen_ai.prompt", "gen_ai.completion",
     "gen_ai.input.messages", "gen_ai.output.messages", "gen_ai.system_instructions"]
  }

  predicate Contains(list: seq<string>, k: string) {
    list != [] && (list[0] == k || Contains(list[1..], k))
  }

  predicate HasPrefixIn(list: seq<string>, k: string) {
    list != [] && (list[0] <= k || HasPrefixIn(list[1..], k))
  }

  /** An exact floor key, or any key inside a content namespace. */
  predicate IsFloorKey(floor: seq<string>, namespaces: seq<string>, k: string) {
    Contains(floor, k) || HasPrefixIn(namespaces, k)
  }

  predicate IsContentFloorKey(k: string) { IsFloorKey(Floor(), FloorNamespaces(), k) }

  /** A request to pass a label set for a series. */
  datatype Ask = Ask(series: string, labels: Labels)

  // ----- the budget, in terms of label sets -----

  /** Series name to the label sets admitted for it. */
  type Ledger = map<string, set<Labels>>

  function Sets(led: Ledger, series: string): set<Labels> {
    if series in led then led[series] else {}
  }

  predicate Admits(budget: int, led: Ledger, a: Ask) {
    budget <= 0 || a.labels in Sets(led, a.series) || |Sets(led, a.series)| < budget
  }

  function Admit(budget: int, led: Ledger, a: Ask): Ledger {
    if budget > 0 && Admits(budget, led, a) then led[a.series := Sets(led, a.series) + {a.labels}] else led
  }

  /** The ledger after the first `n` of a sequence of admissions by any of the loops. */
  function After(budget: int, asks: seq<Ask>, n: nat): Ledger
    requires n <= |asks|
  {
    if n == 0 then map[] else Admit(budget, After(budget, asks, n - 1), asks[n - 1])
  }

  /** Whether the i-th ask was let through. */
  predicate Passed(budget: int, asks: seq<Ask>, i: nat)
    requires i < |asks|
  {
    Admits(budget, After(budget, asks, i), asks[i])
  }

  /** The label set was let through at some time. */
  ghost predicate WasLet(budget: int, asks: seq<Ask>, a: Ask) {
    exists i: nat {:trigger LetAt(budget, asks, i, a)} :: LetAt(budget, asks, i, a)
  }

  ghost predicate LetAt(budget: int, asks: seq<Ask>, i: nat, a: Ask) {
    i < |asks| && asks[i] == a && Passed(budget, asks, i)
  }

  lemma {:induction false} LedgerBounded(budget: int, asks: seq<Ask>, n: nat, series: string)
    requires budget > 0 && n <= |asks|
    ensures |Sets(After(budget, asks, n), series)| <= budget
  {
    if n > 0 {
      LedgerBounded(budget, asks, n - 1, series);
      AdmitBounded(budget, After(budget, asks, n - 1), asks[n - 1], series);
    }
  }

  lemma AdmitBounded(budget: int, led: Ledger, a: Ask, series: string)
    requires budget > 0 && |Sets(led, series)| <= budget
    ensures |Sets(Admit(budget, led, a), series)| <= budget
  {
    if a.labels in Sets(led, a.series) { AdmitKnown(budget, led, a); }
  }

  /** The distinct label sets that were ever let through for a series. */
  ghost function LetSets(budget: int, asks: seq<Ask>, series: string): set<Labels> {
    set i | 0 <= i < |asks| && asks[i].series == series && Passed(budget, asks, i) :: asks[i].labels
  }

  lemma {:induction false} SubsetSize<T>(a: set<T>, b: set<T>)
    requires a <= b
    ensures |a| <= |b|
  {
    if a != {} {
      var x :| x in a;
      SubsetSize(a - {x}, b - {x});
    }
  }

  lemma {:induction false} LedgerGrows(budget: int, asks: seq<Ask>, i: nat, n: nat, series: string, m: Labels)
    requires i <= n <= |asks| && m in Sets(After(budget, asks, i), series)
    ensures m in Sets(After(budget, asks, n), series)
  {
    if i < n { LedgerGrows(budget, asks, i, n - 1, series, m); }
  }

  /** What was let through is in the ledger from then on. */
  lemma LetInLedger(budget: int, asks: seq<Ask>, i: nat, n: nat)
    requires budget > 0 && i < n <= |asks| && Passed(budget, asks, i)
    ensures asks[i].labels in Sets(After(budget, asks, n), asks[i].series)
  {
    assert asks[i].labels in Sets(After(budget, asks, i + 1), asks[i].series);
    LedgerGrows(budget, asks, i + 1, n, asks[i].series, asks[i].labels);
  }

  /** Over every sequence of admissions, at most `budget` distinct label sets pass per series. */
  lemma BudgetHolds(budget: int, asks: seq<Ask>, series: string)
    requires budget > 0
    ensures |LetSets(budget, asks, series)| <= budget
  {
    LedgerBounded(budget, asks, |asks|, series);
    forall m | m in LetSets(budget, asks, series) ensures m in Sets(After(budget, asks, |asks|), series) {
      var i :| 0 <= i < |asks| && asks[i].series == series && Passed(budget, asks, i) && m == asks[i].labels;
      LetInLedger(budget, asks, i, |asks|);
    }
    SubsetSize(LetSets(budget, asks, series), Sets(After(budget, asks, |asks|), series));
  }

  /** An admitted label set stays admitted for ever. */
  lemma StaysAdmitted(budget: int, asks: seq<Ask>, i: nat, j: nat)
    requires i < j < |asks| && asks[i] == asks[j] && Passed(budget, asks, i)
    ensures Passed(budget, asks, j)
  {
    if budget > 0 { LetInLedger(budget, asks, i, j); }
  }

  /** Admitting a known label set again changes nothing. */
  lemma AdmitKnown(budget: int, led: Ledger, a: Ask)
    requires a.labels in Sets(led, a.series)
    ensures Admit(budget, led, a) == led
  {
    assert Sets(led, a.series) + {a.labels} == led[a.series];
  }

  /** Other label sets have used up the budget of the series. */
  ghost predicate Full(budget: int, asks: seq<Ask>, n: nat, a: Ask)
    requires n <= |asks|
  {
    var taken := Sets(After(budget, asks, n), a.series);
    budget > 0 && |taken| == budget && a.labels !in taken
  }

  /** A label set is refused only when `budget` others have taken its place. */
  lemma RefusedOnlyWhenFull(budget: int, asks: seq<Ask>, i: nat)
    requires i < |asks| && !Passed(budget, asks, i)
    ensures Full(budget, asks, i, asks[i])
  {
    LedgerBounded(budget, asks, i, asks[i].series);
  }

  /** A full series stays full. */
  lemma {:induction false} FullStays(budget: int, asks: seq<Ask>, i: nat, n: nat, a: Ask)
    requires i <= n <= |asks| && Full(budget, asks, i, a)
    ensures Full(budget, asks, n, a)
  {
    if i < n {
      FullStays(budget, asks, i, n - 1, a);
      FullStep(budget, asks, n, a);
    }
  }

  lemma FullStep(budget: int, asks: seq<Ask>, n: nat, a: Ask)
    requires 0 < n <= |asks| && Full(budget, asks, n - 1, a)
    ensures Full(budget, asks, n, a)
  {
    var x, led := asks[n - 1], After(budget, asks, n - 1);
    if x.series == a.series && Admits(budget, led, x) { AdmitKnown(budget, led, x); }
  }

  /** Later asks do not change what came before. */
  lemma {:induction false} Prefix(budget: int, asks: seq<Ask>, more: seq<Ask>, n: nat)
    requires n <= |asks| && asks <= more
    ensures After(budget, more, n) == After(budget, asks, n)
  {
    if n > 0 { Prefix(budget, asks, more, n - 1); }
  }

  lemma Snoc(budget: int, asks: seq<Ask>, a: Ask)
    ensures var led, more := After(budget, asks, |asks|), asks + [a];
            && After(budget, more, |more|) == Admit(budget, led, a)
            && Passed(budget, more, |asks|) == Admits(budget, led, a)
  {
    Prefix(budget, asks, asks + [a], |asks|);
  }

  // ----- the guard keeps signatures instead of label sets -----

  /** Series name to the signatures admitted for it. */
  type Seen = map<string, set<string>>

  function Slots(seen: Seen, series: string): set<string> {
    if series in seen then seen[series] else {}
  }

  function Sigs(ms: set<Labels>): set<string> { set m | m in ms :: LabelSig(m) }

  /** A signature stands for one label set. */
  lemma SigKnown(ms: set<Labels>, m: Labels)
    ensures LabelSig(m) in Sigs(ms) <==> m in ms
  {
    if LabelSig(m) in Sigs(ms) {
      var n :| n in ms && LabelSig(n) == LabelSig(m);
      LabelSigInjective(m, n);
    }
  }

  function Image(ms: set<Labels>, f: Labels -> string): set<string> { set m | m in ms :: f(m) }

  lemma {:induction false} ImageCount(ms: set<Labels>, f: Labels -> string)
    requires forall a, b :: f(a) == f(b) ==> a == b
    ensures |Image(ms, f)| == |ms|
  {
    if ms != {} {
      var m :| m in ms;
      ImageCount(ms - {m}, f);
      assert Image(ms, f) == Image(ms - {m}, f) + {f(m)};
    }
  }

  function SigOf(): Labels -> string { (m: Labels) => LabelSig(m) }

  lemma SigsCount(ms: set<Labels>)
    ensures |Sigs(ms)| == |ms|
  {
    forall a, b | SigOf()(a) == SigOf()(b) ensures a == b { LabelSigInjective(a, b); }
    ImageCount(ms, SigOf());
    assert Sigs(ms) == Image(ms, SigOf());
  }

  lemma SigsAdd(ms: set<Labels>, m: Labels)
    ensures Sigs(ms + {m}) == Sigs(ms) + {LabelSig(m)}
  {
  }

  /** The slots are the signatures of the ledger's label sets. */
  ghost predicate Mirrors(seen: Seen, led: Ledger) {
    forall series {:trigger MirrorsAt(seen, led, series)} :: MirrorsAt(seen, led, series)
  }

  ghost predicate MirrorsAt(seen: Seen, led: Ledger, series: string) {
    Slots(seen, series) == Sigs(Sets(led, series))
  }

  /** So the guard's two tests are those of the ledger. */
  lemma MirrorTests(seen: Seen, led: Ledger, series: string, m: Labels)
    requires Mirrors(seen, led)
    ensures LabelSig(m) in Slots(seen, series) <==> m in Sets(led, series)
    ensures |Slots(seen, series)| == |Sets(led, series)|
  {
    assert MirrorsAt(seen, led, series);
    SigKnown(Sets(led, series), m);
    SigsCount(Sets(led, series));
  }

  lemma MirrorAddSelf(seen: Seen, led: Ledger, series: string, m: Labels)
    requires MirrorsAt(seen, led, series)
    ensures MirrorsAt(seen[series := Slots(seen, series) + {LabelSig(m)}], led[series := Sets(led, series) + {m}], series)
  {
    SigsAdd(Sets(led, series), m);
  }

  lemma MirrorKeep(seen: Seen, led: Ledger, series: string, slots: set<string>, ms: set<Labels>, x: string)
    requires MirrorsAt(seen, led, x) && x != series
    ensures MirrorsAt(seen[series := slots], led[series := ms], x)
  {
  }

  lemma MirrorAdd(seen: Seen, led: Ledger, series: string, m: Labels)
    requires Mirrors(seen, led)
    ensures Mirrors(seen[series := Slots(seen, series) + {LabelSig(m)}], led[series := Sets(led, series) + {m}])
  {
    assert MirrorsAt(seen, led, series);
    MirrorAddSelf(seen, led, series, m);
    var slots, ms := Slots(seen, series) + {LabelSig(m)}, Sets(led, series) + {m};
    var seen', led' := seen[series := slots], led[series := ms];
    forall x ensures MirrorsAt(seen', led', x) {
      if x != series {
        assert MirrorsAt(seen, led, x);
        MirrorKeep(seen, led, series, slots, ms, x);
      }
    }
  }

  class Guard {
    const allow: set<string>
    const deny: set<string>
    const denyByLoop: map<string, set<string>>
    const budget: int
    const floor: seq<string>
    const namespaces: seq<string>
    var seen: Seen
    /** Every admission asked of the budget so far, in order. */
    ghost var asks: seq<Ask>

    ghost predicate Valid() reads this {
      Mirrors(seen, After(budget, asks, |asks|)) && ContentFloor()
    }

    /** The floor is the content floor. */
    ghost predicate ContentFloor() {
      forall k {:trigger IsContentFloorKey(k)} :: IsFloor(k) == IsContentFloorKey(k)
    }

    constructor (allow: set<string>, deny: set<string>, denyByLoop: map<string, set<string>>, budget: int)
      ensures Valid() && asks == []
      ensures this.allow == allow && this.deny == deny && this.denyByLoop == denyByLoop && this.budget == budget
    {
      floor, namespaces := Floor(), FloorNamespaces();
      this.allow, this.deny, this.denyByLoop, this.budget := allow, deny, denyByLoop, budget;
      seen, asks := map[], [];
    }

    /** The never-subtractable content floor. */
    predicate IsFloor(k: string) { IsFloorKey(floor, namespaces, k) }

    predicate LabelsAllowed(labels: Labels) {
      forall k :: k in labels ==> k !in deny && !IsFloor(k) && k in allow
    }

    function DenyFor(loop: string): set<string> {
      if loop in denyByLoop then denyByLoop[loop] else deny
    }

    predicate KeysClean(loop: string, m: Labels) {
      forall k :: k in m ==> k !in DenyFor(loop) && !IsFloor(k)
    }

    predicate LogAllowed(loop: string, r: LogRecord) {
      KeysClean(loop, r.indexed) && KeysClean(loop, r.record) && forall k :: k in r.indexed ==> k in allow
    }

    /** What `seen` has to mirror after one more ask. */
    lemma Charged(a: Ask, known: bool, fits: bool)
      requires Valid() && budget > 0
      requires known == (a.labels in Sets(After(budget, asks, |asks|), a.series))
      requires fits == (|Sets(After(budget, asks, |asks|), a.series)| < budget)
      ensures var more := asks + [a];
              var seen' := if !known && fits then seen[a.series := Slots(seen, a.series) + {LabelSig(a.labels)}] else seen;
              && Passed(budget, more, |asks|) == (known || fits)
              && Mirrors(seen', After(budget, more, |more|))
    {
      var led := After(budget, asks, |asks|);
      Snoc(budget, asks, a);
      if known { AdmitKnown(budget, led, a); } else if fits { MirrorAdd(seen, led, a.series, a.labels); }
    }

    /** The budget check under the guard's lock. */
    method Charge(series: string, labels: Labels) returns (ok: bool)
      requires Valid()
      modifies this
      ensures Valid() && asks == old(asks) + [Ask(series, labels)]
      ensures ok == Passed(budget, asks, |old(asks)|)
    {
      ghost var a := Ask(series, labels);
      if budget <= 0 {
        Snoc(budget, asks, a);
        asks := asks + [a];
        return true;
      }
      var sig := BuildLabelSig(labels);
      ok := Take(series, sig, a);
    }

    /** The two tests of the budget, on the signature. */
    method Take(series: string, sig: string, ghost a: Ask) returns (ok: bool)
      requires Valid() && budget > 0 && a.series == series && sig == LabelSig(a.labels)
      modifies this
      ensures Valid() && asks == old(asks) + [a] && ok == Passed(budget, asks, |old(asks)|)
    {
      var slots := Slots(seen, series);
      MirrorTests(seen, After(budget, asks, |asks|), series, a.labels);
      Charged(a, sig in slots, |slots| < budget);
      ok := sig in slots || |slots| < budget;
      if sig !in slots && |slots| < budget { seen := seen[series := slots + {sig}]; }
      asks := asks + [a];
    }

    /** Let through by the budget, or kept out of it by others for good. */
    ghost predicate BudgetRuled(a: Ask, ok: bool, asks: seq<Ask>) {
      if ok then WasLet(budget, asks, a) else Full(budget, asks, |asks|, a)
    }

    lemma RuledMore(a: Ask, ok: bool, asks: seq<Ask>, more: seq<Ask>)
      requires BudgetRuled(a, ok, asks) && asks <= more
      ensures BudgetRuled(a, ok, more)
    {
      if ok {
        var i: nat :| LetAt(budget, asks, i, a);
        Prefix(budget, asks, more, i);
        assert LetAt(budget, more, i, a);
      } else {
        Prefix(budget, asks, more, |asks|);
        FullStays(budget, more, |asks|, |more|, a);
      }
    }

    lemma RuledOnce(asks: seq<Ask>, n: nat)
      requires |asks| == n + 1
      ensures BudgetRuled(asks[n], Passed(budget, asks, n), asks)
    {
      if Passed(budget, asks, n) {
        assert LetAt(budget, asks, n, asks[n]);
      } else {
        RefusedOnlyWhenFull(budget, asks, n);
        FullStays(budget, asks, n, n + 1, asks[n]);
      }
    }

    /** The sample is kept: it carries allowed keys only, and the budget let it through. */
    ghost predicate SampleFine(s: Sample, asks: seq<Ask>) {
      LabelsAllowed(s.labels) && WasLet(budget, asks, Ask(s.name, s.labels))
    }

    /** The sample is dropped: some key is not allowed, or others have used up its series. */
    ghost predicate SampleBarred(s: Sample, asks: seq<Ask>) {
      !LabelsAllowed(s.labels) || Full(budget, asks, |asks|, Ask(s.name, s.labels))
    }

    ghost predicate SampleRuled(s: Sample, ok: bool, asks: seq<Ask>) {
      if ok then SampleFine(s, asks) else SampleBarred(s, asks)
    }

    lemma SampleRuledMore(s: Sample, ok: bool, asks: seq<Ask>, more: seq<Ask>)
      requires SampleRuled(s, ok, asks) && asks <= more
      ensures SampleRuled(s, ok, more)
    {
      if LabelsAllowed(s.labels) { RuledMore(Ask(s.name, s.labels), ok, asks, more); }
    }

    /** No sample is both. */
    lemma FineOrBarred(s: Sample, asks: seq<Ask>)
      ensures !(SampleFine(s, asks) && SampleBarred(s, asks))
    {
      if SampleFine(s, asks) && budget > 0 {
        var i: nat :| LetAt(budget, asks, i, Ask(s.name, s.labels));
        LetInLedger(budget, asks, i, |asks|);
      }
    }

    method Ok(s: Sample) returns (ok: bool)
      requires Valid()
      modifies this
      ensures Valid() && old(asks) <= asks && SampleRuled(s, ok, asks)
    {
      if !LabelsAllowed(s.labels) { return false; }
      ok := Charge(s.name, s.labels);
      RuledOnce(asks, |old(asks)|);
    }

    ghost predicate LogFine(loop: string, r: LogRecord, asks: seq<Ask>) {
      r.body == "" && LogAllowed(loop, r) && WasLet(budget, asks, Ask("logs:" + loop, r.indexed))
    }

    ghost predicate LogBarred(loop: string, r: LogRecord, asks: seq<Ask>) {
      !LogAllowed(loop, r) || Full(budget, asks, |asks|, Ask("logs:" + loop, r.indexed))
    }

    ghost predicate LogRuled(loop: string, r: LogRecord, ok: bool, asks: seq<Ask>) {
      if ok then LogFine(loop, r, asks) else LogBarred(loop, r, asks)
    }

    lemma LogRuledMore(loop: string, r: LogRecord, ok: bool, asks: seq<Ask>, more: seq<Ask>)
      requires LogRuled(loop, r, ok, asks) && asks <= more
      ensures LogRuled(loop, r, ok, more)
    {
      if LogAllowed(loop, r) { RuledMore(Ask("logs:" + loop, r.indexed), ok, asks, more); }
    }

    method OkLog(loop: string, r: LogRecord) returns (ok: bool)
      requires Valid() && r.body == ""
      modifies this
      ensures Valid() && old(asks) <= asks && LogRuled(loop, r, ok, asks)
    {
      if !LogAllowed(loop, r) { return false; }
      ok := Charge("logs:" + loop, r.indexed);
      RuledOnce(asks, |old(asks)|);
    }

    ghost predicate AllRuled(samples: seq<Sample>, fine: seq<bool>, asks: seq<Ask>) {
      |fine| <= |samples| && forall i :: 0 <= i < |fine| ==> SampleRuled(samples[i], fine[i], asks)
    }

    lemma RuledStep(samples: seq<Sample>, fine: seq<bool>, asks: seq<Ask>, more: seq<Ask>, ok: bool)
      requires AllRuled(samples, fine, asks) && asks <= more && |fine| < |samples|
      requires SampleRuled(samples[|fine|], ok, more)
      ensures AllRuled(samples, fine + [ok], more)
    {
      var fine' := fine + [ok];
      forall i | 0 <= i < |fine'| ensures SampleRuled(samples[i], fine'[i], more) {
        if i < |fine| { SampleRuledMore(samples[i], fine[i], asks, more); }
      }
    }

    /** Keeps, in order, exactly the samples that carry allowed keys only and that the budget let
        through; the others carry a key that is not allowed, or others have used up their series. */
    method Sanitize(samples: seq<Sample>) returns (kept: seq<Sample>, dropped: nat, ghost fine: seq<bool>)
      requires Valid()
      modifies this
      ensures Valid() && old(asks) <= asks
      ensures |fine| == |samples| && kept == Select(samples, fine) && |kept| + dropped == |samples|
      ensures AllRuled(samples, fine, asks)
    {
      kept, dropped, fine := [], 0, [];
      for i := 0 to |samples|
        invariant Valid() && old(asks) <= asks
        invariant |fine| == i && Sifted(samples, fine, kept, dropped)
        invariant AllRuled(samples, fine, asks)
      {
        ghost var before := asks;
        var ok := Ok(samples[i]);
        RuledStep(samples, fine, before, asks, ok);
        SiftStep(samples, fine, kept, dropped, ok);
        fine := fine + [ok];
        if ok {
          kept := kept + [samples[i]];
        } else {
          dropped := dropped + 1;
        }
      }
      SiftEnd(samples, fine, kept, dropped);
    }

    ghost predicate AllLogsRuled(loop: string, logs: seq<LogRecord>, fine: seq<bool>, asks: seq<Ask>) {
      |fine| <= |logs| && forall i :: 0 <= i < |fine| ==> LogRuled(loop, logs[i], fine[i], asks)
    }

    lemma LogRuledStep(loop: string, logs: seq<LogRecord>, fine: seq<bool>, asks: seq<Ask>, more: seq<Ask>, ok: bool)
      requires AllLogsRuled(loop, logs, fine, asks) && asks <= more && |fine| < |logs|
      requires LogRuled(loop, logs[|fine|], ok, more)
      ensures AllLogsRuled(loop, logs, fine + [ok], more)
    {
      var fine' := fine + [ok];
      forall i | 0 <= i < |fine'| ensures LogRuled(loop, logs[i], fine'[i], more) {
        if i < |fine| { LogRuledMore(loop, logs[i], fine[i], asks, more); }
      }
    }

    /** As `Sanitize`, for log records: bodies are emptied first, and the budget and the allow list
        look at the indexed attributes only. */
    method SanitizeLogs(loop: string, logs: seq<LogRecord>)
      returns (kept: seq<LogRecord>, dropped: nat, ghost fine: seq<bool>)
      requires Valid()
      modifies this
      ensures Valid() && old(asks) <= asks
      ensures |fine| == |logs| == |Bodiless(logs)| && |kept| + dropped == |logs|
      ensures kept == Select(Bodiless(logs), fine)
      ensures AllLogsRuled(loop, Bodiless(logs), fine, asks)
    {
      kept, dropped, fine := [], 0, [];
      ghost var all := Bodiless(logs);
      for i := 0 to |logs|
        invariant Valid() && old(asks) <= asks
        invariant |fine| == i && Sifted(all, fine, kept, dropped)
        invariant AllLogsRuled(loop, all, fine, asks)
      {
        var r := logs[i].(body := "");
        ghost var before := asks;
        var ok := OkLog(loop, r);
        LogRuledStep(loop, all, fine, before, asks, ok);
        SiftStep(all, fine, kept, dropped, ok);
        fine := fine + [ok];
        if ok {
          kept := kept + [r];
        } else {
          dropped := dropped + 1;
        }
      }
      SiftEnd(all, fine, kept, dropped);
    }
  }

  function Bodiless(logs: seq<LogRecord>): (r: seq<LogRecord>)
    ensures |r| == |logs| && forall i :: 0 <= i < |r| ==> r[i] == logs[i].(body := "")
  {
    seq(|logs|, i requires 0 <= i < |logs| => logs[i].(body := ""))
  }

  lemma {:induction false} ContainsIff(list: seq<string>, k: string)
    ensures Contains(list, k) <==> k in list
  {
    if list != [] { ContainsIff(list[1..], k); }
  }

  lemma {:induction false} PrefixIff(list: seq<string>, k: string)
    ensures HasPrefixIn(list, k) <==> exists n :: n in list && n <= k
  {
    if list != [] {
      PrefixIff(list[1..], k);
      if HasPrefixIn(list[1..], k) {
        var n :| n in list[1..] && n <= k;
        assert n in list;
      }
      assert list[0] in list && forall n :: n in list ==> n == list[0] || n in list[1..];
    }
  }

  /** A content key: one of the floor, or any key that begins with a content namespace. */
  ghost predicate ContentKey(k: string) {
    || k in {"gen_ai.prompt", "gen_ai.completion", "gen_ai.input.messages", "gen_ai.output.messages",
             "gen_ai.system_instructions", "input.value", "output.value", "request", "response", "inputs", "outputs",
             "messages", "inputs_preview", "outputs_preview", "metadata", "portkeyHeaders"}
    || "gen_ai.prompt" <= k || "gen_ai.completion" <= k || "gen_ai.input.messages" <= k
    || "gen_ai.output.messages" <= k || "gen_ai.system_instructions" <= k
  }

  lemma NamespaceIs(k: string)
    ensures HasPrefixIn(FloorNamespaces(), k) <==>
            || "gen_ai.prompt" <= k || "gen_ai.completion" <= k || "gen_ai.input.messages" <= k
            || "gen_ai.output.messages" <= k || "gen_ai.system_instructions" <= k
  {
    var ns := FloorNamespaces();
    PrefixIff(ns, k);
    assert ns[0] in ns && ns[1] in ns && ns[2] in ns && ns[3] in ns && ns[4] in ns;
  }

  lemma FloorIs(guard: Guard, k: string)
    requires guard.Valid()
    ensures guard.IsFloor(k) <==> ContentKey(k)
  {
    assert guard.IsFloor(k) == IsContentFloorKey(k);
    ContainsIff(Floor(), k);
    NamespaceIs(k);
  }

  /** Labels may be sent if and only if every key is allowed, none is denied, and none is a content key,
      whatever the lists say. */
  lemma SampleKeysIff(guard: Guard, labels: Labels)
    requires guard.Valid()
    ensures guard.LabelsAllowed(labels) <==>
            forall k :: k in labels ==> k in guard.allow && k !in guard.deny && !ContentKey(k)
  {
    forall k | k in labels ensures guard.IsFloor(k) <==> ContentKey(k) { FloorIs(guard, k); }
  }

  /** A record may be sent if and only if neither map has a key that is denied, by the loop's own list if it
      has one, or a content key, and the indexed keys are allowed. */
  lemma RecordKeysIff(guard: Guard, loop: string, r: LogRecord)
    requires guard.Valid()
    ensures guard.LogAllowed(loop, r) <==>
            && (forall k :: k in r.indexed || k in r.record ==>
                  !ContentKey(k) && k !in (if loop in guard.denyByLoop then guard.denyByLoop[loop] else guard.deny))
            && (forall k :: k in r.indexed ==> k in guard.allow)
  {
    forall k | k in r.indexed || k in r.record ensures guard.IsFloor(k) <==> ContentKey(k) { FloorIs(guard, k); }
  }
}
