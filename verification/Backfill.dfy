/** Counting the minutes a stuck loop can no longer store (`BackfillUnstorableMinutes` in
    internal/schedule/runner.go). */
module Backfill {
  import opened Model

  /** The frontier counted against, and the floor up to which it is counted. */
  datatype Tally = Tally(mark: int, floor: int)

  function From(t: Tally, mark: int): int { if t.mark == mark && t.floor > mark then t.floor else mark }

  /** The minutes to report for one tick.  Go's division truncates, but a negative quotient is reported
      as none either way. */
  function Newly(t: Tally, mark: int, floor: int): nat {
    var mins := (floor - From(t, mark)) / MINUTE;
    if mins <= 0 then 0 else mins
  }

  function Step(t: Tally, mark: int, floor: int): Tally {
    var mins := Newly(t, mark, floor);
    if mins == 0 then t else Tally(mark, From(t, mark) + mins * MINUTE)
  }

  // ----- runs with a pinned frontier -----

  function Run(t: Tally, mark: int, floors: seq<int>): Tally {
    if floors == [] then t
    else Step(Run(t, mark, floors[..|floors| - 1]), mark, floors[|floors| - 1])
  }

  function Sum(t: Tally, mark: int, floors: seq<int>): nat {
    if floors == [] then 0
    else
      var n := |floors| - 1;
      Sum(t, mark, floors[..n]) + Newly(Run(t, mark, floors[..n]), mark, floors[n])
  }

  /** The largest floor seen, not below the frontier itself. */
  function Highest(mark: int, floors: seq<int>): (h: int)
    ensures h >= mark && (h == mark || h in floors) && forall f :: f in floors ==> f <= h
  {
    if floors == [] then mark
    else
      var h := Highest(mark, floors[..|floors| - 1]);
      var f := floors[|floors| - 1];
      assert floors == floors[..|floors| - 1] + [f];
      if f > h then f else h
  }

  function Larger(a: int, b: int): int { if a < b then b else a }

  /** One tick tops the count up to the whole minutes below the new floor. */
  lemma TopsUp(t: Tally, mark: int, n: nat, floor: int)
    requires From(t, mark) == mark + n * MINUTE
    ensures n + Newly(t, mark, floor) == Larger(n, (floor - mark) / MINUTE)
    ensures From(Step(t, mark, floor), mark) == mark + (n + Newly(t, mark, floor)) * MINUTE
  {
    WholeMinutes(mark, n, floor);
    var more := Newly(t, mark, floor);
    if more > 0 { assert From(Step(t, mark, floor), mark) == From(t, mark) + more * MINUTE; }
  }

  lemma WholeMinutes(mark: int, n: nat, floor: int)
    ensures (floor - (mark + n * MINUTE)) / MINUTE == (floor - mark) / MINUTE - n
  {
  }

  lemma LargerQuotient(a: int, b: int)
    ensures Larger(a, b) / MINUTE == Larger(a / MINUTE, b / MINUTE)
  {
  }

  /** The reported minutes add up to the whole minutes between the frontier and the highest floor seen:
      no remainder is lost and nothing is counted twice, even when the clock steps back. */
  lemma {:induction false} CountedOnce(t: Tally, mark: int, floors: seq<int>)
    requires t.mark != mark
    ensures Sum(t, mark, floors) == (Highest(mark, floors) - mark) / MINUTE
    ensures From(Run(t, mark, floors), mark) == mark + Sum(t, mark, floors) * MINUTE
  {
    if floors != [] {
      var before, f := floors[..|floors| - 1], floors[|floors| - 1];
      CountedOnce(t, mark, before);
      TopsUp(Run(t, mark, before), mark, Sum(t, mark, before), f);
      LargerQuotient(Highest(mark, before) - mark, f - mark);
    }
  }
}
