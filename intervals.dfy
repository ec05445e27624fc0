/**
 * Interval statistics shared by the analysis and countdown screens:
 * whole-day gaps between neighbouring timestamps, their histogram, and the
 * truncating average the countdown uses.
 */
module Intervals {
  import opened Time
  import opened Sorting

  /** `dates.sortedBy { it.date }`, seen through the dates it orders. */
  function SortAscending(dates: seq<int>): (r: seq<int>)
    ensures SortedBy(r, AscendingInt())
    ensures multiset(r) == multiset(dates)
    ensures |r| == |dates|
  {
    SortBy(dates, AscendingInt())
  }

  /** Gap i is the truncated whole-day difference from entry i to entry i + 1. */
  function DayGaps(s: seq<int>): seq<int> {
    if |s| < 2 then []
    else seq(|s| - 1, i requires 0 <= i < |s| - 1 => ToDays(s[i + 1] - s[i]))
  }

  /** The loop of `updateAnalysisData`: one gap per neighbouring pair. */
  method ComputeDayDiffs(sorted: seq<int>) returns (dayDiffs: seq<int>)
    ensures dayDiffs == DayGaps(sorted)
  {
    ghost var gaps := DayGaps(sorted);
    dayDiffs := [];
    var i := 0;
    while i < |sorted| - 1
      invariant 0 <= i <= |gaps| && |gaps| == if |sorted| < 2 then 0 else |sorted| - 1
      invariant dayDiffs == gaps[..i]
    {
      var diffInMillis := sorted[i + 1] - sorted[i];
      assert gaps[..i + 1] == gaps[..i] + [gaps[i]];
      dayDiffs := dayDiffs + [ToDays(diffInMillis)];
      i := i + 1;
    }
    assert gaps[..i] == gaps;
  }

  /** For n >= 2 timestamps there are n - 1 gaps, none of them negative
      once the timestamps are in ascending order. */
  lemma DayGapsOfAscending(s: seq<int>)
    requires SortedBy(s, AscendingInt())
    ensures |s| >= 2 ==> |DayGaps(s)| == |s| - 1
    ensures |s| < 2 ==> DayGaps(s) == []
    ensures forall k :: 0 <= k < |DayGaps(s)| ==> DayGaps(s)[k] >= 0
  {
    forall k | 0 <= k < |DayGaps(s)| ensures DayGaps(s)[k] >= 0 {
      assert AscendingInt()(s[k], s[k + 1]);
    }
  }

  /** The gaps of the sorted timestamps do not depend on the input order. */
  lemma DayGapsOrderIndependent(a: seq<int>, b: seq<int>)
    requires multiset(a) == multiset(b)
    ensures DayGaps(SortAscending(a)) == DayGaps(SortAscending(b))
  {
    SortedIntUnique(SortAscending(a), SortAscending(b));
  }

  /** `groupingBy { it }.eachCount()`: each distinct value mapped to the
      number of times it occurs. */
  function Frequency(xs: seq<int>): (m: map<int, nat>)
    ensures forall k :: k in m <==> k in xs
    ensures forall k :: k in m ==> m[k] == multiset(xs)[k]
  {
    if xs == [] then map[]
    else
      var init := xs[..|xs| - 1];
      var x := xs[|xs| - 1];
      assert xs == init + [x];
      var m := Frequency(init);
      m[x := if x in m then m[x] + 1 else 1]
  }

  /** The sum of the counts in a histogram. */
  ghost function SumValues(m: map<int, nat>): nat
    decreases |m|
  {
    if m.Keys == {} then 0
    else
      KeyExists(m);
      var k :| k in m.Keys;
      m[k] + SumValues(m - {k})
  }

  lemma NoKeyIsEmpty(s: set<int>)
    requires forall k :: k !in s
    ensures s == {}
  {
    assert forall k :: k in s <==> k in {};
  }

  lemma KeyExists(m: map<int, nat>)
    requires m.Keys != {}
    ensures exists k :: k in m.Keys
  {
    if forall k :: k !in m.Keys {
      NoKeyIsEmpty(m.Keys);
    }
  }

  lemma {:induction false} SumValuesRemove(m: map<int, nat>, k: int)
    requires k in m
    ensures SumValues(m) == m[k] + SumValues(m - {k})
    decreases |m|
  {
    var j :| j in m && SumValues(m) == m[j] + SumValues(m - {j});
    if j != k {
      assert (m - {j})[k] == m[k];
      SumValuesRemove(m - {j}, k);
      assert (m - {k})[j] == m[j];
      SumValuesRemove(m - {k}, j);
      assert m - {j} - {k} == m - {k} - {j};
    }
  }

  /** The histogram's counts add up to the number of gaps it was built from. */
  lemma {:induction false} FrequencyTotal(xs: seq<int>)
    ensures SumValues(Frequency(xs)) == |xs|
    decreases |xs|
  {
    if xs != [] {
      var init := xs[..|xs| - 1];
      var x := xs[|xs| - 1];
      var m := Frequency(init);
      var count := if x in m then m[x] + 1 else 1;
      assert Frequency(xs) == m[x := count];
      FrequencyTotal(init);
      SumValuesRemove(m[x := count], x);
      UpdateThenRemove(m, x, count);
      if x in m {
        SumValuesRemove(m, x);
      } else {
        assert m - {x} == m;
      }
    }
  }

  /** Removing a key just updated forgets the update. */
  lemma UpdateThenRemove(m: map<int, nat>, k: int, v: nat)
    ensures m[k := v] - {k} == m - {k}
  {
  }

  /** Sum of the truncated gaps of a date-descending list, newest first:
      the `totalDays` of the countdown screens. */
  function SumOfGaps(desc: seq<int>): int {
    if |desc| < 2 then 0
    else SumOfGaps(desc[..|desc| - 1]) + ToDays(desc[|desc| - 2] - desc[|desc| - 1])
  }

  /** The averaging loop of the countdown screens: total truncated gap
      divided by the number of gaps, with truncating `Int` division. */
  method AverageCycleDays(desc: seq<int>) returns (average: int)
    requires |desc| >= 2
    ensures average == TruncDiv(SumOfGaps(desc), |desc| - 1)
  {
    var totalDays := 0;
    var i := 0;
    while i < |desc| - 1
      invariant 0 <= i <= |desc| - 1
      invariant totalDays == SumOfGaps(desc[..i + 1])
    {
      var diff := desc[i] - desc[i + 1];
      assert desc[..i + 2][..i + 1] == desc[..i + 1];
      totalDays := totalDays + ToDays(diff);
      i := i + 1;
    }
    assert desc[..i + 1] == desc;
    average := TruncDiv(totalDays, |desc| - 1);
  }

  predicate Descending(s: seq<int>) {
    forall i, j :: 0 <= i < j < |s| ==> s[i] >= s[j]
  }

  /** For a date-descending list the summed gaps are never negative and never
      exceed the whole span, truncated, from the oldest to the newest date. */
  lemma {:induction false} SumOfGapsBounds(desc: seq<int>)
    requires |desc| >= 1 && Descending(desc)
    ensures 0 <= SumOfGaps(desc) <= ToDays(desc[0] - desc[|desc| - 1])
    decreases |desc|
  {
    if |desc| >= 2 {
      var init := desc[..|desc| - 1];
      SumOfGapsBounds(init);
      var n := |desc|;
      ToDaysSuperAdditive(desc[0] - desc[n - 2], desc[n - 2] - desc[n - 1]);
    }
  }

  /** The average of a date-descending history lies between zero and the
      truncated span divided by the number of gaps. */
  lemma AverageBounds(desc: seq<int>)
    requires |desc| >= 2 && Descending(desc)
    ensures 0 <= TruncDiv(SumOfGaps(desc), |desc| - 1)
    ensures TruncDiv(SumOfGaps(desc), |desc| - 1) * (|desc| - 1) <= ToDays(desc[0] - desc[|desc| - 1])
  {
    SumOfGapsBounds(desc);
  }
}
