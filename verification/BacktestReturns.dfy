/**
 Chaining of returns: however the daily returns are grouped into periods, compounding
 the period returns gives the last account value over the first.
 */
module BacktestReturns {

  predicate Positive(navs: seq<real>) { forall k :: 0 <= k < |navs| ==> navs[k] > 0.0 }

  /** `equity.pct_change().iloc[1:]`. */
  function Returns(navs: seq<real>): (r: seq<real>)
    requires Positive(navs)
  {
    if |navs| < 2 then []
    else
      var n := |navs| - 1;
      Returns(navs[..n]) + [navs[n] / navs[n - 1] - 1.0]
  }

  function Times(a: real, b: real): real { a * b }

  /** `np.prod(1 + group)`. */
  function Growth(daily: seq<real>): real {
    if daily == [] then 1.0 else Times(Growth(daily[..|daily| - 1]), 1.0 + daily[|daily| - 1])
  }

  /** The returns of one period. */
  function Group(daily: seq<real>, labels: seq<int>, period: int): seq<real>
    requires |labels| == |daily|
  {
    if daily == [] then []
    else
      var n := |daily| - 1;
      Group(daily[..n], labels[..n], period) + (if labels[n] == period then [daily[n]] else [])
  }

  /** The periods that occur, each once; labels of ascending dates make them ascending. */
  function Periods(labels: seq<int>): seq<int> {
    if labels == [] then []
    else
      var before, last := Periods(labels[..|labels| - 1]), labels[|labels| - 1];
      if last in before then before else before + [last]
  }

  /** The reported list: one compounded return per period. */
  function PeriodReturns(daily: seq<real>, labels: seq<int>): seq<real>
    requires |labels| == |daily|
  {
    var periods := Periods(labels);
    seq(|periods|, k requires 0 <= k < |periods| => Growth(Group(daily, labels, periods[k])) - 1.0)
  }

  // --- products ---

  lemma Commutes(a: real, b: real, c: real)
    ensures Times(Times(a, b), c) == Times(Times(a, c), b)
    ensures Times(Times(a, b), c) == Times(a, Times(b, c))
    ensures Times(a, 1.0) == a == Times(1.0, a)
  {}

  lemma GrowthOneMore(daily: seq<real>, r: real)
    ensures Growth(daily + [r]) == Times(Growth(daily), 1.0 + r)
  {
    assert (daily + [r])[..|daily|] == daily;
  }

  /** The product of the growths of some periods. */
  function GrowthOver(periods: seq<int>, daily: seq<real>, labels: seq<int>): real
    requires |labels| == |daily|
  {
    if periods == [] then 1.0
    else
      var n := |periods| - 1;
      Times(GrowthOver(periods[..n], daily, labels), Growth(Group(daily, labels, periods[n])))
  }

  predicate DistinctPeriods(periods: seq<int>) { forall i, j :: 0 <= i < j < |periods| ==> periods[i] != periods[j] }

  lemma {:induction false} PeriodsAreDistinct(labels: seq<int>)
    ensures DistinctPeriods(Periods(labels)) && forall l :: l in labels <==> l in Periods(labels)
    decreases |labels|
  {
    if labels != [] {
      var init, last := labels[..|labels| - 1], labels[|labels| - 1];
      PeriodsAreDistinct(init);
      assert labels == init + [last];
    }
  }

  lemma GroupOneMore(daily: seq<real>, labels: seq<int>, r: real, mark: int, period: int)
    requires |labels| == |daily|
    ensures Growth(Group(daily + [r], labels + [mark], period)) ==
      (if mark == period then Times(Growth(Group(daily, labels, period)), 1.0 + r)
       else Growth(Group(daily, labels, period)))
  {
    assert (daily + [r])[..|daily|] == daily && (labels + [mark])[..|labels|] == labels;
    if mark == period {
      GrowthOneMore(Group(daily, labels, period), r);
    } else {
      assert Group(daily + [r], labels + [mark], period) == Group(daily, labels, period);
    }
  }

  /** One more return multiplies exactly one period's growth. */
  lemma {:induction false} OneFactor(periods: seq<int>, daily: seq<real>, labels: seq<int>, r: real, mark: int)
    requires |labels| == |daily| && DistinctPeriods(periods)
    ensures GrowthOver(periods, daily + [r], labels + [mark]) ==
      (if mark in periods then Times(GrowthOver(periods, daily, labels), 1.0 + r)
       else GrowthOver(periods, daily, labels))
    decreases |periods|
  {
    hide Times, Group, Growth;
    if periods != [] {
      var init, last := periods[..|periods| - 1], periods[|periods| - 1];
      assert periods == init + [last];
      OneFactor(init, daily, labels, r, mark);
      GroupOneMore(daily, labels, r, mark, last);
      Commutes(GrowthOver(init, daily, labels), Growth(Group(daily, labels, last)), 1.0 + r);
    }
  }

  lemma {:induction false} NoGroup(daily: seq<real>, labels: seq<int>, period: int)
    requires |labels| == |daily| && period !in labels
    ensures Group(daily, labels, period) == []
    decreases |daily|
  {
    if daily != [] { NoGroup(daily[..|daily| - 1], labels[..|labels| - 1], period); }
  }

  lemma PeriodsOneMore(labels: seq<int>, mark: int)
    ensures Periods(labels + [mark]) ==
      (if mark in Periods(labels) then Periods(labels) else Periods(labels) + [mark])
  {
    assert (labels + [mark])[..|labels|] == labels;
  }

  lemma OverOneMore(periods: seq<int>, period: int, daily: seq<real>, labels: seq<int>)
    requires |labels| == |daily|
    ensures GrowthOver(periods + [period], daily, labels) ==
      Times(GrowthOver(periods, daily, labels), Growth(Group(daily, labels, period)))
    ensures GrowthOver([], daily, labels) == 1.0 == Growth([])
  {
    assert (periods + [period])[..|periods|] == periods;
  }

  /** Grouping and compounding loses nothing: the periods together grow as the days do. */
  lemma {:induction false} PeriodsCompound(daily: seq<real>, labels: seq<int>)
    requires |labels| == |daily|
    ensures GrowthOver(Periods(labels), daily, labels) == Growth(daily)
    decreases |daily|
  {
    hide Times, Group, Growth, GrowthOver, Periods, DistinctPeriods;
    if daily == [] {
      OverOneMore([], 0, daily, labels);
      assert Periods(labels) == [] by { NoPeriods(labels); }
    } else {
      var n := |daily| - 1;
      var init, marks, r, mark := daily[..n], labels[..n], daily[n], labels[n];
      var before := Periods(marks);
      assert daily == init + [r] && labels == marks + [mark];
      PeriodsCompound(init, marks);
      PeriodsAreDistinct(marks);
      PeriodsOneMore(marks, mark);
      OneFactor(before, init, marks, r, mark);
      GrowthOneMore(init, r);
      if mark !in before { NewPeriod(before, init, marks, r, mark); }
    }
  }

  lemma NoPeriods(labels: seq<int>)
    requires labels == []
    ensures Periods(labels) == []
  {}

  lemma NewPeriod(before: seq<int>, init: seq<real>, marks: seq<int>, r: real, mark: int)
    requires |marks| == |init| && before == Periods(marks) && mark !in before
    ensures GrowthOver(before + [mark], init + [r], marks + [mark]) == Times(GrowthOver(before, init, marks), 1.0 + r)
  {
    hide Times, Group, Growth, GrowthOver, Periods;
    PeriodsAreDistinct(marks);
    OneFactor(before, init, marks, r, mark);
    NoGroup(init, marks, mark);
    GroupOneMore(init, marks, r, mark, mark);
    OverOneMore(before, mark, init + [r], marks + [mark]);
    Commutes(1.0 + r, 1.0, 1.0);
  }

  lemma {:induction false} ReportedCompound(daily: seq<real>, labels: seq<int>, n: nat)
    requires |labels| == |daily| && n <= |Periods(labels)|
    ensures Growth(PeriodReturns(daily, labels)[..n]) == GrowthOver(Periods(labels)[..n], daily, labels)
  {
    hide Times, Group, Growth, GrowthOver;
    var reported, periods := PeriodReturns(daily, labels), Periods(labels);
    if n == 0 {
      OverOneMore([], 0, daily, labels);
      assert periods[..n] == [] && reported[..n] == [];
    } else {
      ReportedCompound(daily, labels, n - 1);
      assert reported[..n] == reported[..n - 1] + [reported[n - 1]];
      GrowthOneMore(reported[..n - 1], reported[n - 1]);
      assert periods[..n] == periods[..n - 1] + [periods[n - 1]];
      OverOneMore(periods[..n - 1], periods[n - 1], daily, labels);
    }
  }

  /** Daily returns compound to the last value over the first. */
  lemma {:induction false} DaysChain(navs: seq<real>)
    requires navs != [] && Positive(navs)
    ensures |Returns(navs)| == |navs| - 1
    ensures Growth(Returns(navs)) == navs[|navs| - 1] / navs[0]
    decreases |navs|
  {
    hide Times, Growth;
    if |navs| == 1 {
      NoGrowth(navs[0]);
    } else {
      var n := |navs| - 1;
      DaysChain(navs[..n]);
      GrowthOneMore(Returns(navs[..n]), navs[n] / navs[n - 1] - 1.0);
      Telescope(navs[0], navs[n - 1], navs[n]);
    }
  }

  lemma NoGrowth(value: real)
    requires value > 0.0
    ensures Growth([]) == 1.0 == value / value
  {}

  lemma Telescope(first: real, before: real, last: real)
    requires first > 0.0 && before > 0.0
    ensures Times(before / first, 1.0 + (last / before - 1.0)) == last / first
  {
    assert before / first * (last / before) == last / first;
  }

  /** Monthly, annual or any other periods: the reported returns chain to last over first, as the daily ones do. */
  lemma PeriodsChain(navs: seq<real>, labels: seq<int>)
    requires navs != [] && Positive(navs) && |labels| == |navs| - 1
    ensures |Returns(navs)| == |labels|
    ensures Growth(PeriodReturns(Returns(navs), labels)) == navs[|navs| - 1] / navs[0]
  {
    DaysChain(navs);
    PeriodsCompound(Returns(navs), labels);
    var n := |Periods(labels)|;
    ReportedCompound(Returns(navs), labels, n);
    assert PeriodReturns(Returns(navs), labels)[..n] == PeriodReturns(Returns(navs), labels);
    assert Periods(labels)[..n] == Periods(labels);
  }
}
