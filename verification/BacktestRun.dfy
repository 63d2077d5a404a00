/**
 The simulation's day-by-day state and the figures computed from it afterwards. The
 broker that fills orders is outside; its account value is read once a day.
 */
module BacktestRun {
  import opened Common
  import opened BacktestWeights
  import opened BacktestOrders
  import BacktestReturns

  // --- one day's decision ---

  type Row = seq<(string, Option<real>)>

  /** What the strategy sees on one bar; `number` counts bars from one. */
  datatype Day = Day(
    number: nat, date: int, week: (int, int), early: bool, nav: real, cash: real, benchmark: real,
    signals: Row, volatility: map<string, Option<real>>, parity: Parity, datas: seq<Data>)

  predicate DistinctRow(row: Row) { forall i, j :: 0 <= i < j < |row| ==> row[i].0 != row[j].0 }

  function RowSymbols(row: Row): set<string> { set r | r in row :: r.0 }

  /** Sector caps are active only below one, and then every security has a sector. */
  predicate Sectored(row: Row, sectors: map<string, string>, s: Settings) {
    s.sectorLimit < 1.0 ==> RowSymbols(row) <= sectors.Keys
  }

  ghost predicate ValidDay(d: Day, sectors: map<string, string>, s: Settings) {
    && DistinctRow(d.signals) && Sectored(d.signals, sectors, s)
    && VolsAreNotNegative(d.volatility) && PositiveParity(d.parity) && ValidDatas(d.datas)
  }

  /** `DayWeights` is scaled when caps apply; the totals of all held sectors are then positive. */
  function DayWeights(d: Day, sectors: map<string, string>, s: Settings): seq<Entry> {
    var weights := TargetWeights(d.signals, d.volatility, d.parity, s);
    if s.sectorLimit < 1.0 && Scalable(weights, sectors) then Scaled(weights, sectors, s.sectorLimit) else weights
  }

  predicate Scalable(weights: seq<Entry>, sectors: map<string, string>) {
    AllIn(weights, sectors) && forall e :: e in weights ==> SectorTotal(weights, sectors, sectors[e.symbol]) > 0.0
  }

  // --- every held symbol comes from the row ---

  lemma {:induction false} KnownSymbols(row: Row)
    ensures Symbols(Known(row)) <= RowSymbols(row)
    ensures DistinctRow(row) ==> Distinct(Known(row))
    decreases |row|
  {
    if row != [] {
      var init, last := row[..|row| - 1], row[|row| - 1];
      KnownSymbols(init);
      assert row == init + [last];
      if DistinctRow(row) {
        assert forall r :: r in init ==> r.0 != last.0;
        forall e | e in Known(init) ensures e.symbol != last.0 { assert e.symbol in Symbols(Known(init)); }
      }
      forall e | e in Known(row) ensures e.symbol in RowSymbols(row) {
        if e in Known(init) { assert e.symbol in Symbols(Known(init)); } else { assert last in row; }
      }
    }
  }

  lemma {:induction false} SignedSymbols(s: seq<Entry>, longOnly: bool)
    ensures forall e :: e in Signed(s, longOnly) ==> e in s
    ensures Distinct(s) ==> Distinct(Signed(s, longOnly))
    decreases |s|
  {
    if s != [] {
      var init, last := s[..|s| - 1], s[|s| - 1];
      SignedSymbols(init, longOnly);
      assert s == init + [last];
      assert Distinct(s) ==> forall e :: e in init ==> e.symbol != last.symbol;
    }
  }

  lemma {:induction false} WithoutSymbols(s: seq<Entry>, gone: set<string>)
    ensures forall e :: e in Without(s, gone) <==> e in s && e.symbol !in gone
    ensures Distinct(s) ==> Distinct(Without(s, gone))
    decreases |s|
  {
    if s != [] {
      var init, last := s[..|s| - 1], s[|s| - 1];
      WithoutSymbols(init, gone);
      assert s == init + [last];
      assert Distinct(s) ==> forall e :: e in init ==> e.symbol != last.symbol;
    }
  }

  lemma AppendDistinct(s: seq<Entry>, e: Entry)
    ensures Distinct(s + [e]) <==> Distinct(s) && e.symbol !in Symbols(s)
  {
    var all := s + [e];
    if Distinct(all) {
      forall x | x in s ensures x.symbol != e.symbol {
        var i :| 0 <= i < |s| && s[i] == x;
        assert all[i].symbol != all[|s|].symbol;
      }
      forall i, j | 0 <= i < j < |s| ensures s[i].symbol != s[j].symbol { assert all[i].symbol != all[j].symbol; }
    }
    if Distinct(s) && e.symbol !in Symbols(s) {
      forall i | 0 <= i < |s| ensures all[i].symbol != e.symbol { assert s[i] in s && s[i].symbol in Symbols(s); }
    }
  }

  lemma SameSymbols(a: seq<Entry>, b: seq<Entry>)
    requires multiset(a) == multiset(b)
    ensures Symbols(a) == Symbols(b)
  {
    forall e ensures e in a <==> e in b { assert e in multiset(a) <==> e in multiset(b); }
  }

  lemma {:induction false} InsertDownDistinct(ranked: seq<Entry>, e: Entry)
    requires Distinct(ranked) && e.symbol !in Symbols(ranked)
    ensures Distinct(InsertDown(ranked, e))
    decreases |ranked|
  {
    hide Distinct;
    AppendDistinct(ranked, e);
    if ranked != [] {
      var init, last := ranked[..|ranked| - 1], ranked[|ranked| - 1];
      assert ranked == init + [last];
      AppendDistinct(init, last);
      assert e.symbol !in Symbols(init);
      assert last in ranked;
      InsertDownDistinct(init, e);
      InsertDownSame(init, e);
      SameSymbols(InsertDown(init, e), init + [e]);
      AppendDistinct(InsertDown(init, e), last);
      assert last.symbol !in Symbols(init + [e]);
    }
  }

  lemma {:induction false} RankedDistinct(s: seq<Entry>)
    requires Distinct(s)
    ensures Distinct(Ranked(s)) && forall e :: e in Ranked(s) <==> e in s
    decreases |s|
  {
    hide Distinct, Descending, InsertDown;
    RankedIsRanked(s);
    forall e ensures e in Ranked(s) <==> e in s { assert e in multiset(Ranked(s)) <==> e in multiset(s); }
    if s == [] {
      assert Ranked(s) == s;
    } else {
      var init, last := s[..|s| - 1], s[|s| - 1];
      assert s == init + [last];
      AppendDistinct(init, last);
      RankedDistinct(init);
      InsertDownDistinct(Ranked(init), last);
    }
  }

  /** No security is on both sides, and each is one of the row's. */
  lemma SelectedSymbols(row: Row, s: Settings)
    requires DistinctRow(row)
    ensures Distinct(Selected(row, s)) && Symbols(Selected(row, s)) <= RowSymbols(row)
  {
    var valid := Known(row);
    KnownSymbols(row);
    if ByRank(s.strategy) {
      var ranked := Ranked(valid);
      RankedDistinct(valid);
      RankedSides(ranked, s);
      forall e | e in Selected(row, s) ensures e.symbol in RowSymbols(row) {
        assert e.symbol in Symbols(ranked);
        var r :| r in ranked && r.symbol == e.symbol;
        assert r in valid && r.symbol in Symbols(valid);
      }
    } else {
      SignedSymbols(valid, s.longOnly);
      forall e | e in Selected(row, s) ensures e.symbol in RowSymbols(row) {
        assert e in valid && e.symbol in Symbols(valid);
      }
    }
  }

  lemma RankedSides(ranked: seq<Entry>, s: Settings)
    requires Distinct(ranked)
    ensures var positive := Top(ranked, s.topN);
      var negative := if s.longOnly then [] else Without(Bottom(ranked, s.topN), Symbols(positive));
      var sides := Sides(positive, 1.0) + Sides(negative, -1.0);
      Distinct(sides) && Symbols(sides) <= Symbols(ranked)
  {
    hide InsertDown, Without;
    var positive := Top(ranked, s.topN);
    var negative := if s.longOnly then [] else Without(Bottom(ranked, s.topN), Symbols(positive));
    WithoutSymbols(Bottom(ranked, s.topN), Symbols(positive));
    TwoSides(positive, negative);
    forall e | e in positive + negative ensures e in ranked {}
  }

  /** Two lists without a common security, given their signs. */
  lemma TwoSides(positive: seq<Entry>, negative: seq<Entry>)
    requires Distinct(positive) && Distinct(negative) && forall e :: e in negative ==> e.symbol !in Symbols(positive)
    ensures var sides := Sides(positive, 1.0) + Sides(negative, -1.0);
      Distinct(sides) && Symbols(sides) == Symbols(positive + negative)
  {
    var sides, both := Sides(positive, 1.0) + Sides(negative, -1.0), positive + negative;
    assert |sides| == |both| && forall k :: 0 <= k < |both| ==> sides[k].symbol == both[k].symbol;
    forall i, j | 0 <= i < j < |both| ensures both[i].symbol != both[j].symbol {
      if i < |positive| <= j {
        assert negative[j - |positive|] in negative && positive[i] in positive;
        assert positive[i].symbol in Symbols(positive);
      }
    }
    forall e | e in both ensures e.symbol in Symbols(sides) {
      var k :| 0 <= k < |both| && both[k] == e;
      assert sides[k] in sides;
    }
    forall e | e in sides ensures e.symbol in Symbols(both) {
      var k :| 0 <= k < |sides| && sides[k] == e;
      assert both[k] in both;
    }
  }

  // --- the day's weights keep every cap ---

  /**
   What the weights recorded for a day promise: gross and position limits, sector limits
   where they are set, one weight a security, and nobody on the wrong side.
   */
  ghost predicate GoodWeights(weights: seq<Entry>, d: Day, sectors: map<string, string>, s: Settings) {
    && WithinLimits(weights, s)
    && (weights != [] ==>
          && |weights| == |Selected(d.signals, s)|
          && forall k :: 0 <= k < |weights| ==>
               && weights[k].symbol == Selected(d.signals, s)[k].symbol
               && SameSign(weights[k].value, Selected(d.signals, s)[k].value))
    && (s.sectorLimit < 1.0 ==>
          && AllIn(weights, sectors)
          && forall sector :: SectorTotal(weights, sectors, sector) <= s.sectorLimit)
  }

  lemma TargetsAreSectored(d: Day, sectors: map<string, string>, s: Settings)
    requires s.Valid() && ValidDay(d, sectors, s) && s.sectorLimit < 1.0
    ensures var weights := TargetWeights(d.signals, d.volatility, d.parity, s);
      NonZero(weights) && AllIn(weights, sectors) && Scalable(weights, sectors)
  {
    hide TargetWeights, Selected, Magnitudes, WithinLimits, SectorTotal, DistinctRow, Distinct;
    var weights := TargetWeights(d.signals, d.volatility, d.parity, s);
    TargetsWithinLimits(d.signals, d.volatility, d.parity, s);
    SelectedSymbols(d.signals, s);
    forall e | e in weights ensures e.value != 0.0 && e.symbol in sectors {
      var k :| 0 <= k < |weights| && weights[k] == e;
      assert Selected(d.signals, s)[k] in Selected(d.signals, s);
      assert Selected(d.signals, s)[k].symbol in Symbols(Selected(d.signals, s));
    }
    SectorsCapped(weights, sectors, s.sectorLimit, "");
  }

  lemma DayKeepsTheCaps(d: Day, sectors: map<string, string>, s: Settings)
    requires s.Valid() && ValidDay(d, sectors, s)
    ensures GoodWeights(DayWeights(d, sectors, s), d, sectors, s)
  {
    hide TargetWeights, Selected, Magnitudes, SectorTotal, DistinctRow, Scaled, Gross;
    var targets := TargetWeights(d.signals, d.volatility, d.parity, s);
    TargetsWithinLimits(d.signals, d.volatility, d.parity, s);
    if s.sectorLimit < 1.0 {
      TargetsAreSectored(d, sectors, s);
      var scaled := Scaled(targets, sectors, s.sectorLimit);
      forall sector ensures
        && AllIn(scaled, sectors) && SectorTotal(scaled, sectors, sector) <= s.sectorLimit && Shrinks(targets, scaled)
      {
        SectorsCapped(targets, sectors, s.sectorLimit, sector);
      }
      assert Shrinks(targets, scaled) by { SectorsCapped(targets, sectors, s.sectorLimit, ""); }
      ShrinkingLowersGross(targets, scaled);
      forall e | e in scaled ensures Abs(e.value) <= s.positionLimit && (s.longOnly ==> e.value > 0.0) {
        var k :| 0 <= k < |scaled| && scaled[k] == e;
        assert targets[k] in targets;
      }
    }
  }

  /**
   From signals to orders: the whole quantities planned on a rebalancing day, filled at
   their sizing prices, respect the gross, position, sector and cash limits, and cash
   never dips below the lower of its start and the minimum on the way.
   */
  lemma RebalancingKeepsTheCaps(d: Day, sectors: map<string, string>, s: Settings)
    requires s.Valid() && ValidDay(d, sectors, s) && d.nav > 0.0 && d.nav == d.cash + HeldValue(d.datas)
    ensures var weights := DayWeights(d, sectors, s);
      var orders := Orders(d.nav, weights, d.datas);
      && PlannedGross(d.nav, weights, d.datas) <= Scale(s.Cap(), d.nav)
      && (forall x :: x in d.datas ==> Exposure(d.nav, weights, x) <= Scale(s.positionLimit, d.nav))
      && CashSuffices(d.cash, orders, Scale(s.minimumCash, d.nav))
  {
    hide DayWeights, Orders, PlannedGross, PlannedValue, HeldValue, Exposure, Scale, CashSuffices, Gross, DistinctRow;
    var weights := DayWeights(d, sectors, s);
    DayKeepsTheCaps(d, sectors, s);
    OrdersKeepEnoughCash(d.nav, d.cash, weights, d.datas, s);
    forall x | x in d.datas ensures Exposure(d.nav, weights, x) <= Scale(s.positionLimit, d.nav) {
      PositionWithinCap(d.nav, weights, x, s.positionLimit);
    }
  }

  /** The same for the securities `part` of one sector. */
  lemma RebalancingKeepsSectorCaps(
    d: Day, sectors: map<string, string>, s: Settings, part: seq<Data>, sector: string)
    requires s.Valid() && ValidDay(d, sectors, s) && d.nav > 0.0 && s.sectorLimit < 1.0 && ValidDatas(part)
    requires forall x :: x in part ==> x.symbol in sectors && sectors[x.symbol] == sector
    ensures PlannedGross(d.nav, DayWeights(d, sectors, s), part) <= Scale(s.sectorLimit, d.nav)
  {
    hide DayWeights, PlannedGross, Scale, SectorTotal, Gross, DistinctRow;
    DayKeepsTheCaps(d, sectors, s);
    SectorPlanWithinCap(d.nav, DayWeights(d, sectors, s), part, sectors, sector, s.sectorLimit);
  }

  // --- the curve ---

  datatype Point = Point(date: int, equity: real, benchmark: real, drawdown: real, cash: real)

  /** The running maximum, starting at the initial capital. */
  function Peak(capital: real, navs: seq<real>): (peak: real)
    requires capital > 0.0
    ensures peak >= capital
  {
    if navs == [] then capital else Greatest(Peak(capital, navs[..|navs| - 1]), navs[|navs| - 1])
  }

  /** The day's point after the account values of the days before. */
  function PointOf(d: Day, capital: real, before: seq<real>): Point
    requires capital > 0.0
  {
    Point(d.date, d.nav, d.benchmark, d.nav / Peak(capital, before + [d.nav]) - 1.0, d.cash)
  }

  function Navs(curve: seq<Point>): seq<real> { seq(|curve|, k requires 0 <= k < |curve| => curve[k].equity) }

  predicate CurveSound(curve: seq<Point>, capital: real)
    requires capital > 0.0
  {
    forall k :: 0 <= k < |curve| ==>
         curve[k].drawdown == curve[k].equity / Peak(capital, Navs(curve)[..k + 1]) - 1.0
  }

  lemma OnePointMore(curve: seq<Point>, d: Day, capital: real)
    requires capital > 0.0
    ensures Peak(capital, Navs(curve) + [d.nav]) == Greatest(Peak(capital, Navs(curve)), d.nav)
    ensures Navs(curve + [PointOf(d, capital, Navs(curve))]) == Navs(curve) + [d.nav]
    ensures CurveSound(curve, capital) ==> CurveSound(curve + [PointOf(d, capital, Navs(curve))], capital)
  {
    assert (Navs(curve) + [d.nav])[..|curve|] == Navs(curve);
    if CurveSound(curve, capital) { CurveGrows(curve, PointOf(d, capital, Navs(curve)), capital); }
  }

  lemma CurveGrows(curve: seq<Point>, point: Point, capital: real)
    requires capital > 0.0 && CurveSound(curve, capital)
    requires point.drawdown == point.equity / Peak(capital, Navs(curve) + [point.equity]) - 1.0
    ensures CurveSound(curve + [point], capital)
  {
    var after := curve + [point];
    assert Navs(after) == Navs(curve) + [point.equity];
    forall k | 0 <= k < |after|
      ensures after[k].drawdown == after[k].equity / Peak(capital, Navs(after)[..k + 1]) - 1.0
    {
      if k < |curve| {
        assert Navs(after)[..k + 1] == Navs(curve)[..k + 1];
      } else {
        assert Navs(after)[..k + 1] == Navs(after);
      }
    }
  }

  lemma ScaledLength(weights: seq<Entry>, sectors: map<string, string>, limit: real)
    requires AllIn(weights, sectors) && Scalable(weights, sectors)
    ensures |Scaled(weights, sectors, limit)| == |weights|
  {}

  lemma ScaledAt(weights: seq<Entry>, sectors: map<string, string>, limit: real, k: nat)
    requires k < |weights| && AllIn(weights, sectors) && Scalable(weights, sectors)
    ensures weights[k].symbol in sectors && SectorTotal(weights, sectors, sectors[weights[k].symbol]) > 0.0
    ensures Scaled(weights, sectors, limit)[..k + 1] ==
      Scaled(weights, sectors, limit)[..k]
      + [ScaledEntry(weights[k], SectorTotal(weights, sectors, sectors[weights[k].symbol]), limit)]
  {}

  lemma TotalIsThere(totals: map<string, real>, weights: seq<Entry>, sectors: map<string, string>, e: Entry)
    requires AllIn(weights, sectors) && TotalsOf(totals, weights, sectors) && e in weights
    ensures e.symbol in sectors && sectors[e.symbol] in totals
    ensures totals[sectors[e.symbol]] == SectorTotal(weights, sectors, sectors[e.symbol])
  {}

  // --- the strategy object ---

  datatype Snapshot = Snapshot(date: int, week: (int, int), weights: seq<Entry>)

  /** One security as held at the close; its weight is missing when the account is worth nothing. */
  datatype Held = Held(symbol: string, quantity: int, price: real, weight: Option<real>)

  function HeldOf(x: Data, nav: real): Held {
    Held(x.symbol, x.position, x.close, if nav > 0.0 then Some(x.position as real * x.close / nav) else None)
  }

  function HeldOn(d: Day): seq<Held> {
    seq(|d.datas|, k requires 0 <= k < |d.datas| => HeldOf(d.datas[k], d.nav))
  }

  /** A completed order as the broker executed it. */
  datatype Fill = Fill(date: int, symbol: string, quantity: real, price: real, fee: real)

  /** A final status of an order. */
  datatype Final = Completed(fill: Fill) | Refused(symbol: string) | Withdrawn

  /** The curve starts with the capital, and no order precedes it. */
  predicate StartsAtCapital(curve: seq<Point>, capital: real, orders: nat) {
    if curve == [] then orders == 0 else curve[0].equity == capital
  }

  /** Two snapshots in a row are never of one week. */
  predicate WeeksDiffer(snapshots: seq<Snapshot>) {
    forall k :: 0 < k < |snapshots| ==> snapshots[k].week != snapshots[k - 1].week
  }

  /** Outstanding orders have references of their own. */
  predicate PendingSound(pending: seq<nat>, nextRef: nat) {
    && (forall r :: r in pending ==> r < nextRef)
    && forall i, j :: 0 <= i < j < |pending| ==> pending[i] != pending[j]
  }

  lemma PendingGrows(pending: seq<nat>, nextRef: nat)
    requires PendingSound(pending, nextRef)
    ensures PendingSound(pending + [nextRef], nextRef + 1)
  {
    var after := pending + [nextRef];
    forall i, j | 0 <= i < j < |after| ensures after[i] != after[j] {
      if j == |pending| { assert after[i] in pending; }
    }
  }

  class ResearchStrategy {
    const s: Settings
    const sectors: map<string, string>
    const bars: nat
    var lastWeek: Option<(int, int)>
    var peak: real
    var pending: seq<nat>
    var curve: seq<Point>
    var snapshots: seq<Snapshot>
    var holdings: seq<seq<Held>>
    var fills: seq<Fill>
    var rejected: seq<string>
    var nextRef: nat

    ghost predicate Valid()
      reads this
    {
      && s.Valid()
      && CurveSound(curve, s.capital) && peak == Peak(s.capital, Navs(curve))
      && (snapshots != [] ==> lastWeek == Some(snapshots[|snapshots| - 1].week))
      && (s.weekly ==> WeeksDiffer(snapshots))
      && PendingSound(pending, nextRef)
      && StartsAtCapital(curve, s.capital, nextRef)
    }

    /** Until this strategy has submitted an order, the account is worth the capital. */
    predicate Undisturbed(d: Day)
      reads this
    {
      nextRef == 0 ==> d.nav == s.capital
    }

    constructor (s: Settings, sectors: map<string, string>, bars: nat)
      requires s.Valid()
      ensures Valid() && this.s == s && this.sectors == sectors && this.bars == bars
      ensures curve == [] && snapshots == [] && pending == [] && nextRef == 0
      ensures holdings == [] && fills == [] && rejected == []
    {
      this.s, this.sectors, this.bars := s, sectors, bars;
      lastWeek, peak, pending, curve, snapshots := None, s.capital, [], [], [];
      holdings, fills, rejected, nextRef := [], [], [], 0;
    }

    /** Enough history, a new week (or any day), nothing outstanding, and a next bar to fill on. */
    predicate Rebalances(d: Day)
      reads this
    {
      && d.number > s.slow && (!s.weekly || lastWeek != Some(d.week))
      && pending == [] && d.number != bars
    }

    method ScaleSectors(weights: seq<Entry>) returns (scaled: seq<Entry>)
      requires s.Valid() && NonZero(weights) && AllIn(weights, sectors) && Scalable(weights, sectors)
      ensures scaled == Scaled(weights, sectors, s.sectorLimit)
    {
      hide SectorTotal, TotalsOf, ScaledEntry, NonZero, AllIn, Scaled;
      var totals := SectorTotals(weights, sectors);
      scaled := [];
      var k := 0;
      ScaledLength(weights, sectors, s.sectorLimit);
      while k < |weights|
        invariant 0 <= k <= |weights| && scaled == Scaled(weights, sectors, s.sectorLimit)[..k]
      {
        var e := weights[k];
        assert e in weights;
        TotalIsThere(totals, weights, sectors, e);
        ScaledAt(weights, sectors, s.sectorLimit, k);
        scaled := scaled + [ScaledEntry(e, totals[sectors[e.symbol]], s.sectorLimit)];
        k := k + 1;
      }
    }

    method PlanTargets(nav: real, weights: seq<Entry>, datas: seq<Data>) returns (targets: seq<Order>)
      requires ValidDatas(datas)
      ensures targets == Targets(nav, weights, datas)
    {
      targets := [];
      var k := 0;
      while k < |datas|
        invariant 0 <= k <= |datas| && targets == Targets(nav, weights, datas)[..k]
      {
        assert datas[k] in datas;
        targets := targets + [Target(nav, weights, datas[k])];
        k := k + 1;
      }
    }

    /** One order for every nonzero change; each waits in `pending` until it is final. */
    method Submit(sorted: seq<Order>) returns (orders: seq<Order>)
      requires Valid() && pending == [] && curve != []
      modifies this`pending, this`nextRef
      ensures Valid() && orders == NonZeroOrders(sorted) && |pending| == |orders|
    {
      hide CurveSound, WeeksDiffer;
      orders := [];
      var k := 0;
      assert sorted[..0] == [];
      while k < |sorted|
        invariant 0 <= k <= |sorted| && PendingSound(pending, nextRef)
        invariant orders == NonZeroOrders(sorted[..k]) && |pending| == |orders|
      {
        assert sorted[..k + 1][..k] == sorted[..k];
        if sorted[k].delta != 0 {
          orders := orders + [sorted[k]];
          PendingGrows(pending, nextRef);
          pending, nextRef := pending + [nextRef], nextRef + 1;
        }
        k := k + 1;
      }
      assert sorted[..k] == sorted;
    }

    method ChooseWeights(d: Day) returns (weights: seq<Entry>)
      requires s.Valid() && ValidDay(d, sectors, s)
      ensures weights == DayWeights(d, sectors, s)
    {
      hide TargetWeights, WithinLimits, SectorTotal, DistinctRow;
      weights := TargetWeights(d.signals, d.volatility, d.parity, s);
      if s.sectorLimit < 1.0 {
        TargetsAreSectored(d, sectors, s);
        weights := ScaleSectors(weights);
      }
    }

    /** Record the day's point of the curve and its holdings. */
    method RecordPoint(d: Day)
      requires Valid() && !d.early && Undisturbed(d)
      modifies this`peak, this`curve, this`holdings
      ensures Valid() && Navs(curve) == Navs(old(curve)) + [d.nav]
      ensures curve == old(curve) + [PointOf(d, s.capital, Navs(old(curve)))]
      ensures holdings == old(holdings) + [HeldOn(d)]
    {
      hide CurveSound, Peak, Navs, HeldOn, WeeksDiffer, PendingSound;
      OnePointMore(curve, d, s.capital);
      peak := Greatest(peak, d.nav);
      curve := curve + [Point(d.date, d.nav, d.benchmark, d.nav / peak - 1.0, d.cash)];
      RecordHoldings(d);
    }

    method RecordHoldings(d: Day)
      modifies this`holdings
      ensures holdings == old(holdings) + [HeldOn(d)]
    {
      hide HeldOf;
      var held: seq<Held> := [];
      var k := 0;
      while k < |d.datas|
        invariant 0 <= k <= |d.datas| && held == HeldOn(d)[..k]
      {
        held := held + [HeldOf(d.datas[k], d.nav)];
        k := k + 1;
      }
      assert held == HeldOn(d);
      holdings := holdings + [held];
    }

    /** Choose, record and submit: the day's weights and their orders. */
    method Rebalance(d: Day) returns (orders: seq<Order>)
      requires Valid() && ValidDay(d, sectors, s) && pending == [] && curve != []
      requires s.weekly ==> lastWeek != Some(d.week)
      modifies this`lastWeek, this`snapshots, this`pending, this`nextRef
      ensures Valid()
      ensures snapshots == old(snapshots) + [Snapshot(d.date, d.week, DayWeights(d, sectors, s))]
      ensures lastWeek == Some(d.week) && |pending| == |orders|
      ensures orders == Orders(d.nav, DayWeights(d, sectors, s), d.datas)
    {
      hide CurveSound, DistinctRow, DayWeights, ByDelta, NonZeroOrders, Targets, PositiveParity, VolsAreNotNegative;
      lastWeek := Some(d.week);
      var weights := ChooseWeights(d);
      snapshots := snapshots + [Snapshot(d.date, d.week, weights)];
      var targets := PlanTargets(d.nav, weights, d.datas);
      orders := Submit(ByDelta(targets));
    }

    /** One bar. `None` stands for the error that ends the simulation. */
    method Next(d: Day) returns (r: Option<seq<Order>>)
      requires Valid() && ValidDay(d, sectors, s) && Undisturbed(d)
      modifies this
      ensures Valid() && fills == old(fills) && rejected == old(rejected)
      ensures r.None? <==> !d.early && d.nav <= 0.0
      ensures d.early ==> curve == old(curve) && holdings == old(holdings)
      ensures !d.early ==>
        && curve == old(curve) + [PointOf(d, s.capital, Navs(old(curve)))]
        && holdings == old(holdings) + [HeldOn(d)]
      ensures d.early || d.nav <= 0.0 || !old(Rebalances(d)) ==>
        && snapshots == old(snapshots) && pending == old(pending) && lastWeek == old(lastWeek)
        && (r.Some? ==> r.value == [])
      ensures !d.early && d.nav > 0.0 && old(Rebalances(d)) ==>
        && snapshots == old(snapshots) + [Snapshot(d.date, d.week, DayWeights(d, sectors, s))]
        && lastWeek == Some(d.week) && |pending| == |r.value|
        && r.value == Orders(d.nav, DayWeights(d, sectors, s), d.datas)
    {
      hide CurveSound, ValidDay, DayWeights, Orders, PointOf, HeldOn, WeeksDiffer, PendingSound;
      if d.early { return Some([]); }
      RecordPoint(d);
      if d.nav <= 0.0 { return None; }
      var rebalance := !s.weekly || lastWeek != Some(d.week);
      if d.number <= s.slow || !rebalance || pending != [] || d.number == bars { return Some([]); }
      var orders := Rebalance(d);
      return Some(orders);
    }

    /**
     The broker reports a final status: the order no longer holds up the next rebalancing,
     and is recorded by its kind.
     */
    method NotifyOrder(ref: nat, status: Final)
      requires Valid()
      modifies this`pending, this`fills, this`rejected
      ensures Valid() && ref !in pending
      ensures forall x :: x in pending <==> x in old(pending) && x != ref
      ensures fills == old(fills) + (if status.Completed? then [status.fill] else [])
      ensures rejected == old(rejected) + (if status.Refused? then [status.symbol] else [])
    {
      hide CurveSound, WeeksDiffer, PendingSound;
      pending := Removed(ref);
      match status {
        case Completed(fill) => fills := fills + [fill];
        case Refused(symbol) => rejected := rejected + [symbol];
        case Withdrawn =>
      }
    }

    method Removed(ref: nat) returns (left: seq<nat>)
      requires PendingSound(pending, nextRef)
      ensures PendingSound(left, nextRef) && forall x :: x in left <==> x in pending && x != ref
    {
      var k := 0;
      while k < |pending| && pending[k] != ref
        invariant 0 <= k <= |pending| && forall i :: 0 <= i < k ==> pending[i] != ref
      {
        k := k + 1;
      }
      if k == |pending| { return pending; }
      left := pending[..k] + pending[k + 1..];
      Removing(pending, k);
    }
  }

  lemma Removing(pending: seq<nat>, k: nat)
    requires k < |pending| && forall i, j :: 0 <= i < j < |pending| ==> pending[i] != pending[j]
    ensures var left := pending[..k] + pending[k + 1..];
      && (forall x :: x in left <==> x in pending && x != pending[k])
      && forall i, j :: 0 <= i < j < |left| ==> left[i] != left[j]
  {}

  // --- the figures ---

  /** The value at a point in time; before the first day it is the initial capital. */
  function At(capital: real, navs: seq<real>, k: nat): real
    requires k <= |navs|
  {
    if k == 0 then capital else navs[k - 1]
  }

  /** The fall from one point in time to a later one, as a (negative) return. */
  function Fall(capital: real, navs: seq<real>, from: nat, until: nat): real
    requires from <= |navs| && until <= |navs| && At(capital, navs, from) != 0.0
  {
    At(capital, navs, until) / At(capital, navs, from) - 1.0
  }

  predicate AllPositive(navs: seq<real>) { forall v :: v in navs ==> v > 0.0 }

  /** `min(row["drawdown"] for row in curve)`. */
  method MaxDrawdown(curve: seq<Point>) returns (worst: real)
    requires curve != []
    ensures (forall k :: 0 <= k < |curve| ==> worst <= curve[k].drawdown)
    ensures exists k :: 0 <= k < |curve| && worst == curve[k].drawdown
  {
    worst := curve[0].drawdown;
    var k := 1;
    while k < |curve|
      invariant 1 <= k <= |curve|
      invariant forall i :: 0 <= i < k ==> worst <= curve[i].drawdown
      invariant exists i :: 0 <= i < k && worst == curve[i].drawdown
    {
      if curve[k].drawdown < worst { worst := curve[k].drawdown; }
      k := k + 1;
    }
  }

  lemma {:induction false} PeakIsReached(capital: real, navs: seq<real>, n: nat) returns (at: nat)
    requires capital > 0.0 && n <= |navs|
    ensures at <= n && At(capital, navs, at) == Peak(capital, navs[..n])
    ensures forall i :: 0 <= i <= n ==> At(capital, navs, i) <= Peak(capital, navs[..n])
    decreases n
  {
    if n == 0 {
      at := 0;
    } else {
      at := PeakIsReached(capital, navs, n - 1);
      assert navs[..n][..n - 1] == navs[..n - 1];
      if navs[n - 1] >= Peak(capital, navs[..n - 1]) { at := n; }
    }
  }

  lemma HigherBase(later: real, low: real, high: real)
    requires later > 0.0 && 0.0 < low <= high
    ensures later / high <= later / low
  {}

  /** One pass with a running peak finds the worst fall between any two points in time, capital included. */
  lemma WorstFall(curve: seq<Point>, capital: real, worst: real)
    requires capital > 0.0 && CurveSound(curve, capital) && curve != [] && AllPositive(Navs(curve))
    requires forall k :: 0 <= k < |curve| ==> worst <= curve[k].drawdown
    requires exists k :: 0 <= k < |curve| && worst == curve[k].drawdown
    ensures var navs := Navs(curve);
      && (forall i, j :: 0 <= i <= j <= |navs| && 0 < j ==>
            At(capital, navs, i) > 0.0 && worst <= Fall(capital, navs, i, j))
      && exists i, j :: 0 <= i <= j <= |navs| && 0 < j && At(capital, navs, i) > 0.0
           && worst == Fall(capital, navs, i, j)
  {
    hide Fall;
    var navs := Navs(curve);
    forall i | 0 <= i <= |navs| ensures At(capital, navs, i) > 0.0 {
      if i > 0 { assert navs[i - 1] in navs; }
    }
    forall i, j | 0 <= i <= j <= |navs| && 0 < j ensures worst <= Fall(capital, navs, i, j) {
      assert worst <= curve[j - 1].drawdown;
      DrawdownIsWorst(curve, capital, i, j);
    }
    var k :| 0 <= k < |curve| && worst == curve[k].drawdown;
    var at := DrawdownIsFall(curve, capital, k + 1);
    assert worst == Fall(capital, navs, at, k + 1);
  }

  lemma DrawdownIsFall(curve: seq<Point>, capital: real, j: nat) returns (at: nat)
    requires capital > 0.0 && CurveSound(curve, capital) && 0 < j <= |curve|
    ensures at <= j && At(capital, Navs(curve), at) > 0.0 && curve[j - 1].drawdown == Fall(capital, Navs(curve), at, j)
  {
    at := PeakIsReached(capital, Navs(curve), j);
  }

  lemma DrawdownIsWorst(curve: seq<Point>, capital: real, i: nat, j: nat)
    requires capital > 0.0 && CurveSound(curve, capital) && i <= j && 0 < j <= |curve|
    requires At(capital, Navs(curve), i) > 0.0 && At(capital, Navs(curve), j) > 0.0
    ensures curve[j - 1].drawdown <= Fall(capital, Navs(curve), i, j)
  {
    var at := PeakIsReached(capital, Navs(curve), j);
    HigherBase(At(capital, Navs(curve), j), At(capital, Navs(curve), i), Peak(capital, Navs(curve)[..j]));
  }

  /**
   Total return is measured from the capital and the other returns from the first point.
   They agree, for every run of the strategy and any periods: the first point is recorded
   before any order, at the capital.
   */
  lemma TotalReturnAgrees(curve: seq<Point>, capital: real, orders: nat, labels: seq<int>)
    requires capital > 0.0 && StartsAtCapital(curve, capital, orders)
    requires curve != [] && |labels| == |curve| - 1 && BacktestReturns.Positive(Navs(curve))
    ensures var daily := BacktestReturns.Returns(Navs(curve));
      && |daily| == |labels|
      && curve[|curve| - 1].equity / capital - 1.0 == BacktestReturns.Growth(daily) - 1.0
        == BacktestReturns.Growth(BacktestReturns.PeriodReturns(daily, labels)) - 1.0
  {
    BacktestReturns.DaysChain(Navs(curve));
    BacktestReturns.PeriodsChain(Navs(curve), labels);
  }
}
