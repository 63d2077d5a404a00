/**
 One simulated day: recording the curve, deciding whether to rebalance, capping sectors,
 sizing whole quantities and submitting reductions before increases.
 */
module BacktestOrders {
  import opened BacktestWeights

  function Scale(x: real, nav: real): real { x * nav }

  lemma ScaleSum(a: real, b: real, nav: real)
    ensures Scale(a + b, nav) == Scale(a, nav) + Scale(b, nav)
    ensures Scale(0.0, nav) == 0.0 && Scale(1.0, nav) == nav
  {}

  lemma ScaleOrder(a: real, b: real, c: real)
    requires c > 0.0
    ensures a <= b ==> Scale(a, c) <= Scale(b, c)
    ensures a < b ==> Scale(a, c) < Scale(b, c)
  {
    Ordered(a, b, c);
  }

  // --- sector caps ---

  /** `sectors[symbol]` finds a sector for every weight. */
  predicate AllIn(weights: seq<Entry>, sectors: map<string, string>) {
    forall e :: e in weights ==> e.symbol in sectors
  }

  function Share(e: Entry, sectors: map<string, string>, sector: string): real
    requires e.symbol in sectors
  {
    if sectors[e.symbol] == sector then Abs(e.value) else 0.0
  }

  function SectorTotal(weights: seq<Entry>, sectors: map<string, string>, sector: string): real
    requires AllIn(weights, sectors)
  {
    if weights == [] then 0.0
    else SectorTotal(weights[..|weights| - 1], sectors, sector) + Share(weights[|weights| - 1], sectors, sector)
  }

  lemma SectorOneMore(weights: seq<Entry>, sectors: map<string, string>, sector: string)
    requires weights != [] && AllIn(weights, sectors)
    ensures SectorTotal(weights, sectors, sector) ==
      SectorTotal(weights[..|weights| - 1], sectors, sector) + Share(weights[|weights| - 1], sectors, sector)
  {}

  lemma NoSector(sectors: map<string, string>, sector: string)
    ensures SectorTotal([], sectors, sector) == 0.0
  {}

  function Factor(total: real, limit: real): real
    requires total > 0.0
  {
    Least(1.0, limit / total)
  }

  predicate NonZero(weights: seq<Entry>) { forall e :: e in weights ==> e.value != 0.0 }

  /** Totals as the loop collects them: absent until a security of the sector is met. */
  predicate TotalsOf(totals: map<string, real>, weights: seq<Entry>, sectors: map<string, string>)
    requires AllIn(weights, sectors)
  {
    && (forall c :: c in totals ==> totals[c] == SectorTotal(weights, sectors, c))
    && (forall e :: e in weights ==> sectors[e.symbol] in totals)
    && forall c :: c in totals ==> exists e :: e in weights && sectors[e.symbol] == c
  }

  method SectorTotals(weights: seq<Entry>, sectors: map<string, string>) returns (totals: map<string, real>)
    requires AllIn(weights, sectors)
    ensures TotalsOf(totals, weights, sectors)
  {
    hide TotalsOf, SectorTotal;
    totals := map[];
    var k := 0;
    assert weights[..0] == [];
    NoTotals(sectors);
    while k < |weights|
      invariant 0 <= k <= |weights| && TotalsOf(totals, weights[..k], sectors)
    {
      var sector := sectors[weights[k].symbol];
      var before := if sector in totals then totals[sector] else 0.0;
      assert weights[..k + 1] == weights[..k] + [weights[k]];
      AddToSector(totals, weights[..k], sectors, weights[k], before);
      totals := totals[sector := before + Abs(weights[k].value)];
      k := k + 1;
    }
    assert weights[..k] == weights;
  }

  lemma NoTotals(sectors: map<string, string>)
    ensures TotalsOf(map[], [], sectors)
  {}

  lemma {:induction false} OtherSector(weights: seq<Entry>, sectors: map<string, string>, sector: string)
    requires forall e :: e in weights ==> e.symbol in sectors && sectors[e.symbol] != sector
    ensures SectorTotal(weights, sectors, sector) == 0.0
    decreases |weights|
  {
    if weights != [] { OtherSector(weights[..|weights| - 1], sectors, sector); }
  }

  lemma AddToSector(
    totals: map<string, real>, weights: seq<Entry>, sectors: map<string, string>, e: Entry, before: real)
    requires AllIn(weights + [e], sectors)
    requires TotalsOf(totals, weights, sectors)
    requires before == if sectors[e.symbol] in totals then totals[sectors[e.symbol]] else 0.0
    ensures TotalsOf(totals[sectors[e.symbol] := before + Abs(e.value)], weights + [e], sectors)
  {
    var sector, after := sectors[e.symbol], weights + [e];
    assert after[..|weights|] == weights;
    if sector !in totals { OtherSector(weights, sectors, sector); }
    var now := totals[sector := before + Abs(e.value)];
    forall c | c in now ensures exists x :: x in after && sectors[x.symbol] == c {
      if c == sector {
        assert e in after;
      } else {
        var x :| x in weights && sectors[x.symbol] == c;
        assert x in after;
      }
    }
  }

  /** A weight scaled so that its sector meets the limit. */
  function ScaledEntry(e: Entry, total: real, limit: real): Entry
    requires total > 0.0
  {
    Entry(e.symbol, e.value * Factor(total, limit))
  }

  function Scaled(weights: seq<Entry>, sectors: map<string, string>, limit: real): seq<Entry>
    requires AllIn(weights, sectors)
    requires forall e :: e in weights ==> SectorTotal(weights, sectors, sectors[e.symbol]) > 0.0
  {
    seq(|weights|, k requires 0 <= k < |weights| =>
      ScaledEntry(weights[k], SectorTotal(weights, sectors, sectors[weights[k].symbol]), limit))
  }

  lemma {:induction false} SectorIsPositive(weights: seq<Entry>, sectors: map<string, string>, sector: string)
    requires NonZero(weights) && AllIn(weights, sectors)
    ensures SectorTotal(weights, sectors, sector) >= 0.0
    ensures (exists e :: e in weights && sectors[e.symbol] == sector) ==> SectorTotal(weights, sectors, sector) > 0.0
    decreases |weights|
  {
    if weights != [] {
      var init, last := weights[..|weights| - 1], weights[|weights| - 1];
      SectorIsPositive(init, sectors, sector);
      assert weights == init + [last];
    }
  }

  lemma FactorIsShare(total: real, limit: real)
    requires total > 0.0 && limit > 0.0
    ensures 0.0 < Factor(total, limit) <= 1.0 && total * Factor(total, limit) == Least(total, limit)
  {}

  lemma ScaledValue(value: real, factor: real)
    requires 0.0 < factor <= 1.0
    ensures SameSign(value * factor, value) && Abs(value * factor) == Abs(value) * factor <= Abs(value)
  {}

  lemma ScaledShare(e: Entry, scaled: Entry, sectors: map<string, string>, sector: string, factor: real)
    requires e.symbol in sectors && scaled.symbol == e.symbol && 0.0 < factor <= 1.0
    requires sectors[e.symbol] == sector ==> scaled.value == e.value * factor
    ensures Share(scaled, sectors, sector) == Scale(Share(e, sectors, sector), factor)
  {
    ScaledValue(e.value, factor);
  }

  /** Every security of the sector scaled by one factor. */
  predicate ScaledBy(
    weights: seq<Entry>, scaled: seq<Entry>, sectors: map<string, string>, sector: string, factor: real)
  {
    && |scaled| == |weights|
    && forall k :: 0 <= k < |weights| ==>
         && weights[k].symbol in sectors && scaled[k].symbol == weights[k].symbol
         && (sectors[weights[k].symbol] == sector ==> scaled[k].value == weights[k].value * factor)
  }

  lemma {:induction false} ScaledSum(
    weights: seq<Entry>, scaled: seq<Entry>, sectors: map<string, string>, sector: string, factor: real)
    requires ScaledBy(weights, scaled, sectors, sector, factor) && 0.0 < factor <= 1.0
    requires AllIn(weights, sectors) && AllIn(scaled, sectors)
    ensures SectorTotal(scaled, sectors, sector) == Scale(SectorTotal(weights, sectors, sector), factor)
    decreases |weights|
  {
    hide SectorTotal, Scale, Share, AllIn;
    if weights == [] {
      assert scaled == [];
      NoSector(sectors, sector);
      ScaleSum(0.0, 0.0, factor);
    } else {
      var n := |weights| - 1;
      FewerIn(weights, sectors);
      FewerIn(scaled, sectors);
      ScaledSum(weights[..n], scaled[..n], sectors, sector, factor);
      SectorOneMore(weights, sectors, sector);
      SectorOneMore(scaled, sectors, sector);
      ScaledShare(weights[n], scaled[n], sectors, sector, factor);
      ScaleSum(SectorTotal(weights[..n], sectors, sector), Share(weights[n], sectors, sector), factor);
    }
  }

  lemma FewerIn(weights: seq<Entry>, sectors: map<string, string>)
    requires weights != [] && AllIn(weights, sectors)
    ensures AllIn(weights[..|weights| - 1], sectors) && weights[|weights| - 1].symbol in sectors
  {}

  /**
   After scaling a sector holds what it held, or exactly its limit if that is less; no
   weight grows or changes side.
   */
  lemma SectorsCapped(weights: seq<Entry>, sectors: map<string, string>, limit: real, sector: string)
    requires NonZero(weights) && limit > 0.0
    requires AllIn(weights, sectors)
    ensures forall e :: e in weights ==> SectorTotal(weights, sectors, sectors[e.symbol]) > 0.0
    ensures var scaled := Scaled(weights, sectors, limit);
      && AllIn(scaled, sectors)
      && SectorTotal(scaled, sectors, sector) == Least(SectorTotal(weights, sectors, sector), limit)
      && Shrinks(weights, scaled)
  {
    hide SectorTotal, Factor;
    forall e | e in weights ensures SectorTotal(weights, sectors, sectors[e.symbol]) > 0.0 {
      SectorIsPositive(weights, sectors, sectors[e.symbol]);
    }
    var scaled := Scaled(weights, sectors, limit);
    forall k | 0 <= k < |weights| ensures
      && scaled[k].symbol == weights[k].symbol && scaled[k].symbol in sectors
      && SameSign(scaled[k].value, weights[k].value) && Abs(scaled[k].value) <= Abs(weights[k].value)
    {
      assert weights[k] in weights;
      var total := SectorTotal(weights, sectors, sectors[weights[k].symbol]);
      FactorIsShare(total, limit);
      ScaledValue(weights[k].value, Factor(total, limit));
    }
    OneSector(weights, scaled, sectors, limit, sector);
  }

  lemma OneSector(
    weights: seq<Entry>, scaled: seq<Entry>, sectors: map<string, string>, limit: real, sector: string)
    requires NonZero(weights) && limit > 0.0 && |scaled| == |weights|
    requires AllIn(weights, sectors)
    requires forall e :: e in weights ==> SectorTotal(weights, sectors, sectors[e.symbol]) > 0.0
    requires scaled == Scaled(weights, sectors, limit)
    requires AllIn(scaled, sectors)
    ensures SectorTotal(scaled, sectors, sector) == Least(SectorTotal(weights, sectors, sector), limit)
  {
    hide SectorTotal, Factor;
    if exists e :: e in weights && sectors[e.symbol] == sector {
      var total := SectorTotal(weights, sectors, sector);
      SectorIsPositive(weights, sectors, sector);
      FactorIsShare(total, limit);
      ScaledSum(weights, scaled, sectors, sector, Factor(total, limit));
    } else {
      OtherSector(weights, sectors, sector);
      forall e | e in scaled ensures sectors[e.symbol] != sector {
        var k :| 0 <= k < |scaled| && scaled[k] == e;
        assert weights[k] in weights;
      }
      OtherSector(scaled, sectors, sector);
    }
  }

  // --- whole quantities ---

  /** `int` of a float: toward zero. */
  function Truncate(x: real): int { if x >= 0.0 then x.Floor else -((-x).Floor) }

  /** One security on the rebalancing day. */
  datatype Data = Data(symbol: string, close: real, position: int)

  predicate ValidDatas(datas: seq<Data>) {
    && (forall d :: d in datas ==> d.close > 0.0)
    && forall i, j :: 0 <= i < j < |datas| ==> datas[i].symbol != datas[j].symbol
  }

  /** `weights.get(symbol, 0)`. */
  function WeightOf(weights: seq<Entry>, symbol: string): real {
    if weights == [] then 0.0
    else
      var last := weights[|weights| - 1];
      if last.symbol == symbol then last.value else WeightOf(weights[..|weights| - 1], symbol)
  }

  function Quantity(nav: real, weights: seq<Entry>, d: Data): int
    requires d.close > 0.0
  {
    Truncate(nav * WeightOf(weights, d.symbol) / d.close)
  }

  /** A whole quantity is worth the intended exposure or less, by less than one share, and on the same side. */
  lemma TruncatedExposure(nav: real, weight: real, close: real)
    requires nav > 0.0 && close > 0.0
    ensures var q := Truncate(nav * weight / close);
      && Scale(Abs(q as real), close) <= Scale(Abs(weight), nav) < Scale(Abs(q as real), close) + close
      && (q > 0 ==> weight > 0.0) && (q < 0 ==> weight < 0.0)
  {
    var x := nav * weight / close;
    assert x * close == nav * weight;
    if weight > 0.0 {
      Positive(nav, weight);
      StrictQuotient(x, close);
    } else if weight < 0.0 {
      Positive(nav, -weight);
      assert (-x) * close == nav * -weight;
      StrictQuotient(-x, close);
    } else {
      assert x == 0.0;
    }
    SameExposure(x, nav, weight, close);
    hide Truncate, Scale;
    TruncatedSize(x, close);
  }

  lemma SameExposure(x: real, nav: real, weight: real, close: real)
    requires nav > 0.0 && close > 0.0 && x * close == nav * weight
    requires (weight > 0.0 ==> x > 0.0) && (weight < 0.0 ==> x < 0.0)
    ensures Scale(Abs(x), close) == Scale(Abs(weight), nav)
  {
    if weight < 0.0 { assert (-x) * close == nav * -weight; }
  }

  lemma TruncatedSize(x: real, close: real)
    requires close > 0.0
    ensures var size := Abs(Truncate(x) as real);
      Scale(size, close) <= Scale(Abs(x), close) < Scale(size, close) + close
    ensures (Truncate(x) > 0 ==> x > 0.0) && (Truncate(x) < 0 ==> x < 0.0)
  {
    hide Scale;
    var size := Abs(Truncate(x) as real);
    assert size <= Abs(x) < size + 1.0;
    ScaleOrder(size, Abs(x), close);
    ScaleOrder(Abs(x), size + 1.0, close);
    ScaleSum(size, 1.0, close);
  }

  lemma Positive(a: real, b: real)
    requires a > 0.0 && b > 0.0
    ensures a * b > 0.0
  {}

  lemma StrictQuotient(x: real, close: real)
    requires close > 0.0 && x * close > 0.0
    ensures x > 0.0
  {
    if x <= 0.0 { Ordered(x, 0.0, close); }
  }

  lemma Ordered(a: real, b: real, c: real)
    requires c > 0.0
    ensures a <= b ==> a * c <= b * c
    ensures a < b ==> a * c < b * c
  {}

  function Exposure(nav: real, weights: seq<Entry>, d: Data): real
    requires d.close > 0.0
  {
    Abs(Quantity(nav, weights, d) as real) * d.close
  }

  function Value(nav: real, weights: seq<Entry>, d: Data): real
    requires d.close > 0.0
  {
    Quantity(nav, weights, d) as real * d.close
  }

  /** What the planned quantities are worth at the sizing prices. */
  function PlannedGross(nav: real, weights: seq<Entry>, datas: seq<Data>): real
    requires forall d :: d in datas ==> d.close > 0.0
  {
    if datas == [] then 0.0
    else
      var d := datas[|datas| - 1];
      PlannedGross(nav, weights, datas[..|datas| - 1]) + Exposure(nav, weights, d)
  }

  function PlannedValue(nav: real, weights: seq<Entry>, datas: seq<Data>): real
    requires forall d :: d in datas ==> d.close > 0.0
  {
    if datas == [] then 0.0
    else
      var d := datas[|datas| - 1];
      PlannedValue(nav, weights, datas[..|datas| - 1]) + Value(nav, weights, d)
  }

  /** The absolute weights that the securities of the day look up. */
  function LookedUp(weights: seq<Entry>, datas: seq<Data>): real {
    if datas == [] then 0.0
    else LookedUp(weights, datas[..|datas| - 1]) + Abs(WeightOf(weights, datas[|datas| - 1].symbol))
  }

  lemma {:induction false} LookUpOneMore(weights: seq<Entry>, e: Entry, datas: seq<Data>)
    requires forall i, j :: 0 <= i < j < |datas| ==> datas[i].symbol != datas[j].symbol
    ensures LookedUp(weights + [e], datas) <= LookedUp(weights, datas) + Abs(e.value)
    ensures (forall d :: d in datas ==> d.symbol != e.symbol) ==>
      LookedUp(weights + [e], datas) == LookedUp(weights, datas)
    decreases |datas|
  {
    assert (weights + [e])[..|weights|] == weights;
    if datas != [] {
      var init, d := datas[..|datas| - 1], datas[|datas| - 1];
      LookUpOneMore(weights, e, init);
      assert datas == init + [d];
    }
  }

  /** Distinct securities look up no more than the gross weight. */
  lemma {:induction false} LookedUpIsBounded(weights: seq<Entry>, datas: seq<Data>)
    requires forall i, j :: 0 <= i < j < |datas| ==> datas[i].symbol != datas[j].symbol
    ensures LookedUp(weights, datas) <= Gross(weights)
    decreases |weights|
  {
    if weights == [] {
      NothingLookedUp(datas);
    } else {
      var init, e := weights[..|weights| - 1], weights[|weights| - 1];
      LookedUpIsBounded(init, datas);
      LookUpOneMore(init, e, datas);
      assert weights == init + [e];
    }
  }

  lemma {:induction false} NothingLookedUp(datas: seq<Data>)
    ensures LookedUp([], datas) == 0.0
    decreases |datas|
  {
    if datas != [] { NothingLookedUp(datas[..|datas| - 1]); }
  }

  lemma {:induction false} PlannedIsLookedUp(nav: real, weights: seq<Entry>, datas: seq<Data>)
    requires nav > 0.0 && forall d :: d in datas ==> d.close > 0.0
    ensures PlannedGross(nav, weights, datas) <= Scale(LookedUp(weights, datas), nav)
    ensures PlannedValue(nav, weights, datas) <= PlannedGross(nav, weights, datas)
    decreases |datas|
  {
    if datas != [] {
      var n := |datas| - 1;
      var d := datas[n];
      assert d in datas;
      hide Exposure, Value, WeightOf, LookedUp, PlannedGross, PlannedValue, Abs, Scale;
      PlannedIsLookedUp(nav, weights, datas[..n]);
      OneExposure(nav, weights, d);
      PlannedOneMore(nav, weights, datas);
      ScaleSum(LookedUp(weights, datas[..n]), Abs(WeightOf(weights, d.symbol)), nav);
    } else {
      NothingPlanned(nav, weights);
      assert Scale(0.0, nav) == 0.0;
    }
  }

  lemma NothingPlanned(nav: real, weights: seq<Entry>)
    ensures PlannedGross(nav, weights, []) == PlannedValue(nav, weights, []) == LookedUp(weights, []) == 0.0
  {}

  lemma PlannedOneMore(nav: real, weights: seq<Entry>, datas: seq<Data>)
    requires datas != [] && forall d :: d in datas ==> d.close > 0.0
    ensures var init, d := datas[..|datas| - 1], datas[|datas| - 1];
      && PlannedGross(nav, weights, datas) == PlannedGross(nav, weights, init) + Exposure(nav, weights, d)
      && PlannedValue(nav, weights, datas) == PlannedValue(nav, weights, init) + Value(nav, weights, d)
      && LookedUp(weights, datas) == LookedUp(weights, init) + Abs(WeightOf(weights, d.symbol))
  {}

  lemma OneExposure(nav: real, weights: seq<Entry>, d: Data)
    requires nav > 0.0 && d.close > 0.0
    ensures Value(nav, weights, d) <= Exposure(nav, weights, d) <= Scale(Abs(WeightOf(weights, d.symbol)), nav)
  {
    hide WeightOf;
    TruncatedExposure(nav, WeightOf(weights, d.symbol), d.close);
    Ordered(Quantity(nav, weights, d) as real, Abs(Quantity(nav, weights, d) as real), d.close);
  }

  /** Gross exposure of the planned whole quantities stays within the limits of the weights. */
  lemma PlanWithinCap(nav: real, weights: seq<Entry>, datas: seq<Data>, cap: real)
    requires nav > 0.0 && ValidDatas(datas) && Gross(weights) <= cap
    ensures PlannedValue(nav, weights, datas) <= PlannedGross(nav, weights, datas) <= nav * cap
  {
    hide PlannedGross, PlannedValue, LookedUp, Gross;
    PlannedIsLookedUp(nav, weights, datas);
    LookedUpIsBounded(weights, datas);
    Ordered(LookedUp(weights, datas), cap, nav);
  }

  /** Securities of one sector look up no more than its total. */
  lemma {:induction false} LookedUpInSector(
    weights: seq<Entry>, datas: seq<Data>, sectors: map<string, string>, sector: string)
    requires AllIn(weights, sectors)
    requires forall i, j :: 0 <= i < j < |datas| ==> datas[i].symbol != datas[j].symbol
    requires forall d :: d in datas ==> d.symbol in sectors && sectors[d.symbol] == sector
    ensures LookedUp(weights, datas) <= SectorTotal(weights, sectors, sector)
    decreases |weights|
  {
    if weights == [] {
      NothingLookedUp(datas);
    } else {
      var init, e := weights[..|weights| - 1], weights[|weights| - 1];
      LookedUpInSector(init, datas, sectors, sector);
      LookUpOneMore(init, e, datas);
      assert weights == init + [e];
    }
  }

  /** The planned quantities of one sector stay within its limit. */
  lemma SectorPlanWithinCap(
    nav: real, weights: seq<Entry>, datas: seq<Data>, sectors: map<string, string>, sector: string, limit: real)
    requires nav > 0.0 && ValidDatas(datas) && AllIn(weights, sectors)
    requires forall d :: d in datas ==> d.symbol in sectors && sectors[d.symbol] == sector
    requires SectorTotal(weights, sectors, sector) <= limit
    ensures PlannedGross(nav, weights, datas) <= Scale(limit, nav)
  {
    hide PlannedGross, PlannedValue, LookedUp, SectorTotal, Scale;
    PlannedIsLookedUp(nav, weights, datas);
    LookedUpInSector(weights, datas, sectors, sector);
    ScaleOrder(LookedUp(weights, datas), limit, nav);
  }

  /** Each planned position stays within the position limit, on the side of its weight. */
  lemma PositionWithinCap(nav: real, weights: seq<Entry>, d: Data, limit: real)
    requires nav > 0.0 && d.close > 0.0 && limit > 0.0 && forall e :: e in weights ==> Abs(e.value) <= limit
    ensures Exposure(nav, weights, d) <= Scale(limit, nav)
    ensures (Quantity(nav, weights, d) > 0 ==> WeightOf(weights, d.symbol) > 0.0)
    ensures (Quantity(nav, weights, d) < 0 ==> WeightOf(weights, d.symbol) < 0.0)
  {
    hide Scale, WeightOf, Exposure, Quantity;
    OneExposure(nav, weights, d);
    WeightBounded(weights, d.symbol, limit);
    ScaleOrder(Abs(WeightOf(weights, d.symbol)), limit, nav);
    QuantitySide(nav, weights, d);
  }

  lemma QuantitySide(nav: real, weights: seq<Entry>, d: Data)
    requires nav > 0.0 && d.close > 0.0
    ensures (Quantity(nav, weights, d) > 0 ==> WeightOf(weights, d.symbol) > 0.0)
    ensures (Quantity(nav, weights, d) < 0 ==> WeightOf(weights, d.symbol) < 0.0)
  {
    TruncatedExposure(nav, WeightOf(weights, d.symbol), d.close);
  }

  lemma {:induction false} WeightBounded(weights: seq<Entry>, symbol: string, limit: real)
    requires limit > 0.0 && forall e :: e in weights ==> Abs(e.value) <= limit
    ensures Abs(WeightOf(weights, symbol)) <= limit
    decreases |weights|
  {
    if weights != [] {
      assert weights[|weights| - 1] in weights;
      WeightBounded(weights[..|weights| - 1], symbol, limit);
    }
  }

  // --- orders ---

  /** A nonzero change of position, at the price it was sized with. */
  datatype Order = Order(symbol: string, delta: int, price: real)

  function Target(nav: real, weights: seq<Entry>, d: Data): Order
    requires d.close > 0.0
  {
    Order(d.symbol, Quantity(nav, weights, d) - d.position, d.close)
  }

  function Targets(nav: real, weights: seq<Entry>, datas: seq<Data>): seq<Order>
    requires forall d :: d in datas ==> d.close > 0.0
  {
    seq(|datas|, k requires 0 <= k < |datas| => Target(nav, weights, datas[k]))
  }

  function InsertUp(sorted: seq<Order>, o: Order): seq<Order> {
    if sorted == [] || sorted[|sorted| - 1].delta <= o.delta then sorted + [o]
    else InsertUp(sorted[..|sorted| - 1], o) + [sorted[|sorted| - 1]]
  }

  /** `sorted(targets, key=delta)`: stable. */
  function ByDelta(targets: seq<Order>): seq<Order> {
    if targets == [] then [] else InsertUp(ByDelta(targets[..|targets| - 1]), targets[|targets| - 1])
  }

  function NonZeroOrders(targets: seq<Order>): seq<Order> {
    if targets == [] then []
    else
      var last := targets[|targets| - 1];
      NonZeroOrders(targets[..|targets| - 1]) + (if last.delta != 0 then [last] else [])
  }

  function Orders(nav: real, weights: seq<Entry>, datas: seq<Data>): seq<Order>
    requires forall d :: d in datas ==> d.close > 0.0
  {
    NonZeroOrders(ByDelta(Targets(nav, weights, datas)))
  }

  function Worth(o: Order): real { o.delta as real * o.price }

  function Cost(orders: seq<Order>): real {
    if orders == [] then 0.0
    else Cost(orders[..|orders| - 1]) + Worth(orders[|orders| - 1])
  }

  lemma CostOneMore(orders: seq<Order>, o: Order)
    ensures Cost(orders + [o]) == Cost(orders) + Worth(o)
  {
    assert (orders + [o])[..|orders|] == orders;
  }

  lemma NoCost()
    ensures Cost([]) == 0.0
  {}

  predicate Ascending(orders: seq<Order>) {
    forall i, j :: 0 <= i < j < |orders| ==> orders[i].delta <= orders[j].delta
  }

  predicate NoneAbove(orders: seq<Order>, delta: int) { forall o :: o in orders ==> o.delta <= delta }

  lemma AppendUp(sorted: seq<Order>, o: Order)
    requires Ascending(sorted) && NoneAbove(sorted, o.delta)
    ensures Ascending(sorted + [o])
  {}

  lemma LastIsGreatest(sorted: seq<Order>)
    requires Ascending(sorted) && sorted != []
    ensures Ascending(sorted[..|sorted| - 1]) && NoneAbove(sorted[..|sorted| - 1], sorted[|sorted| - 1].delta)
  {}

  lemma AppendBelow(orders: seq<Order>, o: Order, delta: int)
    requires NoneAbove(orders, delta) && o.delta <= delta
    ensures NoneAbove(orders + [o], delta)
  {}

  lemma SameBelow(a: seq<Order>, b: seq<Order>, delta: int)
    requires multiset(a) == multiset(b) && NoneAbove(a, delta)
    ensures NoneAbove(b, delta)
  {
    forall o | o in b ensures o.delta <= delta {
      assert o in multiset(a);
    }
  }

  lemma LowerBelow(orders: seq<Order>, low: int, high: int)
    requires NoneAbove(orders, low) && low <= high
    ensures NoneAbove(orders, high)
  {}

  lemma {:induction false} InsertUpSame(sorted: seq<Order>, o: Order)
    ensures multiset(InsertUp(sorted, o)) == multiset(sorted + [o])
    decreases |sorted|
  {
    if sorted != [] {
      InsertUpSame(sorted[..|sorted| - 1], o);
      assert sorted == sorted[..|sorted| - 1] + [sorted[|sorted| - 1]];
    }
  }

  lemma {:induction false} InsertUpCost(sorted: seq<Order>, o: Order)
    ensures Cost(InsertUp(sorted, o)) == Cost(sorted) + Worth(o)
    decreases |sorted|
  {
    hide Cost, Worth;
    CostOneMore(sorted, o);
    if sorted != [] && sorted[|sorted| - 1].delta > o.delta {
      var init, last := sorted[..|sorted| - 1], sorted[|sorted| - 1];
      assert sorted == init + [last];
      InsertUpCost(init, o);
      CostOneMore(InsertUp(init, o), last);
      CostOneMore(init, last);
    }
  }

  lemma {:induction false} InsertUpSorts(sorted: seq<Order>, o: Order)
    requires Ascending(sorted)
    ensures Ascending(InsertUp(sorted, o))
    decreases |sorted|
  {
    hide Ascending, NoneAbove;
    if sorted == [] {
      assert InsertUp(sorted, o) == [o];
      Single(o);
    } else {
      var init, last := sorted[..|sorted| - 1], sorted[|sorted| - 1];
      assert sorted == init + [last];
      LastIsGreatest(sorted);
      if last.delta > o.delta {
        InsertUpSorts(init, o);
        InsertUpSame(init, o);
        AppendBelow(init, o, last.delta);
        SameBelow(init + [o], InsertUp(init, o), last.delta);
        AppendUp(InsertUp(init, o), last);
      } else {
        LowerBelow(init, last.delta, o.delta);
        AppendBelow(init, last, o.delta);
        AppendUp(sorted, o);
      }
    }
  }

  lemma Single(o: Order)
    ensures Ascending([o]) && Ascending([])
  {}

  lemma {:induction false} ByDeltaKeeps(targets: seq<Order>)
    ensures Ascending(ByDelta(targets)) && multiset(ByDelta(targets)) == multiset(targets)
    ensures Cost(ByDelta(targets)) == Cost(targets)
    decreases |targets|
  {
    hide Ascending, Cost, Worth, InsertUp;
    if targets == [] {
      assert Ascending([]) by { Single(Order("", 0, 0.0)); }
    } else {
      var n := |targets| - 1;
      ByDeltaKeeps(targets[..n]);
      InsertUpSorts(ByDelta(targets[..n]), targets[n]);
      InsertUpSame(ByDelta(targets[..n]), targets[n]);
      InsertUpCost(ByDelta(targets[..n]), targets[n]);
      CostOneMore(targets[..n], targets[n]);
      assert targets == targets[..n] + [targets[n]];
    }
  }

  lemma NonZeroOneMore(init: seq<Order>, last: Order)
    ensures NonZeroOrders(init + [last]) == NonZeroOrders(init) + (if last.delta != 0 then [last] else [])
    ensures NonZeroOrders([]) == []
  {
    assert (init + [last])[..|init|] == init;
  }

  lemma {:induction false} NonZeroAre(targets: seq<Order>)
    ensures forall o :: o in NonZeroOrders(targets) <==> o in targets && o.delta != 0
    decreases |targets|
  {
    if targets != [] {
      NonZeroAre(targets[..|targets| - 1]);
      assert targets == targets[..|targets| - 1] + [targets[|targets| - 1]];
    }
  }

  lemma {:induction false} NonZeroKeeps(targets: seq<Order>)
    requires Ascending(targets)
    ensures Ascending(NonZeroOrders(targets)) && Cost(NonZeroOrders(targets)) == Cost(targets)
    decreases |targets|
  {
    hide Ascending, NoneAbove, Cost, Worth, NonZeroOrders;
    if targets == [] {
      NonZeroOneMore([], Order("", 0, 0.0));
    } else {
      var init, last := targets[..|targets| - 1], targets[|targets| - 1];
      assert targets == init + [last];
      LastIsGreatest(targets);
      NonZeroKeeps(init);
      NonZeroOneMore(init, last);
      CostOneMore(init, last);
      if last.delta == 0 {
        NoWorth(last);
        assert NonZeroOrders(targets) == NonZeroOrders(init);
      } else {
        CostOneMore(NonZeroOrders(init), last);
        NonZeroAre(init);
        FewerBelow(init, NonZeroOrders(init), last.delta);
        AppendUp(NonZeroOrders(init), last);
      }
    }
  }

  lemma NoWorth(o: Order)
    requires o.delta == 0
    ensures Worth(o) == 0.0
  {}

  lemma FewerBelow(orders: seq<Order>, fewer: seq<Order>, delta: int)
    requires NoneAbove(orders, delta) && forall o :: o in fewer ==> o in orders
    ensures NoneAbove(fewer, delta)
  {}

  /** Cash after the first `n` orders fill at the prices they were sized with. */
  function CashAfter(cash: real, orders: seq<Order>, n: nat): real
    requires n <= |orders|
  {
    cash - Cost(orders[..n])
  }

  lemma {:induction false} SalesFirst(orders: seq<Order>, n: nat)
    requires n <= |orders| && forall o :: o in orders ==> o.price > 0.0
    ensures (forall i :: 0 <= i < n ==> orders[i].delta <= 0) ==> Cost(orders[..n]) <= 0.0
    decreases n
  {
    if n > 0 {
      SalesFirst(orders, n - 1);
      assert orders[..n][..n - 1] == orders[..n - 1] && orders[n - 1] in orders;
      if orders[n - 1].delta <= 0 { Ordered(orders[n - 1].delta as real, 0.0, orders[n - 1].price); }
    }
  }

  lemma {:induction false} PurchasesLast(orders: seq<Order>, n: nat, m: nat)
    requires n <= m <= |orders| && forall o :: o in orders ==> o.price > 0.0
    requires forall i :: n <= i < m ==> orders[i].delta >= 0
    ensures Cost(orders[..n]) <= Cost(orders[..m])
    decreases m - n
  {
    if n < m {
      PurchasesLast(orders, n, m - 1);
      assert orders[..m][..m - 1] == orders[..m - 1] && orders[m - 1] in orders;
      Ordered(0.0, orders[m - 1].delta as real, orders[m - 1].price);
    }
  }

  /** Reductions come first, so cash on the way is never below both where it starts and where it ends. */
  lemma CashNeverDips(cash: real, orders: seq<Order>, n: nat)
    requires Ascending(orders) && n <= |orders| && forall o :: o in orders ==> o.price > 0.0
    ensures CashAfter(cash, orders, n) >= Least(cash, CashAfter(cash, orders, |orders|))
  {
    SalesFirst(orders, n);
    if n > 0 && orders[n - 1].delta > 0 {
      PurchasesLast(orders, n, |orders|);
    }
  }

  function Holding(d: Data): real { d.position as real * d.close }

  /** Worth of the positions before rebalancing. */
  function HeldValue(datas: seq<Data>): real {
    if datas == [] then 0.0
    else HeldValue(datas[..|datas| - 1]) + Holding(datas[|datas| - 1])
  }

  lemma WorthOfTarget(nav: real, weights: seq<Entry>, d: Data)
    requires d.close > 0.0
    ensures Worth(Target(nav, weights, d)) == Value(nav, weights, d) - Holding(d)
  {}

  lemma HeldOneMore(datas: seq<Data>)
    requires datas != []
    ensures HeldValue(datas) == HeldValue(datas[..|datas| - 1]) + Holding(datas[|datas| - 1])
  {}

  lemma {:induction false} CostOfTargets(nav: real, weights: seq<Entry>, datas: seq<Data>)
    requires forall d :: d in datas ==> d.close > 0.0
    ensures Cost(Targets(nav, weights, datas)) == PlannedValue(nav, weights, datas) - HeldValue(datas)
    decreases |datas|
  {
    if datas != [] {
      var n := |datas| - 1;
      var d := datas[n];
      hide Cost, PlannedValue, HeldValue, Quantity, Worth, Value, Holding;
      CostOfTargets(nav, weights, datas[..n]);
      assert d in datas;
      PlannedOneMore(nav, weights, datas);
      HeldOneMore(datas);
      assert Targets(nav, weights, datas) == Targets(nav, weights, datas[..n]) + [Target(nav, weights, d)];
      CostOneMore(Targets(nav, weights, datas[..n]), Target(nav, weights, d));
      WorthOfTarget(nav, weights, d);
    } else {
      NothingPlanned(nav, weights);
      NoCost();
    }
  }

  /**
   The exposure caps survive to the orders: filled at their sizing prices, the orders of a
   day end with gross exposure within the cap and, when only long, at least the minimum
   cash; and cash never dips below the lower of its start and its end.
   */
  lemma OrdersKeepTheCaps(nav: real, cash: real, weights: seq<Entry>, datas: seq<Data>, s: Settings, n: nat)
    requires s.Valid() && ValidDatas(datas) && WithinLimits(weights, s)
    requires nav > 0.0 && nav == cash + HeldValue(datas)
    requires n <= |Orders(nav, weights, datas)|
    ensures var orders := Orders(nav, weights, datas);
      && PlannedGross(nav, weights, datas) <= nav * s.Cap()
      && CashAfter(cash, orders, |orders|) == nav - PlannedValue(nav, weights, datas) >= nav * s.minimumCash
      && CashAfter(cash, orders, n) >= Least(cash, nav * s.minimumCash)
  {
    hide PlannedGross, PlannedValue, HeldValue, Cost, Gross, ByDelta, NonZeroOrders, Targets;
    var targets := Targets(nav, weights, datas);
    var orders := Orders(nav, weights, datas);
    PlanWithinCap(nav, weights, datas, s.Cap());
    ByDeltaKeeps(targets);
    NonZeroKeeps(ByDelta(targets));
    CostOfTargets(nav, weights, datas);
    assert orders[..|orders|] == orders;
    PricesArePositive(nav, weights, datas);
    CashNeverDips(cash, orders, n);
    Ordered(s.Cap(), 1.0 - s.minimumCash, nav);
    Distribute(1.0, -s.minimumCash, nav);
  }

  /** At the sizing prices cash never falls below the lower of its start and the minimum. */
  ghost predicate CashSuffices(cash: real, orders: seq<Order>, minimum: real) {
    && CashAfter(cash, orders, |orders|) >= minimum
    && forall n :: 0 <= n <= |orders| ==> CashAfter(cash, orders, n) >= Least(cash, minimum)
  }

  lemma OrdersKeepEnoughCash(nav: real, cash: real, weights: seq<Entry>, datas: seq<Data>, s: Settings)
    requires s.Valid() && ValidDatas(datas) && WithinLimits(weights, s)
    requires nav > 0.0 && nav == cash + HeldValue(datas)
    ensures PlannedGross(nav, weights, datas) <= Scale(s.Cap(), nav)
    ensures CashSuffices(cash, Orders(nav, weights, datas), Scale(s.minimumCash, nav))
  {
    hide PlannedGross, PlannedValue, HeldValue, Orders, CashAfter, WithinLimits;
    var orders := Orders(nav, weights, datas);
    OrdersKeepTheCaps(nav, cash, weights, datas, s, 0);
    forall n | 0 <= n <= |orders| ensures CashAfter(cash, orders, n) >= Least(cash, nav * s.minimumCash) {
      OrdersKeepTheCaps(nav, cash, weights, datas, s, n);
    }
  }

  lemma PricesArePositive(nav: real, weights: seq<Entry>, datas: seq<Data>)
    requires ValidDatas(datas)
    ensures forall o :: o in Orders(nav, weights, datas) ==> o.price > 0.0 && o.delta != 0
  {
    hide ByDelta, NonZeroOrders, Cost, Ascending, Quantity;
    var targets := Targets(nav, weights, datas);
    ByDeltaKeeps(targets);
    NonZeroAre(ByDelta(targets));
    forall o | o in Orders(nav, weights, datas) ensures o.price > 0.0 {
      assert o in multiset(ByDelta(targets)) && o in multiset(targets);
      var k :| 0 <= k < |targets| && targets[k] == o;
      assert datas[k] in datas;
    }
  }
}
