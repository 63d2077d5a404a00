/**
 From a day's signals to orders: selection, normalised and clipped weights, sector caps,
 whole quantities, and the order in which they are submitted. Numbers are exact reals.
 */
module BacktestWeights {
  import opened Common

  datatype Strategy =
    | SMA | RSI | MACD | BREAKOUT | MOMENTUM | MEAN_REVERSION | CROSS_SECTIONAL | LOW_VOL
    | INVERSE_VOL | RISK_PARITY | MULTIFACTOR

  datatype Weighting = ByEqual | BySignal | ByInverseVol | ByRiskParity

  datatype Settings = Settings(
    strategy: Strategy, fast: nat, slow: nat, capital: real, weekly: bool, longOnly: bool, weighting: Weighting,
    grossLimit: real, positionLimit: real, sectorLimit: real, minimumCash: real, topN: nat)
  {
    predicate Valid() {
      && 2 <= fast <= 250 && 3 <= slow <= 500 && fast < slow
      && 100.0 <= capital <= 1_000_000_000.0
      && 0.0 < grossLimit <= 1.0 && 0.0 < positionLimit <= 1.0 && 0.0 < sectorLimit <= 1.0
      && 0.0 <= minimumCash <= 0.95 && 1 <= topN <= 12
      && (!longOnly ==> weighting != ByRiskParity && strategy != RISK_PARITY)
    }
    /** The gross exposure allowed after keeping the minimum cash. */
    function Cap(): real { Least(grossLimit, 1.0 - minimumCash) }
  }

  /** One value of a labelled row. */
  datatype Entry = Entry(symbol: string, value: real)

  function Least(a: real, b: real): real { if a <= b then a else b }
  function Greatest(a: real, b: real): real { if a >= b then a else b }
  function Abs(x: real): real { if x < 0.0 then -x else x }
  function Sign(x: real): real { if x > 0.0 then 1.0 else if x < 0.0 then -1.0 else 0.0 }

  predicate SameSign(a: real, b: real) { (a > 0.0 <==> b > 0.0) && (a < 0.0 <==> b < 0.0) }

  predicate Distinct(s: seq<Entry>) { forall i, j :: 0 <= i < j < |s| ==> s[i].symbol != s[j].symbol }

  function Gross(s: seq<Entry>): real {
    if s == [] then 0.0 else Gross(s[..|s| - 1]) + Abs(s[|s| - 1].value)
  }

  function Total(s: seq<real>): real {
    if s == [] then 0.0 else Total(s[..|s| - 1]) + s[|s| - 1]
  }

  // --- which securities, and on which side ---

  /** `dropna`: a row without its missing values. */
  function Known(row: seq<(string, Option<real>)>): seq<Entry> {
    if row == [] then []
    else
      var last := row[|row| - 1];
      Known(row[..|row| - 1]) + (if last.1.Some? then [Entry(last.0, last.1.value)] else [])
  }

  /** Into a descending list, after every value that is not smaller: ties keep their order. */
  function InsertDown(ranked: seq<Entry>, e: Entry): seq<Entry> {
    if ranked == [] || ranked[|ranked| - 1].value >= e.value then ranked + [e]
    else InsertDown(ranked[..|ranked| - 1], e) + [ranked[|ranked| - 1]]
  }

  function Ranked(s: seq<Entry>): seq<Entry> {
    if s == [] then [] else InsertDown(Ranked(s[..|s| - 1]), s[|s| - 1])
  }

  const TINY: real := 0.00000001

  function Side(e: Entry, sign: real): Entry { Entry(e.symbol, sign * Greatest(Abs(e.value), TINY)) }

  function Sides(s: seq<Entry>, sign: real): seq<Entry> {
    seq(|s|, k requires 0 <= k < |s| => Side(s[k], sign))
  }

  function Without(s: seq<Entry>, gone: set<string>): seq<Entry> {
    if s == [] then []
    else
      var last := s[|s| - 1];
      Without(s[..|s| - 1], gone) + (if last.symbol in gone then [] else [last])
  }

  function Symbols(s: seq<Entry>): set<string> { set e | e in s :: e.symbol }

  function Signed(s: seq<Entry>, longOnly: bool): seq<Entry> {
    if s == [] then []
    else
      var last := s[|s| - 1];
      Signed(s[..|s| - 1], longOnly)
      + (if last.value > 0.0 || (last.value < 0.0 && !longOnly) then [last] else [])
  }

  predicate ByRank(strategy: Strategy) { strategy == CROSS_SECTIONAL || strategy == LOW_VOL || strategy == MULTIFACTOR }

  function Top(ranked: seq<Entry>, n: nat): seq<Entry> { ranked[..if |ranked| < n then |ranked| else n] }

  function Bottom(ranked: seq<Entry>, n: nat): seq<Entry> { ranked[if |ranked| < n then 0 else |ranked| - n..] }

  /** The securities to hold, with the sign of their side. */
  function Selected(row: seq<(string, Option<real>)>, s: Settings): seq<Entry> {
    var valid := Known(row);
    if ByRank(s.strategy) then
      var ranked := Ranked(valid);
      var positive := Top(ranked, s.topN);
      var negative := if s.longOnly then [] else Without(Bottom(ranked, s.topN), Symbols(positive));
      Sides(positive, 1.0) + Sides(negative, -1.0)
    else Signed(valid, s.longOnly)
  }

  // --- how much of each ---

  function Mode(s: Settings): Weighting {
    if s.strategy == INVERSE_VOL then ByInverseVol
    else if s.strategy == RISK_PARITY then ByRiskParity
    else s.weighting
  }

  /** `None` where a volatility is missing or zero. */
  function InverseVols(valid: seq<Entry>, vol: map<string, Option<real>>): Option<seq<real>> {
    if valid == [] then Some([])
    else
      var e := valid[|valid| - 1];
      var before := InverseVols(valid[..|valid| - 1], vol);
      if before.None? || e.symbol !in vol || vol[e.symbol].None? || vol[e.symbol].value == 0.0 then None
      else Some(before.value + [1.0 / vol[e.symbol].value])
  }

  /** Risk-parity magnitudes of the selected securities; `None` when there are fewer than twenty samples. */
  type Parity = seq<Entry> -> Option<seq<real>>

  ghost predicate PositiveParity(parity: Parity) {
    forall v :: parity(v).Some? ==> |parity(v).value| == |v| && forall k :: 0 <= k < |v| ==> parity(v).value[k] > 0.0
  }

  predicate VolsAreNotNegative(vol: map<string, Option<real>>) {
    forall symbol :: symbol in vol && vol[symbol].Some? ==> vol[symbol].value >= 0.0
  }

  function Magnitudes(
    valid: seq<Entry>, vol: map<string, Option<real>>, parity: Parity, s: Settings): Option<seq<real>>
  {
    match Mode(s)
    case ByRiskParity => parity(valid)
    case ByInverseVol => InverseVols(valid, vol)
    case BySignal => Some(seq(|valid|, k requires 0 <= k < |valid| => Abs(valid[k].value)))
    case ByEqual => Some(seq(|valid|, k => 1.0))
  }

  function Normalised(valid: seq<Entry>, magnitudes: seq<real>, cap: real): seq<Entry>
    requires |magnitudes| == |valid| && Total(magnitudes) != 0.0
  {
    seq(|valid|, k requires 0 <= k < |valid| =>
      Entry(valid[k].symbol, magnitudes[k] / Total(magnitudes) * cap * Sign(valid[k].value)))
  }

  function Clip(x: real, limit: real): real { Least(Greatest(x, -limit), limit) }

  function Clipped(weights: seq<Entry>, limit: real): seq<Entry> {
    seq(|weights|, k requires 0 <= k < |weights| => Entry(weights[k].symbol, Clip(weights[k].value, limit)))
  }

  function TargetWeights(
    row: seq<(string, Option<real>)>, vol: map<string, Option<real>>, parity: Parity, s: Settings): seq<Entry>
  {
    var valid := Selected(row, s);
    var magnitudes := Magnitudes(valid, vol, parity, s);
    if valid == [] || magnitudes.None? || |magnitudes.value| != |valid| || Total(magnitudes.value) == 0.0 then []
    else Clipped(Normalised(valid, magnitudes.value, s.Cap()), s.positionLimit)
  }

  // --- selection is right ---

  predicate Descending(s: seq<Entry>) { forall i, j :: 0 <= i < j < |s| ==> s[i].value >= s[j].value }

  predicate NoneBelow(s: seq<Entry>, value: real) { forall e :: e in s ==> e.value >= value }

  lemma AppendDown(ranked: seq<Entry>, e: Entry)
    requires Descending(ranked) && NoneBelow(ranked, e.value)
    ensures Descending(ranked + [e])
  {}

  lemma LastIsLeast(ranked: seq<Entry>)
    requires Descending(ranked) && ranked != []
    ensures Descending(ranked[..|ranked| - 1]) && NoneBelow(ranked[..|ranked| - 1], ranked[|ranked| - 1].value)
  {}

  lemma SameAbove(a: seq<Entry>, b: seq<Entry>, value: real)
    requires multiset(a) == multiset(b) && NoneBelow(a, value)
    ensures NoneBelow(b, value)
  {
    forall e | e in b ensures e.value >= value {
      assert e in multiset(a);
    }
  }

  lemma AppendAbove(s: seq<Entry>, e: Entry, value: real)
    requires NoneBelow(s, value) && e.value >= value
    ensures NoneBelow(s + [e], value)
  {}

  lemma HigherAbove(s: seq<Entry>, high: real, low: real)
    requires NoneBelow(s, high) && high >= low
    ensures NoneBelow(s, low)
  {}

  lemma {:induction false} InsertDownSame(ranked: seq<Entry>, e: Entry)
    ensures multiset(InsertDown(ranked, e)) == multiset(ranked + [e])
    decreases |ranked|
  {
    if ranked != [] {
      InsertDownSame(ranked[..|ranked| - 1], e);
      assert ranked == ranked[..|ranked| - 1] + [ranked[|ranked| - 1]];
    }
  }

  lemma {:induction false} InsertDownKeeps(ranked: seq<Entry>, e: Entry)
    requires Descending(ranked)
    ensures Descending(InsertDown(ranked, e))
    decreases |ranked|
  {
    if ranked == [] {
      assert InsertDown(ranked, e) == [e];
    } else {
      hide Descending, NoneBelow;
      var init, last := ranked[..|ranked| - 1], ranked[|ranked| - 1];
      assert ranked == init + [last];
      LastIsLeast(ranked);
      if last.value < e.value {
        InsertDownKeeps(init, e);
        InsertDownSame(init, e);
        AppendAbove(init, e, last.value);
        SameAbove(init + [e], InsertDown(init, e), last.value);
        AppendDown(InsertDown(init, e), last);
      } else {
        HigherAbove(init, last.value, e.value);
        AppendAbove(init, last, e.value);
        AppendDown(ranked, e);
      }
    }
  }

  lemma {:induction false} RankedIsRanked(s: seq<Entry>)
    ensures Descending(Ranked(s)) && multiset(Ranked(s)) == multiset(s)
    decreases |s|
  {
    if s != [] {
      var n := |s| - 1;
      RankedIsRanked(s[..n]);
      InsertDownKeeps(Ranked(s[..n]), s[n]);
      InsertDownSame(Ranked(s[..n]), s[n]);
      assert s == s[..n] + [s[n]];
    }
  }

  predicate AllAbove(high: seq<Entry>, low: seq<Entry>) {
    forall e, other :: e in high && other in low ==> e.value >= other.value
  }

  /** Cutting a ranking anywhere splits the securities into better and worse ones. */
  lemma BestAndWorst(valid: seq<Entry>, cut: nat)
    requires cut <= |valid|
    ensures |Ranked(valid)| == |valid|
    ensures var best, worst := Ranked(valid)[..cut], Ranked(valid)[cut..];
      multiset(best) + multiset(worst) == multiset(valid) && AllAbove(best, worst)
  {
    hide Ranked, AllAbove, Descending;
    var ranked := Ranked(valid);
    RankedIsRanked(valid);
    SameSize(ranked, valid);
    assert ranked == ranked[..cut] + ranked[cut..];
    assert AllAbove(ranked[..cut], ranked[cut..]) by { CutDescending(ranked, cut); }
  }

  lemma CutDescending(ranked: seq<Entry>, cut: nat)
    requires Descending(ranked) && cut <= |ranked|
    ensures AllAbove(ranked[..cut], ranked[cut..])
  {}

  lemma SameSize(a: seq<Entry>, b: seq<Entry>)
    requires multiset(a) == multiset(b)
    ensures |a| == |b|
  {
    assert |multiset(a)| == |a| && |multiset(b)| == |b|;
  }

  // --- the caps ---

  lemma {:induction false} InverseVolsArePositive(valid: seq<Entry>, vol: map<string, Option<real>>)
    requires VolsAreNotNegative(vol)
    ensures var m := InverseVols(valid, vol);
      m.Some? ==> |m.value| == |valid| && forall k :: 0 <= k < |valid| ==> m.value[k] > 0.0
    decreases |valid|
  {
    if valid != [] { InverseVolsArePositive(valid[..|valid| - 1], vol); }
  }

  predicate NoZeros(valid: seq<Entry>) { forall e :: e in valid ==> e.value != 0.0 }

  lemma MagnitudesArePositive(valid: seq<Entry>, vol: map<string, Option<real>>, parity: Parity, s: Settings)
    requires NoZeros(valid) && VolsAreNotNegative(vol) && PositiveParity(parity)
    ensures var m := Magnitudes(valid, vol, parity, s);
      m.Some? ==> |m.value| == |valid| && forall k :: 0 <= k < |valid| ==> m.value[k] > 0.0
  {
    InverseVolsArePositive(valid, vol);
  }

  lemma {:induction false} TotalIsPositive(m: seq<real>)
    requires m != [] && forall k :: 0 <= k < |m| ==> m[k] > 0.0
    ensures Total(m) > 0.0
    decreases |m|
  {
    if |m| > 1 { TotalIsPositive(m[..|m| - 1]); }
  }

  lemma {:induction false} SignedIsSigned(s: seq<Entry>, longOnly: bool)
    ensures NoZeros(Signed(s, longOnly))
    ensures forall e :: e in Signed(s, longOnly) <==> e in s && e.value != 0.0 && (longOnly ==> e.value > 0.0)
    decreases |s|
  {
    if s != [] {
      SignedIsSigned(s[..|s| - 1], longOnly);
      assert s == s[..|s| - 1] + [s[|s| - 1]];
    }
  }

  lemma SelectedIsSigned(row: seq<(string, Option<real>)>, s: Settings)
    ensures NoZeros(Selected(row, s))
    ensures s.longOnly ==> forall e :: e in Selected(row, s) ==> e.value > 0.0
  {
    SignedIsSigned(Known(row), s.longOnly);
  }

  /** Each weight is its share of the cap on its own side. */
  lemma ShareOfCap(m: real, total: real, cap: real, value: real)
    requires 0.0 < m && 0.0 < total && 0.0 < cap && value != 0.0
    ensures SameSign(m / total * cap * Sign(value), value)
    ensures Abs(m / total * cap * Sign(value)) == m * (cap / total)
    ensures cap / total > 0.0
  {}

  /** The first `n` weights together take the first `n` magnitudes' share of the cap. */
  lemma {:induction false} GrossOfShares(valid: seq<Entry>, m: seq<real>, cap: real, n: nat)
    requires |m| == |valid| && n <= |m| && NoZeros(valid) && 0.0 < cap && Total(m) > 0.0
    requires forall k :: 0 <= k < |m| ==> m[k] > 0.0
    ensures Gross(Normalised(valid, m, cap)[..n]) == Total(m[..n]) * (cap / Total(m))
  {
    hide Gross, Total;
    var w := Normalised(valid, m, cap);
    if n == 0 {
      NoExposure();
    } else {
      GrossOfShares(valid, m, cap, n - 1);
      OneMoreWeight(w, n);
      OneMoreMagnitude(m, n);
      assert valid[n - 1] in valid;
      ShareOfCap(m[n - 1], Total(m), cap, valid[n - 1].value);
      Distribute(Total(m[..n - 1]), m[n - 1], cap / Total(m));
    }
  }

  lemma OneMoreWeight(w: seq<Entry>, n: nat)
    requires 0 < n <= |w|
    ensures Gross(w[..n]) == Gross(w[..n - 1]) + Abs(w[n - 1].value)
  {
    assert w[..n][..n - 1] == w[..n - 1];
  }

  lemma OneMoreMagnitude(m: seq<real>, n: nat)
    requires 0 < n <= |m|
    ensures Total(m[..n]) == Total(m[..n - 1]) + m[n - 1]
  {
    assert m[..n][..n - 1] == m[..n - 1];
  }

  lemma Distribute(a: real, b: real, c: real)
    ensures (a + b) * c == a * c + b * c
  {}

  /** Before clipping the gross exposure is exactly the cap. */
  lemma NormalisedMeetsCap(valid: seq<Entry>, m: seq<real>, cap: real)
    requires |m| == |valid| > 0 && NoZeros(valid) && 0.0 < cap
    requires forall k :: 0 <= k < |m| ==> m[k] > 0.0
    ensures Total(m) > 0.0 && Gross(Normalised(valid, m, cap)) == cap
    ensures forall k :: 0 <= k < |m| ==> SameSign(Normalised(valid, m, cap)[k].value, valid[k].value)
  {
    TotalIsPositive(m);
    GrossOfShares(valid, m, cap, |m|);
    assert Normalised(valid, m, cap)[..|m|] == Normalised(valid, m, cap) && m[..|m|] == m;
    assert Total(m) * (cap / Total(m)) == cap;
    forall k | 0 <= k < |m| ensures SameSign(Normalised(valid, m, cap)[k].value, valid[k].value) {
      assert valid[k] in valid;
      ShareOfCap(m[k], Total(m), cap, valid[k].value);
    }
  }

  /** A step that shrinks every weight, keeps its side and its symbol. */
  predicate Shrinks(was: seq<Entry>, now: seq<Entry>) {
    && |now| == |was|
    && forall k :: 0 <= k < |was| ==>
         && now[k].symbol == was[k].symbol && SameSign(now[k].value, was[k].value)
         && Abs(now[k].value) <= Abs(was[k].value)
  }

  lemma {:induction false} ShrinkingLowersGross(was: seq<Entry>, now: seq<Entry>)
    requires Shrinks(was, now)
    ensures Gross(now) <= Gross(was)
    decreases |was|
  {
    if was != [] { ShrinkingLowersGross(was[..|was| - 1], now[..|now| - 1]); }
  }

  lemma ClippingShrinks(weights: seq<Entry>, limit: real)
    requires limit > 0.0
    ensures Shrinks(weights, Clipped(weights, limit))
    ensures forall e :: e in Clipped(weights, limit) ==> Abs(e.value) <= limit
    ensures (forall e :: e in weights ==> Abs(e.value) <= limit) ==> Clipped(weights, limit) == weights
  {}

  /** What one day's weights promise. */
  predicate WithinLimits(weights: seq<Entry>, s: Settings) {
    && Gross(weights) <= s.Cap()
    && forall e :: e in weights ==> Abs(e.value) <= s.positionLimit && (s.longOnly ==> e.value > 0.0)
  }

  /**
   The day's weights: none at all, or one for every selected security, on its side,
   within the position limit, together within the gross limit; and if no position had to
   be clipped, together exactly at it.
   */
  lemma TargetsWithinLimits(
    row: seq<(string, Option<real>)>, vol: map<string, Option<real>>, parity: Parity, s: Settings)
    requires s.Valid() && VolsAreNotNegative(vol) && PositiveParity(parity)
    ensures var weights := TargetWeights(row, vol, parity, s);
      && WithinLimits(weights, s)
      && (weights == [] <==> Selected(row, s) == [] || Magnitudes(Selected(row, s), vol, parity, s).None?)
      && (weights != [] ==>
            && |weights| == |Selected(row, s)|
            && (forall k :: 0 <= k < |weights| ==>
                  && weights[k].symbol == Selected(row, s)[k].symbol
                  && SameSign(weights[k].value, Selected(row, s)[k].value) && weights[k].value != 0.0)
            && ((forall e :: e in weights ==> Abs(e.value) < s.positionLimit) ==> Gross(weights) == s.Cap()))
  {
    hide Selected, Magnitudes, Gross, Total;
    var valid := Selected(row, s);
    var magnitudes := Magnitudes(valid, vol, parity, s);
    SelectedIsSigned(row, s);
    MagnitudesArePositive(valid, vol, parity, s);
    assert Gross([]) == 0.0 by { NoExposure(); }
    if valid != [] && magnitudes.Some? {
      NormalisedMeetsCap(valid, magnitudes.value, s.Cap());
      var normal := Normalised(valid, magnitudes.value, s.Cap());
      ClippingShrinks(normal, s.positionLimit);
      ShrinkingLowersGross(normal, Clipped(normal, s.positionLimit));
      SidesKept(valid, normal, s);
    }
  }

  /** A larger magnitude never gets a smaller weight, and equal ones get equal weights. */
  lemma WeightsFollowMagnitudes(valid: seq<Entry>, m: seq<real>, s: Settings, i: nat, j: nat)
    requires s.Valid() && |m| == |valid| && NoZeros(valid) && i < |m| && j < |m| && m[i] <= m[j]
    requires forall k :: 0 <= k < |m| ==> m[k] > 0.0
    ensures Total(m) > 0.0
    ensures var weights := Clipped(Normalised(valid, m, s.Cap()), s.positionLimit);
      && Abs(weights[i].value) <= Abs(weights[j].value)
      && (m[i] == m[j] ==> Abs(weights[i].value) == Abs(weights[j].value))
  {
    hide Total, Normalised, Part, Clip, Abs;
    TotalIsPositive(m);
    SizeOfWeight(valid, m, s.Cap(), i);
    SizeOfWeight(valid, m, s.Cap(), j);
    LargerPart(m[i], m[j], s.Cap() / Total(m));
    var normal := Normalised(valid, m, s.Cap());
    ClipInOrder(normal[i].value, normal[j].value, s.positionLimit);
    if m[i] == m[j] { ClipInOrder(normal[j].value, normal[i].value, s.positionLimit); }
  }

  function Part(m: real, rate: real): real { m * rate }

  lemma SizeOfWeight(valid: seq<Entry>, m: seq<real>, cap: real, k: nat)
    requires |m| == |valid| && NoZeros(valid) && k < |m| && m[k] > 0.0 && cap > 0.0 && Total(m) > 0.0
    ensures |Normalised(valid, m, cap)| == |valid| && cap / Total(m) > 0.0
    ensures Abs(Normalised(valid, m, cap)[k].value) == Part(m[k], cap / Total(m))
  {}

  lemma LargerPart(a: real, b: real, rate: real)
    requires a <= b && rate > 0.0
    ensures Part(a, rate) <= Part(b, rate)
  {}

  lemma ClipInOrder(a: real, b: real, limit: real)
    requires Abs(a) <= Abs(b) && limit > 0.0
    ensures Abs(Clip(a, limit)) <= Abs(Clip(b, limit))
  {}

  lemma NoExposure()
    ensures Gross([]) == 0.0 == Total([])
  {}

  lemma SidesKept(valid: seq<Entry>, normal: seq<Entry>, s: Settings)
    requires NoZeros(valid) && (s.longOnly ==> forall e :: e in valid ==> e.value > 0.0) && s.positionLimit > 0.0
    requires |normal| == |valid| && forall k :: 0 <= k < |valid| ==>
      normal[k].symbol == valid[k].symbol && SameSign(normal[k].value, valid[k].value)
    ensures var clipped := Clipped(normal, s.positionLimit);
      && (forall k :: 0 <= k < |valid| ==>
            && clipped[k].symbol == valid[k].symbol && SameSign(clipped[k].value, valid[k].value)
            && clipped[k].value != 0.0)
      && (s.longOnly ==> forall e :: e in clipped ==> e.value > 0.0)
      && ((forall e :: e in clipped ==> Abs(e.value) < s.positionLimit) ==> clipped == normal)
  {}
}
