/**
 * The heat-map weighting of the older map script maplogic.js: each report
 * becomes one weighted point, the weight a tier of its decibel value so that
 * a single report never saturates the map.
 */
module HeatWeights {
  import opened Js

  /** A report as the `reports.map` callback reads it; `decibels` is `Number(report.decibels)`. */
  datatype HeatReport = HeatReport(latitude: JsValue, longitude: JsValue, decibels: Num)

  /** One entry of `heatMapData`: the location and the weight. */
  datatype HeatPoint = HeatPoint(latitude: JsValue, longitude: JsValue, weight: real)

  /** `Number(report.decibels) || 0`: NaN and zero are falsy and become 0. */
  function Decibels(n: Num): (dB: Num)
    ensures !dB.NaN?
    ensures n.NaN? ==> dB == Finite(0.0)
    ensures !n.NaN? ==> dB == n
  {
    if n.NaN? || n == Finite(0.0) then Finite(0.0) else n
  }

  /** `dB > t` for a number that is not NaN. */
  predicate Above(dB: Num, t: real) {
    dB.PosInf? || (dB.Finite? && dB.r > t)
  }

  /** The weight tier of one report. */
  function Weight(n: Num): real {
    var dB := Decibels(n);
    if Above(dB, 80.0) then 0.85
    else if Above(dB, 70.0) then 0.70
    else if Above(dB, 60.0) then 0.45
    else if Above(dB, 50.0) then 0.25
    else 0.1
  }

  /** The five tiers over finite decibel values, each band open below and closed above. */
  lemma {:induction false} WeightTiers(dB: real)
    ensures dB <= 50.0 ==> Weight(Finite(dB)) == 0.1
    ensures 50.0 < dB <= 60.0 ==> Weight(Finite(dB)) == 0.25
    ensures 60.0 < dB <= 70.0 ==> Weight(Finite(dB)) == 0.45
    ensures 70.0 < dB <= 80.0 ==> Weight(Finite(dB)) == 0.70
    ensures 80.0 < dB ==> Weight(Finite(dB)) == 0.85
  {
  }

  /** A missing or non-numeric value counts as 0 dB, the lowest tier. */
  lemma {:induction false} NotANumberIsQuietest()
    ensures Weight(NaN) == Weight(Finite(0.0)) == 0.1
  {
  }

  /** Every weight lies between the lowest and the highest tier. */
  lemma {:induction false} WeightBounds(n: Num)
    ensures 0.1 <= Weight(n) <= 0.85
  {
  }

  /** The order of numbers that are not NaN, with the infinities at the ends. */
  predicate NumLe(a: Num, b: Num)
    requires !a.NaN? && !b.NaN?
  {
    a.NegInf? || b.PosInf? || (a.Finite? && b.Finite? && a.r <= b.r)
  }

  lemma {:induction false} AboveMonotone(a: Num, b: Num, t: real)
    requires !a.NaN? && !b.NaN? && NumLe(a, b) && Above(a, t)
    ensures Above(b, t)
  {
  }

  /** A louder report never gets a smaller weight. */
  lemma {:induction false} WeightMonotone(a: Num, b: Num)
    requires !a.NaN? && !b.NaN? && NumLe(a, b)
    ensures Weight(a) <= Weight(b)
  {
    var da, db := Decibels(a), Decibels(b);
    assert NumLe(da, db);
    if Above(da, 80.0) { AboveMonotone(da, db, 80.0); }
    else if Above(da, 70.0) { AboveMonotone(da, db, 70.0); }
    else if Above(da, 60.0) { AboveMonotone(da, db, 60.0); }
    else if Above(da, 50.0) { AboveMonotone(da, db, 50.0); }
  }

  /** `reports.map(...)`: one point per report, in the same order, with its location and tier. */
  function HeatData(rs: seq<HeatReport>): (points: seq<HeatPoint>)
    ensures |points| == |rs|
    ensures forall i :: 0 <= i < |rs| ==>
              points[i].latitude == rs[i].latitude && points[i].longitude == rs[i].longitude
              && points[i].weight == Weight(rs[i].decibels)
              && 0.1 <= points[i].weight <= 0.85
  {
    seq(|rs|, i requires 0 <= i < |rs| => HeatPoint(rs[i].latitude, rs[i].longitude, Weight(rs[i].decibels)))
  }

  /** Mapping is element-wise, so the points of two batches are the two batches' points. */
  lemma {:induction false} HeatDataDistributes(a: seq<HeatReport>, b: seq<HeatReport>)
    ensures HeatData(a + b) == HeatData(a) + HeatData(b)
  {
  }
}
