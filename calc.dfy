/** The measurement calculator (internal/service/calc/service.go): unit
    conversion, the hydrostatic reduction of Block 1 readings, the Block 3
    flow split, survey interpolation and the Block 5 report-header fields. */
module Calc {
  import opened Wrappers
  import opened Civil
  import opened Models

  /** Standard gravity of the package-level constant, m/s². */
  const G: real := 9.80665

  /** The rounded gravity that CalcBlockFive declares locally, shadowing G. */
  const GBlockFive: real := 9.81

  // ---------------------------------------------------------------------
  // Unit conversion. Unknown unit strings pass the value through unchanged.

  /** A pressure in `unit` as pascals: a known unit scales by its positive
      factor, so the sign is kept; any other unit string leaves the value. */
  function ToPa(p: real, unit: string): (pa: real)
    ensures KnownUnit(unit) ==> (pa > 0.0 <==> p > 0.0) && (pa == 0.0 <==> p == 0.0)
    ensures !KnownUnit(unit) ==> pa == p
  {
    if unit == "kgf/cm2" then p * 98066.5
    else if unit == "bar" then p * 100000.0
    else if unit == "atm" then p * 101325.0
    else p
  }

  /** Pascals back in `unit`: the value ToPa maps to `pa`. */
  function FromPa(pa: real, unit: string): (p: real)
    ensures ToPa(p, unit) == pa
  {
    if unit == "kgf/cm2" then pa / 98066.5
    else if unit == "bar" then pa / 100000.0
    else if unit == "atm" then pa / 101325.0
    else pa
  }

  predicate KnownUnit(unit: string)
  {
    unit == "kgf/cm2" || unit == "bar" || unit == "atm"
  }

  /** Converting to pascals and back (either way round) returns the value, for
      every unit string. */
  lemma UnitRoundTrip(p: real, unit: string)
    ensures FromPa(ToPa(p, unit), unit) == p
    ensures ToPa(FromPa(p, unit), unit) == p
  {
  }

  /** Any unit other than the three known ones makes both conversions the identity. */
  lemma UnknownUnitIsIdentity(p: real, unit: string)
    requires !KnownUnit(unit)
    ensures ToPa(p, unit) == p && FromPa(p, unit) == p
  {
  }

  /** Pascals grow with the pressure in every unit, so the conversion keeps order. */
  lemma ToPaMonotone(p: real, q: real, unit: string)
    requires p <= q
    ensures ToPa(p, unit) <= ToPa(q, unit)
  {
  }

  /** The pressure of a fluid column: ΔP = ρ·g·Δh (Pa for kg/m³, m/s² and m). */
  function Hydrostatic(rho: real, g: real, height: real): real
  {
    rho * g * height
  }

  lemma NoColumnNoPressure(rho: real, g: real, height: real)
    requires rho == 0.0 || height == 0.0
    ensures Hydrostatic(rho, g, height) == 0.0
  {
  }

  // ---------------------------------------------------------------------
  // Block 1: hydrostatic reduction to the datum.

  /** `!t.Before(start) && t.Before(end)`: t lies in the half-open window [start, end). */
  predicate InWindow(t: Instant, start: Instant, end: Instant)
  {
    !(t < start) && t < end
  }

  /** The fluid density that applies at instant t: the work window wins over
      the idle window; outside both there is none. */
  function DensityAt(t: Instant, cfg: OperationConfig): (rho: Option<real>)
    ensures rho.Some? <==> InWindow(t, cfg.workStart, cfg.workEnd) || InWindow(t, cfg.idleStart, cfg.idleEnd)
    ensures InWindow(t, cfg.workStart, cfg.workEnd) ==> rho == Some(cfg.workDensity)
    ensures (!InWindow(t, cfg.workStart, cfg.workEnd) && InWindow(t, cfg.idleStart, cfg.idleEnd))
              ==> rho == Some(cfg.idleDensity)
  {
    if InWindow(t, cfg.workStart, cfg.workEnd) then Some(cfg.workDensity)
    else if InWindow(t, cfg.idleStart, cfg.idleEnd) then Some(cfg.idleDensity)
    else None
  }

  /** CalcTableOne: the pressure at the datum is the measured pressure plus the
      weight of a fluid column of height depthDiff, computed in pascals and
      given back in the reading's own unit. */
  function CalcTableOne(rec: TableOne, cfg: OperationConfig): (r: TableOne)
    ensures DensityAt(rec.timestamp, cfg).None? ==> r == rec
    ensures DensityAt(rec.timestamp, cfg).Some? ==>
              r == rec.(pressureAtVdp := r.pressureAtVdp) && r.pressureAtVdp.Some? &&
              ToPa(r.pressureAtVdp.value, cfg.pressureUnit)
                == ToPa(rec.pressureDepth, cfg.pressureUnit)
                   + Hydrostatic(DensityAt(rec.timestamp, cfg).value, G, cfg.depthDiff)
  {
    var p0 := ToPa(rec.pressureDepth, cfg.pressureUnit);
    match DensityAt(rec.timestamp, cfg)
    case None => rec
    case Some(rho) =>
      var deltaPa := Hydrostatic(rho, G, cfg.depthDiff);
      var v := FromPa(p0 + deltaPa, cfg.pressureUnit);
      UnitRoundTrip(p0 + deltaPa, cfg.pressureUnit);
      rec.(pressureAtVdp := Some(v))
  }

  /** In the work window the work density is used even when the idle window
      also covers the reading; the idle density only outside the work window. */
  lemma TableOneDensityChoice(rec: TableOne, cfg: OperationConfig)
    requires InWindow(rec.timestamp, cfg.workStart, cfg.workEnd) || InWindow(rec.timestamp, cfg.idleStart, cfg.idleEnd)
    ensures var rho := if InWindow(rec.timestamp, cfg.workStart, cfg.workEnd) then cfg.workDensity else cfg.idleDensity;
            CalcTableOne(rec, cfg).pressureAtVdp
              == Some(FromPa(ToPa(rec.pressureDepth, cfg.pressureUnit) + Hydrostatic(rho, G, cfg.depthDiff), cfg.pressureUnit))
  {
    var rho := if InWindow(rec.timestamp, cfg.workStart, cfg.workEnd) then cfg.workDensity else cfg.idleDensity;
    assert DensityAt(rec.timestamp, cfg) == Some(rho);
  }

  /** With no column (depthDiff = 0) or a weightless fluid, a covered reading's
      datum pressure is its own pressure, in the same unit. */
  lemma TableOneNoColumn(rec: TableOne, cfg: OperationConfig)
    requires DensityAt(rec.timestamp, cfg).Some?
    requires cfg.depthDiff == 0.0 || DensityAt(rec.timestamp, cfg).value == 0.0
    ensures CalcTableOne(rec, cfg).pressureAtVdp == Some(rec.pressureDepth)
  {
    NoColumnNoPressure(DensityAt(rec.timestamp, cfg).value, G, cfg.depthDiff);
    UnitRoundTrip(rec.pressureDepth, cfg.pressureUnit);
  }

  /** The datum pressure is recomputed from the measured pressure alone, so
      reducing an already reduced reading changes nothing. */
  lemma TableOneIdempotent(rec: TableOne, cfg: OperationConfig)
    ensures CalcTableOne(CalcTableOne(rec, cfg), cfg) == CalcTableOne(rec, cfg)
  {
  }

  /** One bar is 100000 Pa, and back. */
  lemma BarExample()
    ensures ToPa(1.0, "bar") == 100000.0 && FromPa(100000.0, "bar") == 1.0
  {
  }

  // ---------------------------------------------------------------------
  // Block 3: flow decomposition.

  /** CalcBlockThree: water and oil rates split the liquid rate by the water
      cut, and the gas-oil ratio is defined exactly when the oil rate is
      positive. */
  function CalcBlockThree(tbl: TableThree): (r: TableThree)
    ensures r.timestamp == tbl.timestamp && r.flowLiquid == tbl.flowLiquid
    ensures r.waterCut == tbl.waterCut && r.flowGas == tbl.flowGas
    ensures r.waterFlowRate.Some? && r.oilFlowRate.Some?
    ensures r.waterFlowRate.value * 100.0 == tbl.flowLiquid * tbl.waterCut
    ensures r.waterFlowRate.value + r.oilFlowRate.value == tbl.flowLiquid
    ensures r.gasOilRatio.Some? <==> r.oilFlowRate.value > 0.0
    ensures r.gasOilRatio.Some? ==> r.gasOilRatio.value * r.oilFlowRate.value == tbl.flowGas * 1000.0
  {
    var waterRate := tbl.flowLiquid * tbl.waterCut / 100.0;
    var oilRate := tbl.flowLiquid - waterRate;
    var gf := if oilRate > 0.0 then Some((tbl.flowGas * 1000.0) / oilRate) else None;
    tbl.(waterFlowRate := Some(waterRate), oilFlowRate := Some(oilRate), gasOilRatio := gf)
  }

  /** Whatever derived values the record carried before, the oil rate is
      positive exactly when the water cut is below 100% of a positive liquid
      rate (or above 100% of a negative one). */
  lemma BlockThreeOilPositive(tbl: TableThree)
    ensures CalcBlockThree(tbl).gasOilRatio.Some? <==> tbl.flowLiquid * (100.0 - tbl.waterCut) > 0.0
  {
    var r := CalcBlockThree(tbl);
    assert r.oilFlowRate.value * 100.0 == tbl.flowLiquid * (100.0 - tbl.waterCut);
  }

  /** The derived rates depend only on the measured ones, so a second pass
      changes nothing. */
  lemma BlockThreeIdempotent(tbl: TableThree)
    ensures CalcBlockThree(CalcBlockThree(tbl)) == CalcBlockThree(tbl)
  {
    var r := CalcBlockThree(tbl);
    var r2 := CalcBlockThree(r);
    assert r2.waterFlowRate == r.waterFlowRate;
    assert r2.oilFlowRate == r.oilFlowRate;
    assert r2.gasOilRatio == r.gasOilRatio;
  }

  /** 100 m³/day of liquid at 30% water cut with 5 thousand m³/day of gas:
      30 of water, 70 of oil and a gas-oil ratio of 5000/70. */
  lemma BlockThreeExample(ts: Instant)
    ensures var r := CalcBlockThree(TableThree(ts, 100.0, 30.0, 5.0, None, None, None));
            r.waterFlowRate == Some(30.0) && r.oilFlowRate == Some(70.0) && r.gasOilRatio == Some(5000.0 / 70.0)
  {
  }

  // ---------------------------------------------------------------------
  // Survey interpolation (interpolateTVD).

  /** a lies between b and c, whichever way round they are. */
  predicate Between(a: real, b: real, c: real)
  {
    (b <= a <= c) || (c <= a <= b)
  }

  /** The interpolation ratio of md in (prev.MD, curr.MD]: in (0, 1], and 1
      exactly at curr. */
  function Ratio(prev: TableFour, curr: TableFour, md: real): (ratio: real)
    requires prev.measuredDepth < md <= curr.measuredDepth
    ensures 0.0 < ratio <= 1.0
    ensures ratio == 1.0 <==> md == curr.measuredDepth
    ensures ratio * (curr.measuredDepth - prev.measuredDepth) == md - prev.measuredDepth
  {
    (md - prev.measuredDepth) / (curr.measuredDepth - prev.measuredDepth)
  }

  lemma ProductSign(x: real, y: real)
    ensures x >= 0.0 && y >= 0.0 ==> x * y >= 0.0
    ensures x > 0.0 && y > 0.0 ==> x * y > 0.0
  {
  }

  lemma ScaledBetween(ratio: real, a: real, b: real)
    requires 0.0 < ratio <= 1.0
    ensures Between(a + ratio * (b - a), a, b)
    ensures (a < b && ratio < 1.0) ==> a < a + ratio * (b - a) < b
  {
    var d := b - a;
    var x := ratio * d;
    var y := (1.0 - ratio) * d;
    assert x + y == d;
    ProductSign(ratio, d);
    ProductSign(1.0 - ratio, d);
    ProductSign(ratio, -d);
    ProductSign(1.0 - ratio, -d);
    assert ratio * -d == -x;
    assert (1.0 - ratio) * -d == -y;
    if a < b && ratio < 1.0 {
      assert x > 0.0 && y > 0.0;
    }
  }

  /** Linear interpolation of TVD and TVDSS between two survey points: each
      value lies between the two points' values, and md = curr.MD gives
      curr's values exactly. */
  function Lerp(prev: TableFour, curr: TableFour, md: real): (r: (real, real))
    requires prev.measuredDepth < md <= curr.measuredDepth
    ensures Between(r.0, prev.trueVerticalDepth, curr.trueVerticalDepth)
    ensures Between(r.1, prev.trueVerticalDepthSubSea, curr.trueVerticalDepthSubSea)
    ensures md == curr.measuredDepth ==> r == (curr.trueVerticalDepth, curr.trueVerticalDepthSubSea)
    ensures (prev.trueVerticalDepth < curr.trueVerticalDepth && md < curr.measuredDepth)
              ==> prev.trueVerticalDepth < r.0 < curr.trueVerticalDepth
  {
    var ratio := Ratio(prev, curr, md);
    assert md < curr.measuredDepth ==> ratio < 1.0;
    ScaledBetween(ratio, prev.trueVerticalDepth, curr.trueVerticalDepth);
    ScaledBetween(ratio, prev.trueVerticalDepthSubSea, curr.trueVerticalDepthSubSea);
    (prev.trueVerticalDepth + ratio * (curr.trueVerticalDepth - prev.trueVerticalDepth),
     prev.trueVerticalDepthSubSea + ratio * (curr.trueVerticalDepthSubSea - prev.trueVerticalDepthSubSea))
  }

  function Values(point: TableFour): (real, real)
  {
    (point.trueVerticalDepth, point.trueVerticalDepthSubSea)
  }

  /** The scan of the survey from index i on: the first point at or beyond md
      is interpolated against its predecessor; if none, the last point. */
  function ScanFrom(survey: seq<TableFour>, md: real, i: nat): (real, real)
    requires 1 <= i <= |survey|
    requires survey[i - 1].measuredDepth < md
    decreases |survey| - i
  {
    if i == |survey| then Values(survey[|survey| - 1])
    else if md <= survey[i].measuredDepth then Lerp(survey[i - 1], survey[i], md)
    else ScanFrom(survey, md, i + 1)
  }

  /** The (TVD, TVDSS) that interpolateTVD returns. */
  function Interpolated(survey: seq<TableFour>, md: real): (r: (real, real))
    ensures |survey| == 0 ==> r == (0.0, 0.0)
    ensures |survey| > 0 && md <= survey[0].measuredDepth ==> r == Values(survey[0])
  {
    if |survey| == 0 then (0.0, 0.0)
    else if md <= survey[0].measuredDepth then Values(survey[0])
    else ScanFrom(survey, md, 1)
  }

  lemma {:induction false} ScanFromAtCovering(survey: seq<TableFour>, md: real, i: nat, k: nat)
    requires 1 <= i <= k < |survey|
    requires forall j :: 0 <= j < k ==> survey[j].measuredDepth < md
    requires md <= survey[k].measuredDepth
    ensures ScanFrom(survey, md, i) == Lerp(survey[k - 1], survey[k], md)
    decreases k - i
  {
    if i < k {
      ScanFromAtCovering(survey, md, i + 1, k);
    }
  }

  lemma {:induction false} ScanFromPastEnd(survey: seq<TableFour>, md: real, i: nat)
    requires 1 <= i <= |survey|
    requires forall j :: 0 <= j < |survey| ==> survey[j].measuredDepth < md
    ensures ScanFrom(survey, md, i) == Values(survey[|survey| - 1])
    decreases |survey| - i
  {
    if i < |survey| {
      ScanFromPastEnd(survey, md, i + 1);
    }
  }

  /** Past the first point, the result interpolates between the first point k
      whose MD reaches md and its predecessor, which lies strictly below md
      (so the denominator is positive), whether or not the survey is sorted. */
  lemma InterpolatedAtFirstCovering(survey: seq<TableFour>, md: real, k: nat)
    requires 1 <= k < |survey|
    requires forall j :: 0 <= j < k ==> survey[j].measuredDepth < md
    requires md <= survey[k].measuredDepth
    ensures survey[k - 1].measuredDepth < md
    ensures Interpolated(survey, md) == Lerp(survey[k - 1], survey[k], md)
  {
    ScanFromAtCovering(survey, md, 1, k);
  }

  /** When md exceeds every MD of the survey, the last point's values come back. */
  lemma InterpolatedPastEveryPoint(survey: seq<TableFour>, md: real)
    requires |survey| > 0
    requires forall j :: 0 <= j < |survey| ==> survey[j].measuredDepth < md
    ensures Interpolated(survey, md) == Values(survey[|survey| - 1])
  {
    ScanFromPastEnd(survey, md, 1);
  }

  predicate SortedByDepth(survey: seq<TableFour>)
  {
    forall i, j :: 0 <= i < j < |survey| ==> survey[i].measuredDepth < survey[j].measuredDepth
  }

  /** For a survey sorted by MD, any md at or beyond the last MD gets the last
      point's values exactly: no extrapolation. */
  lemma InterpolatedClampsHigh(survey: seq<TableFour>, md: real)
    requires |survey| > 0 && SortedByDepth(survey)
    requires md >= survey[|survey| - 1].measuredDepth
    ensures Interpolated(survey, md) == Values(survey[|survey| - 1])
  {
    var n := |survey|;
    if md > survey[n - 1].measuredDepth {
      InterpolatedPastEveryPoint(survey, md);
    } else if n > 1 {
      InterpolatedAtFirstCovering(survey, md, n - 1);
    }
  }

  /** For a survey whose MD and TVD both increase strictly, an md strictly
      between two neighbouring points gets a TVD strictly between theirs. */
  lemma InterpolatedStrictlyBetween(survey: seq<TableFour>, md: real, k: nat)
    requires SortedByDepth(survey)
    requires forall i, j :: 0 <= i < j < |survey| ==> survey[i].trueVerticalDepth < survey[j].trueVerticalDepth
    requires 1 <= k < |survey|
    requires survey[k - 1].measuredDepth < md < survey[k].measuredDepth
    ensures survey[k - 1].trueVerticalDepth < Interpolated(survey, md).0 < survey[k].trueVerticalDepth
  {
    InterpolatedAtFirstCovering(survey, md, k);
  }

  /** The two-point survey (0,0,0), (1000,950,940) gives (475,470) at md 500. */
  lemma InterpolatedMidpoint()
    ensures Interpolated([TableFour(0.0, 0.0, 0.0), TableFour(1000.0, 950.0, 940.0)], 500.0) == (475.0, 470.0)
  {
    var survey := [TableFour(0.0, 0.0, 0.0), TableFour(1000.0, 950.0, 940.0)];
    InterpolatedAtFirstCovering(survey, 500.0, 1);
  }

  /** interpolateTVD: the indexed scan with early return. */
  method InterpolateTvd(survey: seq<TableFour>, md: real) returns (tvd: real, tvdss: real)
    ensures (tvd, tvdss) == Interpolated(survey, md)
  {
    if |survey| == 0 {
      return 0.0, 0.0;
    }
    if md <= survey[0].measuredDepth {
      return survey[0].trueVerticalDepth, survey[0].trueVerticalDepthSubSea;
    }
    for i := 1 to |survey|
      invariant survey[i - 1].measuredDepth < md
      invariant Interpolated(survey, md) == ScanFrom(survey, md, i)
    {
      var prev := survey[i - 1];
      var curr := survey[i];
      if md <= curr.measuredDepth {
        var ratio := (md - prev.measuredDepth) / (curr.measuredDepth - prev.measuredDepth);
        tvd := prev.trueVerticalDepth + ratio * (curr.trueVerticalDepth - prev.trueVerticalDepth);
        tvdss := prev.trueVerticalDepthSubSea + ratio * (curr.trueVerticalDepthSubSea - prev.trueVerticalDepthSubSea);
        assert ratio == Ratio(prev, curr, md);
        assert Lerp(prev, curr, md).0 == tvd;
        assert Lerp(prev, curr, md).1 == tvdss;
        assert ScanFrom(survey, md, i) == Lerp(prev, curr, md) == (tvd, tvdss);
        return;
      }
    }
    var last := survey[|survey| - 1];
    return last.trueVerticalDepth, last.trueVerticalDepthSubSea;
  }

  // ---------------------------------------------------------------------
  // Block 5: report-header geometry.

  /** The error of the survey loader (GetBlockFourByResearchID). */
  datatype LoadError = LoadError(message: string)

  /** The header with every field CalcBlockFive may fill blanked out: what it
      must leave alone. */
  function HeaderInputs(t: TableFive): TableFive
  {
    t.(trueVerticalDepth := None, trueVerticalDepthSubSea := None,
       vdpTrueVerticalDepth := None, vdpTrueVerticalDepthSea := None,
       diffInstrumentVdp := None, pressureDiffStopped := None, pressureDiffWorking := None)
  }

  /** The five fields CalcBlockFive fills only when the VDP depth is positive. */
  predicate SameVdpFields(a: TableFive, b: TableFive)
  {
    a.vdpTrueVerticalDepth == b.vdpTrueVerticalDepth &&
    a.vdpTrueVerticalDepthSea == b.vdpTrueVerticalDepthSea &&
    a.diffInstrumentVdp == b.diffInstrumentVdp &&
    a.pressureDiffStopped == b.pressureDiffStopped &&
    a.pressureDiffWorking == b.pressureDiffWorking
  }

  /** CalcBlockFive, with the survey loader's answer as a parameter. */
  function CalcBlockFive(tbl: TableFive, survey: Result<seq<TableFour>, LoadError>): (r: TableFive)
    ensures survey.Failure? ==> r == tbl
    ensures survey.Success? ==> HeaderInputs(r) == HeaderInputs(tbl)
    ensures survey.Success? ==>
              r.trueVerticalDepth == Some(Interpolated(survey.value, tbl.measuredDepth).0) &&
              r.trueVerticalDepthSubSea == Some(Interpolated(survey.value, tbl.measuredDepth).1)
    ensures survey.Success? && tbl.vdpMeasuredDepth <= 0.0 ==> SameVdpFields(r, tbl)
    ensures survey.Success? && tbl.vdpMeasuredDepth > 0.0 ==>
              var vdp := Interpolated(survey.value, tbl.vdpMeasuredDepth);
              var diff := Interpolated(survey.value, tbl.measuredDepth).1 - vdp.1;
              r.vdpTrueVerticalDepth == Some(vdp.0) &&
              r.vdpTrueVerticalDepthSea == Some(vdp.1) &&
              r.diffInstrumentVdp == Some(diff) &&
              r.pressureDiffStopped == Some(Hydrostatic(tbl.densityLiquidStopped, GBlockFive, diff)) &&
              r.pressureDiffWorking == Some(Hydrostatic(tbl.densityLiquidWorking, GBlockFive, diff))
  {
    match survey
    case Failure(_) => tbl
    case Success(s) =>
      var at := Interpolated(s, tbl.measuredDepth);
      var t := tbl.(trueVerticalDepth := Some(at.0), trueVerticalDepthSubSea := Some(at.1));
      if tbl.vdpMeasuredDepth > 0.0 then
        var vdp := Interpolated(s, tbl.vdpMeasuredDepth);
        // The source re-checks that the TVDSS just stored is non-nil; it always is.
        var delta := at.1 - vdp.1;
        t.(vdpTrueVerticalDepth := Some(vdp.0), vdpTrueVerticalDepthSea := Some(vdp.1),
           diffInstrumentVdp := Some(delta),
           pressureDiffStopped := Some(Hydrostatic(tbl.densityLiquidStopped, GBlockFive, delta)),
           pressureDiffWorking := Some(Hydrostatic(tbl.densityLiquidWorking, GBlockFive, delta)))
      else
        t
  }

  /** With a loaded survey, the five VDP-dependent fields are all present
      when the VDP depth is positive; from a header without them, they stay
      all absent otherwise: never a partial set. */
  lemma BlockFiveAllOrNothing(tbl: TableFive, s: seq<TableFour>)
    requires tbl.vdpTrueVerticalDepth.None? && tbl.vdpTrueVerticalDepthSea.None? && tbl.diffInstrumentVdp.None?
    requires tbl.pressureDiffStopped.None? && tbl.pressureDiffWorking.None?
    ensures var r := CalcBlockFive(tbl, Success(s));
            (r.vdpTrueVerticalDepth.Some? <==> tbl.vdpMeasuredDepth > 0.0) &&
            (r.vdpTrueVerticalDepthSea.Some? <==> tbl.vdpMeasuredDepth > 0.0) &&
            (r.diffInstrumentVdp.Some? <==> tbl.vdpMeasuredDepth > 0.0) &&
            (r.pressureDiffStopped.Some? <==> tbl.vdpMeasuredDepth > 0.0) &&
            (r.pressureDiffWorking.Some? <==> tbl.vdpMeasuredDepth > 0.0)
  {
  }

  /** An instrument at the VDP itself has no height difference and no
      hydrostatic pressure difference. */
  lemma BlockFiveInstrumentAtVdp(tbl: TableFive, s: seq<TableFour>)
    requires tbl.vdpMeasuredDepth > 0.0 && tbl.measuredDepth == tbl.vdpMeasuredDepth
    ensures var r := CalcBlockFive(tbl, Success(s));
            r.diffInstrumentVdp == Some(0.0) && r.pressureDiffStopped == Some(0.0) && r.pressureDiffWorking == Some(0.0)
  {
    var at := Interpolated(s, tbl.measuredDepth);
    assert at.1 - at.1 == 0.0;
    NoColumnNoPressure(tbl.densityLiquidStopped, GBlockFive, 0.0);
    NoColumnNoPressure(tbl.densityLiquidWorking, GBlockFive, 0.0);
  }

  /** Every field CalcBlockFive writes is recomputed from fields it leaves
      alone, so running it again with the same survey changes nothing. */
  lemma BlockFiveIdempotent(tbl: TableFive, survey: Result<seq<TableFour>, LoadError>)
    ensures CalcBlockFive(CalcBlockFive(tbl, survey), survey) == CalcBlockFive(tbl, survey)
  {
  }
}
