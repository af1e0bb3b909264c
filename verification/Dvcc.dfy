/**
 Battery current limits: piecewise linear curves, the most restrictive of which wins, and a rate limiter.
 Currents and thresholds are exact numbers.
 */
module Dvcc {
  import opened Prelude

  const FULL_SOC: real := 100.0
  const DISCHARGE_NORMAL: real := 3.0
  const DISCHARGE_LOW: real := 2.9
  const DISCHARGE_STOP: real := 2.7

  /** Ordered from no limit to none allowed. */
  datatype CellThresholds = CellThresholds(start: real, balance: real, nearFull: real, cutoff: real)

  datatype ImbalanceThresholds = ImbalanceThresholds(start: real, aggressive: real, critical: real)

  datatype TempThresholds = TempThresholds(chargeMin: real, reduced: real, optimal: real, limit: real, stop: real,
                                           dischargeMin: real, dischargeReduced: real)

  datatype SocThresholds = SocThresholds(reduceStart: real, reduceFactor: real, dischargeStop: real,
                                         dischargeReduced: real)

  datatype Config = Config(cell: CellThresholds, imbalance: ImbalanceThresholds, temp: TempThresholds,
                           soc: SocThresholds,
                           minCharge: real, cclRate: real, dclRate: real, cellMaxVoltage: real, cellCount: nat)

  datatype Caps = Caps(charge: real, discharge: real)

  datatype Data = Data(maxCell: Option<real>, minCell: Option<real>, maxTemp: Option<real>, minTemp: Option<real>,
                       soc: Option<real>, allowCharge: bool, allowDischarge: bool)

  // ---------------------------------------------------------------- the curves

  /** How far `v` is from `low` towards `high`. */
  function Ramp(v: real, low: real, high: real): real
    requires low < high
  {
    (v - low) / (high - low)
  }

  function Unit(factor: real): real {
    RealMax(0.0, RealMin(1.0, factor))
  }

  /** A share of `max`: `base` of it, and `gain` of it times `factor`. */
  function Share(max: real, base: real, gain: real, factor: real): real {
    max * (base + gain * factor)
  }

  function Between(low: real, high: real, factor: real): real {
    low + (high - low) * factor
  }

  function Part(max: real, factor: real): real {
    max * factor
  }

  function HalfShare(max: real, factor: real): real {
    Part(max, factor) * 0.5
  }

  function CclFromCell(c: Config, max: real, cell: Option<real>): real {
    if cell.None? then max
    else
      var (v, t) := (cell.value, c.cell);
      if v >= t.cutoff then 0.0
      else if v >= t.nearFull then RealMax(0.0, Between(0.0, c.minCharge, 1.0 - Ramp(v, t.nearFull, t.cutoff)))
      else if v >= t.balance then
        Between(c.minCharge, max * 0.20, 1.0 - Ramp(v, t.balance, t.nearFull))
      else if v >= t.start then Share(max, 0.20, 0.80, 1.0 - Ramp(v, t.start, t.balance))
      else max
  }

  function CclFromImbalance(c: Config, max: real, delta: Option<real>): real {
    if delta.None? || delta.value < 0.0 then max
    else
      var (d, t) := (delta.value, c.imbalance);
      if d <= t.start then max
      else if d >= t.critical then c.minCharge
      else if d >= t.aggressive then
        Between(c.minCharge, max * 0.30, 1.0 - Ramp(d, t.aggressive, t.critical))
      else Share(max, 0.30, 0.70, 1.0 - Ramp(d, t.start, t.aggressive))
  }

  function CclFromTemp(c: Config, max: real, minTemp: Option<real>, maxTemp: Option<real>): real {
    var temp := if maxTemp.Some? then maxTemp else minTemp;
    if temp.None? then max
    else
      var (v, t) := (temp.value, c.temp);
      if v <= t.chargeMin || v >= t.stop then 0.0
      else if v < t.reduced then RealMax(HalfShare(max, Unit(Ramp(v, t.chargeMin, t.reduced))), c.minCharge)
      else if v < t.optimal then RealMax(Share(max, 0.1, 0.4, Unit(Ramp(v, t.reduced, t.optimal))), c.minCharge)
      else if v > t.limit then Part(max, RealMax(0.2, Unit(1.0 - Ramp(v, t.limit, t.stop))))
      else max
  }

  function CclFromSoc(c: Config, max: real, soc: Option<real>): real {
    if soc.None? || soc.value < c.soc.reduceStart then max
    else if soc.value >= FULL_SOC then Part(max, c.soc.reduceFactor)
    else Part(max, 1.0 - Part(1.0 - c.soc.reduceFactor, Ramp(soc.value, c.soc.reduceStart, FULL_SOC)))
  }

  function DclFromCell(max: real, cell: Option<real>): real {
    if cell.None? || cell.value >= DISCHARGE_NORMAL then max
    else if cell.value <= DISCHARGE_STOP then 0.0
    else if cell.value <= DISCHARGE_LOW
    then RealMax(HalfShare(max, Ramp(cell.value, DISCHARGE_STOP, DISCHARGE_LOW)), 0.0)
    else RealMax(Share(max, 0.5, 0.5, Ramp(cell.value, DISCHARGE_LOW, DISCHARGE_NORMAL)), 0.0)
  }

  function DclFromTemp(c: Config, max: real, minTemp: Option<real>, maxTemp: Option<real>): real {
    var temp := if minTemp.Some? then minTemp else maxTemp;
    if temp.None? then max
    else if temp.value <= c.temp.dischargeMin then 0.0
    else if temp.value < c.temp.dischargeReduced then
      RealMax(Part(max * 0.3, Unit(Ramp(temp.value, c.temp.dischargeMin, c.temp.dischargeReduced))), 0.0)
    else max
  }

  function DclFromSoc(c: Config, max: real, soc: Option<real>): real {
    if soc.None? || soc.value > c.soc.dischargeReduced then max
    else if soc.value <= c.soc.dischargeStop then 0.0
    else RealMax(HalfShare(max, Unit(Ramp(soc.value, c.soc.dischargeStop, c.soc.dischargeReduced))), 0.0)
  }

  function Least(values: seq<real>): (r: real)
    requires values != []
    ensures r in values && forall k :: 0 <= k < |values| ==> r <= values[k]
  {
    if |values| == 1 then values[0]
    else
      var rest := Least(values[..|values| - 1]);
      if values[|values| - 1] < rest then values[|values| - 1] else rest
  }

  function CellDelta(d: Data): Option<real> {
    if d.maxCell.Some? && d.minCell.Some? then Some(d.maxCell.value - d.minCell.value) else None
  }

  function CclSources(c: Config, max: real, d: Data): seq<real> {
    [CclFromCell(c, max, d.maxCell), CclFromImbalance(c, max, CellDelta(d)),
     CclFromTemp(c, max, d.minTemp, d.maxTemp), CclFromSoc(c, max, d.soc)]
  }

  function DclSources(c: Config, max: real, d: Data): seq<real> {
    [DclFromCell(max, d.minCell), DclFromTemp(c, max, d.minTemp, d.maxTemp), DclFromSoc(c, max, d.soc)]
  }

  function ComputeCcl(c: Config, max: real, d: Data): real {
    Least(CclSources(c, max, d))
  }

  function ComputeDcl(c: Config, max: real, d: Data): real {
    Least(DclSources(c, max, d))
  }

  // ---------------------------------------------------------------- the rate limiter

  datatype Memory = Memory(ccl: real, dcl: real, updated: Option<real>)

  /** Twice as fast downwards. */
  function RateLimitValue(value: real, last: real, change: real): real {
    if value > last then RealMin(value, last + change)
    else if value < last then RealMax(value, last - change * 2.0)
    else value
  }

  /** A hard cutoff is never delayed. */
  function Limited(target: real, last: real, allowed: bool, change: real): real {
    if target <= 0.0 || !allowed then target else RateLimitValue(target, last, change)
  }

  /** The change a rate allows between two instants. */
  function Allowed(rate: real, since: real, now: real): real {
    rate * (now - since)
  }

  function RateLimit(c: Config, m: Memory, ccl: real, dcl: real, allowCharge: bool, allowDischarge: bool,
                     now: real): Memory {
    if m.updated.None? then Memory(ccl, dcl, Some(now))
    else
      Memory(Limited(ccl, m.ccl, allowCharge, Allowed(c.cclRate, m.updated.value, now)),
             Limited(dcl, m.dcl, allowDischarge, Allowed(c.dclRate, m.updated.value, now)), Some(now))
  }

  function TargetCcl(c: Config, caps: Caps, d: Data): real {
    if d.allowCharge then ComputeCcl(c, caps.charge, d) else 0.0
  }

  function TargetDcl(c: Config, caps: Caps, d: Data): real {
    if d.allowDischarge then ComputeDcl(c, caps.discharge, d) else 0.0
  }

  /** The new memory, whose currents are the limits returned. */
  function Calculate(c: Config, caps: Caps, m: Memory, d: Data, now: real): Memory {
    RateLimit(c, m, TargetCcl(c, caps, d), TargetDcl(c, caps, d), d.allowCharge, d.allowDischarge, now)
  }

  // ---------------------------------------------------------------- arithmetic of one segment

  lemma RampIsMonotone(v: real, w: real, low: real, high: real)
    requires low <= v <= w <= high && low < high
    ensures 0.0 <= Ramp(v, low, high) <= Ramp(w, low, high) <= 1.0
  {
    QuotientIsMonotone(0.0, v - low, high - low);
    QuotientIsMonotone(v - low, w - low, high - low);
    QuotientIsMonotone(w - low, high - low, high - low);
  }

  lemma QuotientIsMonotone(x: real, y: real, d: real)
    requires x <= y && d > 0.0
    ensures x / d <= y / d
  {
  }

  lemma ProductIsMonotone(a: real, x: real, y: real)
    requires a >= 0.0 && x <= y
    ensures a * x <= a * y
  {
  }

  lemma PartIsMonotone(max: real, f: real, g: real)
    requires max >= 0.0 && 0.0 <= f <= g <= 1.0
    ensures 0.0 <= Part(max, f) <= Part(max, g) <= max
  {
    assert 0.0 <= max * f by { ProductIsMonotone(max, 0.0, f); }
    assert max * f <= max * g by { ProductIsMonotone(max, f, g); }
    assert max * g <= max by {
      ProductIsMonotone(max, g, 1.0);
      assert max * 1.0 == max;
    }
  }

  lemma BetweenIsMonotone(low: real, high: real, f: real, g: real)
    requires low <= high && 0.0 <= f <= g <= 1.0
    ensures low <= Between(low, high, f) <= Between(low, high, g) <= high
  {
    PartIsMonotone(high - low, f, g);
  }

  lemma ShareIsMonotone(max: real, base: real, gain: real, f: real, g: real)
    requires max >= 0.0 && gain >= 0.0 && 0.0 <= f <= g <= 1.0
    ensures max * base <= Share(max, base, gain, f) <= Share(max, base, gain, g) <= max * (base + gain)
  {
    var (low, high) := (base + gain * f, base + gain * g);
    assert base <= low <= high <= base + gain by { PartOfGain(gain, f, g); }
    assert max * base <= max * low by { ProductIsMonotone(max, base, low); }
    assert max * low <= max * high by { ProductIsMonotone(max, low, high); }
    assert max * high <= max * (base + gain) by { ProductIsMonotone(max, high, base + gain); }
  }

  lemma PartOfGain(gain: real, f: real, g: real)
    requires gain >= 0.0 && 0.0 <= f <= g <= 1.0
    ensures 0.0 <= gain * f <= gain * g <= gain
  {
    PartIsMonotone(gain, f, g);
  }

  lemma HalfShareIsMonotone(max: real, f: real, g: real)
    requires max >= 0.0 && 0.0 <= f <= g <= 1.0
    ensures 0.0 <= HalfShare(max, f) <= HalfShare(max, g) <= max * 0.5
  {
    PartIsMonotone(max, f, g);
  }

  // ---------------------------------------------------------------- charge curves

  predicate OrderedCells(t: CellThresholds) {
    t.start <= t.balance <= t.nearFull <= t.cutoff
  }

  predicate OrderedImbalance(t: ImbalanceThresholds) {
    t.start <= t.aggressive <= t.critical
  }

  predicate CurrentsOk(c: Config, max: real) {
    0.0 <= c.minCharge <= max * 0.20
  }

  /** The level each segment of the cell curve lies in. */
  function CellBand(t: CellThresholds, v: real): nat {
    if v >= t.cutoff then 4 else if v >= t.nearFull then 3 else if v >= t.balance then 2 else if v >= t.start then 1
    else 0
  }

  lemma CellReducing(c: Config, max: real, v: real, w: real)
    requires OrderedCells(c.cell) && CurrentsOk(c, max) && c.cell.start <= v <= w < c.cell.balance
    ensures max * 0.20 <= CclFromCell(c, max, Some(w)) <= CclFromCell(c, max, Some(v)) <= max
  {
    var t := c.cell;
    RampIsMonotone(v, w, t.start, t.balance);
    ShareIsMonotone(max, 0.20, 0.80, 1.0 - Ramp(w, t.start, t.balance), 1.0 - Ramp(v, t.start, t.balance));
  }

  lemma CellBalancing(c: Config, max: real, v: real, w: real)
    requires OrderedCells(c.cell) && CurrentsOk(c, max) && c.cell.balance <= v <= w < c.cell.nearFull
    ensures c.minCharge <= CclFromCell(c, max, Some(w)) <= CclFromCell(c, max, Some(v)) <= max * 0.20
  {
    var t := c.cell;
    RampIsMonotone(v, w, t.balance, t.nearFull);
    BetweenIsMonotone(c.minCharge, max * 0.20, 1.0 - Ramp(w, t.balance, t.nearFull),
                      1.0 - Ramp(v, t.balance, t.nearFull));
  }

  lemma CellTail(c: Config, max: real, v: real, w: real)
    requires OrderedCells(c.cell) && CurrentsOk(c, max) && c.cell.nearFull <= v <= w < c.cell.cutoff
    ensures 0.0 <= CclFromCell(c, max, Some(w)) <= CclFromCell(c, max, Some(v)) <= c.minCharge
  {
    var t := c.cell;
    RampIsMonotone(v, w, t.nearFull, t.cutoff);
    BetweenIsMonotone(0.0, c.minCharge, 1.0 - Ramp(w, t.nearFull, t.cutoff), 1.0 - Ramp(v, t.nearFull, t.cutoff));
  }

  /** The level of each segment, and within one segment a higher voltage never allows more. */
  lemma CellSegment(c: Config, max: real, v: real, w: real)
    requires OrderedCells(c.cell) && CurrentsOk(c, max)
    requires v <= w && CellBand(c.cell, v) == CellBand(c.cell, w)
    ensures CclFromCell(c, max, Some(w)) <= CclFromCell(c, max, Some(v))
    ensures
      match CellBand(c.cell, v)
      case 0 => CclFromCell(c, max, Some(v)) == max
      case 1 => max * 0.20 <= CclFromCell(c, max, Some(v)) <= max
      case 2 => c.minCharge <= CclFromCell(c, max, Some(v)) <= max * 0.20
      case 3 => 0.0 <= CclFromCell(c, max, Some(v)) <= c.minCharge
      case _ => CclFromCell(c, max, Some(v)) == 0.0
  {
    match CellBand(c.cell, v)
    case 1 => CellReducing(c, max, v, w);
    case 2 => CellBalancing(c, max, v, w);
    case 3 => CellTail(c, max, v, w);
    case _ =>
  }

  /** Across all its breakpoints, the charge limit never rises with the highest cell voltage. */
  lemma ChargeFallsWithCellVoltage(c: Config, max: real, v: real, w: real)
    requires OrderedCells(c.cell) && CurrentsOk(c, max) && v <= w
    ensures 0.0 <= CclFromCell(c, max, Some(w)) <= CclFromCell(c, max, Some(v)) <= max
  {
    CellSegment(c, max, v, v);
    CellSegment(c, max, w, w);
    if CellBand(c.cell, v) == CellBand(c.cell, w) { CellSegment(c, max, v, w); }
  }

  function ImbalanceBand(t: ImbalanceThresholds, d: real): nat {
    if d < 0.0 || d <= t.start then 0 else if d >= t.critical then 3 else if d >= t.aggressive then 2 else 1
  }

  lemma ImbalanceSlight(c: Config, max: real, v: real, w: real)
    requires OrderedImbalance(c.imbalance) && CurrentsOk(c, max) && 0.0 <= v <= w && c.imbalance.start < v
        && w < c.imbalance.aggressive
    ensures max * 0.30 <= CclFromImbalance(c, max, Some(w)) <= CclFromImbalance(c, max, Some(v)) <= max
  {
    var t := c.imbalance;
    RampIsMonotone(v, w, t.start, t.aggressive);
    ShareIsMonotone(max, 0.30, 0.70, 1.0 - Ramp(w, t.start, t.aggressive), 1.0 - Ramp(v, t.start, t.aggressive));
  }

  lemma ImbalanceStrong(c: Config, max: real, v: real, w: real)
    requires OrderedImbalance(c.imbalance) && CurrentsOk(c, max)
    requires 0.0 <= v <= w && c.imbalance.start < v && c.imbalance.aggressive <= v && w < c.imbalance.critical
    ensures c.minCharge <= CclFromImbalance(c, max, Some(w)) <= CclFromImbalance(c, max, Some(v)) <= max * 0.30
  {
    var t := c.imbalance;
    RampIsMonotone(v, w, t.aggressive, t.critical);
    BetweenIsMonotone(c.minCharge, max * 0.30, 1.0 - Ramp(w, t.aggressive, t.critical),
                      1.0 - Ramp(v, t.aggressive, t.critical));
  }

  lemma ImbalanceSegment(c: Config, max: real, v: real, w: real)
    requires OrderedImbalance(c.imbalance) && CurrentsOk(c, max)
    requires v <= w && ImbalanceBand(c.imbalance, v) == ImbalanceBand(c.imbalance, w)
    ensures CclFromImbalance(c, max, Some(w)) <= CclFromImbalance(c, max, Some(v))
    ensures
      match ImbalanceBand(c.imbalance, v)
      case 0 => CclFromImbalance(c, max, Some(v)) == max
      case 1 => max * 0.30 <= CclFromImbalance(c, max, Some(v)) <= max
      case 2 => c.minCharge <= CclFromImbalance(c, max, Some(v)) <= max * 0.30
      case _ => CclFromImbalance(c, max, Some(v)) == c.minCharge
  {
    match ImbalanceBand(c.imbalance, v)
    case 1 => ImbalanceSlight(c, max, v, w);
    case 2 => ImbalanceStrong(c, max, v, w);
    case _ =>
  }

  /** Across all its breakpoints, the charge limit never rises with the imbalance of the cells. */
  lemma ChargeFallsWithImbalance(c: Config, max: real, v: real, w: real)
    requires OrderedImbalance(c.imbalance) && CurrentsOk(c, max) && v <= w
    ensures 0.0 <= c.minCharge <= CclFromImbalance(c, max, Some(w)) <= CclFromImbalance(c, max, Some(v)) <= max
  {
    ImbalanceSegment(c, max, v, v);
    ImbalanceSegment(c, max, w, w);
    if ImbalanceBand(c.imbalance, v) == ImbalanceBand(c.imbalance, w) { ImbalanceSegment(c, max, v, w); }
  }

  // ---------------------------------------------------------------- the charge curve over temperature

  predicate OrderedTemps(t: TempThresholds) {
    t.chargeMin <= t.reduced <= t.optimal <= t.limit < t.stop
  }

  /** The charge limit where the hottest cell is at `v`. */
  function AtTemp(c: Config, max: real, minTemp: Option<real>, v: real): real {
    CclFromTemp(c, max, minTemp, Some(v))
  }

  /** Up to the start of the hot region, warmer never means less. */
  ghost predicate RisesWhileCold(c: Config, max: real, minTemp: Option<real>) {
    forall v, w :: v <= w <= c.temp.limit ==> AtTemp(c, max, minTemp, v) <= AtTemp(c, max, minTemp, w)
  }

  /** The minimum current bridges the drop between the cold and the cool segment, where both exist, and
      never exceeds the maximum that follows them. */
  predicate MinimumBridges(c: Config, max: real) {
    var (cold, cool) := (c.temp.chargeMin < c.temp.reduced, c.temp.reduced < c.temp.optimal);
    (cold || cool ==> c.minCharge <= max) && (cold && cool ==> max * 0.5 <= c.minCharge)
  }

  function ColdBand(t: TempThresholds, v: real): nat {
    if v <= t.chargeMin then 0 else if v < t.reduced then 1 else if v < t.optimal then 2 else 3
  }

  lemma ColdSegment(c: Config, max: real, minTemp: Option<real>, v: real, w: real)
    requires OrderedTemps(c.temp) && max >= 0.0 && c.temp.chargeMin < v <= w < c.temp.reduced
    ensures c.minCharge <= AtTemp(c, max, minTemp, v) <= AtTemp(c, max, minTemp, w) <= RealMax(max * 0.5, c.minCharge)
  {
    var (low, high) := (c.temp.chargeMin, c.temp.reduced);
    RampIsMonotone(v, w, low, high);
    HalfShareIsMonotone(max, Unit(Ramp(v, low, high)), Unit(Ramp(w, low, high)));
  }

  lemma CoolSegment(c: Config, max: real, minTemp: Option<real>, v: real, w: real)
    requires OrderedTemps(c.temp) && max >= 0.0 && c.temp.chargeMin < v
    requires c.temp.reduced <= v <= w < c.temp.optimal
    ensures c.minCharge <= AtTemp(c, max, minTemp, v) <= AtTemp(c, max, minTemp, w) <= RealMax(max * 0.5, c.minCharge)
  {
    var (low, high) := (c.temp.reduced, c.temp.optimal);
    RampIsMonotone(v, w, low, high);
    ShareIsMonotone(max, 0.1, 0.4, Unit(Ramp(v, low, high)), Unit(Ramp(w, low, high)));
  }

  /** The levels of the cold side, and within one segment warmer never means less. */
  lemma ColdSideSegment(c: Config, max: real, minTemp: Option<real>, v: real, w: real)
    requires OrderedTemps(c.temp) && max >= 0.0 && v <= w <= c.temp.limit && ColdBand(c.temp, v) == ColdBand(c.temp, w)
    ensures AtTemp(c, max, minTemp, v) <= AtTemp(c, max, minTemp, w)
    ensures
      match ColdBand(c.temp, v)
      case 0 => AtTemp(c, max, minTemp, v) == 0.0
      case 3 => AtTemp(c, max, minTemp, v) == max
      case _ => c.minCharge <= AtTemp(c, max, minTemp, v) <= RealMax(max * 0.5, c.minCharge)
  {
    match ColdBand(c.temp, v)
    case 1 => ColdSegment(c, max, minTemp, v, w);
    case 2 => CoolSegment(c, max, minTemp, v, w);
    case _ =>
  }

  lemma BridgedRises(c: Config, max: real, minTemp: Option<real>, v: real, w: real)
    requires OrderedTemps(c.temp) && max >= 0.0 && c.minCharge >= 0.0 && MinimumBridges(c, max)
    requires v <= w <= c.temp.limit
    ensures AtTemp(c, max, minTemp, v) <= AtTemp(c, max, minTemp, w)
  {
    ColdSideSegment(c, max, minTemp, v, v);
    ColdSideSegment(c, max, minTemp, w, w);
    if ColdBand(c.temp, v) == ColdBand(c.temp, w) { ColdSideSegment(c, max, minTemp, v, w); }
  }

  lemma PositiveProduct(a: real, x: real)
    requires a > 0.0 && x > 0.0
    ensures a * x > 0.0
  {
  }

  lemma QuotientUndoes(a: real, x: real)
    requires a > 0.0
    ensures (a * x) / a == x && a * (x / a) == x
  {
  }

  /** A point strictly between, at any share of the way. */
  lemma RampOfShare(low: real, high: real, r: real) returns (v: real)
    requires low < high && 0.0 < r < 1.0
    ensures low < v < high && Ramp(v, low, high) == r
  {
    var gap := high - low;
    var part := gap * r;
    PositiveProduct(gap, r);
    PositiveProduct(gap, 1.0 - r);
    assert gap * (1.0 - r) == gap - part;
    QuotientUndoes(gap, r);
    v := low + part;
    assert v - low == part;
  }

  lemma SmallerQuotient(x: real, y: real, d: real)
    requires x < y && d > 0.0
    ensures x / d < y / d && d / d == 1.0 && 0.0 / d == 0.0
  {
  }

  lemma BigEnoughShare(max: real, start: real) returns (r: real)
    requires 0.0 < start < max * 0.5
    ensures 0.0 < r < 1.0 && HalfShare(max, r) > start
  {
    var wanted := start + max * 0.5;
    r := wanted / max;
    QuotientUndoes(max, wanted);
    assert max * r == wanted;
    SmallerQuotient(wanted, max, max);
    SmallerQuotient(0.0, wanted, max);
    assert HalfShare(max, r) == wanted * 0.5;
  }

  /** Just below the reduced threshold the cold segment comes arbitrarily near half the maximum, at the
      threshold the cool one starts at a tenth: whatever lies between, warmer can mean less. */
  lemma ColdSideDrops(c: Config, max: real, minTemp: Option<real>) returns (v: real)
    requires OrderedTemps(c.temp) && c.temp.chargeMin < c.temp.reduced < c.temp.optimal
    requires c.minCharge < max * 0.5 && max > 0.0
    ensures c.temp.chargeMin < v < c.temp.reduced
    ensures AtTemp(c, max, minTemp, v) > AtTemp(c, max, minTemp, c.temp.reduced)
  {
    var t := c.temp;
    var start := RealMax(max * 0.1, c.minCharge);
    var r := BigEnoughShare(max, start);
    v := RampOfShare(t.chargeMin, t.reduced, r);
    assert AtTemp(c, max, minTemp, v) == RealMax(HalfShare(max, r), c.minCharge);
    StartOfCool(c, max, minTemp);
  }

  lemma StartOfCool(c: Config, max: real, minTemp: Option<real>)
    requires OrderedTemps(c.temp) && c.temp.chargeMin < c.temp.reduced < c.temp.optimal
    ensures AtTemp(c, max, minTemp, c.temp.reduced) == RealMax(max * 0.1, c.minCharge)
  {
    assert Ramp(c.temp.reduced, c.temp.reduced, c.temp.optimal) == 0.0;
    assert Share(max, 0.1, 0.4, 0.0) == max * 0.1;
  }

  lemma RisingBridges(c: Config, max: real, minTemp: Option<real>)
    requires OrderedTemps(c.temp) && max >= 0.0 && c.minCharge >= 0.0 && RisesWhileCold(c, max, minTemp)
    ensures MinimumBridges(c, max)
  {
    var t := c.temp;
    if t.chargeMin < t.reduced {
      var v := (t.chargeMin + t.reduced) * 0.5;
      ColdSegment(c, max, minTemp, v, v);
      assert AtTemp(c, max, minTemp, v) <= AtTemp(c, max, minTemp, t.optimal) == max;
    }
    if t.reduced < t.optimal {
      var v := (t.reduced + t.optimal) * 0.5;
      CoolSegment(c, max, minTemp, v, v);
      assert AtTemp(c, max, minTemp, v) <= AtTemp(c, max, minTemp, t.optimal) == max;
    }
    if t.chargeMin < t.reduced < t.optimal && c.minCharge < max * 0.5 {
      var v := ColdSideDrops(c, max, minTemp);
    }
  }

  /** For all ordered thresholds, the cold side of the curve is nondecreasing exactly when the minimum
      current bridges the drop at the reduced threshold and does not exceed the maximum. */
  lemma ColdSideRisesExactly(c: Config, max: real, minTemp: Option<real>)
    requires OrderedTemps(c.temp) && max >= 0.0 && c.minCharge >= 0.0
    ensures RisesWhileCold(c, max, minTemp) <==> MinimumBridges(c, max)
  {
    if MinimumBridges(c, max) {
      forall v, w | v <= w <= c.temp.limit ensures AtTemp(c, max, minTemp, v) <= AtTemp(c, max, minTemp, w) {
        BridgedRises(c, max, minTemp, v, w);
      }
    }
    if RisesWhileCold(c, max, minTemp) { RisingBridges(c, max, minTemp); }
  }

  /** So with a minimum current of at most a fifth of the maximum, and thresholds that differ, the curve is
      never monotone. */
  lemma ColdCurveIsNotMonotone(c: Config, max: real, minTemp: Option<real>)
    requires OrderedTemps(c.temp) && c.temp.chargeMin < c.temp.reduced < c.temp.optimal
    requires CurrentsOk(c, max) && max > 0.0
    ensures !RisesWhileCold(c, max, minTemp)
  {
    ColdSideRisesExactly(c, max, minTemp);
  }

  /** From the optimal temperature on, hotter never means more. */
  lemma HotSideFalls(c: Config, max: real, minTemp: Option<real>, v: real, w: real)
    requires OrderedTemps(c.temp) && max >= 0.0 && c.temp.chargeMin < c.temp.optimal <= v <= w
    ensures 0.0 <= AtTemp(c, max, minTemp, w) <= AtTemp(c, max, minTemp, v) <= max
  {
    var (low, high) := (c.temp.limit, c.temp.stop);
    if low < w < high {
      var f := RealMax(0.2, Unit(1.0 - Ramp(w, low, high)));
      if v <= low {
        PartIsMonotone(max, f, f);
      } else {
        RampIsMonotone(v, w, low, high);
        PartIsMonotone(max, f, RealMax(0.2, Unit(1.0 - Ramp(v, low, high))));
      }
    }
    if low < v < high {
      var f := RealMax(0.2, Unit(1.0 - Ramp(v, low, high)));
      PartIsMonotone(max, f, f);
    }
  }

  // ---------------------------------------------------------------- discharge curve

  lemma DischargeLow(max: real, v: real, w: real)
    requires max >= 0.0 && DISCHARGE_STOP < v <= w <= DISCHARGE_LOW
    ensures 0.0 <= DclFromCell(max, Some(v)) <= DclFromCell(max, Some(w)) <= max * 0.5
  {
    RampIsMonotone(v, w, DISCHARGE_STOP, DISCHARGE_LOW);
    HalfShareIsMonotone(max, Ramp(v, DISCHARGE_STOP, DISCHARGE_LOW), Ramp(w, DISCHARGE_STOP, DISCHARGE_LOW));
  }

  lemma DischargeReducing(max: real, v: real, w: real)
    requires max >= 0.0 && DISCHARGE_LOW < v <= w < DISCHARGE_NORMAL
    ensures max * 0.5 <= DclFromCell(max, Some(v)) <= DclFromCell(max, Some(w)) <= max
  {
    RampIsMonotone(v, w, DISCHARGE_LOW, DISCHARGE_NORMAL);
    ShareIsMonotone(max, 0.5, 0.5, Ramp(v, DISCHARGE_LOW, DISCHARGE_NORMAL), Ramp(w, DISCHARGE_LOW, DISCHARGE_NORMAL));
  }

  function DischargeBand(v: real): nat {
    if v >= DISCHARGE_NORMAL then 0 else if v <= DISCHARGE_STOP then 3 else if v <= DISCHARGE_LOW then 2 else 1
  }

  lemma DischargeSegment(max: real, v: real, w: real)
    requires max >= 0.0 && v <= w && DischargeBand(v) == DischargeBand(w)
    ensures DclFromCell(max, Some(v)) <= DclFromCell(max, Some(w))
    ensures
      match DischargeBand(v)
      case 0 => DclFromCell(max, Some(v)) == max
      case 1 => max * 0.5 <= DclFromCell(max, Some(v)) <= max
      case 2 => 0.0 <= DclFromCell(max, Some(v)) <= max * 0.5
      case _ => DclFromCell(max, Some(v)) == 0.0
  {
    match DischargeBand(v)
    case 1 => DischargeReducing(max, v, w);
    case 2 => DischargeLow(max, v, w);
    case _ =>
  }

  /** Across all its breakpoints, the discharge limit never falls with the lowest cell voltage. */
  lemma DischargeRisesWithCellVoltage(max: real, v: real, w: real)
    requires max >= 0.0 && v <= w
    ensures 0.0 <= DclFromCell(max, Some(v)) <= DclFromCell(max, Some(w)) <= max
  {
    DischargeSegment(max, v, v);
    DischargeSegment(max, w, w);
    if DischargeBand(v) == DischargeBand(w) { DischargeSegment(max, v, w); }
  }

  // ---------------------------------------------------------------- the sources together

  lemma LeastIsMonotone(xs: seq<real>, ys: seq<real>)
    requires |xs| == |ys| && xs != [] && forall k :: 0 <= k < |xs| ==> xs[k] <= ys[k]
    ensures Least(xs) <= Least(ys)
  {
    var k :| 0 <= k < |ys| && ys[k] == Least(ys);
    assert Least(xs) <= xs[k];
  }

  /** A rising highest cell raises the imbalance too: the combined charge limit never rises with it, for
      whatever other cell, temperature and charge state. */
  lemma CombinedChargeFalls(c: Config, max: real, d: Data, v: real, w: real)
    requires OrderedCells(c.cell) && OrderedImbalance(c.imbalance) && CurrentsOk(c, max) && v <= w
    ensures ComputeCcl(c, max, d.(maxCell := Some(w))) <= ComputeCcl(c, max, d.(maxCell := Some(v)))
  {
    ChargeFallsWithCellVoltage(c, max, v, w);
    if d.minCell.Some? { ChargeFallsWithImbalance(c, max, v - d.minCell.value, w - d.minCell.value); }
    LeastIsMonotone(CclSources(c, max, d.(maxCell := Some(w))), CclSources(c, max, d.(maxCell := Some(v))));
  }

  /** A rising lowest cell never lowers either combined limit. */
  lemma CombinedLimitsRise(c: Config, caps: Caps, d: Data, v: real, w: real)
    requires OrderedImbalance(c.imbalance) && CurrentsOk(c, caps.charge) && caps.discharge >= 0.0 && v <= w
    ensures ComputeCcl(c, caps.charge, d.(minCell := Some(v))) <= ComputeCcl(c, caps.charge, d.(minCell := Some(w)))
    ensures ComputeDcl(c, caps.discharge, d.(minCell := Some(v)))
        <= ComputeDcl(c, caps.discharge, d.(minCell := Some(w)))
  {
    if d.maxCell.Some? { ChargeFallsWithImbalance(c, caps.charge, d.maxCell.value - w, d.maxCell.value - v); }
    LeastIsMonotone(CclSources(c, caps.charge, d.(minCell := Some(v))),
                    CclSources(c, caps.charge, d.(minCell := Some(w))));
    DischargeRisesWithCellVoltage(caps.discharge, v, w);
    LeastIsMonotone(DclSources(c, caps.discharge, d.(minCell := Some(v))),
                    DclSources(c, caps.discharge, d.(minCell := Some(w))));
  }

  /** No source is overruled: the combined limit is one of them and at most each of them. */
  lemma MostRestrictiveWins(c: Config, caps: Caps, d: Data)
    ensures ComputeCcl(c, caps.charge, d) in CclSources(c, caps.charge, d)
    ensures ComputeCcl(c, caps.charge, d) <= CclFromCell(c, caps.charge, d.maxCell)
    ensures ComputeCcl(c, caps.charge, d) <= CclFromImbalance(c, caps.charge, CellDelta(d))
    ensures ComputeCcl(c, caps.charge, d) <= CclFromTemp(c, caps.charge, d.minTemp, d.maxTemp)
    ensures ComputeCcl(c, caps.charge, d) <= CclFromSoc(c, caps.charge, d.soc)
    ensures ComputeDcl(c, caps.discharge, d) in DclSources(c, caps.discharge, d)
    ensures ComputeDcl(c, caps.discharge, d) <= DclFromCell(caps.discharge, d.minCell)
    ensures ComputeDcl(c, caps.discharge, d) <= DclFromTemp(c, caps.discharge, d.minTemp, d.maxTemp)
    ensures ComputeDcl(c, caps.discharge, d) <= DclFromSoc(c, caps.discharge, d.soc)
  {
    var charge := CclSources(c, caps.charge, d);
    assert Least(charge) <= charge[0] && Least(charge) <= charge[1] && Least(charge) <= charge[2]
        && Least(charge) <= charge[3];
    var discharge := DclSources(c, caps.discharge, d);
    assert Least(discharge) <= discharge[0] && Least(discharge) <= discharge[1] && Least(discharge) <= discharge[2];
  }

  predicate ConfigOk(c: Config, max: real) {
    && OrderedCells(c.cell) && OrderedImbalance(c.imbalance) && CurrentsOk(c, max)
    && 0.0 <= c.soc.reduceFactor <= 1.0
  }

  lemma UnitPart(max: real, factor: real)
    requires max >= 0.0
    ensures 0.0 <= Part(max, Unit(factor)) <= max && 0.0 <= HalfShare(max, Unit(factor)) <= max * 0.5
    ensures max * 0.1 <= Share(max, 0.1, 0.4, Unit(factor)) <= max * 0.5
    ensures 0.0 <= Part(max, RealMax(0.2, Unit(factor))) <= max
  {
    var u := Unit(factor);
    PartIsMonotone(max, u, u);
    HalfShareIsMonotone(max, u, u);
    ShareIsMonotone(max, 0.1, 0.4, u, u);
    PartIsMonotone(max, RealMax(0.2, u), RealMax(0.2, u));
  }

  lemma TempLimitsAreInRange(c: Config, caps: Caps, minTemp: Option<real>, maxTemp: Option<real>)
    requires ConfigOk(c, caps.charge) && caps.discharge >= 0.0
    ensures 0.0 <= CclFromTemp(c, caps.charge, minTemp, maxTemp) <= caps.charge
    ensures 0.0 <= DclFromTemp(c, caps.discharge, minTemp, maxTemp) <= caps.discharge
  {
    var (hot, cold) := (if maxTemp.Some? then maxTemp else minTemp, if minTemp.Some? then minTemp else maxTemp);
    if hot.Some? {
      var (v, t) := (hot.value, c.temp);
      if t.chargeMin < v < t.reduced { UnitPart(caps.charge, Ramp(v, t.chargeMin, t.reduced)); }
      if t.reduced <= v < t.optimal { UnitPart(caps.charge, Ramp(v, t.reduced, t.optimal)); }
      if t.limit < v < t.stop { UnitPart(caps.charge, 1.0 - Ramp(v, t.limit, t.stop)); }
    }
    if cold.Some? && c.temp.dischargeMin < cold.value < c.temp.dischargeReduced {
      UnitPart(caps.discharge * 0.3, Ramp(cold.value, c.temp.dischargeMin, c.temp.dischargeReduced));
    }
  }

  lemma SocLimitsAreInRange(c: Config, caps: Caps, soc: Option<real>)
    requires ConfigOk(c, caps.charge) && caps.discharge >= 0.0
    ensures 0.0 <= CclFromSoc(c, caps.charge, soc) <= caps.charge
    ensures 0.0 <= DclFromSoc(c, caps.discharge, soc) <= caps.discharge
  {
    if soc.Some? {
      if soc.value >= FULL_SOC {
        PartIsMonotone(caps.charge, c.soc.reduceFactor, c.soc.reduceFactor);
      } else if soc.value >= c.soc.reduceStart {
        RampIsMonotone(soc.value, soc.value, c.soc.reduceStart, FULL_SOC);
        var used := Part(1.0 - c.soc.reduceFactor, Ramp(soc.value, c.soc.reduceStart, FULL_SOC));
        PartIsMonotone(1.0 - c.soc.reduceFactor, Ramp(soc.value, c.soc.reduceStart, FULL_SOC),
                       Ramp(soc.value, c.soc.reduceStart, FULL_SOC));
        PartIsMonotone(caps.charge, 1.0 - used, 1.0 - used);
      }
      if c.soc.dischargeStop < soc.value <= c.soc.dischargeReduced {
        UnitPart(caps.discharge, Ramp(soc.value, c.soc.dischargeStop, c.soc.dischargeReduced));
      }
    }
  }

  /** Every combined limit is between 0 and the configured maximum, for any data, present or missing. */
  lemma LimitsAreInRange(c: Config, caps: Caps, d: Data)
    requires ConfigOk(c, caps.charge) && caps.discharge >= 0.0
    ensures 0.0 <= ComputeCcl(c, caps.charge, d) <= caps.charge
    ensures 0.0 <= ComputeDcl(c, caps.discharge, d) <= caps.discharge
  {
    if d.maxCell.Some? { ChargeFallsWithCellVoltage(c, caps.charge, d.maxCell.value, d.maxCell.value); }
    if CellDelta(d).Some? { ChargeFallsWithImbalance(c, caps.charge, CellDelta(d).value, CellDelta(d).value); }
    if d.minCell.Some? { DischargeRisesWithCellVoltage(caps.discharge, d.minCell.value, d.minCell.value); }
    TempLimitsAreInRange(c, caps, d.minTemp, d.maxTemp);
    SocLimitsAreInRange(c, caps, d.soc);
    MostRestrictiveWins(c, caps, d);
    assert forall x <- CclSources(c, caps.charge, d) :: 0.0 <= x <= caps.charge;
    assert forall x <- DclSources(c, caps.discharge, d) :: 0.0 <= x <= caps.discharge;
  }

  /** A cell at the cutoff, a battery too cold or hot, or a blocking BMS stops charging in that very
      cycle, whatever was allowed before. */
  lemma HardStopIsImmediate(c: Config, caps: Caps, m: Memory, d: Data, now: real)
    ensures !d.allowCharge ==> Calculate(c, caps, m, d, now).ccl == 0.0
    ensures !d.allowDischarge ==> Calculate(c, caps, m, d, now).dcl == 0.0
    ensures d.maxCell.Some? && d.maxCell.value >= c.cell.cutoff ==> Calculate(c, caps, m, d, now).ccl <= 0.0
    ensures d.maxTemp.Some? && (d.maxTemp.value <= c.temp.chargeMin || d.maxTemp.value >= c.temp.stop) ==>
      Calculate(c, caps, m, d, now).ccl <= 0.0
    ensures d.minCell.Some? && d.minCell.value <= DISCHARGE_STOP ==> Calculate(c, caps, m, d, now).dcl <= 0.0
    ensures d.minTemp.Some? && d.minTemp.value <= c.temp.dischargeMin ==> Calculate(c, caps, m, d, now).dcl <= 0.0
  {
    MostRestrictiveWins(c, caps, d);
  }

  // ---------------------------------------------------------------- what the limiter promises

  /** After the first call: the output lies between the previous output and the target, rises by at most
      `change` and falls by at most twice that; a hard zero comes at once. */
  lemma LimitedStaysBetween(target: real, last: real, allowed: bool, change: real)
    requires change >= 0.0
    ensures
      var r := Limited(target, last, allowed, change);
      && RealMin(target, last) <= r <= RealMax(target, last)
      && (if target <= 0.0 || !allowed then r == target else last - 2.0 * change <= r <= last + change)
  {
  }

  lemma RateTimesTime(rate: real, dt: real)
    requires rate >= 0.0 && dt >= 0.0
    ensures rate * dt >= 0.0
  {
  }

  /** One call, for both currents at once. */
  lemma OutputsStayBetween(c: Config, caps: Caps, m: Memory, d: Data, now: real)
    requires m.updated.Some? && now >= m.updated.value && c.cclRate >= 0.0 && c.dclRate >= 0.0
    ensures
      var t := Calculate(c, caps, m, d, now);
      var (up, target) := (Allowed(c.cclRate, m.updated.value, now), TargetCcl(c, caps, d));
      && RealMin(target, m.ccl) <= t.ccl <= RealMax(target, m.ccl)
      && (target > 0.0 ==> m.ccl - 2.0 * up <= t.ccl <= m.ccl + up)
    ensures
      var t := Calculate(c, caps, m, d, now);
      var (up, target) := (Allowed(c.dclRate, m.updated.value, now), TargetDcl(c, caps, d));
      && RealMin(target, m.dcl) <= t.dcl <= RealMax(target, m.dcl)
      && (target > 0.0 ==> m.dcl - 2.0 * up <= t.dcl <= m.dcl + up)
  {
    RateTimesTime(c.cclRate, now - m.updated.value);
    RateTimesTime(c.dclRate, now - m.updated.value);
    LimitedStaysBetween(TargetCcl(c, caps, d), m.ccl, d.allowCharge, Allowed(c.cclRate, m.updated.value, now));
    LimitedStaysBetween(TargetDcl(c, caps, d), m.dcl, d.allowDischarge, Allowed(c.dclRate, m.updated.value, now));
  }

  /** One cycle: the maxima in force, the battery's data and the clock. */
  datatype Cycle = Cycle(caps: Caps, data: Data, now: real)

  function Step(c: Config, m: Memory, y: Cycle): Memory {
    Calculate(c, y.caps, m, y.data, y.now)
  }

  function Run(c: Config, start: Memory, cycles: seq<Cycle>): Memory {
    if cycles == [] then start else Step(c, Run(c, start, cycles[..|cycles| - 1]), cycles[|cycles| - 1])
  }

  /** The maxima of a cycle are within `top`, and it is no earlier than the one before. */
  predicate Fits(c: Config, top: Caps, y: Cycle, since: Option<real>) {
    && ConfigOk(c, y.caps.charge) && 0.0 <= y.caps.discharge <= top.discharge && y.caps.charge <= top.charge
    && (since.Some? ==> since.value <= y.now)
  }

  predicate Orderly(c: Config, top: Caps, start: Memory, cycles: seq<Cycle>) {
    cycles != [] ==>
      && Orderly(c, top, start, cycles[..|cycles| - 1])
      && Fits(c, top, cycles[|cycles| - 1], Run(c, start, cycles[..|cycles| - 1]).updated)
  }

  predicate InRange(m: Memory, top: Caps) {
    0.0 <= m.ccl <= top.charge && 0.0 <= m.dcl <= top.discharge
  }

  lemma CycleStaysInRange(c: Config, top: Caps, m: Memory, y: Cycle)
    requires c.cclRate >= 0.0 && c.dclRate >= 0.0 && InRange(m, top) && Fits(c, top, y, m.updated)
    ensures InRange(Step(c, m, y), top)
  {
    LimitsAreInRange(c, y.caps, y.data);
    if m.updated.Some? { OutputsStayBetween(c, y.caps, m, y.data, y.now); }
  }

  /** Over every run, with maxima and data changing and missing, both outputs stay between 0 and the
      highest maximum that was ever in force. */
  lemma {:induction false} EveryOutputIsInRange(c: Config, top: Caps, start: Memory, cycles: seq<Cycle>)
    requires c.cclRate >= 0.0 && c.dclRate >= 0.0 && InRange(start, top) && Orderly(c, top, start, cycles)
    ensures InRange(Run(c, start, cycles), top)
    decreases |cycles|
  {
    if cycles != [] {
      var before := Run(c, start, cycles[..|cycles| - 1]);
      EveryOutputIsInRange(c, top, start, cycles[..|cycles| - 1]);
      CycleStaysInRange(c, top, before, cycles[|cycles| - 1]);
    }
  }

  /** The output after calls that allow these changes, with one positive target throughout. */
  function Output(target: real, last: real, changes: seq<real>): real {
    if changes == [] then last
    else
      var n := |changes| - 1;
      Limited(target, Output(target, last, changes[..n]), true, changes[n])
  }

  function Total(changes: seq<real>): real {
    if changes == [] then 0.0 else Total(changes[..|changes| - 1]) + changes[|changes| - 1]
  }

  /** The changes allowed by calls at these instants, the first of which fixed the output. */
  function Changes(rate: real, instants: seq<real>): seq<real>
    requires instants != []
  {
    var n := |instants| - 1;
    if n == 0 then [] else Changes(rate, instants[..n]) + [Allowed(rate, instants[n - 1], instants[n])]
  }

  predicate Nondecreasing(instants: seq<real>) {
    forall j, k :: 0 <= j < k < |instants| ==> instants[j] <= instants[k]
  }

  predicate NoneNegative(changes: seq<real>) {
    forall k :: 0 <= k < |changes| ==> changes[k] >= 0.0
  }

  lemma AllowancesAdd(rate: real, t0: real, t1: real, t2: real)
    requires rate >= 0.0 && t1 <= t2
    ensures Allowed(rate, t0, t1) + Allowed(rate, t1, t2) == Allowed(rate, t0, t2) && Allowed(rate, t1, t2) >= 0.0
    ensures Allowed(rate, t0, t0) == 0.0
  {
    RateTimesTime(rate, t2 - t1);
  }

  /** Call by call or all at once: the same rate times time. */
  lemma {:induction false} TotalIsRateTimesTime(rate: real, instants: seq<real>)
    requires instants != [] && rate >= 0.0 && Nondecreasing(instants)
    ensures Total(Changes(rate, instants)) == Allowed(rate, instants[0], instants[|instants| - 1])
    ensures NoneNegative(Changes(rate, instants))
    decreases |instants|
  {
    var n := |instants| - 1;
    if n == 0 {
      AllowancesAdd(rate, instants[0], instants[0], instants[0]);
    } else {
      var earlier := Changes(rate, instants[..n]);
      TotalIsRateTimesTime(rate, instants[..n]);
      AllowancesAdd(rate, instants[0], instants[n - 1], instants[n]);
      var all := earlier + [Allowed(rate, instants[n - 1], instants[n])];
      assert all[..|earlier|] == earlier;
      assert Total(all) == Total(earlier) + Allowed(rate, instants[n - 1], instants[n]);
    }
  }

  /** What is left of the gap: nothing once the accumulated change covers it. */
  predicate Approaches(target: real, last: real, output: real, covered: real) {
    if target >= last then RealMin(target, last + covered) <= output <= target
    else target <= output <= RealMax(target, last - 2.0 * covered)
  }

  lemma OneMoreStep(target: real, last: real, output: real, covered: real, change: real)
    requires target > 0.0 && covered >= 0.0 && change >= 0.0 && Approaches(target, last, output, covered)
    ensures Approaches(target, last, Limited(target, output, true, change), covered + change)
  {
  }

  lemma {:induction false} EveryOutputApproaches(target: real, last: real, changes: seq<real>)
    requires target > 0.0 && NoneNegative(changes)
    ensures Total(changes) >= 0.0 && Approaches(target, last, Output(target, last, changes), Total(changes))
    decreases |changes|
  {
    if changes != [] {
      var n := |changes| - 1;
      EveryOutputApproaches(target, last, changes[..n]);
      OneMoreStep(target, last, Output(target, last, changes[..n]), Total(changes[..n]), changes[n]);
    }
  }

  /** A constant positive target is approached from where the output was, and reached exactly as soon as
      the accumulated rate times time covers the gap (half of it on the way down), however irregular the
      calls are. */
  lemma ConstantTargetIsReached(rate: real, target: real, last: real, instants: seq<real>)
    requires rate >= 0.0 && target > 0.0 && instants != [] && Nondecreasing(instants)
    ensures
      var covered := Allowed(rate, instants[0], instants[|instants| - 1]);
      var output := Output(target, last, Changes(rate, instants));
      && Approaches(target, last, output, covered)
      && (target >= last && covered >= target - last ==> output == target)
      && (target < last && 2.0 * covered >= last - target ==> output == target)
  {
    TotalIsRateTimesTime(rate, instants);
    EveryOutputApproaches(target, last, Changes(rate, instants));
  }

  // ---------------------------------------------------------------- the calculator's own runs

  function Instants(start: real, cycles: seq<Cycle>): (r: seq<real>)
    ensures |r| == |cycles| + 1 && r[0] == start && r[|cycles|] ==
        if cycles == [] then start else cycles[|cycles| - 1].now
  {
    if cycles == [] then [start] else Instants(start, cycles[..|cycles| - 1]) + [cycles[|cycles| - 1].now]
  }

  /** Every cycle allows the current and asks for the same positive one. */
  predicate SteadyCharge(c: Config, cycles: seq<Cycle>, target: real) {
    target > 0.0 && forall k :: 0 <= k < |cycles| ==>
      cycles[k].data.allowCharge && TargetCcl(c, cycles[k].caps, cycles[k].data) == target
  }

  predicate SteadyDischarge(c: Config, cycles: seq<Cycle>, target: real) {
    target > 0.0 && forall k :: 0 <= k < |cycles| ==>
      cycles[k].data.allowDischarge && TargetDcl(c, cycles[k].caps, cycles[k].data) == target
  }

  lemma {:induction false} RunIsOutput(c: Config, start: Memory, cycles: seq<Cycle>, target: real)
    requires start.updated.Some?
    ensures Run(c, start, cycles).updated == Some(Instants(start.updated.value, cycles)[|cycles|])
    ensures SteadyCharge(c, cycles, target) ==>
      Run(c, start, cycles).ccl == Output(target, start.ccl, Changes(c.cclRate, Instants(start.updated.value, cycles)))
    ensures SteadyDischarge(c, cycles, target) ==>
      Run(c, start, cycles).dcl == Output(target, start.dcl, Changes(c.dclRate, Instants(start.updated.value, cycles)))
    decreases |cycles|
  {
    if cycles != [] {
      var n := |cycles| - 1;
      var instants := Instants(start.updated.value, cycles);
      RunIsOutput(c, start, cycles[..n], target);
      assert instants[..n + 1] == Instants(start.updated.value, cycles[..n]);
      StepIsOutput(c, start, cycles, target, instants);
    }
  }

  /** One more cycle is one more limited change. */
  lemma StepIsOutput(c: Config, start: Memory, cycles: seq<Cycle>, target: real, instants: seq<real>)
    requires cycles != [] && |instants| == |cycles| + 1 && instants[|cycles|] == cycles[|cycles| - 1].now
    requires Run(c, start, cycles[..|cycles| - 1]).updated == Some(instants[|cycles| - 1])
    ensures
      var (before, after) := (Run(c, start, cycles[..|cycles| - 1]), Run(c, start, cycles));
      var earlier := instants[..|cycles|];
      && (SteadyCharge(c, cycles, target) && before.ccl == Output(target, start.ccl, Changes(c.cclRate, earlier)) ==>
            after.ccl == Output(target, start.ccl, Changes(c.cclRate, instants)))
      && (SteadyDischarge(c, cycles, target) && before.dcl == Output(target, start.dcl, Changes(c.dclRate, earlier)) ==>
            after.dcl == Output(target, start.dcl, Changes(c.dclRate, instants)))
  {
    OneMoreChange(c.cclRate, target, start.ccl, instants);
    OneMoreChange(c.dclRate, target, start.dcl, instants);
  }

  lemma OneMoreChange(rate: real, target: real, last: real, instants: seq<real>)
    requires |instants| >= 2
    ensures
      var n := |instants| - 1;
      Output(target, last, Changes(rate, instants))
        == Limited(target, Output(target, last, Changes(rate, instants[..n])), true,
                   Allowed(rate, instants[n - 1], instants[n]))
  {
    var n := |instants| - 1;
    var earlier := Changes(rate, instants[..n]);
    var all := Changes(rate, instants);
    assert all[..|earlier|] == earlier;
  }

  /** The clock never runs backwards. */
  predicate InTime(c: Config, start: Memory, cycles: seq<Cycle>) {
    cycles != [] ==>
      && InTime(c, start, cycles[..|cycles| - 1])
      && var before := Run(c, start, cycles[..|cycles| - 1]).updated;
         (before.Some? ==> before.value <= cycles[|cycles| - 1].now)
  }

  lemma {:induction false} InTimeIsNondecreasing(c: Config, start: Memory, cycles: seq<Cycle>)
    requires start.updated.Some? && InTime(c, start, cycles)
    ensures Nondecreasing(Instants(start.updated.value, cycles))
    decreases |cycles|
  {
    if cycles != [] {
      InTimeIsNondecreasing(c, start, cycles[..|cycles| - 1]);
      RunIsOutput(c, start, cycles[..|cycles| - 1], 1.0);
    }
  }

  /** The calculator itself, over every run of cycles with one positive target: both outputs reach it
      exactly as soon as the rate times the time since the first of them covers the gap. */
  lemma RunReachesTarget(c: Config, start: Memory, cycles: seq<Cycle>, target: real)
    requires c.cclRate >= 0.0 && c.dclRate >= 0.0 && start.updated.Some? && InTime(c, start, cycles)
    ensures
      var end := Run(c, start, cycles);
      var covered := Allowed(c.cclRate, start.updated.value, end.updated.value);
      SteadyCharge(c, cycles, target) ==>
        && Approaches(target, start.ccl, end.ccl, covered)
        && (target >= start.ccl && covered >= target - start.ccl ==> end.ccl == target)
        && (target < start.ccl && 2.0 * covered >= start.ccl - target ==> end.ccl == target)
    ensures
      var end := Run(c, start, cycles);
      var covered := Allowed(c.dclRate, start.updated.value, end.updated.value);
      SteadyDischarge(c, cycles, target) ==>
        && Approaches(target, start.dcl, end.dcl, covered)
        && (target >= start.dcl && covered >= target - start.dcl ==> end.dcl == target)
        && (target < start.dcl && 2.0 * covered >= start.dcl - target ==> end.dcl == target)
  {
    var instants := Instants(start.updated.value, cycles);
    RunIsOutput(c, start, cycles, target);
    InTimeIsNondecreasing(c, start, cycles);
    if target > 0.0 {
      ConstantTargetIsReached(c.cclRate, target, start.ccl, instants);
      ConstantTargetIsReached(c.dclRate, target, start.dcl, instants);
    }
  }

  // ---------------------------------------------------------------- the object

  class DvccCalculator {
    const config: Config
    var caps: Caps
    var memory: Memory

    constructor (config: Config, caps: Caps)
      ensures this.config == config && this.caps == caps && memory == Memory(caps.charge, caps.discharge, None)
    {
      this.config, this.caps, memory := config, caps, Memory(caps.charge, caps.discharge, None);
    }

    method SetBatteryLimits(charge: real, discharge: real)
      modifies `caps
      ensures caps == Caps(charge, discharge)
    {
      caps := Caps(charge, discharge);
    }

    method ApplyRateLimit(ccl: real, dcl: real, allowCharge: bool, allowDischarge: bool, now: real)
        returns (charge: real, discharge: real)
      modifies `memory
      ensures memory == RateLimit(config, old(memory), ccl, dcl, allowCharge, allowDischarge, now)
      ensures charge == memory.ccl && discharge == memory.dcl
    {
      charge, discharge := ccl, dcl;
      if memory.updated.Some? {
        var since := memory.updated.value;
        var cclChange, dclChange := Allowed(config.cclRate, since, now), Allowed(config.dclRate, since, now);
        if !(ccl <= 0.0 || !allowCharge) { charge := RateLimitValue(ccl, memory.ccl, cclChange); }
        if !(dcl <= 0.0 || !allowDischarge) { discharge := RateLimitValue(dcl, memory.dcl, dclChange); }
      }
      memory := Memory(charge, discharge, Some(now));
    }

    /** The limits of one cycle: charge and discharge current, and the charge voltage. */
    method CalculateLimits(d: Data, now: real) returns (ccl: real, dcl: real, cvl: real)
      modifies `memory
      ensures memory == Calculate(config, caps, old(memory), d, now)
      ensures ccl == memory.ccl && dcl == memory.dcl && cvl == config.cellMaxVoltage * config.cellCount as real
    {
      ccl := ComputeCcl(config, caps.charge, d);
      dcl := ComputeDcl(config, caps.discharge, d);
      if !d.allowCharge { ccl := 0.0; }
      if !d.allowDischarge { dcl := 0.0; }
      ccl, dcl := ApplyRateLimit(ccl, dcl, d.allowCharge, d.allowDischarge, now);
      cvl := config.cellMaxVoltage * config.cellCount as real;
    }
  }
}
