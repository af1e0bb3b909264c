/**
 The setpoint calculation: filters, the strategies in priority order, the slew and range limits, and the
 guard for unknown charger power. Grid power, setpoints and limits are whole watts; filters are exact.
 */
module Calculator {
  import opened Prelude

  const EV_MINIMUM: real := 100.0
  const EV_CHARGING: real := 1000.0
  const EV_RESERVE: int := 500
  const SUPPORT_OFFSET: real := 300.0
  const CHARGE_POWER: int := 2200
  const CONVERGENCE: real := 0.9

  datatype Tuning = Tuning(
    emaAlpha: real, burstThreshold: real, burstGain: real, brakeZone: real, dThreshold: real, dGain: real,
    damping: real, exportDamping: real, deadbandLow: real, deadbandHigh: real, creepRate: real, creepMax: real,
    efficiency: real, solarOffset: int, homeWeight: real, derivedTau: real, derivedAlpha: real)

  datatype Limits = Limits(min: int, max: int, delta: int)

  datatype Modes = Modes(onlyCharging: bool, noFeed: bool, houseSupport: bool, chargeBattery: bool, chargeBlocked: bool,
                         excludeCharger: bool, limitToEv: bool)

  /** `evPower` is None when it is no finite number; a negative value is as unknown. */
  datatype Input = Input(gt: int, invPower: int, mppt: real, pvInverter: real, evPower: Option<real>, garage: real,
                         modes: Modes, previous: int, derived: Option<real>, filtered: Option<real>,
                         prefiltered: Option<real>)

  /** The normal strategy's own state. */
  datatype Drift = Drift(creep: real, stable: nat)

  datatype Memory = Memory(prevEffective: Option<real>, filteredDerived: Option<real>, drift: Drift)

  datatype Result = Result(setpoint: int, filtered: real, burst: bool, braked: bool)

  const FRESH := Memory(None, None, Drift(0.0, 0))

  // ---------------------------------------------------------------- the guard

  function SitePower(value: Option<real>): Option<real> {
    if value.Some? && value.value >= 0.0 then value else None
  }

  /** Restricted modes never discharge for a charger whose power is unknown. */
  function GuardUnknownEv(setpoint: int, enabled: bool, evPower: Option<real>, onlyCharging: bool, noFeed: bool): int {
    if !enabled || SitePower(evPower).Some? || !(onlyCharging || noFeed) then setpoint else Max(0, setpoint)
  }

  // ---------------------------------------------------------------- filters

  function Blend(weight: real, x: real, y: real): real {
    weight * x + (1.0 - weight) * y
  }

  function Exclusion(i: Input): real {
    var power := SitePower(i.evPower);
    if i.modes.excludeCharger && power.Some? && power.value > EV_MINIMUM then power.value else 0.0
  }

  /** The home-derived grid power, and the legacy filter's new memory. */
  function Derived(tuning: Tuning, memory: Option<real>, derived: real): (real, Option<real>) {
    if tuning.derivedTau > 0.0 then (derived, memory)
    else
      var smoothed := if memory.None? then derived else Blend(tuning.derivedAlpha, derived, memory.value);
      (smoothed, Some(smoothed))
  }

  /** The effective grid power now, the background-filtered one, and the derived filter's memory. */
  function Effective(tuning: Tuning, memory: Option<real>, i: Input): (real, Option<real>, Option<real>) {
    var now := i.gt as real - Exclusion(i);
    var background := if i.prefiltered.Some? then Some(i.prefiltered.value - Exclusion(i)) else None;
    if i.derived.None? then (now, background, memory)
    else
      var (smoothed, memory') := Derived(tuning, memory, i.derived.value);
      var home := smoothed - Exclusion(i);
      (Blend(tuning.homeWeight, home, now),
       if background.Some? then Some(Blend(tuning.homeWeight, home, background.value)) else None,
       memory')
  }

  /** The grid as this cycle sees it: now, and filtered before and after it. */
  datatype Grid = Grid(effective: real, before: Option<real>, smoothed: real, derived: Option<real>)

  function Filter(tuning: Tuning, memory: Option<real>, i: Input): Grid {
    var (effective, background, derived) := Effective(tuning, memory, i);
    if background.Some? then Grid(effective, background, background.value, derived)
    else if i.filtered.None? then Grid(effective, None, effective, derived)
    else Grid(effective, i.filtered, Blend(tuning.emaAlpha, effective, i.filtered.value), derived)
  }

  // ---------------------------------------------------------------- strategies

  predicate InDeadband(tuning: Tuning, smoothed: real) {
    tuning.deadbandLow < smoothed < tuning.deadbandHigh
  }

  function Creep(tuning: Tuning, creep: real, smoothed: real): real {
    if smoothed > 0.0 then RealMin(tuning.creepMax, creep + tuning.creepRate)
    else RealMax(-tuning.creepMax, creep - tuning.creepRate * 2.0)
  }

  /** Export is corrected with its own gain. */
  function Damped(tuning: Tuning, amount: real, smoothed: real): real {
    amount * (if smoothed < 0.0 then tuning.exportDamping else tuning.damping)
  }

  /** The base strategy: the wanted setpoint, and its own next state. */
  function Normal(tuning: Tuning, drift: Drift, i: Input, smoothed: real): (int, Drift) {
    if !InDeadband(tuning, smoothed) then
      (Trunc(i.invPower as real - Damped(tuning, smoothed, smoothed)), Drift(0.0, 0))
    else if smoothed == 0.0 then (i.previous, Drift(0.0, drift.stable + 1))
    else
      var creep := Creep(tuning, drift.creep, smoothed);
      (i.previous - Trunc(Damped(tuning, creep, smoothed)), Drift(creep, drift.stable + 1))
  }

  /** Load spikes are answered at once. */
  function Burst(tuning: Tuning, effective: real, before: Option<real>): (int, bool) {
    if before.None? || RealAbs(effective - before.value) <= tuning.burstThreshold then (0, false)
    else (Trunc(-(effective - before.value) * tuning.burstGain), true)
  }

  predicate Brakes(tuning: Tuning, prevEffective: Option<real>, effective: real) {
    && prevEffective.Some? && RealAbs(effective) < tuning.brakeZone
    && RealAbs(effective - prevEffective.value) > tuning.dThreshold
  }

  function Brake(tuning: Tuning, prevEffective: Option<real>, effective: real): int {
    if Brakes(tuning, prevEffective, effective) then -Trunc((effective - prevEffective.value) * tuning.dGain) else 0
  }

  predicate Holds(tuning: Tuning, smoothed: real, wanted: int, previous: int) {
    InDeadband(tuning, smoothed) && Eased(wanted - previous, false) == 0
  }

  /** What the normal strategy with its burst and brake asks for. */
  datatype Wish = Wish(raw: int, burst: bool, braked: bool, drift: Drift)

  function NormalStage(tuning: Tuning, drift: Drift, prevEffective: Option<real>, i: Input, g: Grid): Wish {
    var (wanted, drift') := Normal(tuning, drift, i, g.smoothed);
    var (correction, fired) := Burst(tuning, g.effective, g.before);
    if Holds(tuning, g.smoothed, wanted, i.previous) then Wish(wanted + correction, fired, false, drift')
    else Wish(wanted + correction + Brake(tuning, prevEffective, g.effective), fired,
              Brakes(tuning, prevEffective, g.effective), drift')
  }

  datatype Strategy = OnlyCharging | LimitToEv | NoFeed | HouseSupport | ChargeBattery

  /** The operating modes, lowest priority first. */
  const STRATEGIES: seq<Strategy> := [OnlyCharging, LimitToEv, NoFeed, HouseSupport, ChargeBattery]

  predicate EvCharging(i: Input) {
    i.garage > EV_CHARGING || (SitePower(i.evPower).Some? && SitePower(i.evPower).value > EV_CHARGING)
  }

  /** What the solar chargers deliver on the AC side. */
  function SolarOutput(tuning: Tuning, i: Input): int {
    Trunc(i.mppt * tuning.efficiency)
  }

  function Apply(tuning: Tuning, i: Input, strategy: Strategy, raw: int): int {
    match strategy
    case OnlyCharging =>
      if i.modes.onlyCharging then Max(raw, -Max(0, SolarOutput(tuning, i) - tuning.solarOffset)) else raw
    case LimitToEv =>
      if i.modes.limitToEv && EvCharging(i) then -Max(0, SolarOutput(tuning, i) - EV_RESERVE) else raw
    case NoFeed => if i.modes.noFeed then Trunc(i.pvInverter) else raw
    case HouseSupport => if i.modes.houseSupport then Trunc(i.pvInverter - SUPPORT_OFFSET) else raw
    case ChargeBattery => if i.modes.chargeBattery && !i.modes.chargeBlocked then CHARGE_POWER else raw
  }

  function ApplyAll(tuning: Tuning, i: Input, strategies: seq<Strategy>, raw: int): int {
    if strategies == [] then raw
    else Apply(tuning, i, strategies[|strategies| - 1], ApplyAll(tuning, i, strategies[..|strategies| - 1], raw))
  }

  // ---------------------------------------------------------------- limits

  /** Nine tenths of a change at a time, all of it on a burst. */
  function Eased(diff: int, burst: bool): (eased: int)
    ensures 0 <= diff ==> 0 <= eased <= diff
    ensures diff <= 0 ==> diff <= eased <= 0
    ensures burst ==> eased == diff
  {
    Trunc(diff as real * (if burst then 1.0 else CONVERGENCE))
  }

  function Converge(previous: int, raw: int, burst: bool): int {
    previous + Eased(raw - previous, burst)
  }

  function Slew(previous: int, wanted: int, delta: int): int {
    if Abs(wanted - previous) <= delta then wanted
    else if wanted > previous then previous + delta
    else previous - delta
  }

  /** Absolute limits win over the slew rate. */
  function Limit(limits: Limits, previous: int, wanted: int): int {
    Clamp(limits.min, limits.max, Slew(previous, Clamp(limits.min, limits.max, wanted), limits.delta))
  }

  function Calculate(tuning: Tuning, limits: Limits, m: Memory, i: Input): (Memory, Result) {
    var g := Filter(tuning, m.filteredDerived, i);
    var wish := NormalStage(tuning, m.drift, m.prevEffective, i, g);
    var raw := ApplyAll(tuning, i, STRATEGIES, wish.raw);
    var limited := Limit(limits, i.previous, Converge(i.previous, raw, wish.burst));
    (Memory(Some(g.effective), g.derived, wish.drift),
     Result(GuardUnknownEv(limited, i.modes.excludeCharger, i.evPower, i.modes.onlyCharging, i.modes.noFeed),
            g.smoothed, wish.burst, wish.braked))
  }

  // ---------------------------------------------------------------- what the limits promise

  predicate Within(x: int, a: int, b: int) {
    Min(a, b) <= x <= Max(a, b)
  }

  lemma ConvergeNeverOvershoots(previous: int, raw: int, burst: bool)
    ensures Within(Converge(previous, raw, burst), previous, raw)
    ensures burst ==> Converge(previous, raw, burst) == raw
  {
  }

  lemma LimitBounds(limits: Limits, previous: int, wanted: int)
    requires limits.min <= limits.max && limits.delta >= 0
    ensures limits.min <= Limit(limits, previous, wanted) <= limits.max
    ensures limits.min <= previous <= limits.max ==> Abs(Limit(limits, previous, wanted) - previous) <= limits.delta
    ensures limits.min <= previous <= limits.max ==> Within(Limit(limits, previous, wanted), previous, wanted)
  {
  }

  predicate GuardActive(i: Input) {
    i.modes.excludeCharger && SitePower(i.evPower).None? && (i.modes.onlyCharging || i.modes.noFeed)
  }

  /** What the strategies ask for, before convergence and limits. */
  function Wanted(tuning: Tuning, m: Memory, i: Input): int {
    ApplyAll(tuning, i, STRATEGIES,
             NormalStage(tuning, m.drift, m.prevEffective, i, Filter(tuning, m.filteredDerived, i)).raw)
  }

  /** For every input: the setpoint is inside the limits, or exactly 0 where the charger guard lifted it;
      and from an in-range previous setpoint it moves at most `delta` and never past what the strategies
      ask for, unless that guard lifts it. */
  lemma SetpointIsBounded(tuning: Tuning, limits: Limits, m: Memory, i: Input)
    requires limits.min <= limits.max && limits.delta >= 0
    ensures
      var setpoint := Calculate(tuning, limits, m, i).1.setpoint;
      && (limits.min <= setpoint <= limits.max || (GuardActive(i) && setpoint == 0 && limits.max < 0))
      && (GuardActive(i) ==> setpoint >= 0)
      && (!GuardActive(i) && limits.min <= i.previous <= limits.max ==>
            Abs(setpoint - i.previous) <= limits.delta && Within(setpoint, i.previous, Wanted(tuning, m, i)))
      && (GuardActive(i) && setpoint != 0 && limits.min <= i.previous <= limits.max
          ==> Abs(setpoint - i.previous) <= limits.delta)
  {
    var wish := NormalStage(tuning, m.drift, m.prevEffective, i, Filter(tuning, m.filteredDerived, i));
    var raw := Wanted(tuning, m, i);
    ConvergeNeverOvershoots(i.previous, raw, wish.burst);
    LimitBounds(limits, i.previous, Converge(i.previous, raw, wish.burst));
  }

  predicate NoModes(modes: Modes) {
    !modes.onlyCharging && !modes.noFeed && !modes.houseSupport && !modes.chargeBattery && !modes.limitToEv
  }

  lemma LastMode(tuning: Tuning, i: Input, first: seq<Strategy>, last: Strategy, raw: int)
    ensures ApplyAll(tuning, i, first + [last], raw) == Apply(tuning, i, last, ApplyAll(tuning, i, first, raw))
  {
    assert (first + [last])[..|first|] == first;
  }

  lemma ModesInOrder(tuning: Tuning, i: Input, raw: int)
    ensures ApplyAll(tuning, i, STRATEGIES, raw) ==
            Apply(tuning, i, ChargeBattery, Apply(tuning, i, HouseSupport, Apply(tuning, i, NoFeed,
              Apply(tuning, i, LimitToEv, Apply(tuning, i, OnlyCharging, raw)))))
  {
    assert STRATEGIES == [OnlyCharging, LimitToEv, NoFeed, HouseSupport] + [ChargeBattery];
    assert [OnlyCharging, LimitToEv, NoFeed, HouseSupport] == [OnlyCharging, LimitToEv, NoFeed] + [HouseSupport];
    assert [OnlyCharging, LimitToEv, NoFeed] == [OnlyCharging, LimitToEv] + [NoFeed];
    assert [OnlyCharging, LimitToEv] == [OnlyCharging] + [LimitToEv] && [OnlyCharging] == [] + [OnlyCharging];
    LastMode(tuning, i, [OnlyCharging, LimitToEv, NoFeed, HouseSupport], ChargeBattery, raw);
    LastMode(tuning, i, [OnlyCharging, LimitToEv, NoFeed], HouseSupport, raw);
    LastMode(tuning, i, [OnlyCharging, LimitToEv], NoFeed, raw);
    LastMode(tuning, i, [OnlyCharging], LimitToEv, raw);
    LastMode(tuning, i, [], OnlyCharging, raw);
  }

  /** The highest-priority mode that applies decides alone; without any, the normal strategy does. While a
      car charges on surplus, exactly the reserve of what the sun delivers stays for the battery; a
      charge-only mode cuts a discharge to what the sun delivers beyond the offset, and nothing else. */
  lemma PriorityDecides(tuning: Tuning, i: Input, raw: int)
    ensures
      var wanted := ApplyAll(tuning, i, STRATEGIES, raw);
      var solar := SolarOutput(tuning, i);
      if i.modes.chargeBattery && !i.modes.chargeBlocked then wanted == CHARGE_POWER
      else if i.modes.houseSupport then wanted == Trunc(i.pvInverter - SUPPORT_OFFSET)
      else if i.modes.noFeed then wanted == Trunc(i.pvInverter)
      else if i.modes.limitToEv && EvCharging(i) then
        wanted <= 0 && (if solar >= EV_RESERVE then solar + wanted == EV_RESERVE else wanted == 0)
      else if i.modes.onlyCharging then -wanted == Min(-raw, Max(0, solar - tuning.solarOffset))
      else wanted == raw
  {
    ModesInOrder(tuning, i, raw);
  }

  /** A filtered grid inside the deadband whose creep is too small to survive the convergence keeps the
      accepted command: a raw derivative alone never alternates it. */
  lemma DeadbandHoldsStill(tuning: Tuning, limits: Limits, m: Memory, i: Input)
    requires limits.min <= i.previous <= limits.max && limits.delta >= 0 && NoModes(i.modes)
    requires !Calculate(tuning, limits, m, i).1.burst
    requires
      var smoothed := Calculate(tuning, limits, m, i).1.filtered;
      Holds(tuning, smoothed, Normal(tuning, m.drift, i, smoothed).0, i.previous)
    ensures Calculate(tuning, limits, m, i).1.setpoint == i.previous && !Calculate(tuning, limits, m, i).1.braked
  {
    var smoothed := Calculate(tuning, limits, m, i).1.filtered;
    PriorityDecides(tuning, i, Normal(tuning, m.drift, i, smoothed).0);
  }

  // ---------------------------------------------------------------- what the memory keeps

  lemma PartOfGap(weight: real, gap: real)
    requires 0.0 <= weight <= 1.0 && gap >= 0.0
    ensures 0.0 <= weight * gap <= gap
  {
    assert gap - weight * gap == (1.0 - weight) * gap;
  }

  lemma BlendAsStep(weight: real, x: real, y: real)
    ensures Blend(weight, x, y) == y + weight * (x - y)
  {
  }

  lemma BlendFromBelow(weight: real, x: real, y: real)
    requires 0.0 <= weight <= 1.0 && y <= x
    ensures y <= Blend(weight, x, y) <= x
  {
    var gap := x - y;
    PartOfGap(weight, gap);
    BlendAsStep(weight, x, y);
    assert Blend(weight, x, y) == y + weight * gap;
  }

  lemma BlendIsBetween(weight: real, x: real, y: real)
    requires 0.0 <= weight <= 1.0
    ensures RealMin(x, y) <= Blend(weight, x, y) <= RealMax(x, y)
  {
    assert Blend(weight, x, y) == Blend(1.0 - weight, y, x);
    if y <= x { BlendFromBelow(weight, x, y); } else { BlendFromBelow(1.0 - weight, y, x); }
  }

  predicate Sane(tuning: Tuning) {
    tuning.creepMax >= 0.0 && tuning.creepRate >= 0.0 && 0.0 <= tuning.emaAlpha <= 1.0
  }

  predicate CreepOk(tuning: Tuning, m: Memory) {
    -tuning.creepMax <= m.drift.creep <= tuning.creepMax
  }

  function Memories(tuning: Tuning, limits: seq<Limits>, inputs: seq<Input>): Memory
    requires |limits| == |inputs|
  {
    if inputs == [] then FRESH
    else
      var n := |inputs| - 1;
      Calculate(tuning, limits[n], Memories(tuning, limits[..n], inputs[..n]), inputs[n]).0
  }

  /** Over any sequence of cycles, with limits changing underneath, the creep stays within its bound. */
  lemma {:induction false} CreepStaysBounded(tuning: Tuning, limits: seq<Limits>, inputs: seq<Input>)
    requires |limits| == |inputs| && Sane(tuning)
    ensures CreepOk(tuning, Memories(tuning, limits, inputs))
    decreases |inputs|
  {
    if inputs != [] { CreepStaysBounded(tuning, limits[..|inputs| - 1], inputs[..|inputs| - 1]); }
  }

  /** The filtered grid lies between its old value and the effective reading, and is the background
      filter's own value where there is one. */
  lemma FilterStaysBetween(tuning: Tuning, limits: Limits, m: Memory, i: Input)
    requires Sane(tuning)
    ensures
      var filtered := Calculate(tuning, limits, m, i).1.filtered;
      var effective := Calculate(tuning, limits, m, i).0.prevEffective.value;
      if i.prefiltered.Some? then i.derived.None? ==> filtered == i.prefiltered.value - Exclusion(i)
      else if i.filtered.None? then filtered == effective
      else RealMin(effective, i.filtered.value) <= filtered <= RealMax(effective, i.filtered.value)
  {
    var (effective, background, _) := Effective(tuning, m.filteredDerived, i);
    if background.None? && i.filtered.Some? { BlendIsBetween(tuning.emaAlpha, effective, i.filtered.value); }
  }

  // ---------------------------------------------------------------- the object

  class SetpointCalculator {
    const tuning: Tuning
    var limits: Limits
    var prevEffective: Option<real>
    var filteredDerived: Option<real>
    var drift: Drift

    ghost function Abs(): Memory
      reads this
    {
      Memory(prevEffective, filteredDerived, drift)
    }

    constructor (tuning: Tuning, limits: Limits)
      ensures this.tuning == tuning && this.limits == limits && Abs() == FRESH
    {
      this.tuning, this.limits := tuning, limits;
      prevEffective, filteredDerived, drift := None, None, Drift(0.0, 0);
    }

    method ResetMeasurementHistory()
      modifies `prevEffective, `filteredDerived
      ensures Abs() == old(Abs()).(prevEffective := None, filteredDerived := None)
    {
      prevEffective, filteredDerived := None, None;
    }

    method BlendDerivedGrid(i: Input) returns (effective: real, background: Option<real>)
      modifies `filteredDerived
      ensures (effective, background, filteredDerived) == Effective(tuning, old(filteredDerived), i)
    {
      effective := i.gt as real - Exclusion(i);
      background := if i.prefiltered.Some? then Some(i.prefiltered.value - Exclusion(i)) else None;
      if i.derived.None? { return; }
      var smoothed := i.derived.value;
      if tuning.derivedTau <= 0.0 {
        if filteredDerived.Some? { smoothed := Blend(tuning.derivedAlpha, smoothed, filteredDerived.value); }
        filteredDerived := Some(smoothed);
      }
      var home := smoothed - Exclusion(i);
      effective := Blend(tuning.homeWeight, home, effective);
      if background.Some? { background := Some(Blend(tuning.homeWeight, home, background.value)); }
    }

    method NormalStrategy(i: Input, smoothed: real) returns (wanted: int)
      modifies `drift
      ensures (wanted, drift) == Normal(tuning, old(drift), i, smoothed)
    {
      if InDeadband(tuning, smoothed) {
        drift := drift.(stable := drift.stable + 1);
        if smoothed == 0.0 {
          drift := drift.(creep := 0.0);
          return i.previous;
        }
        drift := drift.(creep := if smoothed > 0.0 then RealMin(tuning.creepMax, drift.creep + tuning.creepRate)
                                 else RealMax(-tuning.creepMax, drift.creep - tuning.creepRate * 2.0));
        wanted := i.previous - Trunc(Damped(tuning, drift.creep, smoothed));
      } else {
        drift := Drift(0.0, 0);
        wanted := Trunc(i.invPower as real - Damped(tuning, smoothed, smoothed));
      }
    }

    method FilterGrid(i: Input) returns (g: Grid)
      modifies `filteredDerived
      ensures g == Filter(tuning, old(filteredDerived), i) && filteredDerived == g.derived
    {
      var effective, background := BlendDerivedGrid(i);
      var before := if background.Some? then background else i.filtered;
      var smoothed := if background.Some? then background.value
                      else if before.None? then effective
                      else Blend(tuning.emaAlpha, effective, before.value);
      g := Grid(effective, before, smoothed, filteredDerived);
    }

    method RunStrategies(i: Input, g: Grid) returns (raw: int, burst: bool, braked: bool)
      modifies `drift
      ensures
        var wish := NormalStage(tuning, old(drift), prevEffective, i, g);
        drift == wish.drift && raw == ApplyAll(tuning, i, STRATEGIES, wish.raw) && burst == wish.burst
            && braked == wish.braked
    {
      var wanted := NormalStrategy(i, g.smoothed);
      var (correction, fired) := Burst(tuning, g.effective, g.before);
      burst, braked := fired, false;
      raw := wanted + correction;
      if !Holds(tuning, g.smoothed, wanted, i.previous) {
        braked := Brakes(tuning, prevEffective, g.effective);
        raw := raw + Brake(tuning, prevEffective, g.effective);
      }
      ghost var base := raw;
      for k := 0 to |STRATEGIES|
        invariant raw == ApplyAll(tuning, i, STRATEGIES[..k], base)
      {
        assert STRATEGIES[..k + 1][..k] == STRATEGIES[..k];
        raw := Apply(tuning, i, STRATEGIES[k], raw);
      }
      assert STRATEGIES[..|STRATEGIES|] == STRATEGIES;
    }

    method ApplyLimits(previous: int, wanted: int) returns (limited: int)
      ensures limited == Limit(limits, previous, wanted)
    {
      limited := Clamp(limits.min, limits.max, wanted);
      var delta := limited - previous;
      if Prelude.Abs(delta) > limits.delta {
        limited := previous + (if delta > 0 then limits.delta else -limits.delta);
      }
      limited := Clamp(limits.min, limits.max, limited);
    }

    method CalculateSetpoint(i: Input) returns (result: Result)
      modifies `prevEffective, `filteredDerived, `drift
      ensures (Abs(), result) == Calculate(tuning, limits, old(Abs()), i)
    {
      var g := FilterGrid(i);
      var raw, burst, braked := RunStrategies(i, g);
      prevEffective := Some(g.effective);
      var wanted := ApplyLimits(i.previous, i.previous + Eased(raw - i.previous, burst));
      wanted := GuardUnknownEv(wanted, i.modes.excludeCharger, i.evPower, i.modes.onlyCharging, i.modes.noFeed);
      result := Result(wanted, g.smoothed, burst, braked);
    }
  }
}
