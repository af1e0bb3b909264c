/**
 The controller's write path: a calculated setpoint is re-bounded, guarded and, when it carries a slow
 trim, proposed again, all under the lock that serialises the watchdog. The three objects it joins are the
 watchdog, the trim and the calculator; whatever the calculator asked for is an input here.
 */
module Controller {
  import opened Prelude
  import C = Calculator
  import T = SubmeterTrim
  import R = SubmeterTrimRuns
  import W = Watchdog

  const ABSOLUTE_LIMIT: int := 3000

  datatype Settings = Settings(delta: int, deadbandLow: real, deadbandHigh: real, pinned: bool, creepOff: bool)

  datatype Flags = Flags(onlyCharging: bool, noFeed: bool, excludeCharger: bool, others: bool)

  /** What other threads may change between a calculation and its write. */
  datatype Policy = Policy(min: int, max: int, manual: Option<int>, flags: Flags, preCharge: bool, generation: nat)

  /** The identity a trim was proposed for: source, sample and mode. */
  datatype Context = Context(source: Option<T.SourceKey>, service: string, instance: Option<int>,
                             sampleGeneration: Option<int>, measurement: Option<real>, mode: nat)

  datatype Held = Held(decision: T.Decision, context: Context)

  /** The cycle's own setpoint between its calculation and its write. */
  datatype Cycle = Idle | Pending(setpoint: int, generation: nat, automatic: bool)

  datatype Work = Work(previous: int, filtered: Option<real>, charging: bool, wasCharging: bool, history: nat,
                       held: Option<Held>, cycle: Cycle)

  datatype State = State(cfg: Settings, policy: Policy, work: Work, trim: R.Timed, watchdog: W.State)

  /** The grid as it is read again just before the write. */
  datatype Grid = Grid(usable: bool, source: Option<T.SourceKey>, sample: T.Sample, power: Option<real>,
                       smoothingOff: bool, essExternal: bool)

  /** Two readings of both clocks. */
  datatype Instant = Instant(now: Option<real>, wall: Option<real>)

  datatype WriteEnv = WriteEnv(grid: Grid, evPower: Option<real>, expensive: bool, proposedAt: Instant,
                               committedAt: Instant, io: W.Io)

  function ContextOf(grid: Grid, mode: nat): Context {
    Context(grid.source, grid.sample.service, grid.sample.instance, grid.sample.generation, grid.sample.measurement,
            mode)
  }

  predicate AnyFlag(flags: Flags) {
    flags.onlyCharging || flags.noFeed || flags.excludeCharger || flags.others
  }

  /** Everything that forbids a trim. */
  predicate TrimBlocked(cfg: Settings, policy: Policy, watchdog: W.State, grid: Grid, charging: bool) {
    || !grid.usable || !cfg.pinned || charging || policy.preCharge || AnyFlag(policy.flags)
    || policy.manual.Some? || watchdog.manual.value.Some? || watchdog.safe.triggered
    || !cfg.creepOff || !grid.smoothingOff || !grid.essExternal
  }

  predicate StaysInHold(cfg: Settings, filtered: Option<real>, delta: int) {
    filtered.Some? && cfg.deadbandLow < filtered.value + delta as real < cfg.deadbandHigh
  }

  function ResetTrim(s: State): State {
    s.(trim := s.trim.(s := T.Reset(s.trim.s)), work := s.work.(held := None))
  }

  function ProposeTrim(trim: R.Timed, i: T.Input): (R.Timed, T.Decision) {
    (R.Step(trim, R.Offer(i)), T.Propose(trim.s, i).1)
  }

  // ---------------------------------------------------------------- limits and manual setpoint

  /** None: the values were not ordered, nothing changes. */
  function SetLimits(s: State, min: int, max: int): (State, Option<(int, int)>) {
    if min > max then (s, None)
    else
      var low := Clamp(-ABSOLUTE_LIMIT, ABSOLUTE_LIMIT, min);
      var high := Clamp(-ABSOLUTE_LIMIT, ABSOLUTE_LIMIT, max);
      (s.(policy := s.policy.(min := low, max := high, generation := s.policy.generation + 1)), Some((low, high)))
  }

  function SetManual(s: State, value: int): State {
    s.(policy := s.policy.(manual := Some(Clamp(s.policy.min, s.policy.max, value)),
                           generation := s.policy.generation + 1))
  }

  // ---------------------------------------------------------------- the calculation's trim

  /** One calculation: the calculator's result, what it saw, and the limits and mode as it read them. */
  datatype Calculation = Calculation(result: C.Result, charging: bool, grid: Grid, at: Instant, low: real, high: real,
                                     mode: nat, generation: nat)

  function TrimInput(s: State, c: Calculation): T.Input {
    var blocked := TrimBlocked(s.cfg, s.policy, s.watchdog, c.grid, c.charging);
    var holds := && c.result.setpoint == s.work.previous && s.cfg.deadbandLow < c.result.filtered < s.cfg.deadbandHigh
                 && !c.result.burst && !c.result.braked;
    T.Input(c.at.now, c.at.wall, s.work.previous, Some(c.result.setpoint), c.grid.sample,
            !blocked && holds, T.Ineligible,
            c.grid.power, Some(c.result.filtered), Some(c.low), Some(c.high), c.grid.source)
  }

  /** The trim applies only after the calculator chose to hold. */
  function ApplyTrim(s: State, c: Calculation): State {
    if !s.trim.s.enabled then s.(work := s.work.(cycle := Pending(c.result.setpoint, c.generation, true)))
    else
      var clean := if s.work.history != s.policy.generation then ResetTrim(s) else s;
      var (trim, d) := ProposeTrim(clean.trim, TrimInput(clean, c));
      var offered := clean.(trim := trim, work := clean.work.(history := s.policy.generation));
      if d.delta != 0 && (Abs(d.setpoint - s.work.previous) > s.cfg.delta
                          || !StaysInHold(s.cfg, s.work.filtered, d.delta))
      then ResetTrim(offered).(
             work := ResetTrim(offered).work.(cycle := Pending(c.result.setpoint, c.generation, true)))
      else offered.(work := offered.work.(held := Some(Held(d, ContextOf(c.grid, c.mode))),
                                          cycle := Pending(d.setpoint, c.generation, true)))
  }

  function Calculate(s: State, c: Calculation): State {
    ApplyTrim(s.(work := s.work.(held := None, charging := c.charging, filtered := Some(c.result.filtered))), c)
  }

  /** A backup sample that was already used repeats the accepted command. */
  function Repeat(s: State, generation: nat, expensive: bool): State {
    var r := ResetTrim(s);
    var setpoint := if s.work.wasCharging && expensive then Min(0, s.work.previous) else s.work.previous;
    r.(work := r.work.(charging := s.work.wasCharging, cycle := Pending(setpoint, generation, true)))
  }

  function TakeManual(s: State, generation: nat): State
    requires s.policy.manual.Some?
  {
    var r := ResetTrim(s);
    r.(work := r.work.(cycle := Pending(s.policy.manual.value, generation, false)))
  }

  // ---------------------------------------------------------------- the write

  function RefreshInput(s: State, e: WriteEnv): T.Input {
    T.Input(e.proposedAt.now, e.proposedAt.wall, s.work.previous, Some(s.work.previous), e.grid.sample, true,
            T.Ineligible,
            e.grid.power, s.work.filtered, Some(s.policy.min as real), Some(s.policy.max as real), e.grid.source)
  }

  /** A held trim must still be wanted, and proposed again with the very same value. */
  function TrimWriteReady(s: State, e: WriteEnv): (State, bool) {
    if s.work.held.None? || s.work.held.value.decision.delta == 0 then (s, true)
    else
      var d := s.work.held.value.decision;
      if s.work.held.value.context != ContextOf(e.grid, s.policy.generation)
         || TrimBlocked(s.cfg, s.policy, s.watchdog, e.grid, false)
         || Abs(d.setpoint - s.work.previous) > s.cfg.delta
         || !StaysInHold(s.cfg, s.work.filtered, d.delta) then (s, false)
      else
        var (trim, refreshed) := ProposeTrim(s.trim, RefreshInput(s, e));
        (s.(trim := trim), T.SameValue(refreshed, d))
  }

  function BoundSetpoint(s: State, setpoint: int): (State, int) {
    var bounded := Clamp(s.policy.min, s.policy.max, setpoint);
    (if bounded != setpoint then ResetTrim(s) else s, bounded)
  }

  function GuardCharger(s: State, setpoint: int, e: WriteEnv): (State, int) {
    var safe := C.GuardUnknownEv(setpoint, s.policy.flags.excludeCharger, e.evPower, s.policy.flags.onlyCharging,
                                 s.policy.flags.noFeed);
    (if safe != setpoint then ResetTrim(s) else s, safe)
  }

  function GuardTouCharge(s: State, setpoint: int, e: WriteEnv): (State, int) {
    if !s.work.charging || !e.expensive then (s, setpoint)
    else (ResetTrim(s).(work := ResetTrim(s).work.(charging := false)), Min(0, setpoint))
  }

  /** The setpoint as it goes to the watchdog, and the state the guards leave. */
  function Guarded(s: State, setpoint: int, automatic: bool, e: WriteEnv): (State, int) {
    var (bounded, inside) := BoundSetpoint(s, setpoint);
    if !automatic then (bounded, inside)
    else
      var (safe, lifted) := GuardCharger(bounded, inside, e);
      GuardTouCharge(safe, lifted, e)
  }

  /** The applied baseline changes in the same locked section as the hardware. */
  function AcceptSetpoint(s: State, setpoint: int, automatic: bool, at: Instant): State {
    var trim := if s.work.held.None? then s.trim
                else R.Timed(T.Commit(s.trim.s, s.work.held.value.decision, at.now, at.wall).0,
                             at.now.GetOr(s.trim.clock), at.wall.GetOr(s.trim.wall));
    s.(trim := trim, work := s.work.(previous := setpoint, wasCharging := automatic && s.work.charging))
  }

  /** None: the trim was not ready any more and nothing is written; else what is sent and its fate. */
  function WriteCycle(s: State, setpoint: int, generation: nat, automatic: bool, e: WriteEnv)
    : (State, Option<(int, W.ControlResult)>) {
    var (ready, ok) := TrimWriteReady(s, e);
    if !ok then (ResetTrim(ready), None)
    else
      var (guarded, value) := Guarded(ready, setpoint, automatic, e);
      var (watchdog, result) := W.WriteControl(guarded.watchdog, value, generation, guarded.watchdog.dryRun, e.io);
      var written := guarded.(watchdog := watchdog);
      (if result == W.Done(true) then AcceptSetpoint(written, value, automatic, e.committedAt) else written,
       Some((value, result)))
  }

  /** The rest of the cycle: a write that was not accepted discards the trim; an accepted manual command
      is consumed unless it was replaced meanwhile. */
  function AfterWrite(s: State, p: Cycle, accepted: bool): State
    requires p.Pending?
  {
    var done := s.(work := s.work.(cycle := Idle));
    if !accepted then ResetTrim(done)
    else
      var consumed := if !p.automatic && done.policy.manual == Some(p.setpoint)
                      then done.(policy := done.policy.(manual := None)) else done;
      if p.generation != consumed.watchdog.generation then ResetTrim(consumed)
      else consumed.(work := consumed.work.(held := None))
  }

  function FinishCycle(s: State, e: WriteEnv): State {
    if s.work.cycle.Idle? then s
    else
      var p := s.work.cycle;
      var (t, outcome) := WriteCycle(s, p.setpoint, p.generation, p.automatic, e);
      AfterWrite(t, p, outcome.Some? && outcome.value.1 == W.Done(true))
  }

  // ---------------------------------------------------------------- the watchdog's writers

  /** The applied baseline follows an override or an accepted meter-loss fallback. */
  function Sync(s: State): State {
    if s.watchdog.manual.value.Some? then s.(work := s.work.(previous := s.watchdog.manual.value.value))
    else if s.watchdog.loss.applied then s.(work := s.work.(previous := W.FALLBACK_SETPOINT))
    else s
  }

  function SetOverride(s: State, value: Option<int>, io: W.Io): State {
    var ok := value.Some? ==> W.IsInt32(value.value) && io.outcome.Accepted?;
    Sync(s.(watchdog := W.SetOverride(s.watchdog, value, io),
            policy := if ok then s.policy.(manual := None) else s.policy))
  }

  // ---------------------------------------------------------------- the object

  class ControlLoop {
    const cfg: Settings
    const trimmer: T.Trimmer
    const guardian: W.HardwareWatchdog
    var policy: Policy
    var work: Work
    ghost var clock: real
    ghost var wall: real

    ghost function Abs(): State
      reads this, trimmer, guardian
    {
      State(cfg, policy, work, R.Timed(trimmer.Abs(), clock, wall), guardian.Abs())
    }

    constructor (cfg: Settings, min: int, max: int, trimmer: T.Trimmer, guardian: W.HardwareWatchdog)
      ensures this.trimmer == trimmer && this.guardian == guardian
      ensures Abs() == State(cfg, Policy(min, max, None, Flags(false, false, false, false), false, 0),
                             Work(0, None, false, false, 0, None, Idle), R.Timed(trimmer.Abs(), 0.0, 0.0),
                             guardian.Abs())
    {
      this.cfg, this.trimmer, this.guardian := cfg, trimmer, guardian;
      policy := Policy(min, max, None, Flags(false, false, false, false), false, 0);
      work := Work(0, None, false, false, 0, None, Idle);
      clock, wall := 0.0, 0.0;
    }

    method SetPowerLimits(min: int, max: int) returns (applied: Option<(int, int)>)
      modifies `policy
      ensures (Abs(), applied) == SetLimits(old(Abs()), min, max)
    {
      if min > max { return None; }
      var low := Clamp(-ABSOLUTE_LIMIT, ABSOLUTE_LIMIT, min);
      var high := Clamp(-ABSOLUTE_LIMIT, ABSOLUTE_LIMIT, max);
      policy := policy.(min := low, max := high, generation := policy.generation + 1);
      applied := Some((low, high));
    }

    method SetManualSetpoint(value: int)
      modifies `policy
      ensures Abs() == SetManual(old(Abs()), value)
    {
      policy := policy.(manual := Some(Clamp(policy.min, policy.max, value)), generation := policy.generation + 1);
    }

    method ResetSubmeterTrim()
      modifies `work, trimmer
      ensures Abs() == ResetTrim(old(Abs()))
    {
      trimmer.ResetTrim();
      work := work.(held := None);
    }

    method Propose(i: T.Input) returns (d: T.Decision)
      modifies `clock, `wall, trimmer
      ensures (R.Timed(trimmer.Abs(), clock, wall), d) == ProposeTrim(old(R.Timed(trimmer.Abs(), clock, wall)), i)
    {
      d := trimmer.ProposeDecision(i);
      clock, wall := i.now.GetOr(clock), i.wall.GetOr(wall);
    }

    method IsTrimWriteReady(e: WriteEnv) returns (ready: bool)
      modifies `clock, `wall, trimmer
      ensures (Abs(), ready) == TrimWriteReady(old(Abs()), e)
    {
      if work.held.None? { return true; }
      var d := work.held.value.decision;
      if d.delta == 0 { return true; }
      if work.held.value.context != ContextOf(e.grid, policy.generation) { return false; }
      if !e.grid.usable || !cfg.pinned || policy.preCharge || AnyFlag(policy.flags) || policy.manual.Some?
         || guardian.manual.value.Some? || guardian.safe.triggered || !cfg.creepOff || !e.grid.smoothingOff
         || !e.grid.essExternal {
        return false;
      }
      if Prelude.Abs(d.setpoint - work.previous) > cfg.delta { return false; }
      if !StaysInHold(cfg, work.filtered, d.delta) { return false; }
      var input := T.Input(e.proposedAt.now, e.proposedAt.wall, work.previous, Some(work.previous), e.grid.sample,
                           true, T.Ineligible,
                           e.grid.power, work.filtered, Some(policy.min as real), Some(policy.max as real),
                           e.grid.source);
      var refreshed := Propose(input);
      ready := T.SameValue(refreshed, d);
    }

    method GuardSetpoint(setpoint: int, automatic: bool, e: WriteEnv) returns (value: int)
      modifies `work, trimmer
      ensures (Abs(), value) == Guarded(old(Abs()), setpoint, automatic, e)
    {
      value := Clamp(policy.min, policy.max, setpoint);
      if value != setpoint { ResetSubmeterTrim(); }
      if !automatic { return; }
      var safe := C.GuardUnknownEv(value, policy.flags.excludeCharger, e.evPower, policy.flags.onlyCharging,
                                   policy.flags.noFeed);
      if safe != value {
        ResetSubmeterTrim();
        value := safe;
      }
      if work.charging && e.expensive {
        ResetSubmeterTrim();
        work := work.(charging := false);
        value := Min(0, value);
      }
    }

    method AcceptControlSetpoint(setpoint: int, automatic: bool, at: Instant)
      modifies `work, `clock, `wall, trimmer
      ensures Abs() == AcceptSetpoint(old(Abs()), setpoint, automatic, at)
    {
      if work.held.Some? {
        var ok := trimmer.CommitDecision(work.held.value.decision, at.now, at.wall);
        clock, wall := at.now.GetOr(clock), at.wall.GetOr(wall);
      }
      work := work.(previous := setpoint, wasCharging := automatic && work.charging);
    }

    method WriteCycleSetpoint(setpoint: int, generation: nat, automatic: bool, e: WriteEnv)
        returns (outcome: Option<(int, W.ControlResult)>)
      modifies this, trimmer, guardian
      ensures (Abs(), outcome) == WriteCycle(old(Abs()), setpoint, generation, automatic, e)
    {
      var ready := IsTrimWriteReady(e);
      if !ready {
        ResetSubmeterTrim();
        return None;
      }
      var value := GuardSetpoint(setpoint, automatic, e);
      var result := guardian.WriteControlSetpoint(value, generation, guardian.dryRun, e.io);
      if result == W.Done(true) { AcceptControlSetpoint(value, automatic, e.committedAt); }
      outcome := Some((value, result));
    }
  }
}
