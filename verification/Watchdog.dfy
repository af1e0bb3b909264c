/**
 The hardware watchdog: one lock serialises the manual override, normal control, the meter-loss
 fallback and the generic failsafe. Every lock-held method is one atomic step. The state carries a
 history no program reads: the last command the inverter accepted, and every write attempted so far.
 */
module Watchdog {
  import opened Prelude

  const FALLBACK_SETPOINT: int := -10
  const REFRESH_INTERVAL: real := 2.0
  const RETRY_INTERVAL: real := 1.0
  const OVERRIDE_INTERVAL: real := 2.0
  const FAIL_THRESHOLD: nat := 3
  const SUCCESS_THRESHOLD: nat := 2
  const INT32_BOUND: int := 0x8000_0000

  datatype Writer = Override | Control | GridLoss | Failsafe | Restore

  /** One attempted hardware write; `episode` numbers the meter-loss episode it belongs to. */
  datatype Write = Write(writer: Writer, value: int, at: real, outcome: Outcome, episode: nat)

  /** What one call sees of its environment: the clock on entry and after the (only) write, the fate
      of that write, and the setpoint the controller would restore (None: no getter, or it raised). */
  datatype Io = Io(now: real, after: real, outcome: Outcome, prior: Option<int>)

  /** `hold` is None when the meter-loss policy is disabled. */
  datatype Config = Config(timeout: real, hold: Option<real>)

  datatype Loss = Loss(invalidSince: Option<real>, forced: bool, applied: bool, pending: bool,
                       lastWrite: Option<real>, lastAttempt: Option<real>)

  datatype Manual = Manual(value: Option<int>, lastAttempt: Option<real>, lastWrite: Option<real>, failed: bool)

  datatype Safety = Safety(triggered: bool, hardwareForced: bool, preForced: int, fails: nat, successes: nat)

  datatype History = History(hardware: Option<int>, trace: seq<Write>, episode: nat)

  datatype State = State(
    cfg: Config,
    dryRun: bool,
    enabled: bool,
    lastDbus: real,
    lastSetpoint: real,
    telemetryInvalid: bool,
    hasValidSetpoint: bool,
    generation: nat,
    loss: Loss,
    manual: Manual,
    safe: Safety,
    log: History)

  const NO_LOSS := Loss(None, false, false, false, None, None)
  const NO_OVERRIDE := Manual(None, None, None, false)
  const CALM := Safety(false, false, 0, 0, 0)

  function Init(cfg: Config, dryRun: bool): State {
    State(cfg, dryRun, false, 0.0, 0.0, false, false, 0, NO_LOSS, NO_OVERRIDE, CALM, History(None, [], 0))
  }

  function Attempt(log: History, writer: Writer, value: int, io: Io): History {
    log.(trace := log.trace + [Write(writer, value, io.now, io.outcome, log.episode)],
         hardware := if io.outcome.Accepted? then Some(value) else log.hardware)
  }

  function Send(s: State, writer: Writer, value: int, io: Io): State {
    s.(log := Attempt(s.log, writer, value, io))
  }

  // ---------------------------------------------------------------- manual override

  predicate IsInt32(v: int) {
    -INT32_BOUND <= v < INT32_BOUND
  }

  /** Both ends of a manual session forget the failsafe and the meter-loss episode, never the outage. */
  function AdoptOverride(s: State, value: Option<int>, now: real): State {
    var at := if value.Some? then Some(now) else None;
    s.(generation := s.generation + 1,
       manual := Manual(value, at, at, false),
       safe := CALM,
       loss := NO_LOSS.(invalidSince := s.loss.invalidSince),
       lastSetpoint := if value.Some? then now else s.lastSetpoint,
       hasValidSetpoint := value.Some? || s.hasValidSetpoint)
  }

  function SetOverride(s: State, value: Option<int>, io: Io): State {
    if value.Some? && !IsInt32(value.value) then s
    else if value.None? && s.manual.value.None? then s
    else if value.None? then AdoptOverride(s, value, io.after)
    else
      var sent := Send(s, Override, value.value, io);
      if io.outcome.Accepted? then AdoptOverride(sent, value, io.after) else sent
  }

  /** The guard of the override refresh. */
  predicate OverrideDue(m: Manual, now: real) {
    var last := if m.failed then m.lastAttempt else m.lastWrite;
    last.None? || now - last.value >= OVERRIDE_INTERVAL
  }

  function MaintainOverride(s: State, io: Io): State {
    if s.manual.value.None? || !OverrideDue(s.manual, io.now) then s
    else
      var sent := Send(s, Override, s.manual.value.value, io);
      if io.outcome.Accepted?
      then sent.(manual := Manual(s.manual.value, Some(io.now), Some(io.after), false), lastSetpoint := io.after)
      else sent.(manual := s.manual.(lastAttempt := Some(io.now), failed := true))
  }

  // ---------------------------------------------------------------- normal control

  datatype ControlResult = Done(accepted: bool) | Threw

  /** A calculated setpoint is obsolete for one of three reasons. */
  predicate ControlAllowed(s: State, generation: nat) {
    s.manual.value.None? && generation == s.generation && !s.safe.triggered
  }

  function MarkSetpoint(s: State, at: real): State {
    if s.telemetryInvalid then s.(lastSetpoint := at)
    else s.(lastSetpoint := at, hasValidSetpoint := true, loss := s.loss.(applied := false))
  }

  function WriteControl(s: State, value: int, generation: nat, dryRun: bool, io: Io): (State, ControlResult) {
    if !ControlAllowed(s, generation) then (s, Done(false))
    else if dryRun || s.dryRun then (s, Done(true))
    else
      var sent := Send(s, Control, value, io);
      match io.outcome
      case Accepted => (MarkSetpoint(sent, io.after), Done(true))
      case Refused => (sent, Done(false))
      case Raised => (sent, Threw)
  }

  // ---------------------------------------------------------------- meter loss

  predicate HoldExpired(s: State, now: real)
    requires s.cfg.hold.Some?
  {
    && s.telemetryInvalid && s.loss.invalidSince.Some?
    && (!s.hasValidSetpoint || s.safe.triggered || now - s.loss.invalidSince.value >= s.cfg.hold.value)
  }

  /** Entering a meter-loss episode forgets an earlier generic zero: only an accepted -10 counts. */
  function ForceGridLoss(s: State): State {
    if s.loss.forced then s.(safe := s.safe.(triggered := true, preForced := 0))
    else s.(safe := s.safe.(triggered := true, preForced := 0, hardwareForced := false),
            loss := s.loss.(forced := true, pending := true, lastWrite := None, lastAttempt := None),
            log := s.log.(episode := s.log.episode + 1))
  }

  predicate FallbackDue(l: Loss, now: real) {
    || l.lastAttempt.None?
    || (if l.pending then now - l.lastAttempt.value >= RETRY_INTERVAL
        else l.lastWrite.None? || now - l.lastWrite.value >= REFRESH_INTERVAL)
  }

  function MaintainFallback(s: State, io: Io): State {
    if !FallbackDue(s.loss, io.now) then s
    else
      var sent := Send(s, GridLoss, FALLBACK_SETPOINT, io);
      if io.outcome.Accepted?
      then sent.(safe := s.safe.(hardwareForced := true),
                 loss := Loss(s.loss.invalidSince, s.loss.forced, true, false, Some(io.after), Some(io.now)))
      else sent.(loss := s.loss.(lastAttempt := Some(io.now), pending := true))
  }

  function CheckGridLoss(s: State, io: Io): State {
    if s.manual.value.Some? then MaintainOverride(s, io)
    else if s.dryRun || s.cfg.hold.None? then s
    else
      var checked := if HoldExpired(s, io.now) then ForceGridLoss(s) else s;
      if checked.loss.forced then MaintainFallback(checked, io) else checked
  }

  /** A good reading: the hold is judged first, so it cannot cancel an expired one. */
  function MarkDbusUpdate(s: State, io: Io): State {
    var checked := CheckGridLoss(s, io);
    var since := if checked.loss.forced then checked.loss.invalidSince else None;
    checked.(lastDbus := io.now, telemetryInvalid := false, loss := checked.loss.(invalidSince := since))
  }

  function MarkDbusInvalid(s: State, now: real): State {
    var since := if s.loss.invalidSince.None? then Some(now) else s.loss.invalidSince;
    s.(loss := s.loss.(invalidSince := since), telemetryInvalid := true, safe := s.safe.(successes := 0))
  }

  // ---------------------------------------------------------------- heartbeat

  function RecoverFromFailsafe(s: State, io: Io): State {
    if s.manual.value.Some? || s.telemetryInvalid then s
    else if s.loss.forced && (!s.safe.hardwareForced || s.loss.pending) then s
    else if s.loss.forced then
      s.(loss := s.loss.(forced := false, invalidSince := None),
         safe := s.safe.(hardwareForced := false, triggered := false, preForced := 0))
    else if !s.safe.hardwareForced then s.(safe := s.safe.(triggered := false, preForced := 0))
    else
      var sent := Send(s, Restore, s.safe.preForced, io);
      if io.outcome.Accepted?
      then sent.(safe := s.safe.(hardwareForced := false, triggered := false, preForced := 0))
      else sent
  }

  /** A heartbeat that counts towards leaving a meter-loss episode. */
  predicate GoodForcedBeat(s: State, now: real) {
    s.safe.hardwareForced && !s.loss.pending && !s.telemetryInvalid && now - s.lastDbus <= s.cfg.timeout
  }

  function RecoverGridLoss(s: State, io: Io): State {
    if !GoodForcedBeat(s, io.now) then s.(safe := s.safe.(fails := 0, successes := 0))
    else
      var counted := s.(safe := s.safe.(fails := 0, successes := s.safe.successes + 1));
      if counted.safe.successes >= SUCCESS_THRESHOLD then RecoverFromFailsafe(counted, io) else counted
  }

  function ApplyFailsafe(s: State, io: Io): State {
    if s.manual.value.Some? then MaintainOverride(s, io)
    else if s.dryRun then s
    else if s.loss.forced then MaintainFallback(s, io)
    else
      var prior := if s.safe.hardwareForced then s.safe.preForced else io.prior.GetOr(0);
      var sent := Send(s, Failsafe, 0, io);
      if io.outcome.Accepted?
      then sent.(safe := s.safe.(preForced := prior, hardwareForced := true), loss := s.loss.(applied := false))
      else sent.(safe := s.safe.(preForced := prior))
  }

  /** Both the setpoint writes and the telemetry have been silent for the full timeout. */
  predicate Stale(s: State, now: real) {
    now - s.lastSetpoint > s.cfg.timeout && now - s.lastDbus > s.cfg.timeout
  }

  function JudgeLiveness(s: State, io: Io): State {
    var safe := if Stale(s, io.now) then s.safe.(fails := s.safe.fails + 1, successes := 0)
                else if s.telemetryInvalid then s.safe.(fails := 0, successes := 0)
                else s.safe.(fails := 0, successes := s.safe.successes + 1);
    if safe.fails >= FAIL_THRESHOLD then
      var fired := s.(safe := safe.(triggered := true));
      if safe.hardwareForced then fired else ApplyFailsafe(fired, io)
    else if safe.successes >= SUCCESS_THRESHOLD && safe.triggered then
      RecoverFromFailsafe(s.(safe := safe), io)
    else s.(safe := safe)
  }

  function CheckHeartbeat(s: State, io: Io): State {
    if s.manual.value.Some? then MaintainOverride(s, io)
    else if s.dryRun then s
    else
      var checked := CheckGridLoss(s, io);
      if checked.loss.forced then RecoverGridLoss(checked, io) else JudgeLiveness(checked, io)
  }

  function Start(s: State, now: real): State {
    if s.enabled then s
    else s.(enabled := true, safe := CALM, loss := NO_LOSS, hasValidSetpoint := false,
            telemetryInvalid := false, lastDbus := now, lastSetpoint := now)
  }

  // ---------------------------------------------------------------- wakeup of the monitoring thread

  function OverrideDeadline(m: Manual, now: real): real {
    var last := if m.failed then m.lastAttempt else m.lastWrite;
    if last.None? then now else last.value + OVERRIDE_INTERVAL
  }

  function LossDeadline(l: Loss, now: real): real {
    if !l.forced then now + REFRESH_INTERVAL
    else
      var last := if l.pending then l.lastAttempt else l.lastWrite;
      if last.None? then now else last.value + (if l.pending then RETRY_INTERVAL else REFRESH_INTERVAL)
  }

  function WakeTime(s: State, heartbeat: real, now: real): real {
    if s.manual.value.Some? then RealMin(heartbeat, OverrideDeadline(s.manual, now))
    else if s.cfg.hold.Some? && !s.dryRun then RealMin(heartbeat, LossDeadline(s.loss, now))
    else heartbeat
  }

  // ---------------------------------------------------------------- the object

  class HardwareWatchdog {
    const cfg: Config
    var dryRun: bool
    var enabled: bool
    var lastDbus: real
    var lastSetpoint: real
    var telemetryInvalid: bool
    var hasValidSetpoint: bool
    var generation: nat
    var loss: Loss
    var manual: Manual
    var safe: Safety
    ghost var log: History

    ghost function Abs(): State
      reads this
    {
      State(cfg, dryRun, enabled, lastDbus, lastSetpoint, telemetryInvalid, hasValidSetpoint, generation,
            loss, manual, safe, log)
    }

    constructor (cfg: Config, dryRun: bool)
      ensures Abs() == Init(cfg, dryRun)
    {
      this.cfg, this.dryRun, enabled, lastDbus, lastSetpoint := cfg, dryRun, false, 0.0, 0.0;
      telemetryInvalid, hasValidSetpoint, generation := false, false, 0;
      loss, manual, safe, log := NO_LOSS, NO_OVERRIDE, CALM, History(None, [], 0);
    }

    /** The inverter call itself: its fate comes from the environment. */
    method SetGridSetpoint(ghost writer: Writer, value: int, io: Io) returns (accepted: bool)
      modifies `log
      ensures log == Attempt(old(log), writer, value, io)
      ensures accepted == io.outcome.Accepted?
    {
      log := Attempt(log, writer, value, io);
      accepted := io.outcome.Accepted?;
    }

    method SetSetpointOverride(value: Option<int>, io: Io) returns (ok: bool)
      modifies this
      ensures Abs() == SetOverride(old(Abs()), value, io)
      ensures ok == (value.Some? ==> IsInt32(value.value) && io.outcome.Accepted?)
    {
      if value.Some? && !IsInt32(value.value) { return false; }
      if value.None? && manual.value.None? { return true; }
      if value.Some? {
        var accepted := SetGridSetpoint(Override, value.value, io);
        if !accepted { return false; }
      }
      generation := generation + 1;
      var now := if value.Some? then Some(io.after) else None;
      manual := Manual(value, now, now, false);
      safe := CALM;
      loss := Loss(loss.invalidSince, false, false, false, None, None);
      if value.Some? {
        lastSetpoint := io.after;
        hasValidSetpoint := true;
      }
      return true;
    }

    method MaintainOverrideLocked(io: Io)
      modifies `manual, `lastSetpoint, `log
      ensures Abs() == MaintainOverride(old(Abs()), io)
    {
      if manual.value.None? { return; }
      var last := manual.lastWrite;
      if manual.failed { last := manual.lastAttempt; }
      if last.Some? && io.now - last.value < OVERRIDE_INTERVAL { return; }
      manual := manual.(lastAttempt := Some(io.now));
      var accepted := SetGridSetpoint(Override, manual.value.value, io);
      if !accepted {
        manual := manual.(failed := true);
        return;
      }
      manual := manual.(failed := false, lastWrite := Some(io.after));
      lastSetpoint := io.after;
    }

    method WriteControlSetpoint(value: int, generation: nat, dryRun: bool, io: Io) returns (r: ControlResult)
      modifies `lastSetpoint, `hasValidSetpoint, `loss, `log
      ensures (Abs(), r) == WriteControl(old(Abs()), value, generation, dryRun, io)
    {
      if manual.value.Some? || generation != this.generation || safe.triggered { return Done(false); }
      if dryRun || this.dryRun { return Done(true); }
      var accepted := SetGridSetpoint(Control, value, io);
      if io.outcome.Raised? { return Threw; }
      if accepted { MarkSetpointUpdate(io.after); }
      return Done(accepted);
    }

    method MarkSetpointUpdate(at: real)
      modifies `lastSetpoint, `hasValidSetpoint, `loss
      ensures Abs() == MarkSetpoint(old(Abs()), at)
    {
      lastSetpoint := at;
      if !telemetryInvalid {
        hasValidSetpoint := true;
        loss := loss.(applied := false);
      }
    }

    method DbusUpdate(io: Io)
      modifies this
      ensures Abs() == MarkDbusUpdate(old(Abs()), io)
    {
      CheckGridLossLocked(io);
      lastDbus := io.now;
      telemetryInvalid := false;
      if !loss.forced { loss := loss.(invalidSince := None); }
    }

    method DbusInvalid(now: real)
      modifies `loss, `telemetryInvalid, `safe
      ensures Abs() == MarkDbusInvalid(old(Abs()), now)
    {
      if loss.invalidSince.None? { loss := loss.(invalidSince := Some(now)); }
      telemetryInvalid := true;
      safe := safe.(successes := 0);
    }

    method CheckGridLossLocked(io: Io)
      modifies `manual, `lastSetpoint, `loss, `safe, `log
      ensures Abs() == CheckGridLoss(old(Abs()), io)
    {
      if manual.value.Some? {
        MaintainOverrideLocked(io);
        return;
      }
      if dryRun || cfg.hold.None? { return; }
      if telemetryInvalid && loss.invalidSince.Some? {
        var elapsed := io.now - loss.invalidSince.value;
        if !hasValidSetpoint || safe.triggered || elapsed >= cfg.hold.value {
          if !loss.forced {
            safe := safe.(hardwareForced := false);
            loss := loss.(pending := true, lastWrite := None, lastAttempt := None);
            log := log.(episode := log.episode + 1);
          }
          loss := loss.(forced := true);
          safe := safe.(triggered := true, preForced := 0);
          assert Abs() == ForceGridLoss(old(Abs()));
        }
      }
      if loss.forced { MaintainGridLossFallbackLocked(io); }
    }

    method MaintainGridLossFallbackLocked(io: Io)
      modifies `loss, `safe, `log
      ensures Abs() == MaintainFallback(old(Abs()), io)
    {
      if loss.lastAttempt.Some? {
        if loss.pending {
          if io.now - loss.lastAttempt.value < RETRY_INTERVAL { return; }
        } else if loss.lastWrite.Some? && io.now - loss.lastWrite.value < REFRESH_INTERVAL {
          return;
        }
      }
      loss := loss.(lastAttempt := Some(io.now), pending := true);
      var accepted := SetGridSetpoint(GridLoss, FALLBACK_SETPOINT, io);
      if !accepted { return; }
      safe := safe.(hardwareForced := true);
      loss := loss.(applied := true, pending := false, lastWrite := Some(io.after));
    }

    method RecoverFromFailsafeLocked(io: Io)
      modifies `loss, `safe, `log
      ensures Abs() == RecoverFromFailsafe(old(Abs()), io)
    {
      if manual.value.Some? { return; }
      if telemetryInvalid { return; }
      if loss.forced {
        if !safe.hardwareForced || loss.pending { return; }
        loss := loss.(forced := false, invalidSince := None);
        safe := safe.(hardwareForced := false);
      }
      if safe.hardwareForced {
        var accepted := SetGridSetpoint(Restore, safe.preForced, io);
        if !accepted { return; }
        safe := safe.(hardwareForced := false);
      }
      safe := safe.(triggered := false, preForced := 0);
    }

    method RecoverGridLossLocked(io: Io)
      modifies `loss, `safe, `log
      ensures Abs() == RecoverGridLoss(old(Abs()), io)
    {
      safe := safe.(fails := 0);
      if !safe.hardwareForced || loss.pending || telemetryInvalid || io.now - lastDbus > cfg.timeout {
        safe := safe.(successes := 0);
        return;
      }
      safe := safe.(successes := safe.successes + 1);
      if safe.successes >= SUCCESS_THRESHOLD { RecoverFromFailsafeLocked(io); }
    }

    method ApplyFailsafeLocked(io: Io)
      modifies `manual, `lastSetpoint, `loss, `safe, `log
      ensures Abs() == ApplyFailsafe(old(Abs()), io)
    {
      if manual.value.Some? {
        MaintainOverrideLocked(io);
        return;
      }
      if dryRun { return; }
      if loss.forced {
        MaintainGridLossFallbackLocked(io);
        return;
      }
      if !safe.hardwareForced { safe := safe.(preForced := io.prior.GetOr(0)); }
      var accepted := SetGridSetpoint(Failsafe, 0, io);
      if !accepted { return; }
      safe := safe.(hardwareForced := true);
      loss := loss.(applied := false);
    }

    method CheckHeartbeatLocked(io: Io)
      modifies `manual, `lastSetpoint, `loss, `safe, `log
      ensures Abs() == CheckHeartbeat(old(Abs()), io)
    {
      if manual.value.Some? {
        MaintainOverrideLocked(io);
        return;
      }
      if dryRun { return; }
      CheckGridLossLocked(io);
      if loss.forced {
        RecoverGridLossLocked(io);
        return;
      }
      JudgeLivenessLocked(io);
    }

    /** The second half of the heartbeat check, without a meter-loss episode. */
    method JudgeLivenessLocked(io: Io)
      modifies `manual, `lastSetpoint, `loss, `safe, `log
      ensures Abs() == JudgeLiveness(old(Abs()), io)
    {
      var setpointAge := io.now - lastSetpoint;
      var dbusAge := io.now - lastDbus;
      if setpointAge > cfg.timeout && dbusAge > cfg.timeout {
        safe := safe.(fails := safe.fails + 1, successes := 0);
      } else if telemetryInvalid {
        safe := safe.(successes := 0, fails := 0);
      } else {
        safe := safe.(successes := safe.successes + 1, fails := 0);
      }
      if safe.fails >= FAIL_THRESHOLD {
        safe := safe.(triggered := true);
        if !safe.hardwareForced { ApplyFailsafeLocked(io); }
      } else if safe.successes >= SUCCESS_THRESHOLD && safe.triggered {
        RecoverFromFailsafeLocked(io);
      }
    }

    method Begin(now: real)
      modifies this
      ensures Abs() == Start(old(Abs()), now)
    {
      if enabled { return; }
      enabled := true;
      safe, loss := CALM, NO_LOSS;
      hasValidSetpoint, telemetryInvalid := false, false;
      lastDbus, lastSetpoint := now, now;
    }

    /** When the monitoring thread wakes, if it would otherwise sleep until the next heartbeat. */
    method NextFallbackDeadline(heartbeat: real, now: real) returns (deadline: real)
      ensures deadline == WakeTime(Abs(), heartbeat, now)
    {
      deadline := heartbeat;
      if manual.value.Some? {
        var last := manual.lastWrite;
        if manual.failed { last := manual.lastAttempt; }
        deadline := RealMin(deadline, if last.None? then now else last.value + OVERRIDE_INTERVAL);
      } else if cfg.hold.Some? && !dryRun {
        var lossDeadline := now + REFRESH_INTERVAL;
        if loss.forced {
          var last, interval := loss.lastWrite, REFRESH_INTERVAL;
          if loss.pending { last, interval := loss.lastAttempt, RETRY_INTERVAL; }
          lossDeadline := if last.None? then now else last.value + interval;
        }
        deadline := RealMin(deadline, lossDeadline);
      }
    }
  }
}
