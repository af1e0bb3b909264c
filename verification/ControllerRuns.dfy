/** The controller's write path over every run: limits, the applied baseline, and trims that are accepted
    exactly when they are committed. */
module ControllerRuns {
  import opened Prelude
  import opened Controller
  import C = Calculator
  import T = SubmeterTrim
  import R = SubmeterTrimRuns
  import W = Watchdog
  import WR = WatchdogRuns

  // ---------------------------------------------------------------- one write

  predicate InLimits(policy: Policy, value: int) {
    policy.min <= value <= policy.max
  }

  /** The charger guard is in force: exclusion with unknown power under a restricted mode. */
  predicate ChargerGuard(policy: Policy, e: WriteEnv) {
    policy.flags.excludeCharger && C.SitePower(e.evPower).None? && (policy.flags.onlyCharging || policy.flags.noFeed)
  }

  /** The tariff guard is in force: the cycle charges by request inside an expensive window. */
  predicate TariffGuard(s: State, e: WriteEnv) {
    s.work.charging && e.expensive
  }

  /** The only values a write may send: the wanted one brought inside the limits, or 0 where a guard in
      force forbids the discharge or the charge that would be. */
  predicate AllowedValue(s: State, setpoint: int, automatic: bool, e: WriteEnv, value: int) {
    var inside := Clamp(s.policy.min, s.policy.max, setpoint);
    || (InLimits(s.policy, value) && value == inside)
    || (automatic && value == 0 && ChargerGuard(s.policy, e) && inside < 0)
    || (automatic && value == 0 && TariffGuard(s, e) && inside > 0)
  }

  lemma GuardedIsAllowed(s: State, setpoint: int, automatic: bool, e: WriteEnv)
    requires s.policy.min <= s.policy.max
    ensures
      var (t, value) := Guarded(s, setpoint, automatic, e);
      && AllowedValue(s, setpoint, automatic, e, value)
      && (automatic && ChargerGuard(s.policy, e) ==> value >= 0) && (automatic && TariffGuard(s, e) ==> value <= 0)
      && t.policy == s.policy && t.watchdog == s.watchdog
      && t.work.previous == s.work.previous && t.trim.s.past == s.trim.s.past
      && (t.work.held.Some? ==> value == setpoint && t.work == s.work && t.trim == s.trim)
  {
  }

  /** What a control write leaves in the watchdog's history. */
  predicate Logged(w: W.State, generation: nat, value: int, io: W.Io, t: W.State, result: W.ControlResult) {
    && t.log.trace == w.log.trace + (if w.dryRun || !W.ControlAllowed(w, generation) then []
                                     else [W.Write(W.Control, value, io.now, io.outcome, w.log.episode)])
    && (result == W.Done(true) ==> if w.dryRun then t == w else t.log.hardware == Some(value) && io.outcome.Accepted?)
    && (result != W.Done(true) ==> t.log.hardware == w.log.hardware)
  }

  lemma ControlIsLogged(w: W.State, value: int, generation: nat, io: W.Io)
    ensures
      var (t, result) := W.WriteControl(w, value, generation, w.dryRun, io);
      Logged(w, generation, value, io, t, result)
  {
  }

  /** Whatever was calculated, and whatever changed since: the value sent is the wanted one brought inside
      the limits active at that instant, or exactly 0 where a guard of an automatic write is in force. If it
      is accepted, the stored baseline is that very value and, live, so is the hardware command; if it is
      not, the baseline and the hardware command stay; and a trim that is not ready sends nothing at all. */
  lemma WriteIsBoundedAndRecorded(s: State, setpoint: int, generation: nat, automatic: bool, e: WriteEnv)
    requires s.policy.min <= s.policy.max
    ensures
      var (t, outcome) := WriteCycle(s, setpoint, generation, automatic, e);
      && (if outcome.None? then t.watchdog == s.watchdog
          else AllowedValue(s, setpoint, automatic, e, outcome.value.0)
               && Logged(s.watchdog, generation, outcome.value.0, e.io, t.watchdog, outcome.value.1))
      && t.work.previous == (if outcome.Some? && outcome.value.1 == W.Done(true) then outcome.value.0
                             else s.work.previous)
  {
    var ready := TrimWriteReady(s, e).0;
    GuardedIsAllowed(ready, setpoint, automatic, e);
    var (guarded, value) := Guarded(ready, setpoint, automatic, e);
    ControlIsLogged(guarded.watchdog, value, generation, e.io);
  }

  // ---------------------------------------------------------------- runs

  datatype Event =
    | Limit(min: int, max: int)
    | Manual(value: int)
    | Mode(flags: Flags, preCharge: bool)
    | DryRun(dryRun: bool)
    | Override(value': Option<int>, io: W.Io)
    | Safety(safety: WR.Event)
    | Synced
    | Compute(c: Calculation)
    | Reuse(generation: nat, expensive: bool)
    | UseManual(generation: nat)
    | Skip
    | Finish(env: WriteEnv)

  function Step(s: State, e: Event): State {
    match e
    case Limit(min, max) => SetLimits(s, min, max).0
    case Manual(value) => SetManual(s, value)
    case Mode(flags, preCharge) =>
      s.(policy := s.policy.(flags := flags, preCharge := preCharge, generation := s.policy.generation + 1))
    case DryRun(dryRun) =>
      s.(watchdog := s.watchdog.(dryRun := dryRun), policy := s.policy.(generation := s.policy.generation + 1))
    case Override(value, io) => SetOverride(s, value, io)
    case Safety(safety) =>
      if safety.WriteNormal? || safety.Edit? || safety.SetDryRun? then s
      else s.(watchdog := WR.Step(s.watchdog, safety))
    case Synced => Sync(s)
    case Compute(c) => Calculate(s, c)
    case Reuse(generation, expensive) => Repeat(s, generation, expensive)
    case UseManual(generation) => if s.policy.manual.Some? then TakeManual(s, generation) else s
    case Skip => ResetTrim(s).(work := ResetTrim(s).work.(cycle := Idle))
    case Finish(env) => FinishCycle(s, env)
  }

  function Run(s: State, events: seq<Event>): State {
    if events == [] then s else Step(Run(s, events[..|events| - 1]), events[|events| - 1])
  }

  predicate Later(at: Instant, clock: real, wall: real) {
    (at.now.Some? ==> at.now.value >= clock) && (at.wall.Some? ==> at.wall.value >= wall)
  }

  predicate InOrder(s: State, e: Event) {
    match e
    case Compute(c) => Later(c.at, s.trim.clock, s.trim.wall)
    case Finish(env) =>
      && Later(env.proposedAt, s.trim.clock, s.trim.wall)
      && Later(env.committedAt, env.proposedAt.now.GetOr(s.trim.clock), env.proposedAt.wall.GetOr(s.trim.wall))
    case _ => true
  }

  predicate ClocksAdvance(s: State, events: seq<Event>) {
    events != [] ==>
      ClocksAdvance(s, events[..|events| - 1]) && InOrder(Run(s, events[..|events| - 1]), events[|events| - 1])
  }

  // ---------------------------------------------------------------- what every run keeps

  predicate LimitsOk(policy: Policy) {
    -ABSOLUTE_LIMIT <= policy.min <= policy.max <= ABSOLUTE_LIMIT
  }

  predicate TrimOk(trim: R.Timed) {
    R.Inv(trim.s, trim.clock, trim.wall)
  }

  /** The decision held for the write is one the trim made, and what the cycle is about to write. */
  predicate HeldOk(work: Work, trim: R.Timed) {
    work.held.Some? ==>
      && work.cycle.Pending? && work.cycle.automatic && work.cycle.setpoint == work.held.value.decision.setpoint
      && R.OnOffer(trim.s, work.held.value.decision)
      && (work.held.value.decision.delta != 0 ==> !work.charging)
  }

  predicate Bounded(trace: seq<W.Write>) {
    forall k :: 0 <= k < |trace| && trace[k].writer == W.Control ==> Abs(trace[k].value) <= ABSOLUTE_LIMIT
  }

  predicate Inv(s: State) {
    && LimitsOk(s.policy) && TrimOk(s.trim) && HeldOk(s.work, s.trim)
    && WR.Inv(s.watchdog) && Bounded(s.watchdog.log.trace)
  }

  lemma ResetKeepsTrim(trim: R.Timed)
    requires TrimOk(trim)
    ensures TrimOk(trim.(s := T.Reset(trim.s)))
  {
    R.ResetKeepsCore(trim.s, trim.clock, trim.wall);
  }

  lemma ProposeKeepsTrim(trim: R.Timed, i: T.Input)
    requires TrimOk(trim) && Later(Instant(i.now, i.wall), trim.clock, trim.wall)
    ensures
      var (t, d) := ProposeTrim(trim, i);
      TrimOk(t) && t.s.offer.issued == Some(d) && R.OnOffer(t.s, d) && trim.s.past.offered <= t.s.past.offered
  {
    R.ProposeKeepsInv(trim.s, i, trim.clock, trim.wall);
    R.ProposalOutcome(trim.s, i);
  }

  lemma CommitKeepsTrim(trim: R.Timed, d: T.Decision, at: Instant)
    requires TrimOk(trim) && R.OnOffer(trim.s, d) && Later(at, trim.clock, trim.wall)
    ensures TrimOk(R.Timed(T.Commit(trim.s, d, at.now, at.wall).0, at.now.GetOr(trim.clock), at.wall.GetOr(trim.wall)))
  {
    R.CommitKeepsInv(trim.s, d, at.now, at.wall, trim.clock, trim.wall);
  }

  lemma CalculateKeepsInv(s: State, c: Calculation)
    requires Inv(s) && Later(c.at, s.trim.clock, s.trim.wall)
    ensures Inv(Calculate(s, c))
  {
    var begun := s.(work := s.work.(held := None, charging := c.charging, filtered := Some(c.result.filtered)));
    var clean := if begun.work.history != s.policy.generation then ResetTrim(begun) else begun;
    ResetKeepsTrim(s.trim);
    assert TrimOk(clean.trim);
    if s.trim.s.enabled {
      ProposeKeepsTrim(clean.trim, TrimInput(clean, c));
      ResetKeepsTrim(ProposeTrim(clean.trim, TrimInput(clean, c)).0);
    }
  }

  lemma ReadyKeepsTrim(s: State, e: WriteEnv)
    requires Inv(s) && InOrder(s, Finish(e))
    ensures
      var ready := TrimWriteReady(s, e).0;
      && TrimOk(ready.trim) && TrimOk(ResetTrim(ready).trim)
      && (ready.work.held.Some? ==> R.OnOffer(ready.trim.s, ready.work.held.value.decision))
  {
    var ready := TrimWriteReady(s, e).0;
    if ready.trim != s.trim { ProposeKeepsTrim(s.trim, RefreshInput(s, e)); }
    ResetKeepsTrim(ready.trim);
  }

  lemma WriteKeepsTrim(s: State, setpoint: int, generation: nat, automatic: bool, e: WriteEnv)
    requires Inv(s) && InOrder(s, Finish(e))
    ensures TrimOk(WriteCycle(s, setpoint, generation, automatic, e).0.trim)
  {
    var (ready, ok) := TrimWriteReady(s, e);
    ReadyKeepsTrim(s, e);
    if ok {
      GuardedIsAllowed(ready, setpoint, automatic, e);
      var guarded := Guarded(ready, setpoint, automatic, e).0;
      GuardedKeepsTrim(ready, setpoint, automatic, e);
      if guarded.work.held.Some? { CommitKeepsTrim(guarded.trim, guarded.work.held.value.decision, e.committedAt); }
    }
  }

  lemma GuardedKeepsTrim(s: State, setpoint: int, automatic: bool, e: WriteEnv)
    requires TrimOk(s.trim)
    ensures TrimOk(Guarded(s, setpoint, automatic, e).0.trim)
  {
    ResetKeepsTrim(s.trim);
    ResetKeepsTrim(s.trim.(s := T.Reset(s.trim.s)));
  }

  lemma JustifiedKeepsBounded(w: W.State, e: WR.Event, t: W.State)
    requires Bounded(w.log.trace) && WR.StepIsJustified(w, e, t)
    requires e.WriteNormal? && !w.dryRun && !e.dryRun ==> Abs(e.value) <= ABSOLUTE_LIMIT
    ensures Bounded(t.log.trace)
  {
    if t.log.trace != w.log.trace {
      var n := |w.log.trace|;
      assert WR.Justified(w, e, t.log.trace[n]);
      assert forall k :: 0 <= k < n ==> t.log.trace[k] == t.log.trace[..n][k];
    }
  }

  lemma WatchdogStepKeepsInv(w: W.State, e: WR.Event)
    requires WR.Inv(w) && Bounded(w.log.trace)
    requires e.WriteNormal? && !w.dryRun && !e.dryRun ==> Abs(e.value) <= ABSOLUTE_LIMIT
    ensures WR.Inv(WR.Step(w, e)) && Bounded(WR.Step(w, e).log.trace)
  {
    WR.StepKeepsInv(w, e);
    WR.StepsAreJustified(w, e);
    JustifiedKeepsBounded(w, e, WR.Step(w, e));
  }

  lemma ReadyValueIsBounded(s: State, setpoint: int, automatic: bool, e: WriteEnv)
    requires LimitsOk(s.policy)
    ensures
      var (guarded, value) := Guarded(TrimWriteReady(s, e).0, setpoint, automatic, e);
      Abs(value) <= ABSOLUTE_LIMIT && guarded.watchdog == s.watchdog
  {
    GuardedIsAllowed(TrimWriteReady(s, e).0, setpoint, automatic, e);
  }

  lemma WriteKeepsWatchdog(s: State, setpoint: int, generation: nat, automatic: bool, e: WriteEnv)
    requires Inv(s)
    ensures
      var t := WriteCycle(s, setpoint, generation, automatic, e).0;
      WR.Inv(t.watchdog) && Bounded(t.watchdog.log.trace)
  {
    ReadyValueIsBounded(s, setpoint, automatic, e);
    var value := Guarded(TrimWriteReady(s, e).0, setpoint, automatic, e).1;
    WatchdogStepKeepsInv(s.watchdog, WR.WriteNormal(value, generation, s.watchdog.dryRun, e.io));
  }

  lemma AfterWriteKeepsInv(s: State, p: Cycle, accepted: bool)
    requires p.Pending? && LimitsOk(s.policy) && TrimOk(s.trim) && WR.Inv(s.watchdog) && Bounded(s.watchdog.log.trace)
    ensures Inv(AfterWrite(s, p, accepted))
  {
    ResetKeepsTrim(s.trim);
  }

  lemma WriteKeepsPolicy(s: State, setpoint: int, generation: nat, automatic: bool, e: WriteEnv)
    requires LimitsOk(s.policy)
    ensures WriteCycle(s, setpoint, generation, automatic, e).0.policy == s.policy
  {
    GuardedIsAllowed(TrimWriteReady(s, e).0, setpoint, automatic, e);
  }

  lemma FinishKeepsInv(s: State, e: WriteEnv)
    requires Inv(s) && InOrder(s, Finish(e))
    ensures Inv(FinishCycle(s, e))
  {
    if s.work.cycle.Pending? {
      var p := s.work.cycle;
      WriteKeepsTrim(s, p.setpoint, p.generation, p.automatic, e);
      WriteKeepsWatchdog(s, p.setpoint, p.generation, p.automatic, e);
      WriteKeepsPolicy(s, p.setpoint, p.generation, p.automatic, e);
      var (t, outcome) := WriteCycle(s, p.setpoint, p.generation, p.automatic, e);
      AfterWriteKeepsInv(t, p, outcome.Some? && outcome.value.1 == W.Done(true));
    }
  }

  lemma StepKeepsInv(s: State, e: Event)
    requires Inv(s) && InOrder(s, e)
    ensures Inv(Step(s, e))
  {
    match e
    case Compute(c) => CalculateKeepsInv(s, c);
    case Finish(env) => FinishKeepsInv(s, env);
    case Safety(safety) =>
      if !safety.WriteNormal? && !safety.Edit? && !safety.SetDryRun? { WatchdogStepKeepsInv(s.watchdog, safety); }
    case Override(value, io) => WatchdogStepKeepsInv(s.watchdog, WR.Edit(value, io));
    case DryRun(dryRun) => WatchdogStepKeepsInv(s.watchdog, WR.SetDryRun(dryRun));
    case _ => ResetKeepsTrim(s.trim);
  }

  lemma {:induction false} EveryRunKeepsInv(s: State, events: seq<Event>)
    requires Inv(s) && ClocksAdvance(s, events)
    ensures Inv(Run(s, events))
    decreases |events|
  {
    if events != [] {
      EveryRunKeepsInv(s, events[..|events| - 1]);
      StepKeepsInv(Run(s, events[..|events| - 1]), events[|events| - 1]);
    }
  }

  function Start(cfg: Settings, min: int, max: int, trimEnabled: bool, service: Option<string>, watchdog: W.Config,
                 dryRun: bool): State {
    State(cfg, Policy(min, max, None, Flags(false, false, false, false), false, 0),
          Work(0, None, false, false, 0, None, Idle), R.Start(trimEnabled, service, None), W.Init(watchdog, dryRun))
  }

  /** Over every run, with limits, modes, overrides and outages changing between a calculation and its
      write: each control write ever attempted is within 3000 W, and the limits stay ordered. */
  lemma EveryControlWriteIsBounded(cfg: Settings, min: int, max: int, trimEnabled: bool, service: Option<string>,
                                   watchdog: W.Config, dryRun: bool, events: seq<Event>, k: nat)
    requires -ABSOLUTE_LIMIT <= min <= max <= ABSOLUTE_LIMIT
    requires ClocksAdvance(Start(cfg, min, max, trimEnabled, service, watchdog, dryRun), events)
    ensures
      var s := Run(Start(cfg, min, max, trimEnabled, service, watchdog, dryRun), events);
      && LimitsOk(s.policy)
      && (k < |s.watchdog.log.trace| && s.watchdog.log.trace[k].writer == W.Control ==>
            Abs(s.watchdog.log.trace[k].value) <= 3000)
  {
    EveryRunKeepsInv(Start(cfg, min, max, trimEnabled, service, watchdog, dryRun), events);
  }

  // ---------------------------------------------------------------- accepted trims are committed

  /** A trim that passes the write-time check is not altered by limits or guards. */
  lemma ReadyTrimIsUnaltered(s: State, e: WriteEnv)
    requires Inv(s) && InOrder(s, Finish(e)) && s.work.held.Some? && s.work.held.value.decision.delta != 0
    requires TrimWriteReady(s, e).1
    ensures
      var d := s.work.held.value.decision;
      var ready := TrimWriteReady(s, e).0;
      && T.Propose(s.trim.s, RefreshInput(s, e)).1 == d && R.Undisturbed(s.trim.s, RefreshInput(s, e))
      && s.policy.min < d.setpoint < s.policy.max && d.setpoint == s.work.previous + d.delta
      && !AnyFlag(s.policy.flags)
  {
    var d := s.work.held.value.decision;
    var i := RefreshInput(s, e);
    R.RevalidationIsSound(s.trim.s, d, i, s.trim.clock, s.trim.wall, i.now.GetOr(s.trim.clock), 1.0);
    R.ProposeKeepsInv(s.trim.s, i, s.trim.clock, s.trim.wall);
    var t := T.Propose(s.trim.s, i).0;
    assert R.LiveTrim(t, d, i.now.GetOr(s.trim.clock), i.wall.GetOr(s.trim.wall));
    LimitsAreSeen(s.trim.s, i);
  }

  /** A proposal that reuses the pending correction was judged against the limits it was handed. */
  lemma LimitsAreSeen(s: T.State, i: T.Input)
    requires R.Undisturbed(s, i) && i.now.Some? && i.wall.Some? && s.limits.Some?
    ensures i.low.Some? && i.high.Some? && s.limits == Some((i.low.value, i.high.value))
  {
  }

  /** The whole of it, over every run: when a cycle that holds a trim writes and the write is accepted, the
      value written is the trim's own, the trim is recorded in the same section with its budget, and the
      baseline, the trim's command and, live, the hardware agree on it. So no trim is ever accepted
      without being committed. */
  lemma AcceptedTrimIsCommitted(s: State, e: WriteEnv)
    requires Inv(s) && InOrder(s, Finish(e)) && s.work.held.Some? && s.work.held.value.decision.delta != 0
    requires e.committedAt.now.Some? && e.committedAt.wall.Some? && e.committedAt.wall.value > 0.0
    ensures
      var p := s.work.cycle;
      var d := s.work.held.value.decision;
      var (t, outcome) := WriteCycle(s, p.setpoint, p.generation, p.automatic, e);
      && (outcome.Some? ==> outcome.value.0 == d.setpoint)
      && (if outcome.Some? && outcome.value.1 == W.Done(true) then
            && t.work.previous == d.setpoint && t.trim.s.total == s.trim.s.total + d.delta
            && t.trim.s.past.ledger == s.trim.s.past.ledger
                + [T.Entry.Step(d.delta, e.committedAt.now.value, e.committedAt.wall.value)]
            && t.trim.s.command == Some(T.Command(d.setpoint, e.committedAt.now.value, e.committedAt.wall.value))
          else t.work.previous == s.work.previous)
  {
    var d := s.work.held.value.decision;
    var (ready, ok) := TrimWriteReady(s, e);
    if ok {
      var i := RefreshInput(s, e);
      ReadyTrimIsUnaltered(s, e);
      R.RevalidationIsSound(s.trim.s, d, i, s.trim.clock, s.trim.wall, e.committedAt.now.value,
                            e.committedAt.wall.value);
      R.ProposalOutcome(s.trim.s, i);
      assert Guarded(ready, d.setpoint, true, e) == (ready, d.setpoint);
    }
  }
}
