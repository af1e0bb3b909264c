/** What every run of the watchdog keeps, whatever the inverter accepts, refuses or raises. */
module WatchdogRuns {
  import opened Prelude
  import opened Watchdog

  datatype Event =
    | Edit(wanted: Option<int>, io: Io)
    | WriteNormal(value: int, generation: nat, dryRun: bool, io: Io)
    | GoodReading(io: Io)
    | BadReading(now: real)
    | Check(io: Io)
    | Beat(io: Io)
    | StartUp(now: real)
    | StopRequest
    | SetDryRun(dryRun: bool)

  /** Clocks read after a write are not earlier than those read before it. */
  predicate Timely(e: Event) {
    match e
    case Edit(_, io) => io.now <= io.after
    case WriteNormal(_, _, _, io) => io.now <= io.after
    case GoodReading(io) => io.now <= io.after
    case Check(io) => io.now <= io.after
    case Beat(io) => io.now <= io.after
    case _ => true
  }

  function Step(s: State, e: Event): State {
    match e
    case Edit(value, io) => SetOverride(s, value, io)
    case WriteNormal(value, generation, dryRun, io) => WriteControl(s, value, generation, dryRun, io).0
    case GoodReading(io) => MarkDbusUpdate(s, io)
    case BadReading(now) => MarkDbusInvalid(s, now)
    case Check(io) => CheckGridLoss(s, io)
    case Beat(io) => CheckHeartbeat(s, io)
    case StartUp(now) => Start(s, now)
    case StopRequest => s.(enabled := false)
    case SetDryRun(dryRun) => s.(dryRun := dryRun)
  }

  function Run(s: State, events: seq<Event>): State {
    if events == [] then s else Step(Run(s, events[..|events| - 1]), events[|events| - 1])
  }

  // ---------------------------------------------------------------- the mode fixes the hardware command

  /** An active override v means v; a forced meter loss means -10; any other forced state means 0. */
  predicate ModeFixesHardware(s: State) {
    && (s.manual.value.Some? ==>
          s.log.hardware == s.manual.value && !s.safe.triggered && !s.safe.hardwareForced && !s.loss.forced)
    && (s.safe.hardwareForced ==>
          s.log.hardware == Some(if s.loss.forced then FALLBACK_SETPOINT else 0))
  }

  predicate Inv(s: State) {
    && ModeFixesHardware(s)
    && (s.manual.value.Some? ==> s.manual.lastWrite.Some? && s.manual.lastAttempt.Some?)
    && (s.loss.forced ==> s.safe.triggered && s.safe.preForced == 0 && s.loss.invalidSince.Some? && s.cfg.hold.Some?)
    && (s.loss.forced && !s.loss.pending ==>
          s.safe.hardwareForced && s.loss.lastAttempt.Some? && s.loss.lastWrite.Some?)
    && (s.safe.hardwareForced ==> s.safe.triggered)
    && (!s.safe.triggered ==> s.safe.preForced == 0)
    && (s.telemetryInvalid ==> s.loss.invalidSince.Some? && s.safe.successes == 0)
  }

  lemma CheckKeepsInv(s: State, io: Io)
    requires Inv(s)
    ensures Inv(CheckGridLoss(s, io))
  {
  }

  lemma JudgeKeepsInv(s: State, io: Io)
    requires Inv(s) && !s.loss.forced && s.manual.value.None? && !s.dryRun
    ensures Inv(JudgeLiveness(s, io))
  {
  }

  lemma RecoverKeepsInv(s: State, io: Io)
    requires Inv(s) && s.loss.forced
    ensures Inv(RecoverGridLoss(s, io))
  {
  }

  lemma BeatKeepsInv(s: State, io: Io)
    requires Inv(s)
    ensures Inv(CheckHeartbeat(s, io))
  {
    CheckKeepsInv(s, io);
    var checked := CheckGridLoss(s, io);
    if s.manual.value.None? && !s.dryRun {
      if checked.loss.forced { RecoverKeepsInv(checked, io); } else { JudgeKeepsInv(checked, io); }
    }
  }

  lemma StepKeepsInv(s: State, e: Event)
    requires Inv(s)
    ensures Inv(Step(s, e))
  {
    match e
    case GoodReading(io) => CheckKeepsInv(s, io);
    case Check(io) => CheckKeepsInv(s, io);
    case Beat(io) => BeatKeepsInv(s, io);
    case _ =>
  }

  /** What the safety checks never touch. */
  predicate SameOutage(s: State, t: State) {
    && t.cfg == s.cfg && t.generation == s.generation && t.telemetryInvalid == s.telemetryInvalid
    && (s.telemetryInvalid ==> t.loss.invalidSince == s.loss.invalidSince)
  }

  lemma CheckFrame(s: State, io: Io)
    ensures SameOutage(s, CheckGridLoss(s, io))
  {
  }

  lemma RecoverFrame(s: State, io: Io)
    ensures SameOutage(s, RecoverGridLoss(s, io))
  {
  }

  lemma JudgeFrame(s: State, io: Io)
    ensures SameOutage(s, JudgeLiveness(s, io))
    ensures !s.loss.forced ==> !JudgeLiveness(s, io).loss.forced
  {
  }

  lemma BeatFrame(s: State, io: Io)
    ensures SameOutage(s, CheckHeartbeat(s, io))
  {
    var checked := CheckGridLoss(s, io);
    CheckFrame(s, io);
    if s.manual.value.None? && !s.dryRun {
      if checked.loss.forced { RecoverFrame(checked, io); } else { JudgeFrame(checked, io); }
    }
  }

  lemma {:induction false} EveryRunKeepsInv(cfg: Config, dryRun: bool, events: seq<Event>)
    ensures Inv(Run(Init(cfg, dryRun), events))
    decreases |events|
  {
    if events != [] {
      EveryRunKeepsInv(cfg, dryRun, events[..|events| - 1]);
      StepKeepsInv(Run(Init(cfg, dryRun), events[..|events| - 1]), events[|events| - 1]);
    }
  }

  /** In every run: the mode fixes the last accepted command, an active override excludes the failsafe
      states, and a restore never carries a value captured before a meter loss or a manual session. */
  lemma EveryRunFixesHardware(cfg: Config, dryRun: bool, events: seq<Event>)
    ensures
      var s := Run(Init(cfg, dryRun), events);
      && ModeFixesHardware(s)
      && (s.loss.forced || s.manual.value.Some? || !s.safe.triggered ==> s.safe.preForced == 0)
  {
    EveryRunKeepsInv(cfg, dryRun, events);
  }

  // ---------------------------------------------------------------- obsolete calculations

  /** At most one write was attempted between the two states. */
  predicate AtMostOneWrite(s: State, t: State) {
    s.log.trace == t.log.trace
    || (|t.log.trace| == |s.log.trace| + 1 && t.log.trace[..|s.log.trace|] == s.log.trace)
  }

  /** Which event may send what: an edit sends its value, a normal write only while allowed, and -10,
      0 and restores come from the safety checks alone. */
  predicate Justified(s: State, e: Event, w: Write) {
    match w.writer
    case Control => e.WriteNormal? && w.value == e.value && ControlAllowed(s, e.generation) && !e.dryRun && !s.dryRun
    case Override => (e.Edit? && e.wanted == Some(w.value) && IsInt32(w.value)) || s.manual.value == Some(w.value)
    case GridLoss => w.value == FALLBACK_SETPOINT && (e.GoodReading? || e.Check? || e.Beat?)
                     && s.manual.value.None? && !s.dryRun && s.cfg.hold.Some?
    case Failsafe => w.value == 0 && e.Beat? && s.manual.value.None? && !s.dryRun
    case Restore => e.Beat? && w.value == s.safe.preForced && s.safe.hardwareForced && !s.loss.forced
  }

  predicate StepIsJustified(s: State, e: Event, t: State) {
    AtMostOneWrite(s, t) && (t.log.trace != s.log.trace ==> Justified(s, e, t.log.trace[|s.log.trace|]))
  }

  lemma CheckIsJustified(s: State, e: Event, io: Io)
    requires Inv(s) && (e.GoodReading? || e.Check? || e.Beat?)
    ensures StepIsJustified(s, e, CheckGridLoss(s, io))
  {
  }

  lemma JudgeIsJustified(s: State, e: Event, io: Io)
    requires Inv(s) && !s.loss.forced && s.manual.value.None? && !s.dryRun && e.Beat?
    ensures StepIsJustified(s, e, JudgeLiveness(s, io))
  {
  }

  lemma BeatIsJustified(s: State, io: Io)
    requires Inv(s)
    ensures StepIsJustified(s, Beat(io), Step(s, Beat(io)))
  {
    CheckIsJustified(s, Beat(io), io);
    if s.manual.value.None? && !s.dryRun {
      var checked := CheckGridLoss(s, io);
      if checked.loss.forced {
        assert RecoverGridLoss(checked, io).log == checked.log;
      } else {
        assert checked == s;
        JudgeIsJustified(s, Beat(io), io);
      }
    }
  }

  lemma StepsAreJustified(s: State, e: Event)
    requires Inv(s)
    ensures StepIsJustified(s, e, Step(s, e))
  {
    match e
    case GoodReading(io) => CheckIsJustified(s, e, io);
    case Check(io) => CheckIsJustified(s, e, io);
    case Beat(io) => BeatIsJustified(s, io);
    case _ =>
  }

  lemma GenerationNeverDecreases(s: State, e: Event)
    ensures s.generation <= Step(s, e).generation
  {
    match e
    case Beat(io) => BeatFrame(s, io);
    case Check(io) => CheckFrame(s, io);
    case GoodReading(io) => CheckFrame(s, io);
    case _ =>
  }

  lemma {:induction false} GenerationGrows(s: State, events: seq<Event>)
    ensures s.generation <= Run(s, events).generation
    decreases |events|
  {
    if events != [] {
      GenerationGrows(s, events[..|events| - 1]);
      GenerationNeverDecreases(Run(s, events[..|events| - 1]), events[|events| - 1]);
    }
  }

  /** A calculation begun before a Start, Stop or Edit that took effect never reaches the inverter,
      however long the run goes on before it is offered. */
  lemma StaleCalculationNeverWrites(s: State, edit: Event, events: seq<Event>, value: int, generation: nat,
                                    dry: bool, io: Io)
    requires edit.Edit? && generation <= s.generation
    requires Step(s, edit).generation != s.generation
    ensures
      var later := Run(Step(s, edit), events);
      WriteControl(later, value, generation, dry, io) == (later, Done(false))
  {
    GenerationGrows(Step(s, edit), events);
    assert Step(s, edit).generation == s.generation + 1;
  }

  /** A refused or raising edit leaves the prior mode in force; only the attempt is on record. */
  lemma FailedEditChangesNothing(s: State, value: Option<int>, io: Io)
    requires value.Some? && (!IsInt32(value.value) || !io.outcome.Accepted?)
    ensures SetOverride(s, value, io) == s.(log := SetOverride(s, value, io).log)
    ensures SetOverride(s, value, io).log.hardware == s.log.hardware
    ensures SetOverride(s, value, io).log.episode == s.log.episode
  {
  }

  // ---------------------------------------------------------------- the meter-loss episode

  lemma StepKeepsOutage(s: State, e: Event)
    requires Inv(s) && s.telemetryInvalid && !e.GoodReading? && !e.StartUp?
    ensures Step(s, e).telemetryInvalid && Step(s, e).loss.invalidSince == s.loss.invalidSince
  {
    match e
    case Beat(io) => BeatFrame(s, io);
    case _ =>
  }

  /** Repeated bad readings, and anything else but a good reading or a (re)start, never move the start
      of the outage. */
  lemma {:induction false} OutageStartNeverMoves(s: State, events: seq<Event>)
    requires Inv(s) && s.telemetryInvalid
    requires forall e | e in events :: !e.GoodReading? && !e.StartUp?
    ensures Inv(Run(s, events)) && Run(s, events).telemetryInvalid
    ensures Run(s, events).loss.invalidSince == s.loss.invalidSince
    decreases |events|
  {
    if events != [] {
      var before := events[..|events| - 1];
      OutageStartNeverMoves(s, before);
      StepKeepsInv(Run(s, before), events[|events| - 1]);
      StepKeepsOutage(Run(s, before), events[|events| - 1]);
    }
  }

  lemma ExpiredHoldAtCheck(s: State, io: Io)
    requires Inv(s) && s.manual.value.None? && !s.dryRun && s.cfg.hold.Some? && s.telemetryInvalid
    requires io.now >= s.loss.invalidSince.value + s.cfg.hold.value
    ensures
      var t := CheckGridLoss(s, io);
      && t.loss.forced && t.safe.triggered && t.telemetryInvalid && t.loss.invalidSince == s.loss.invalidSince
    ensures !s.loss.forced ==>
      CheckGridLoss(s, io).log.trace ==
        s.log.trace + [Write(GridLoss, FALLBACK_SETPOINT, io.now, io.outcome, s.log.episode + 1)]
  {
  }

  /** Live and without an override, the first check, heartbeat or even good reading at or after the
      end of the hold forces the fallback: a late reading cannot cancel an expired hold. */
  lemma ExpiredHoldForcesFallback(s: State, e: Event, io: Io)
    requires Inv(s) && s.manual.value.None? && !s.dryRun && s.cfg.hold.Some? && s.telemetryInvalid
    requires io.now >= s.loss.invalidSince.value + s.cfg.hold.value
    requires e == Check(io) || e == Beat(io) || e == GoodReading(io)
    ensures Step(s, e).loss.forced && Step(s, e).safe.triggered
    ensures Step(s, e).loss.invalidSince == s.loss.invalidSince
    ensures !s.loss.forced ==>
      Step(s, e).log.trace ==
        s.log.trace + [Write(GridLoss, FALLBACK_SETPOINT, io.now, io.outcome, s.log.episode + 1)]
  {
    ExpiredHoldAtCheck(s, io);
    var checked := CheckGridLoss(s, io);
    match e
    case Beat(_) => assert RecoverGridLoss(checked, io) == checked.(safe := checked.safe.(fails := 0, successes := 0));
    case _ =>
  }

  /** The outage began at `since`, and an episode is under way only while telemetry is invalid. */
  predicate OutageSince(s: State, since: real) {
    s.loss.invalidSince == Some(since) && (s.loss.forced ==> s.telemetryInvalid)
  }

  lemma CheckKeepsOutageSince(s: State, io: Io, since: real)
    requires OutageSince(s, since)
    ensures OutageSince(CheckGridLoss(s, io), since)
  {
  }

  lemma StepKeepsOutageSince(s: State, e: Event, since: real)
    requires OutageSince(s, since) && !e.GoodReading? && !e.StartUp?
    ensures OutageSince(Step(s, e), since)
  {
    match e
    case Check(io) => CheckKeepsOutageSince(s, io, since);
    case Beat(io) =>
      CheckKeepsOutageSince(s, io, since);
      var checked := CheckGridLoss(s, io);
      if s.manual.value.None? && !s.dryRun && !checked.loss.forced { JudgeKeepsOutage(checked, io); }
    case _ =>
  }

  lemma JudgeKeepsOutage(s: State, io: Io)
    requires !s.loss.forced
    ensures
      var t := JudgeLiveness(s, io);
      !t.loss.forced && t.loss.invalidSince == s.loss.invalidSince
  {
  }

  lemma {:induction false} RunKeepsOutageSince(s: State, events: seq<Event>, since: real)
    requires OutageSince(s, since) && forall e <- events :: !e.GoodReading? && !e.StartUp?
    ensures OutageSince(Run(s, events), since)
    decreases |events|
  {
    if events != [] {
      RunKeepsOutageSince(s, events[..|events| - 1], since);
      StepKeepsOutageSince(Run(s, events[..|events| - 1]), events[|events| - 1], since);
    }
  }

  lemma StepKeepsConfig(s: State, e: Event)
    ensures Step(s, e).cfg == s.cfg
  {
    match e
    case Beat(io) => BeatFrame(s, io);
    case Check(io) => CheckFrame(s, io);
    case GoodReading(io) => CheckFrame(s, io);
    case _ =>
  }

  lemma {:induction false} RunKeepsInv(s: State, events: seq<Event>)
    requires Inv(s)
    ensures Inv(Run(s, events)) && Run(s, events).cfg == s.cfg
    decreases |events|
  {
    if events != [] {
      var before := Run(s, events[..|events| - 1]);
      RunKeepsInv(s, events[..|events| - 1]);
      StepKeepsInv(before, events[|events| - 1]);
      StepKeepsConfig(before, events[|events| - 1]);
    }
  }

  /** What a manual session keeps while an outage lasts. */
  predicate Held(s: State, since: real, cfg: Config) {
    Inv(s) && OutageSince(s, since) && s.cfg == cfg
  }

  lemma OverrideStarts(s: State, value: int, io: Io, since: real)
    requires Inv(s) && s.loss.invalidSince == Some(since) && IsInt32(value) && io.outcome.Accepted?
    ensures Held(Step(s, Edit(Some(value), io)), since, s.cfg)
  {
    StepKeepsInv(s, Edit(Some(value), io));
    StepKeepsConfig(s, Edit(Some(value), io));
  }

  lemma StepStaysHeld(s: State, e: Event, since: real)
    requires Held(s, since, s.cfg) && !e.GoodReading? && !e.StartUp?
    ensures Held(Step(s, e), since, s.cfg)
  {
    StepKeepsInv(s, e);
    StepKeepsConfig(s, e);
    StepKeepsOutageSince(s, e, since);
  }

  lemma RunStaysHeld(s: State, events: seq<Event>, since: real)
    requires Held(s, since, s.cfg) && forall e <- events :: !e.GoodReading? && !e.StartUp?
    ensures Held(Run(s, events), since, s.cfg)
  {
    RunKeepsInv(s, events);
    RunKeepsOutageSince(s, events, since);
  }

  lemma CheckEndsHold(t: State, since: real, io: Io)
    requires Held(t, since, t.cfg) && t.cfg.hold.Some? && io.now >= since + t.cfg.hold.value
    requires t.telemetryInvalid && !t.dryRun && t.manual.value.None?
    ensures
      var u := Step(t, Check(io));
      && t.loss.invalidSince == Some(since) && u.loss.forced && u.safe.triggered
      && (!t.loss.forced ==>
            u.log.trace == t.log.trace + [Write(GridLoss, FALLBACK_SETPOINT, io.now, io.outcome, t.log.episode + 1)])
  {
    ExpiredHoldForcesFallback(t, Check(io), io);
  }

  /** A manual session does not renew the hold. Start an override while an outage is known, let anything
      but a good reading happen under it, stop it: the next check at or after the original start + hold,
      with telemetry still or again invalid, forces the fallback of a new episode at once. */
  lemma OverrideDoesNotRenewHold(s: State, value: int, started: Io, during: seq<Event>, stopped: Io,
                                 after: seq<Event>, io: Io)
    requires Inv(s) && s.cfg.hold.Some? && s.loss.invalidSince.Some?
    requires IsInt32(value) && started.outcome.Accepted?
    requires forall e <- during + after :: !e.GoodReading? && !e.StartUp?
    requires io.now >= s.loss.invalidSince.value + s.cfg.hold.value
    requires
      var t := Run(Step(Run(Step(s, Edit(Some(value), started)), during), Edit(None, stopped)), after);
      t.telemetryInvalid && !t.dryRun && t.manual.value.None?
    ensures
      var t := Run(Step(Run(Step(s, Edit(Some(value), started)), during), Edit(None, stopped)), after);
      var u := Step(t, Check(io));
      && t.loss.invalidSince == s.loss.invalidSince && u.loss.forced && u.safe.triggered
      && (!t.loss.forced ==>
            u.log.trace == t.log.trace + [Write(GridLoss, FALLBACK_SETPOINT, io.now, io.outcome, t.log.episode + 1)])
  {
    var since := s.loss.invalidSince.value;
    var begun := Step(s, Edit(Some(value), started));
    OverrideStarts(s, value, started, since);
    RunStaysHeld(begun, during, since);
    var ended := Step(Run(begun, during), Edit(None, stopped));
    StepStaysHeld(Run(begun, during), Edit(None, stopped), since);
    RunStaysHeld(ended, after, since);
    CheckEndsHold(Run(ended, after), since, io);
  }

  lemma BeatExit(s: State, io: Io)
    requires Inv(s) && s.loss.forced && !Step(s, Beat(io)).loss.forced
    ensures s.safe.successes >= 1 && !s.telemetryInvalid && io.now - s.lastDbus <= s.cfg.timeout
    ensures
      var t := Step(s, Beat(io));
      && !t.safe.triggered && t.log.hardware == Some(FALLBACK_SETPOINT)
      && forall w | w in t.log.trace[|s.log.trace|..] :: w.writer == GridLoss
  {
    BeatIsJustified(s, io);
    CheckKeepsInv(s, io);
    var checked := CheckGridLoss(s, io);
    assert checked.loss.forced && checked.safe.successes == s.safe.successes;
  }

  /** The only ways out of a meter-loss episode. The heartbeat exit needs one counted good beat before
      it, leaves the accepted -10 standing, and sends nothing but that same -10. */
  lemma OnlyThreeExits(s: State, e: Event)
    requires Inv(s) && s.loss.forced && !Step(s, e).loss.forced
    ensures
      || (e.Edit? && Step(s, e).generation == s.generation + 1)
      || (e.StartUp? && !s.enabled)
      || (&& e.Beat? && s.safe.successes >= 1 && !s.telemetryInvalid
          && e.io.now - s.lastDbus <= s.cfg.timeout
          && !Step(s, e).safe.triggered && Step(s, e).log.hardware == Some(FALLBACK_SETPOINT)
          && forall w | w in Step(s, e).log.trace[|s.log.trace|..] :: w.writer == GridLoss)
  {
    match e
    case Beat(io) => BeatExit(s, io);
    case _ =>
  }

  /** Good heartbeats in a row since the current episode began, read off the run alone. */
  function GoodBeats(s: State, events: seq<Event>): nat {
    if events == [] then 0
    else
      var before := Run(s, events[..|events| - 1]);
      var e := events[|events| - 1];
      var earlier := GoodBeats(s, events[..|events| - 1]);
      if !before.loss.forced || e.BadReading? then 0
      else if !e.Beat? || before.dryRun then earlier
      else if GoodForcedBeat(CheckGridLoss(before, e.io), e.io.now) then earlier + 1 else 0
  }

  lemma ForcedBeatCounts(s: State, io: Io)
    requires RecoverGridLoss(s, io).loss.forced
    ensures RecoverGridLoss(s, io).safe.successes == if GoodForcedBeat(s, io.now) then s.safe.successes + 1 else 0
  {
  }

  /** A heartbeat counts exactly the good beats; every other event keeps or clears the count. */
  lemma BeatCounts(s: State, io: Io)
    requires Inv(s) && CheckHeartbeat(s, io).loss.forced
    ensures
      CheckHeartbeat(s, io).safe.successes ==
        if !s.loss.forced then 0
        else if s.dryRun then s.safe.successes
        else if GoodForcedBeat(CheckGridLoss(s, io), io.now) then s.safe.successes + 1 else 0
  {
    BeatKeepsInv(s, io);
    if s.manual.value.None? && !s.dryRun {
      CheckKeepsInv(s, io);
      CheckFrame(s, io);
      var checked := CheckGridLoss(s, io);
      if checked.loss.forced {
        ForcedBeatCounts(checked, io);
        assert s.loss.forced || s.telemetryInvalid;
      } else {
        JudgeFrame(checked, io);
      }
    }
  }

  lemma CheckKeepsCount(s: State, io: Io)
    ensures CheckGridLoss(s, io).safe.successes == s.safe.successes
    ensures CheckGridLoss(s, io).loss.forced && !s.loss.forced ==> s.telemetryInvalid
  {
  }

  lemma OtherEventsKeepCount(s: State, e: Event)
    requires Inv(s) && !e.Beat? && Step(s, e).loss.forced
    ensures Step(s, e).safe.successes == if !s.loss.forced || e.BadReading? then 0 else s.safe.successes
  {
    match e
    case GoodReading(io) => CheckKeepsCount(s, io);
    case Check(io) => CheckKeepsCount(s, io);
    case _ =>
  }

  lemma {:induction false} SuccessesAreGoodBeats(cfg: Config, dryRun: bool, events: seq<Event>)
    ensures
      var s := Run(Init(cfg, dryRun), events);
      s.loss.forced ==> s.safe.successes == GoodBeats(Init(cfg, dryRun), events)
    decreases |events|
  {
    if events != [] {
      var prefix := events[..|events| - 1];
      var before := Run(Init(cfg, dryRun), prefix);
      var e := events[|events| - 1];
      SuccessesAreGoodBeats(cfg, dryRun, prefix);
      EveryRunKeepsInv(cfg, dryRun, prefix);
      if Step(before, e).loss.forced {
        if e.Beat? { BeatCounts(before, e.io); } else { OtherEventsKeepCount(before, e); }
      }
    }
  }

  /** No run leaves a meter-loss episode through a heartbeat without two good heartbeats in a row, and
      that exit replays no earlier command. */
  lemma RecoveryTakesTwoGoodBeats(cfg: Config, dryRun: bool, events: seq<Event>, e: Event)
    requires e.Beat?
    requires Run(Init(cfg, dryRun), events).loss.forced
    requires !Step(Run(Init(cfg, dryRun), events), e).loss.forced
    ensures GoodBeats(Init(cfg, dryRun), events + [e]) >= 2
    ensures Step(Run(Init(cfg, dryRun), events), e).log.hardware == Some(FALLBACK_SETPOINT)
  {
    var s := Run(Init(cfg, dryRun), events);
    assert (events + [e])[..|events|] == events;
    EveryRunKeepsInv(cfg, dryRun, events);
    SuccessesAreGoodBeats(cfg, dryRun, events);
    OnlyThreeExits(s, e);
    CheckKeepsInv(s, e.io);
    assert GoodForcedBeat(CheckGridLoss(s, e.io), e.io.now);
  }

  // ---------------------------------------------------------------- spacing of the fallback attempts

  /** Within an episode, attempts are 1 s apart, and 2 s after an accepted one. */
  predicate Spaced(trace: seq<Write>) {
    forall i, j :: 0 <= i < j < |trace| ==> Apart(trace[i], trace[j])
  }

  predicate Apart(first: Write, second: Write) {
    first.writer == GridLoss && second.writer == GridLoss && first.episode == second.episode ==>
      && second.at >= first.at + RETRY_INTERVAL
      && (first.outcome.Accepted? ==> second.at >= first.at + REFRESH_INTERVAL)
  }

  /** A recorded attempt of the current episode bounds the retry timers from below. */
  predicate Remembered(s: State, w: Write) {
    s.loss.forced && w.writer == GridLoss && w.episode == s.log.episode ==>
      && s.loss.lastAttempt.Some? && w.at <= s.loss.lastAttempt.value
      && (w.outcome.Accepted? ==>
            if s.loss.pending then s.loss.lastAttempt.value >= w.at + REFRESH_INTERVAL
            else s.loss.lastWrite.Some? && s.loss.lastWrite.value >= w.at)
  }

  predicate Timed(s: State) {
    && Spaced(s.log.trace)
    && (s.loss.forced && !s.loss.pending ==>
          s.loss.lastAttempt.Some? && s.loss.lastWrite.Some? && s.loss.lastWrite.value >= s.loss.lastAttempt.value)
    && (forall w | w in s.log.trace :: w.episode <= s.log.episode)
    && (forall w | w in s.log.trace :: Remembered(s, w))
  }

  lemma ForceKeepsTimed(s: State)
    requires Timed(s)
    ensures Timed(ForceGridLoss(s))
  {
  }

  lemma FallbackKeepsTimed(s: State, io: Io)
    requires Timed(s) && s.loss.forced && io.now <= io.after
    ensures Timed(MaintainFallback(s, io))
  {
    if FallbackDue(s.loss, io.now) {
      var t := MaintainFallback(s, io);
      var w := Write(GridLoss, FALLBACK_SETPOINT, io.now, io.outcome, s.log.episode);
      assert t.log.trace == s.log.trace + [w];
      forall x | x in s.log.trace ensures Remembered(t, x) && Apart(x, w) { assert Remembered(s, x); }
      assert Remembered(t, w);
    }
  }

  lemma OtherWriteKeepsTimed(s: State, t: State)
    requires Timed(s)
    requires t.log.episode == s.log.episode && (t.loss.forced ==> s.loss.forced && t.loss == s.loss)
    requires t.log.trace == s.log.trace || (|t.log.trace| == |s.log.trace| + 1 && AtMostOneWrite(s, t)
             && t.log.trace[|s.log.trace|].writer != GridLoss && t.log.trace[|s.log.trace|].episode == s.log.episode)
    ensures Timed(t)
  {
    forall w | w in t.log.trace ensures Remembered(t, w) && w.episode <= t.log.episode {
      if w in s.log.trace { assert Remembered(s, w); }
    }
  }

  lemma CheckKeepsTimed(s: State, io: Io)
    requires Timed(s) && Inv(s) && io.now <= io.after
    ensures Timed(CheckGridLoss(s, io))
  {
    if s.manual.value.Some? {
      OtherWriteKeepsTimed(s, CheckGridLoss(s, io));
    } else if !s.dryRun && s.cfg.hold.Some? {
      ForceKeepsTimed(s);
      var checked := if HoldExpired(s, io.now) then ForceGridLoss(s) else s;
      if checked.loss.forced { FallbackKeepsTimed(checked, io); }
    }
  }

  lemma JudgeWritesNoFallback(s: State, io: Io)
    requires !s.loss.forced && s.manual.value.None? && !s.dryRun
    ensures
      var t := JudgeLiveness(s, io);
      && !t.loss.forced && t.log.episode == s.log.episode && AtMostOneWrite(s, t)
      && (t.log.trace != s.log.trace ==>
            t.log.trace[|s.log.trace|].writer != GridLoss && t.log.trace[|s.log.trace|].episode == s.log.episode)
  {
  }

  lemma BeatKeepsTimed(s: State, io: Io)
    requires Timed(s) && Inv(s) && io.now <= io.after
    ensures Timed(CheckHeartbeat(s, io))
  {
    CheckKeepsTimed(s, io);
    var checked := CheckGridLoss(s, io);
    if s.manual.value.None? && !s.dryRun {
      if checked.loss.forced {
        var t := RecoverGridLoss(checked, io);
        assert t.log == checked.log && (t.loss.forced ==> t.loss == checked.loss);
        OtherWriteKeepsTimed(checked, t);
      } else {
        JudgeWritesNoFallback(checked, io);
        OtherWriteKeepsTimed(checked, JudgeLiveness(checked, io));
      }
    }
  }

  lemma GoodReadingKeepsTimed(s: State, io: Io)
    requires Timed(s) && Inv(s) && io.now <= io.after
    ensures Timed(MarkDbusUpdate(s, io))
  {
    CheckKeepsTimed(s, io);
    var checked := CheckGridLoss(s, io);
    if checked.loss.forced {
      assert MarkDbusUpdate(s, io).loss == checked.loss;
    }
    OtherWriteKeepsTimed(checked, MarkDbusUpdate(s, io));
  }

  lemma BadReadingKeepsTimed(s: State, now: real)
    requires Timed(s)
    ensures Timed(Step(s, BadReading(now)))
  {
    forall w | w in s.log.trace ensures Remembered(Step(s, BadReading(now)), w) { assert Remembered(s, w); }
  }

  lemma StepKeepsTimed(s: State, e: Event)
    requires Timed(s) && Inv(s) && Timely(e)
    ensures Timed(Step(s, e))
  {
    match e
    case GoodReading(io) => GoodReadingKeepsTimed(s, io);
    case Check(io) => CheckKeepsTimed(s, io);
    case Beat(io) => BeatKeepsTimed(s, io);
    case BadReading(now) => BadReadingKeepsTimed(s, now);
    case _ =>
      OtherWriteKeepsTimed(s, Step(s, e));
  }

  lemma {:induction false} EveryRunIsTimed(cfg: Config, dryRun: bool, events: seq<Event>)
    requires forall e | e in events :: Timely(e)
    ensures Timed(Run(Init(cfg, dryRun), events))
    decreases |events|
  {
    if events != [] {
      EveryRunIsTimed(cfg, dryRun, events[..|events| - 1]);
      EveryRunKeepsInv(cfg, dryRun, events[..|events| - 1]);
      StepKeepsTimed(Run(Init(cfg, dryRun), events[..|events| - 1]), events[|events| - 1]);
    }
  }

  lemma FallbackAttemptsAreSpaced(cfg: Config, dryRun: bool, events: seq<Event>)
    requires forall e | e in events :: Timely(e)
    ensures Spaced(Run(Init(cfg, dryRun), events).log.trace)
  {
    EveryRunIsTimed(cfg, dryRun, events);
  }

  // ---------------------------------------------------------------- the wakeup deadline

  /** For an active override or a live forced meter loss, the deadline the thread computes at `now` is
      the first instant from `now` on at which the check attempts a write: never late, never early. */
  lemma DeadlineIsFirstAttempt(s: State, now: real, io: Io)
    requires Inv(s) && io.now >= now
    requires s.manual.value.Some? || (s.loss.forced && !s.dryRun)
    ensures
      var deadline := if s.manual.value.Some? then OverrideDeadline(s.manual, now) else LossDeadline(s.loss, now);
      |CheckGridLoss(s, io).log.trace| > |s.log.trace| <==> io.now >= deadline
  {
  }
}
