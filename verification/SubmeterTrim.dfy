/**
 The slow submeter correction: a transactional propose/commit protocol over a sliding window of
 delayed reports. A proposal is an object: `id` stands for its identity, so two proposals may carry
 equal values and still be different objects. Numbers that fail validation arrive as None.
 */
module SubmeterTrim {
  import opened Prelude

  const MAX_AGE: real := 8.0
  const MAX_FUTURE: real := 1.0
  const SETTLE_SECONDS: real := 10.0
  const MEASUREMENT_DELAY: real := 6.0
  const WINDOW_SECONDS: real := 20.0
  const MIN_SPAN: real := 10.0
  const MIN_REPORTS: nat := 5
  const SUBMETER_RANGE: real := 40.0
  const PRIMARY_RANGE: real := 30.0
  const RAW_DEVIATION: real := 80.0
  const DEADZONE: real := 5.0
  const GAIN: real := 0.25
  const MAX_STEP: int := 4
  const MAX_TOTAL: int := 60

  datatype Kind = Hold | Base | Trim

  datatype Reason =
    | WarmingUp | Disabled | Ineligible | ChangedBeforeWrite | InvalidClock | ClockReversed | InvalidBase
    | FastCommand | InvalidLimits | LimitsChanged | InvalidPrimary | InvalidSource | SubmeterUnavailable
    | InvalidIdentity | ForeignIdentity | InvalidSubmeter | FutureSubmeter | StaleSubmeter | PrimaryTransient
    | OutOfOrder | ChangedReport | PredatesSettle | SubmeterUnstable | PrimaryUnstable | Settling | Repeated
    | Collecting | WithinDeadzone | TrimBudget | SetpointLimit | Trimmed

  datatype Decision = Decision(id: nat, setpoint: int, delta: int, measurement: Option<real>, reason: Reason,
                               previous: int, kind: Kind, proposedAt: real)

  /** Value equality of the frozen record, which ignores the identity of the object. */
  predicate SameValue(a: Decision, b: Decision) {
    a.(id := 0) == b.(id := 0)
  }

  datatype Report = Report(timestamp: real, power: real, observedAt: real)

  datatype Point = Point(at: real, value: real)

  datatype Window = Window(reports: seq<Report>, primary: seq<Point>, average: Option<real>)

  datatype Identity = Identity(service: string, instance: int, generation: int)

  datatype SourceKey = SourceKey(service: string, numbers: seq<int>)

  datatype Context = Context(source: SourceKey, identity: Identity)

  datatype Command = Command(setpoint: int, time: real, wall: real)

  datatype Offer = Offer(issued: Option<Decision>, pending: Option<Decision>, nextId: nat)

  datatype Pin = Pin(service: Option<string>, instance: Option<int>)

  /** A ledger entry: an accepted trim, or a new baseline (an accepted fast command, or a verified
      change of context or of the accepted command). */
  datatype Entry = Step(delta: int, clock: real, wall: real) | Rebased

  datatype Past = Past(offered: seq<Decision>, ledger: seq<Entry>)

  datatype State = State(
    enabled: bool,
    pin: Pin,
    lastNow: Option<real>,
    context: Option<Context>,
    command: Option<Command>,
    lastMeasurement: Option<real>,
    lastPower: Option<real>,
    limits: Option<(real, real)>,
    total: int,
    needsWarmup: bool,
    offer: Offer,
    window: Window,
    past: Past)

  const EMPTY_WINDOW := Window([], [], None)

  function Init(enabled: bool, service: Option<string>, instance: Option<int>): State {
    State(enabled, Pin(service, instance), None, None, None, None, None, None, 0, true,
          Offer(None, None, 0), EMPTY_WINDOW, Past([], []))
  }

  datatype Sample = Sample(available: bool, service: string, instance: Option<int>, generation: Option<int>,
                           measurement: Option<real>, power: Option<real>, age: Option<real>)

  datatype Input = Input(now: Option<real>, wall: Option<real>, previous: int, base: Option<int>, sample: Sample,
                         eligible: bool, reason: Reason, raw: Option<real>, filtered: Option<real>,
                         low: Option<real>, high: Option<real>, source: Option<SourceKey>)

  // ---------------------------------------------------------------- helpers of a proposal

  function ClearWindow(s: State): State {
    s.(window := EMPTY_WINDOW, offer := s.offer.(pending := None))
  }

  /** Discards history and pending work; the budget, the baseline and the high-watermark survive. */
  function Reset(s: State): State {
    s.(needsWarmup := true, offer := s.offer.(issued := None, pending := None), window := EMPTY_WINDOW)
  }

  function KindOf(base: int, previous: int, delta: int): Kind {
    if delta != 0 then Trim else if base != previous then Base else Hold
  }

  function Offered(s: State, base: int, previous: int, now: real, reason: Reason, delta: int,
                   measurement: Option<real>): Decision {
    Decision(s.offer.nextId, base + delta, delta, measurement, reason, previous, KindOf(base, previous, delta), now)
  }

  /** Issues a new object, and keeps it pending when it moves the command. */
  function Decide(s: State, d: Decision): State {
    s.(offer := Offer(Some(d), if d.delta != 0 then Some(d) else s.offer.pending, s.offer.nextId + 1),
       past := s.past.(offered := s.past.offered + [d]))
  }

  function Held(s: State, base: int, previous: int, now: real, reason: Reason): (State, Decision) {
    var d := Offered(s, base, previous, now, reason, 0, None);
    (Decide(s, d), d)
  }

  function RestartBaseline(s: State, previous: int, now: real, wall: real): State {
    s.(command := Some(Command(previous, now, wall)), total := 0, lastMeasurement := None, lastPower := None,
       needsWarmup := false, offer := s.offer.(pending := None), window := EMPTY_WINDOW,
       past := s.past.(ledger := s.past.ledger + [Rebased]))
  }

  const ACLOAD_PREFIX := "com.victronenergy.acload."
  const VICTRON_PREFIX := "com.victronenergy."

  datatype Checked = Bad(reason: Reason) | Good(identity: Identity, timestamp: real, power: real)

  /** Judges one submeter sample against the pinned identity and both of its ages. */
  function CheckSample(pin: Pin, sample: Sample, wall: real): Checked {
    if !sample.available then Bad(SubmeterUnavailable)
    else if !(ACLOAD_PREFIX <= sample.service) || sample.instance.None? || sample.instance.value < 0
            || sample.generation.None? || sample.generation.value < 0 then Bad(InvalidIdentity)
    else if (pin.service.Some? && sample.service != pin.service.value)
            || (pin.instance.Some? && sample.instance.value != pin.instance.value) then Bad(ForeignIdentity)
    else if sample.measurement.None? || sample.measurement.value <= 0.0 || sample.power.None?
            || sample.age.None? || sample.age.value < 0.0 then Bad(InvalidSubmeter)
    else
      var sourceAge := wall - sample.measurement.value;
      if sourceAge < -MAX_FUTURE then Bad(FutureSubmeter)
      else if sourceAge > MAX_AGE || sample.age.value > MAX_AGE then Bad(StaleSubmeter)
      else Good(Identity(sample.service, sample.instance.value, sample.generation.value),
                sample.measurement.value, sample.power.value)
  }

  predicate ValidSource(source: Option<SourceKey>) {
    && source.Some? && VICTRON_PREFIX <= source.value.service && |source.value.numbers| >= 1
    && forall k :: 0 <= k < |source.value.numbers| ==> source.value.numbers[k] >= 0
  }

  function KeepReports(reports: seq<Report>, timestamp: real): seq<Report> {
    if reports == [] then []
    else if timestamp - reports[0].timestamp <= WINDOW_SECONDS
    then [reports[0]] + KeepReports(reports[1..], timestamp)
    else KeepReports(reports[1..], timestamp)
  }

  function KeepPoints(points: seq<Point>, clock: real): seq<Point> {
    if points == [] then []
    else if clock - points[0].at <= WINDOW_SECONDS then [points[0]] + KeepPoints(points[1..], clock)
    else KeepPoints(points[1..], clock)
  }

  function Powers(reports: seq<Report>): (powers: seq<real>)
    ensures |powers| == |reports|
  {
    if reports == [] then [] else [reports[0].power] + Powers(reports[1..])
  }

  /** The primary readings since the first report of the window was observed. */
  function PrimarySince(points: seq<Point>, since: real): seq<real> {
    if points == [] then []
    else if points[0].at >= since then [points[0].value] + PrimarySince(points[1..], since)
    else PrimarySince(points[1..], since)
  }

  function Highest(values: seq<real>): real
    requires values != []
  {
    if |values| == 1 then values[0] else RealMax(values[0], Highest(values[1..]))
  }

  function Lowest(values: seq<real>): real
    requires values != []
  {
    if |values| == 1 then values[0] else RealMin(values[0], Lowest(values[1..]))
  }

  function Sum(values: seq<real>): real {
    if values == [] then 0.0 else values[0] + Sum(values[1..])
  }

  predicate Spread(values: seq<real>, range: real) {
    values != [] && Highest(values) - Lowest(values) > range
  }

  /** The state after a report was compared with the last one, the reason to distrust it, and whether it is new. */
  function UpdateReport(s: State, timestamp: real, power: real): (State, Option<Reason>, bool) {
    if s.lastMeasurement.Some? && timestamp < s.lastMeasurement.value then (s, Some(OutOfOrder), false)
    else
      var isNew := s.lastMeasurement.None? || timestamp > s.lastMeasurement.value;
      if !isNew && s.lastPower != Some(power) then (s, Some(ChangedReport), false)
      else if isNew then
        (s.(offer := s.offer.(pending := None), lastMeasurement := Some(timestamp), lastPower := Some(power)), None,
         true)
      else (s, None, false)
  }

  /** The correction for a settled average: against its sign, at most four watts, at least one. */
  function Correction(average: real): (delta: int)
    ensures 1 <= Abs(delta) <= MAX_STEP
    ensures delta < 0 <==> average > 0.0
  {
    var magnitude := Min(MAX_STEP, Max(1, Round(RealAbs(average) * GAIN)));
    if average > 0.0 then -magnitude else magnitude
  }

  function BoundedTrim(s: State, base: int, previous: int, clock: real, timestamp: real, average: real, low: real,
                       high: real): (State, Decision) {
    var delta := Correction(average);
    var d := if Abs(s.total + delta) > MAX_TOTAL then Offered(s, base, previous, clock, TrimBudget, 0, Some(timestamp))
             else if !(low < (base + delta) as real < high)
                 then Offered(s, base, previous, clock, SetpointLimit, 0, Some(timestamp))
             else Offered(s, base, previous, clock, Trimmed, delta, Some(timestamp));
    (Decide(s, d), d)
  }

  /** The end of a proposal, once the window is stable and averaged. */
  function Settle(s: State, base: int, previous: int, clock: real, timestamp: real, isNew: bool, low: real,
                  high: real): (State, Decision)
    requires s.command.Some? && (s.window.reports != [] ==> s.window.average.Some?)
  {
    var reports := s.window.reports;
    if clock - s.command.value.time < SETTLE_SECONDS then Held(s, base, previous, clock, Settling)
    else if s.offer.pending.Some? then
      (s.(offer := s.offer.(issued := s.offer.pending)), s.offer.pending.value)
    else if !isNew then Held(s, base, previous, clock, Repeated)
    else if |reports| < MIN_REPORTS || reports[|reports| - 1].timestamp - reports[0].timestamp < MIN_SPAN then
      Held(s, base, previous, clock, Collecting)
    else if RealAbs(s.window.average.value) <= DEADZONE then
      var d := Offered(s, base, previous, clock, WithinDeadzone, 0, Some(timestamp));
      (Decide(s, d), d)
    else BoundedTrim(s, base, previous, clock, timestamp, s.window.average.value, low, high)
  }

  /** An unstable window is discarded; a stable one is averaged. */
  function JudgeWindow(s: State, base: int, previous: int, clock: real, timestamp: real, isNew: bool, low: real,
                       high: real): (State, Decision)
    requires s.command.Some?
  {
    var reports := s.window.reports;
    if reports == [] then Settle(s, base, previous, clock, timestamp, isNew, low, high)
    else if Spread(Powers(reports), SUBMETER_RANGE) then
      Held(ClearWindow(s), base, previous, clock, SubmeterUnstable)
    else if Spread(PrimarySince(s.window.primary, reports[0].observedAt), PRIMARY_RANGE) then
      Held(ClearWindow(s), base, previous, clock, PrimaryUnstable)
    else
      var average := Sum(Powers(reports)) / |reports| as real;
      Settle(s.(window := s.window.(average := Some(average))), base, previous, clock, timestamp, isNew, low, high)
  }

  function Grow(reports: seq<Report>, report: Report, isNew: bool): seq<Report> {
    KeepReports(if isNew then reports + [report] else reports, report.timestamp)
  }

  /** A report counts only once it was measured well after the last command. */
  function CountReport(s: State, base: int, previous: int, clock: real, timestamp: real, power: real, isNew: bool,
                       low: real, high: real): (State, Decision)
    requires s.command.Some?
  {
    if timestamp < s.command.value.wall + MEASUREMENT_DELAY then
      Held(s.(offer := s.offer.(pending := None)), base, previous, clock, PredatesSettle)
    else
      var reports := Grow(s.window.reports, Report(timestamp, power, clock), isNew);
      JudgeWindow(s.(window := s.window.(reports := reports)), base, previous, clock, timestamp, isNew, low, high)
  }

  function ProposeWindow(s: State, base: int, previous: int, clock: real, raw: real, filtered: real,
                         timestamp: real, power: real, low: real, high: real): (State, Decision)
    requires s.command.Some?
  {
    if RealAbs(raw - filtered) > RAW_DEVIATION then Held(ClearWindow(s), base, previous, clock, PrimaryTransient)
    else
      var seen := s.(window := s.window.(primary := KeepPoints(s.window.primary + [Point(clock, filtered)], clock)));
      var (updated, error, isNew) := UpdateReport(seen, timestamp, power);
      if error.Some? then Held(ClearWindow(updated), base, previous, clock, error.value)
      else CountReport(updated, base, previous, clock, timestamp, power, isNew, low, high)
  }

  /** The baseline a good sample is measured against: a verified new one, a warmed-up one, or the same. */
  function Rebase(s: State, context: Context, previous: int, clock: real, wall: real): (r: State)
    ensures r.command.Some?
  {
    if Some(context) != s.context || s.command.None? || s.command.value.setpoint != previous
    then RestartBaseline(s, previous, clock, wall).(context := Some(context))
    else if s.needsWarmup
    then s.(command := Some(s.command.value.(time := clock, wall := wall)), needsWarmup := false)
    else s
  }

  function ProposeMeasured(s: State, i: Input, base: int, clock: real, wall: real, low: real, high: real)
    : (State, Decision) {
    if i.raw.None? || i.filtered.None? then Held(Reset(s), base, i.previous, clock, InvalidPrimary)
    else if !ValidSource(i.source) then Held(Reset(s), base, i.previous, clock, InvalidSource)
    else
      match CheckSample(s.pin, i.sample, wall)
      case Bad(reason) => Held(Reset(s), base, i.previous, clock, reason)
      case Good(identity, timestamp, power) =>
        var pinned := s.(pin := Pin(Some(identity.service), Some(identity.instance)));
        ProposeWindow(Rebase(pinned, Context(i.source.value, identity), i.previous, clock, wall),
                      base, i.previous, clock, i.raw.value, i.filtered.value, timestamp, power, low, high)
  }

  function ProposeAt(s: State, i: Input, clock: real, wall: real): (State, Decision) {
    var base := i.base.GetOr(i.previous);
    if !s.enabled || !i.eligible then
      Held(Reset(s), base, i.previous, clock, if !s.enabled then Disabled else i.reason)
    else if i.base.None? then Held(Reset(s), i.previous, i.previous, clock, InvalidBase)
    else if base != i.previous then Held(ClearWindow(s), base, i.previous, clock, FastCommand)
    else if i.low.None? || i.high.None? || i.low.value >= i.high.value
            || !(i.low.value <= base as real <= i.high.value) then
      Held(Reset(s), base, i.previous, clock, InvalidLimits)
    else
      var limits := (i.low.value, i.high.value);
      var bounded := if s.limits.Some? && s.limits.value != limits then Reset(s) else s;
      ProposeMeasured(bounded.(limits := Some(limits)), i, base, clock, wall, i.low.value, i.high.value)
  }

  /** Proposes a held or base command, or a bounded correction, without applying it. */
  function Propose(s: State, i: Input): (State, Decision) {
    var base := i.base.GetOr(i.previous);
    if i.now.None? || i.wall.None? || i.now.value < 0.0 || i.wall.value <= 0.0 then
      Held(Reset(s), base, i.previous, 0.0, InvalidClock)
    else if s.lastNow.Some? && i.now.value < s.lastNow.value then
      Held(Reset(s).(lastNow := i.now), base, i.previous, i.now.value, ClockReversed)
    else ProposeAt(s.(lastNow := i.now), i, i.now.value, i.wall.value)
  }

  /** The one decision that may be recorded: the object still issued, at a sane clock. */
  predicate Committable(s: State, d: Decision, now: Option<real>, wall: Option<real>) {
    && s.offer.issued.Some? && s.offer.issued.value.id == d.id
    && now.Some? && wall.Some? && now.value >= d.proposedAt && wall.value > 0.0
  }

  function Commit(s: State, d: Decision, now: Option<real>, wall: Option<real>): (State, bool) {
    if !Committable(s, d, now, wall) then (s, false)
    else
      var changed := d.setpoint != d.previous;
      var base := if changed || s.command.None?
                  then s.(command := Some(Command(d.setpoint, now.value, wall.value))) else s;
      var recorded := if !changed then base
                      else base.(total := if d.kind.Trim? then s.total + d.delta else 0,
                                 window := EMPTY_WINDOW, needsWarmup := false,
                                 past := s.past.(ledger := s.past.ledger +
                                   [if d.kind.Trim? then Step(d.delta, now.value, wall.value) else Rebased]));
      (recorded.(offer := s.offer.(issued := None, pending := None)), true)
  }

  // ---------------------------------------------------------------- the object

  class Trimmer {
    const enabled: bool
    var pin: Pin
    var lastNow: Option<real>
    var context: Option<Context>
    var command: Option<Command>
    var lastMeasurement: Option<real>
    var lastPower: Option<real>
    var limits: Option<(real, real)>
    var total: int
    var needsWarmup: bool
    var offer: Offer
    var window: Window
    ghost var past: Past

    ghost function Abs(): State
      reads this
    {
      State(enabled, pin, lastNow, context, command, lastMeasurement, lastPower, limits, total, needsWarmup,
            offer, window, past)
    }

    constructor (enabled: bool, service: Option<string>, instance: Option<int>)
      ensures Abs() == Init(enabled, service, instance)
    {
      this.enabled, pin, lastNow, context, command := enabled, Pin(service, instance), None, None, None;
      lastMeasurement, lastPower, limits, total := None, None, None, 0;
      needsWarmup, offer, window, past := true, Offer(None, None, 0), EMPTY_WINDOW, Past([], []);
    }

    method ResetTrim()
      modifies `needsWarmup, `offer, `window
      ensures Abs() == Reset(old(Abs()))
    {
      needsWarmup := true;
      offer := offer.(issued := None);
      DropWindow();
    }

    method DropWindow()
      modifies `offer, `window
      ensures Abs() == ClearWindow(old(Abs()))
    {
      window := Window([], [], None);
      offer := offer.(pending := None);
    }

    method Issue(base: int, previous: int, now: real, reason: Reason, delta: int, measurement: Option<real>)
        returns (d: Decision)
      modifies `offer, `past
      ensures d == Offered(old(Abs()), base, previous, now, reason, delta, measurement)
      ensures Abs() == Decide(old(Abs()), d)
    {
      var kind := Hold;
      if delta != 0 {
        kind := Trim;
      } else if base != previous {
        kind := Base;
      }
      d := Decision(offer.nextId, base + delta, delta, measurement, reason, previous, kind, now);
      offer := offer.(issued := Some(d), nextId := offer.nextId + 1);
      if delta != 0 { offer := offer.(pending := Some(d)); }
      past := past.(offered := past.offered + [d]);
    }

    method RefuseAfterReset(base: int, previous: int, now: real, reason: Reason) returns (d: Decision)
      modifies `needsWarmup, `offer, `window, `past
      ensures (Abs(), d) == Held(Reset(old(Abs())), base, previous, now, reason)
    {
      ResetTrim();
      d := Issue(base, previous, now, reason, 0, None);
    }

    method RefuseAfterDrop(base: int, previous: int, now: real, reason: Reason) returns (d: Decision)
      modifies `offer, `window, `past
      ensures (Abs(), d) == Held(ClearWindow(old(Abs())), base, previous, now, reason)
    {
      DropWindow();
      d := Issue(base, previous, now, reason, 0, None);
    }

    method StartBaseline(previous: int, now: real, wall: real)
      modifies `command, `total, `lastMeasurement, `lastPower, `needsWarmup, `offer, `window, `past
      ensures Abs() == RestartBaseline(old(Abs()), previous, now, wall)
    {
      command := Some(Command(previous, now, wall));
      total := 0;
      lastMeasurement, lastPower := None, None;
      needsWarmup := false;
      DropWindow();
      past := past.(ledger := past.ledger + [Rebased]);
    }

    method NoteReport(timestamp: real, power: real) returns (error: Option<Reason>, isNew: bool)
      modifies `offer, `lastMeasurement, `lastPower
      ensures (Abs(), error, isNew) == UpdateReport(old(Abs()), timestamp, power)
    {
      if lastMeasurement.Some? && timestamp < lastMeasurement.value { return Some(OutOfOrder), false; }
      isNew := lastMeasurement.None? || timestamp > lastMeasurement.value;
      if !isNew && lastPower != Some(power) { return Some(ChangedReport), false; }
      if isNew {
        offer := offer.(pending := None);
        lastMeasurement := Some(timestamp);
        lastPower := Some(power);
      }
      error := None;
    }

    method ProposeBounded(base: int, previous: int, clock: real, timestamp: real, average: real, low: real, high: real)
        returns (d: Decision)
      modifies `offer, `past
      ensures (Abs(), d) == BoundedTrim(old(Abs()), base, previous, clock, timestamp, average, low, high)
    {
      var magnitude := Min(MAX_STEP, Max(1, Round(RealAbs(average) * GAIN)));
      var delta := if average > 0.0 then -magnitude else magnitude;
      if Prelude.Abs(total + delta) > MAX_TOTAL {
        d := Issue(base, previous, clock, TrimBudget, 0, Some(timestamp));
      } else if !(low < (base + delta) as real < high) {
        d := Issue(base, previous, clock, SetpointLimit, 0, Some(timestamp));
      } else {
        d := Issue(base, previous, clock, Trimmed, delta, Some(timestamp));
      }
    }

    method ProposeSettled(base: int, previous: int, clock: real, timestamp: real, isNew: bool, low: real, high: real)
        returns (d: Decision)
      requires command.Some? && (window.reports != [] ==> window.average.Some?)
      modifies `offer, `past
      ensures (Abs(), d) == Settle(old(Abs()), base, previous, clock, timestamp, isNew, low, high)
    {
      var n := |window.reports|;
      if clock - command.value.time < SETTLE_SECONDS {
        d := Issue(base, previous, clock, Settling, 0, None);
      } else if offer.pending.Some? {
        offer := offer.(issued := offer.pending);
        d := offer.pending.value;
      } else if !isNew {
        d := Issue(base, previous, clock, Repeated, 0, None);
      } else if n < MIN_REPORTS || window.reports[n - 1].timestamp - window.reports[0].timestamp < MIN_SPAN {
        d := Issue(base, previous, clock, Collecting, 0, None);
      } else if RealAbs(window.average.value) <= DEADZONE {
        d := Issue(base, previous, clock, WithinDeadzone, 0, Some(timestamp));
      } else {
        d := ProposeBounded(base, previous, clock, timestamp, window.average.value, low, high);
      }
    }

    method ProposeFromWindow(base: int, previous: int, clock: real, timestamp: real, isNew: bool, low: real, high: real)
        returns (d: Decision)
      requires command.Some?
      modifies `offer, `window, `past
      ensures (Abs(), d) == JudgeWindow(old(Abs()), base, previous, clock, timestamp, isNew, low, high)
    {
      if window.reports != [] {
        var powers := Powers(window.reports);
        if Spread(powers, SUBMETER_RANGE) {
          d := RefuseAfterDrop(base, previous, clock, SubmeterUnstable);
          return;
        }
        if Spread(PrimarySince(window.primary, window.reports[0].observedAt), PRIMARY_RANGE) {
          d := RefuseAfterDrop(base, previous, clock, PrimaryUnstable);
          return;
        }
        window := window.(average := Some(Sum(powers) / |powers| as real));
      }
      d := ProposeSettled(base, previous, clock, timestamp, isNew, low, high);
    }

    method ProposeMeasurement(base: int, previous: int, clock: real, raw: real, filtered: real, timestamp: real,
                              power: real, low: real, high: real) returns (d: Decision)
      requires command.Some?
      modifies `offer, `window, `lastMeasurement, `lastPower, `past
      ensures (Abs(), d) == ProposeWindow(old(Abs()), base, previous, clock, raw, filtered, timestamp, power, low, high)
    {
      if RealAbs(raw - filtered) > RAW_DEVIATION {
        d := RefuseAfterDrop(base, previous, clock, PrimaryTransient);
        return;
      }
      window := window.(primary := KeepPoints(window.primary + [Point(clock, filtered)], clock));
      var error, isNew := NoteReport(timestamp, power);
      if error.Some? {
        d := RefuseAfterDrop(base, previous, clock, error.value);
        return;
      }
      if timestamp < command.value.wall + MEASUREMENT_DELAY {
        offer := offer.(pending := None);
        d := Issue(base, previous, clock, PredatesSettle, 0, None);
        return;
      }
      var reports := window.reports;
      if isNew { reports := reports + [Report(timestamp, power, clock)]; }
      window := window.(reports := KeepReports(reports, timestamp));
      d := ProposeFromWindow(base, previous, clock, timestamp, isNew, low, high);
    }

    method ProposeSample(i: Input, base: int, clock: real, wall: real, low: real, high: real) returns (d: Decision)
      modifies this
      ensures (Abs(), d) == ProposeMeasured(old(Abs()), i, base, clock, wall, low, high)
    {
      if i.raw.None? || i.filtered.None? {
        d := RefuseAfterReset(base, i.previous, clock, InvalidPrimary);
        return;
      }
      if !ValidSource(i.source) {
        d := RefuseAfterReset(base, i.previous, clock, InvalidSource);
        return;
      }
      var report := CheckSample(pin, i.sample, wall);
      if report.Bad? {
        d := RefuseAfterReset(base, i.previous, clock, report.reason);
        return;
      }
      pin := Pin(Some(report.identity.service), Some(report.identity.instance));
      var current := Context(i.source.value, report.identity);
      if Some(current) != context || command.None? || command.value.setpoint != i.previous {
        StartBaseline(i.previous, clock, wall);
        context := Some(current);
      } else if needsWarmup {
        command := Some(command.value.(time := clock, wall := wall));
        needsWarmup := false;
      }
      d := ProposeMeasurement(base, i.previous, clock, i.raw.value, i.filtered.value, report.timestamp, report.power,
                              low, high);
    }

    method ProposeMode(i: Input, clock: real, wall: real) returns (d: Decision)
      modifies this
      ensures (Abs(), d) == ProposeAt(old(Abs()), i, clock, wall)
    {
      var base := i.base.GetOr(i.previous);
      if !enabled || !i.eligible {
        d := RefuseAfterReset(base, i.previous, clock, if !enabled then Disabled else i.reason);
      } else if i.base.None? {
        d := RefuseAfterReset(i.previous, i.previous, clock, InvalidBase);
      } else if base != i.previous {
        d := RefuseAfterDrop(base, i.previous, clock, FastCommand);
      } else if i.low.None? || i.high.None? || i.low.value >= i.high.value
                || !(i.low.value <= base as real <= i.high.value) {
        d := RefuseAfterReset(base, i.previous, clock, InvalidLimits);
      } else {
        if limits.Some? && limits.value != (i.low.value, i.high.value) { ResetTrim(); }
        limits := Some((i.low.value, i.high.value));
        d := ProposeSample(i, base, clock, wall, i.low.value, i.high.value);
      }
    }

    method ProposeDecision(i: Input) returns (d: Decision)
      modifies this
      ensures (Abs(), d) == Propose(old(Abs()), i)
    {
      var base := i.base.GetOr(i.previous);
      if i.now.None? || i.wall.None? || i.now.value < 0.0 || i.wall.value <= 0.0 {
        d := RefuseAfterReset(base, i.previous, 0.0, InvalidClock);
        return;
      }
      if lastNow.Some? && i.now.value < lastNow.value {
        ResetTrim();
        lastNow := i.now;
        d := Issue(base, i.previous, i.now.value, ClockReversed, 0, None);
        return;
      }
      lastNow := i.now;
      d := ProposeMode(i, i.now.value, i.wall.value);
    }

    method CommitDecision(d: Decision, now: Option<real>, wall: Option<real>) returns (ok: bool)
      modifies this
      ensures (Abs(), ok) == Commit(old(Abs()), d, now, wall)
    {
      if offer.issued.None? || offer.issued.value.id != d.id || now.None? || wall.None?
         || now.value < d.proposedAt || wall.value <= 0.0 {
        return false;
      }
      var changed := d.setpoint != d.previous;
      if changed || command.None? { command := Some(Command(d.setpoint, now.value, wall.value)); }
      if changed {
        if d.kind.Trim? {
          total := total + d.delta;
        } else {
          total := 0;
        }
        past := past.(ledger := past.ledger + [if d.kind.Trim? then Step(d.delta, now.value, wall.value) else Rebased]);
        DropWindow();
        needsWarmup := false;
      }
      offer := offer.(issued := None, pending := None);
      return true;
    }
  }
}
