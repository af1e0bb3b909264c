/**
 Daily deltas of a physical meter's cumulative counters. Times are exact numbers; the calendar is a pair
 of functions from instants to local days and from local days to the instant of their midnight.
 */
module GridEnergy {
  import opened Prelude

  const MAX_AGE: real := 90.0
  const MIDNIGHT_BRACKET: real := 30.0
  const PERSIST_INTERVAL: real := 60.0
  const CLOCK_TOLERANCE: real := 5.0
  const SERVICE_PREFIX := "com.victronenergy.grid."
  const MAX_INSTANCE: int := 2147483647

  datatype Reason =
    | AwaitingMeter | StateUnavailable | MeterUnavailable | TimezoneUnavailable | SourceChanged
    | TimezoneChanged | CounterReset | ClockChanged | IncompleteDay | MidnightVerified | StaleReading
    | PersistenceUnavailable | Reported(text: string)

  datatype Calendar = Calendar(known: string -> bool, day: (real, string) -> int, midnight: (int, string) -> real)

  /** An instant lies between the midnight its local day starts with and the next one. */
  ghost predicate Coherent(cal: Calendar) {
    forall t, zone :: cal.midnight(cal.day(t, zone), zone) <= t < cal.midnight(cal.day(t, zone) + 1, zone)
  }

  datatype Serial = Absent | Text(text: string) | NotText

  datatype Source = Source(service: string, instance: int, serial: Serial)

  datatype Counters = Counters(imported: real, exported: real)

  datatype Reading = Reading(counters: Counters, observedAt: real)

  datatype Ledger = Ledger(generation: int, source: Source, date: int, zone: string, startedAt: real,
                           baseline: Counters, latest: Reading, complete: bool, reason: Reason)

  /** One meter reply; a field that is no finite number arrives as None. */
  datatype Reply = Reply(service: string, instance: Option<real>, serial: Serial, forward: Option<real>,
                         reverse: Option<real>, connected: Option<real>)

  datatype Health = Health(observedMono: Option<real>, readError: Option<Reason>, resetPending: Option<Reason>,
                           resetObservation: bool)

  datatype Disk = Missing | Unreadable | Holds(ledger: Ledger)

  /** A save in flight: the copy taken under the lock and its revision. */
  datatype Save = Save(copy: Ledger, revision: nat)

  datatype Store = Store(dirty: bool, revision: nat, lastAttempt: Option<real>, failed: bool, saving: Option<Save>,
                         disk: Disk)

  datatype State = State(ledger: Option<Ledger>, health: Health, store: Store)

  // ---------------------------------------------------------------- validation

  function Number(value: Option<real>): Option<real> {
    if value.Some? && value.value >= 0.0 then value else None
  }

  predicate ValidSource(source: Source) {
    && SERVICE_PREFIX < source.service && |source.service| <= 255 && 0 <= source.instance <= MAX_INSTANCE
    && (source.serial.Absent? || (source.serial.Text? && 0 < |source.serial.text| <= 128))
  }

  function ParseSource(service: string, instance: Option<real>, serial: Serial): (source: Option<Source>)
    ensures source.Some? ==> ValidSource(source.value) && instance == Some(source.value.instance as real)
  {
    if !(SERVICE_PREFIX < service) || |service| > 255 || Number(instance).None?
       || instance.value.Floor as real != instance.value || instance.value > MAX_INSTANCE as real
       || !(serial.Absent? || (serial.Text? && 0 < |serial.text| <= 128)) then None
    else Some(Source(service, instance.value.Floor, serial))
  }

  predicate KnownInstant(cal: Calendar, at: Option<real>, zone: string) {
    zone != "" && cal.known(zone) && Number(at).Some?
  }

  predicate AtLeast(high: Counters, low: Counters) {
    high.imported >= low.imported && high.exported >= low.exported
  }

  /** The loader's check of a saved state. */
  predicate ValidState(cal: Calendar, l: Ledger) {
    && l.generation >= 1
    && ParseSource(l.source.service, Some(l.source.instance as real), l.source.serial) == Some(l.source)
    && l.startedAt >= 0.0 && l.baseline.imported >= 0.0 && l.baseline.exported >= 0.0
    && KnownInstant(cal, Some(l.latest.observedAt), l.zone)
    && cal.day(l.latest.observedAt, l.zone) == l.date
    && cal.midnight(l.date, l.zone) <= l.startedAt <= l.latest.observedAt
    && (l.complete ==> l.startedAt == cal.midnight(l.date, l.zone))
    && AtLeast(l.latest.counters, l.baseline)
  }

  function Load(cal: Calendar, disk: Disk): State {
    var store := Store(false, 0, None, false, None, disk);
    match disk
    case Missing => State(None, Health(None, Some(AwaitingMeter), None, false), store)
    case Unreadable => State(None, Health(None, Some(StateUnavailable), None, false), store)
    case Holds(ledger) =>
      if ValidState(cal, ledger) then State(Some(ledger), Health(None, Some(AwaitingMeter), None, false), store)
      else State(None, Health(None, Some(StateUnavailable), None, false), store)
  }

  // ---------------------------------------------------------------- observation

  function Invalidate(s: State, reason: Reason, reset: bool): State {
    s.(health := s.health.(readError := Some(reason),
                           resetPending := if reset then Some(reason) else s.health.resetPending))
  }

  function ReseedReason(h: Health, previous: Ledger, source: Source, zone: string, latest: Reading,
                        mono: real): Option<Reason> {
    var elapsed := latest.observedAt - previous.latest.observedAt;
    if h.resetPending.Some? then h.resetPending
    else if source != previous.source then Some(SourceChanged)
    else if zone != previous.zone then Some(TimezoneChanged)
    else if !AtLeast(latest.counters, previous.latest.counters) then Some(CounterReset)
    else if elapsed < 0.0
            || (h.observedMono.Some? && RealAbs(elapsed - (mono - h.observedMono.value)) > CLOCK_TOLERANCE)
                then Some(ClockChanged)
    else None
  }

  /** Only an unchanged pair of readings, half a minute apart, proves the counters at midnight. */
  predicate MidnightProved(h: Health, previous: Ledger, date: int, latest: Reading, mono: real) {
    && h.readError.None? && h.observedMono.Some? && date == previous.date + 1
    && 0.0 <= mono - h.observedMono.value <= MIDNIGHT_BRACKET
    && 0.0 <= latest.observedAt - previous.latest.observedAt <= MIDNIGHT_BRACKET
    && latest.counters == previous.latest.counters
  }

  function NextLedger(cal: Calendar, s: State, source: Source, zone: string, latest: Reading, mono: real): Ledger {
    var date := cal.day(latest.observedAt, zone);
    if s.ledger.None? then
      Ledger(1, source, date, zone, latest.observedAt, latest.counters, latest, false, IncompleteDay)
    else
      var previous := s.ledger.value;
      var reason := ReseedReason(s.health, previous, source, zone, latest, mono);
      if reason.None? && previous.date == date then previous.(latest := latest)
      else if reason.None? && MidnightProved(s.health, previous, date, latest, mono) then
        Ledger(previous.generation + 1, source, date, zone, cal.midnight(date, zone), latest.counters, latest, true,
               MidnightVerified)
      else
        Ledger(previous.generation + 1, source, date, zone, latest.observedAt, latest.counters, latest, false,
               reason.GetOr(IncompleteDay))
  }

  function ObserveLocked(cal: Calendar, s: State, source: Source, zone: string, latest: Reading, mono: real): State {
    var reseeded := s.ledger.Some? && ReseedReason(s.health, s.ledger.value, source, zone, latest, mono).Some?;
    State(Some(NextLedger(cal, s, source, zone, latest, mono)), Health(Some(mono), None, None, reseeded),
          s.store.(dirty := true, revision := s.store.revision + 1))
  }

  datatype Verdict = Rejected(reason: Reason) | Usable(source: Source, latest: Reading, mono: real)

  function Judge(cal: Calendar, reply: Option<Reply>, zone: string, at: Option<real>, mono: Option<real>): (v: Verdict)
    ensures v.Usable? ==>
      && ValidSource(v.source) && KnownInstant(cal, at, zone) && v.latest.observedAt == at.value
      && AtLeast(v.latest.counters, Counters(0.0, 0.0))
  {
    if !KnownInstant(cal, at, zone) then Rejected(TimezoneUnavailable)
    else if reply.None? || Number(mono).None? then Rejected(MeterUnavailable)
    else
      var source := ParseSource(reply.value.service, reply.value.instance, reply.value.serial);
      if source.None? || Number(reply.value.forward).None? || Number(reply.value.reverse).None?
         || reply.value.connected != Some(1.0) then Rejected(MeterUnavailable)
      else Usable(source.value, Reading(Counters(reply.value.forward.value, reply.value.reverse.value), at.value),
                  mono.value)
  }

  function Observe(cal: Calendar, s: State, reply: Option<Reply>, zone: string, at: Option<real>,
                   mono: Option<real>): State {
    match Judge(cal, reply, zone, at, mono)
    case Rejected(reason) => Invalidate(s, reason, false)
    case Usable(source, latest, clock) => ObserveLocked(cal, s, source, zone, latest, clock)
  }

  // ---------------------------------------------------------------- display

  datatype Status = Complete | Partial | Stale | Reset | Unknown

  /** What a reader is shown; `delta` is None unless the day's figures can be trusted now. */
  datatype Report = Report(status: Status, reason: Option<Reason>, delta: Option<Counters>, complete: bool)

  function Availability(cal: Calendar, l: Ledger, h: Health, at: real, mono: real): (Status, Option<Reason>) {
    if h.resetPending.Some? || h.resetObservation then
      (Reset, if h.resetPending.Some? then h.resetPending else Some(l.reason))
    else if h.observedMono.None? then (Unknown, Some(h.readError.GetOr(AwaitingMeter)))
    else
      var elapsed := mono - h.observedMono.value;
      if elapsed < 0.0 || RealAbs(at - l.latest.observedAt - elapsed) > CLOCK_TOLERANCE then (Reset, Some(ClockChanged))
      else if h.readError.Some? then (Stale, h.readError)
      else if elapsed > MAX_AGE || cal.day(at, l.zone) != l.date then (Stale, Some(StaleReading))
      else (if l.complete then Complete else Partial, None)
  }

  function Snapshot(cal: Calendar, s: State, at: real, mono: real): Report {
    if s.ledger.None? then Report(Unknown, Some(s.health.readError.GetOr(AwaitingMeter)), None, false)
    else
      var l := s.ledger.value;
      var (status, reason) := Availability(cal, l, s.health, at, mono);
      var shown := status.Complete? || status.Partial?;
      Report(status,
             if reason.Some? then reason else Some(if s.store.failed then PersistenceUnavailable else l.reason),
             if shown then Some(Counters(l.latest.counters.imported - l.baseline.imported,
                                         l.latest.counters.exported - l.baseline.exported)) else None,
             shown && l.complete)
  }

  // ---------------------------------------------------------------- persistence

  /** First locked section of a save; the file is replaced outside the lock. */
  function BeginSave(s: State, now: real): State {
    if s.store.saving.Some? || !s.store.dirty || s.ledger.None?
       || (s.store.lastAttempt.Some? && now - s.store.lastAttempt.value < PERSIST_INTERVAL) then s
    else s.(store := s.store.(lastAttempt := Some(now), saving := Some(Save(s.ledger.value, s.store.revision))))
  }

  /** The replacement happened or not, and the call raised or not; a raise may come after it. */
  function EndSave(s: State, replaced: bool, raised: bool): State {
    if s.store.saving.None? then s
    else
      var save := s.store.saving.value;
      var disk := if replaced || !raised then Holds(save.copy) else s.store.disk;
      if raised then s.(store := s.store.(saving := None, disk := disk, failed := true))
      else s.(store := s.store.(saving := None, disk := disk, failed := false,
                                dirty := s.store.dirty && s.store.revision != save.revision))
  }

  /** A crash leaves the old or the new file. */
  function Restart(cal: Calendar, s: State, replaced: bool): State {
    Load(cal, if replaced && s.store.saving.Some? then Holds(s.store.saving.value.copy) else s.store.disk)
  }

  // ---------------------------------------------------------------- runs

  datatype Event =
    | Observed(reply: Option<Reply>, zone: string, at: Option<real>, mono: Option<real>)
    | Invalidated(reason: Reason, reset: bool)
    | SaveBegun(now: real)
    | SaveEnded(replaced: bool, raised: bool)
    | Restarted(replaced: bool)

  function Step(cal: Calendar, s: State, e: Event): State {
    match e
    case Observed(reply, zone, at, mono) => Observe(cal, s, reply, zone, at, mono)
    case Invalidated(reason, reset) => Invalidate(s, reason, reset)
    case SaveBegun(now) => BeginSave(s, now)
    case SaveEnded(replaced, raised) => EndSave(s, replaced, raised)
    case Restarted(replaced) => Restart(cal, s, replaced)
  }

  function Run(cal: Calendar, s: State, events: seq<Event>): State {
    if events == [] then s else Step(cal, Run(cal, s, events[..|events| - 1]), events[|events| - 1])
  }

  // ---------------------------------------------------------------- every reachable state is loadable

  /** Whatever the file held at first is left alone until it is replaced by a valid ledger. */
  predicate Stored(cal: Calendar, store: Store, first: Disk) {
    && (store.disk == first || (store.disk.Holds? && ValidState(cal, store.disk.ledger)))
    && (store.saving.Some? ==>
          ValidState(cal, store.saving.value.copy) && store.saving.value.revision <= store.revision)
  }

  predicate Valid(cal: Calendar, s: State, first: Disk) {
    (s.ledger.Some? ==> ValidState(cal, s.ledger.value)) && Stored(cal, s.store, first)
  }

  lemma ParsedSourceIsStable(source: Source)
    requires ValidSource(source)
    ensures ParseSource(source.service, Some(source.instance as real), source.serial) == Some(source)
  {
  }

  lemma ObservationKeepsValid(cal: Calendar, s: State, source: Source, zone: string, latest: Reading, mono: real)
    requires Coherent(cal) && (s.ledger.Some? ==> ValidState(cal, s.ledger.value))
    requires ValidSource(source) && KnownInstant(cal, Some(latest.observedAt), zone)
    requires AtLeast(latest.counters, Counters(0.0, 0.0))
    ensures ValidState(cal, NextLedger(cal, s, source, zone, latest, mono))
  {
    ParsedSourceIsStable(source);
    var date := cal.day(latest.observedAt, zone);
    assert cal.midnight(date, zone) <= latest.observedAt;
    if s.ledger.Some? {
      var previous := s.ledger.value;
      assert previous.latest.observedAt < cal.midnight(previous.date + 1, previous.zone);
    }
  }

  lemma StepKeepsValid(cal: Calendar, s: State, e: Event, first: Disk)
    requires Coherent(cal) && Valid(cal, s, first)
    ensures Valid(cal, Step(cal, s, e), first)
  {
    match e
    case Observed(reply, zone, at, mono) =>
      var v := Judge(cal, reply, zone, at, mono);
      if v.Usable? { ObservationKeepsValid(cal, s, v.source, zone, v.latest, v.mono); }
    case _ =>
  }

  lemma {:induction false} EveryRunIsValid(cal: Calendar, disk: Disk, events: seq<Event>)
    requires Coherent(cal)
    ensures Valid(cal, Run(cal, Load(cal, disk), events), disk)
    decreases |events|
  {
    if events != [] {
      EveryRunIsValid(cal, disk, events[..|events| - 1]);
      StepKeepsValid(cal, Run(cal, Load(cal, disk), events[..|events| - 1]), events[|events| - 1], disk);
    }
  }

  /** Whatever ledger a run reaches, saving it and starting again restores exactly that ledger. */
  lemma PersistThenLoad(cal: Calendar, disk: Disk, events: seq<Event>, now: real)
    requires Coherent(cal)
    requires
      var s := Run(cal, Load(cal, disk), events);
      && s.ledger.Some? && s.store.dirty && s.store.saving.None?
      && (s.store.lastAttempt.Some? ==> now - s.store.lastAttempt.value >= PERSIST_INTERVAL)
    ensures
      var s := Run(cal, Load(cal, disk), events);
      var saved := EndSave(BeginSave(s, now), true, false);
      && saved.ledger == s.ledger && !saved.store.dirty
      && Restart(cal, saved, false).ledger == s.ledger
  {
    EveryRunIsValid(cal, disk, events);
  }

  /** A state not marked dirty is the one on disk, whatever happened between the two sections of a save. */
  predicate CleanMeansSaved(s: State) {
    && (!s.store.dirty && s.ledger.Some? ==> s.store.disk == Holds(s.ledger.value))
    && (s.store.saving.Some? && s.store.saving.value.revision == s.store.revision
        ==> s.ledger == Some(s.store.saving.value.copy))
    && (s.store.saving.Some? ==> s.store.dirty && s.store.saving.value.revision <= s.store.revision)
  }

  lemma {:induction false} EveryRunIsCleanOnlyWhenSaved(cal: Calendar, disk: Disk, events: seq<Event>)
    ensures CleanMeansSaved(Run(cal, Load(cal, disk), events))
    decreases |events|
  {
    if events != [] {
      EveryRunIsCleanOnlyWhenSaved(cal, disk, events[..|events| - 1]);
    }
  }

  // ---------------------------------------------------------------- agreement with a physical counter

  /** The counters a meter shows at an instant. */
  type Meter = (Source, real) -> Counters

  ghost predicate Nondecreasing(meter: Meter) {
    forall source, t, u :: t <= u ==> AtLeast(meter(source, u), meter(source, t))
  }

  /** An accepted reply reports what its meter showed at its timestamp. */
  predicate Truthful(cal: Calendar, meter: Meter, e: Event) {
    e.Observed? ==>
      var v := Judge(cal, e.reply, e.zone, e.at, e.mono);
      v.Usable? ==> v.latest.counters == meter(v.source, v.latest.observedAt)
  }

  predicate Agrees(meter: Meter, l: Ledger) {
    && l.baseline == meter(l.source, l.startedAt)
    && l.latest.counters == meter(l.source, l.latest.observedAt)
  }

  predicate DiskAgrees(cal: Calendar, meter: Meter, disk: Disk) {
    disk.Holds? && ValidState(cal, disk.ledger) ==> Agrees(meter, disk.ledger)
  }

  predicate AllAgree(cal: Calendar, meter: Meter, s: State) {
    && (s.ledger.Some? ==> Agrees(meter, s.ledger.value))
    && DiskAgrees(cal, meter, s.store.disk)
    && (s.store.saving.Some? ==> Agrees(meter, s.store.saving.value.copy))
  }

  /** No reading is taken at midnight; the unchanged bracket squeezes the counter there. */
  lemma BracketFixesMidnight(meter: Meter, source: Source, before: real, midnight: real, after: real)
    requires Nondecreasing(meter) && before <= midnight <= after
    requires meter(source, before) == meter(source, after)
    ensures meter(source, midnight) == meter(source, after)
  {
    assert AtLeast(meter(source, midnight), meter(source, before));
    assert AtLeast(meter(source, after), meter(source, midnight));
  }

  lemma ObservationAgrees(cal: Calendar, meter: Meter, s: State, source: Source, zone: string, latest: Reading,
                          mono: real)
    requires Coherent(cal) && Nondecreasing(meter)
    requires s.ledger.Some? ==> ValidState(cal, s.ledger.value) && Agrees(meter, s.ledger.value)
    requires latest.counters == meter(source, latest.observedAt)
    ensures Agrees(meter, NextLedger(cal, s, source, zone, latest, mono))
  {
    if s.ledger.Some? {
      var previous := s.ledger.value;
      var date := cal.day(latest.observedAt, zone);
      if ReseedReason(s.health, previous, source, zone, latest, mono).None?
          && MidnightProved(s.health, previous, date, latest, mono) {
        assert previous.latest.observedAt < cal.midnight(date, zone) <= latest.observedAt;
        BracketFixesMidnight(meter, source, previous.latest.observedAt, cal.midnight(date, zone), latest.observedAt);
      }
    }
  }

  lemma StepAgrees(cal: Calendar, meter: Meter, s: State, e: Event, first: Disk)
    requires Coherent(cal) && Nondecreasing(meter) && Valid(cal, s, first) && AllAgree(cal, meter, s)
        && Truthful(cal, meter, e)
    ensures AllAgree(cal, meter, Step(cal, s, e))
  {
    if e.Observed? {
      var v := Judge(cal, e.reply, e.zone, e.at, e.mono);
      if v.Usable? { ObservationAgrees(cal, meter, s, v.source, e.zone, v.latest, v.mono); }
    }
  }

  lemma {:induction false} EveryRunAgrees(cal: Calendar, meter: Meter, disk: Disk, events: seq<Event>)
    requires Coherent(cal) && Nondecreasing(meter)
    requires DiskAgrees(cal, meter, disk)
    requires forall k :: 0 <= k < |events| ==> Truthful(cal, meter, events[k])
    ensures AllAgree(cal, meter, Run(cal, Load(cal, disk), events))
    decreases |events|
  {
    if events != [] {
      var before := Run(cal, Load(cal, disk), events[..|events| - 1]);
      EveryRunAgrees(cal, meter, disk, events[..|events| - 1]);
      EveryRunIsValid(cal, disk, events[..|events| - 1]);
      StepAgrees(cal, meter, before, events[|events| - 1], disk);
    }
  }

  /** What a shown figure has to be. */
  predicate TrueReport(cal: Calendar, meter: Meter, l: Ledger, report: Report, at: real) {
    var start := meter(l.source, l.startedAt);
    var end := meter(l.source, l.latest.observedAt);
    && report.delta == Some(Counters(end.imported - start.imported, end.exported - start.exported))
    && report.delta.value.imported >= 0.0 && report.delta.value.exported >= 0.0
    && cal.midnight(l.date, l.zone) <= l.startedAt <= l.latest.observedAt < cal.midnight(l.date + 1, l.zone)
    && (report.complete ==> l.startedAt == cal.midnight(cal.day(at, l.zone), l.zone))
  }

  lemma SnapshotIsTrue(cal: Calendar, meter: Meter, s: State, at: real, mono: real)
    requires Coherent(cal) && s.ledger.Some? && ValidState(cal, s.ledger.value) && Agrees(meter, s.ledger.value)
    requires Snapshot(cal, s, at, mono).delta.Some?
    ensures TrueReport(cal, meter, s.ledger.value, Snapshot(cal, s, at, mono), at)
  {
    var l := s.ledger.value;
    assert cal.day(at, l.zone) == l.date;
    assert cal.midnight(cal.day(l.latest.observedAt, l.zone), l.zone) <= l.latest.observedAt;
  }

  /** Every figure shown in any run, through saves, crashes and meter swaps, is the true consumption of
      one meter between two instants of the shown day, never negative; a day marked complete starts
      exactly at its midnight. */
  lemma ReportedDeltaIsTrue(cal: Calendar, meter: Meter, disk: Disk, events: seq<Event>, at: real, mono: real)
    requires Coherent(cal) && Nondecreasing(meter)
    requires DiskAgrees(cal, meter, disk)
    requires forall k :: 0 <= k < |events| ==> Truthful(cal, meter, events[k])
    ensures
      var s := Run(cal, Load(cal, disk), events);
      var report := Snapshot(cal, s, at, mono);
      report.delta.Some? ==> s.ledger.Some? && TrueReport(cal, meter, s.ledger.value, report, at)
  {
    EveryRunAgrees(cal, meter, disk, events);
    EveryRunIsValid(cal, disk, events);
    var s := Run(cal, Load(cal, disk), events);
    if Snapshot(cal, s, at, mono).delta.Some? { SnapshotIsTrue(cal, meter, s, at, mono); }
  }

  // ---------------------------------------------------------------- freshness of what is shown

  /** Figures are shown only for a reading at most 90 s old, taken on the day it is at the reader's
      clock, with both clocks in step since, and with no failed read or reset after it. */
  lemma ShownFiguresAreFresh(cal: Calendar, s: State, at: real, mono: real)
    ensures
      Snapshot(cal, s, at, mono).delta.Some? <==>
        && s.ledger.Some? && s.health.observedMono.Some? && s.health.readError.None? && s.health.resetPending.None?
        && !s.health.resetObservation && 0.0 <= mono - s.health.observedMono.value <= MAX_AGE
        && RealAbs((at - s.ledger.value.latest.observedAt) - (mono - s.health.observedMono.value)) <= CLOCK_TOLERANCE
        && cal.day(at, s.ledger.value.zone) == s.ledger.value.date
  {
  }

  predicate AcceptedReading(cal: Calendar, e: Event) {
    e.Observed? && Judge(cal, e.reply, e.zone, e.at, e.mono).Usable?
  }

  /** After a failed read, a crash or a lost meter nothing is shown until a reply is accepted again. */
  lemma {:induction false} NothingShownUntilNextReading(cal: Calendar, s: State, events: seq<Event>, at: real,
                                                        mono: real)
    requires s.health.readError.Some?
    requires forall k :: 0 <= k < |events| ==> !AcceptedReading(cal, events[k])
    ensures Run(cal, s, events).health.readError.Some?
    ensures Snapshot(cal, Run(cal, s, events), at, mono).delta.None?
    decreases |events|
  {
    if events != [] {
      NothingShownUntilNextReading(cal, s, events[..|events| - 1], at, mono);
      assert !AcceptedReading(cal, events[|events| - 1]);
    }
    ShownFiguresAreFresh(cal, Run(cal, s, events), at, mono);
  }

  // ---------------------------------------------------------------- the object

  class GridEnergyLedger {
    const cal: Calendar
    var ledger: Option<Ledger>
    var health: Health
    var store: Store

    ghost function Abs(): State
      reads this
    {
      State(ledger, health, store)
    }

    constructor (cal: Calendar, disk: Disk)
      ensures this.cal == cal && Abs() == Load(cal, disk)
    {
      this.cal := cal;
      ledger := if disk.Holds? && ValidState(cal, disk.ledger) then Some(disk.ledger) else None;
      var unreadable := disk.Unreadable? || (disk.Holds? && !ValidState(cal, disk.ledger));
      health := Health(None, Some(if unreadable then StateUnavailable else AwaitingMeter), None, false);
      store := Store(false, 0, None, false, None, disk);
    }

    method InvalidateReading(reason: Reason, reset: bool)
      modifies `health
      ensures Abs() == Invalidate(old(Abs()), reason, reset)
    {
      health := health.(readError := Some(reason));
      if reset { health := health.(resetPending := Some(reason)); }
    }

    method ObserveReading(source: Source, zone: string, latest: Reading, mono: real)
      modifies `ledger, `health, `store
      ensures Abs() == ObserveLocked(cal, old(Abs()), source, zone, latest, mono)
    {
      var date := cal.day(latest.observedAt, zone);
      var reason := None;
      if ledger.Some? { reason := ReseedReason(health, ledger.value, source, zone, latest, mono); }
      if ledger.None? || reason.Some? || ledger.value.date != date {
        var complete := ledger.Some? && reason.None? && MidnightProved(health, ledger.value, date, latest, mono);
        ledger := Some(Ledger(if ledger.Some? then ledger.value.generation + 1 else 1, source, date, zone,
                              if complete then cal.midnight(date, zone) else latest.observedAt,
                              latest.counters, latest, complete,
                              if complete then MidnightVerified else reason.GetOr(IncompleteDay)));
      } else {
        ledger := Some(ledger.value.(latest := latest));
      }
      health := Health(Some(mono), None, None, reason.Some?);
      store := store.(dirty := true, revision := store.revision + 1);
    }

    method ObserveReply(reply: Option<Reply>, zone: string, at: Option<real>, mono: Option<real>)
      modifies `ledger, `health, `store
      ensures Abs() == Observe(cal, old(Abs()), reply, zone, at, mono)
    {
      var verdict := Judge(cal, reply, zone, at, mono);
      if verdict.Rejected? {
        InvalidateReading(verdict.reason, false);
      } else {
        ObserveReading(verdict.source, zone, verdict.latest, verdict.mono);
      }
    }

    method TakeCopy(now: real) returns (save: Option<Save>)
      requires store.saving.None?
      modifies `store
      ensures Abs() == BeginSave(old(Abs()), now) && save == store.saving
    {
      if !store.dirty || ledger.None? { return None; }
      if store.lastAttempt.Some? && now - store.lastAttempt.value < PERSIST_INTERVAL { return None; }
      save := Some(Save(ledger.value, store.revision));
      store := store.(lastAttempt := Some(now), saving := save);
    }

    method FinishSave(save: Save, replaced: bool, raised: bool)
      requires store.saving == Some(save)
      modifies `store
      ensures Abs() == EndSave(old(Abs()), replaced, raised)
    {
      if replaced || !raised { store := store.(disk := Holds(save.copy)); }
      store := store.(saving := None, failed := raised);
      if !raised && save.revision == store.revision { store := store.(dirty := false); }
    }
  }
}
