/**
 Validity of the grid measurement: a snapshot guarded by read tokens, pinned to one source, with its own
 freshness. A raw value is what the bus delivered, already read as a number and as a text where it is one.
 */
module GridTelemetry {
  import opened Prelude

  const GRID_PREFIX := "com.victronenergy.grid."
  const VICTRON_PREFIX := "com.victronenergy."
  const SYSTEM_SERVICE := "com.victronenergy.system"

  datatype Path = PhaseCount | Power(phase: nat) | Kind(input: nat) | Name(input: nat) | Device(input: nat)

  const GRID_PATHS: seq<Path> :=
    [PhaseCount, Power(1), Power(2), Kind(0), Name(0), Device(0), Kind(1), Name(1), Device(1)]

  datatype MeterPath = Connected | Phases

  datatype Raw = Nothing | Value(number: Option<real>, text: Option<string>)

  datatype Field = NoValue | Num(number: real) | Word(text: string)

  datatype Good = Good(l1: int, l2: int)

  datatype Cells = Cells(fields: map<Path, Field>, updated: map<Path, real>, good: Good)

  datatype Meter = Meter(fields: map<(string, MeterPath), Option<real>>, updated: map<(string, MeterPath), real>,
                         ready: set<string>, declared: set<string>)

  datatype Pin = Pin(source: Option<string>, instance: Option<int>, phases: int)

  datatype State = State(maxAge: real, expectedPhases: int, generation: nat, cells: Cells, meter: Meter, pin: Pin,
                         ownerError: Option<string>)

  const NO_METER := Meter(map[], map[], {}, {})

  function Init(maxAge: real, expectedService: string, expectedPhases: int): State {
    State(maxAge, expectedPhases, 0, Cells(map[], map[], Good(0, 0)), NO_METER,
          Pin(if expectedService == "" then None else Some(expectedService), None, expectedPhases), None)
  }

  // ---------------------------------------------------------------- the cached fields

  function Number(raw: Raw): Option<real> {
    if raw.Value? then raw.number else None
  }

  function Text(raw: Raw): Option<string> {
    if raw.Value? && raw.text != Some("") then raw.text else None
  }

  /** The cached form of a raw value; an invalid one clears the field. */
  function Normal(path: Path, raw: Raw): Field {
    if path.Name? then (if Text(raw).Some? then Word(Text(raw).value) else NoValue)
    else if Number(raw).Some? then Num(Number(raw).value) else NoValue
  }

  function Get(fields: map<Path, Field>, path: Path): Field {
    if path in fields then fields[path] else NoValue
  }

  function Lookup<K>(fields: map<K, Raw>, path: K): Raw {
    if path in fields then fields[path] else Nothing
  }

  function Store(cells: Cells, path: Path, raw: Raw, now: real): Cells {
    var value := Normal(path, raw);
    Cells(cells.fields[path := value], cells.updated[path := now],
          if value.Num? && path == Power(1) then cells.good.(l1 := Round(value.number))
          else if value.Num? && path == Power(2) then cells.good.(l2 := Round(value.number))
          else cells.good)
  }

  function StoreAll(cells: Cells, paths: seq<Path>, fields: map<Path, Raw>, now: real): Cells {
    if paths == [] then cells
    else
      var n := |paths| - 1;
      Store(StoreAll(cells, paths[..n], fields, now), paths[n], Lookup(fields, paths[n]), now)
  }

  /** A power that stays a number is no change of the contract; anything else that differs is. A service
      name is compared in its raw form. */
  predicate Invalidates(cells: Cells, path: Path, raw: Raw) {
    if path.Power? then Number(raw).None?
    else if path.Name? then
      match Get(cells.fields, path)
      case Word(text) => !raw.Value? || raw.text != Some(text)
      case _ => raw.Value?
    else Normal(path, raw) != Get(cells.fields, path)
  }

  function Update(s: State, path: Path, raw: Raw, now: real): State {
    if path !in GRID_PATHS then s
    else s.(generation := if Invalidates(s.cells, path, raw) then s.generation + 1 else s.generation,
            cells := Store(s.cells, path, raw, now))
  }

  /** A complete authoritative read; a token that is not current rejects it. */
  function Replace(s: State, fields: map<Path, Raw>, token: Option<nat>, now: real): State {
    if token.Some? && token.value != s.generation then s
    else s.(generation := s.generation + 1, cells := StoreAll(s.cells, GRID_PATHS, fields, now), ownerError := None)
  }

  // ---------------------------------------------------------------- the source

  datatype Source = Source(service: string, instance: int)

  function Candidate(fields: map<Path, Field>, input: nat): Option<Source> {
    var kind := Get(fields, Kind(input));
    var name := Get(fields, Name(input));
    var device := Get(fields, Device(input));
    if (kind == Num(1.0) || kind == Num(3.0)) && name.Word? && VICTRON_PREFIX <= name.text
       && device.Num? && device.number >= 0.0 && device.number.Floor as real == device.number
    then Some(Source(name.text, device.number.Floor))
    else None
  }

  /** The first candidate decides, and the input it comes from. */
  function Chosen(fields: map<Path, Field>): Option<(Source, nat)> {
    if Candidate(fields, 0).Some? then Some((Candidate(fields, 0).value, 0))
    else if Candidate(fields, 1).Some? then Some((Candidate(fields, 1).value, 1))
    else None
  }

  predicate Ambiguous(fields: map<Path, Field>) {
    Candidate(fields, 0).Some? && Candidate(fields, 1).Some? && Candidate(fields, 0) != Candidate(fields, 1)
  }

  function SelectedMeter(fields: map<Path, Field>): Option<string> {
    if Chosen(fields).Some? && GRID_PREFIX <= Chosen(fields).value.0.service
        then Some(Chosen(fields).value.0.service) else None
  }

  function MeterGet(meter: Meter, service: string, path: MeterPath): Option<real> {
    if (service, path) in meter.fields then meter.fields[(service, path)] else None
  }

  function StoreMeter(meter: Meter, service: string, path: MeterPath, value: Option<real>, now: real): Meter {
    meter.(fields := meter.fields[(service, path) := value], updated := meter.updated[(service, path) := now])
  }

  function UpdateMeter(s: State, service: Option<string>, path: MeterPath, raw: Raw, token: Option<nat>,
                       now: real): State {
    if service.None? || service != SelectedMeter(s.cells.fields) || (token.Some? && token.value != s.generation) then s
    else
      var value := Number(raw);
      var changed := if path.Connected? then value != Some(1.0) else value != MeterGet(s.meter, service.value, Phases);
      var declared := if path.Phases? then s.meter.declared + {service.value} else s.meter.declared;
      s.(generation := if token.None? && changed then s.generation + 1 else s.generation,
         meter := StoreMeter(s.meter, service.value, path, value, now).(declared := declared))
  }

  /** One complete metadata reply, never a partially acquired contract. */
  function ReplaceMeter(s: State, service: string, fields: Option<map<MeterPath, Raw>>, token: nat, now: real): State {
    if token != s.generation || Some(service) != SelectedMeter(s.cells.fields) then s
    else if fields.None? then s.(generation := s.generation + 1, meter := s.meter.(ready := s.meter.ready - {service}))
    else
      var connected := StoreMeter(s.meter, service, Connected, Number(Lookup(fields.value, Connected)), now);
      var both := StoreMeter(connected, service, Phases, Number(Lookup(fields.value, Phases)), now);
      s.(generation := s.generation + 1,
         meter := both.(ready := both.ready + {service},
                        declared := if Phases in fields.value then both.declared + {service} else both.declared))
  }

  /** A failed authoritative read cannot preserve a previously valid cache. */
  function Unavailable(s: State, reason: string): State {
    s.(generation := s.generation + 1, cells := Cells(map[], map[], s.cells.good),
       meter := Meter(map[], map[], {}, s.meter.declared), ownerError := Some(reason))
  }

  predicate ConcernsGrid(s: State, service: string) {
    service == SYSTEM_SERVICE || Some(service) == s.pin.source || Some(service) == SelectedMeter(s.cells.fields)
  }

  function OwnerChanged(s: State, service: string): State {
    if ConcernsGrid(s, service) then Unavailable(s, "Grid source owner changed: " + service) else s
  }

  /** An old failed reply must not invalidate a newer accepted observation. */
  function FailedRead(s: State, token: nat, reason: string): State {
    if token == s.generation then Unavailable(s, reason) else s
  }

  // ---------------------------------------------------------------- judging the snapshot

  datatype Reason =
    | Owner(text: string) | UnsupportedPhases | UnconfiguredPhases | PhasesDecreased | PowerUnavailable(phase: nat)
    | SourceUnavailable | AmbiguousSource | SourceChanged | InstanceChanged | MetadataUnavailable | MeterDisconnected
    | TopologyMismatch | Overdue

  datatype Verdict = Bad(reason: Reason) | Usable(source: Source, phases: int, age: real)

  function PhaseCountOf(fields: map<Path, Field>): Option<int> {
    match Get(fields, PhaseCount)
    case Num(n) => if n == 1.0 then Some(1) else if n == 2.0 then Some(2) else None
    case _ => None
  }

  function MeterError(meter: Meter, source: string, phases: int): Option<Reason> {
    if !(GRID_PREFIX <= source) then None
    else if source !in meter.ready then Some(MetadataUnavailable)
    else if MeterGet(meter, source, Connected) != Some(1.0) then Some(MeterDisconnected)
    else
      var declared := MeterGet(meter, source, Phases);
      if (source in meter.declared || declared.Some?) && declared != Some(phases as real) then Some(TopologyMismatch)
      else None
  }

  /** The paths whose age bounds the age of the snapshot. */
  function RequiredPaths(phases: int, input: nat): seq<Path> {
    [PhaseCount, Power(1)] + (if phases == 2 then [Power(2)] else []) + [Kind(input), Name(input), Device(input)]
  }

  /** None when some path was never read. */
  function OldestAge(updated: map<Path, real>, paths: seq<Path>, now: real): Option<real> {
    if paths == [] then Some(0.0)
    else
      var rest := OldestAge(updated, paths[1..], now);
      if rest.None? || paths[0] !in updated then None
      else if |paths| == 1 then Some(now - updated[paths[0]])
      else Some(RealMax(now - updated[paths[0]], rest.value))
  }

  function MeterAge(meter: Meter, source: string, now: real): Option<real> {
    if !(GRID_PREFIX <= source) then Some(0.0)
    else if (source, Connected) in meter.updated then Some(now - meter.updated[(source, Connected)])
    else None
  }

  function JudgeAge(s: State, chosen: (Source, nat), phases: int, now: real): Verdict {
    var age := OldestAge(s.cells.updated, RequiredPaths(phases, chosen.1), now);
    var meterAge := MeterAge(s.meter, chosen.0.service, now);
    if age.None? || meterAge.None? || RealMax(age.value, meterAge.value) > s.maxAge then Bad(Overdue)
    else Usable(chosen.0, phases, RealMax(age.value, meterAge.value))
  }

  function JudgeSource(s: State, phases: int, now: real): Verdict {
    var chosen := Chosen(s.cells.fields);
    if chosen.None? then Bad(SourceUnavailable)
    else if Ambiguous(s.cells.fields) then Bad(AmbiguousSource)
    else if s.pin.source.Some? && s.pin.source.value != chosen.value.0.service then Bad(SourceChanged)
    else if s.pin.instance.Some? && s.pin.instance.value != chosen.value.0.instance then Bad(InstanceChanged)
    else
      var error := MeterError(s.meter, chosen.value.0.service, phases);
      if error.Some? then Bad(error.value) else JudgeAge(s, chosen.value, phases, now)
  }

  function Judge(s: State, now: real): Verdict {
    var phases := PhaseCountOf(s.cells.fields);
    if s.ownerError.Some? then Bad(Owner(s.ownerError.value))
    else if phases.None? then Bad(UnsupportedPhases)
    else if s.expectedPhases != 0 && phases.value != s.expectedPhases then Bad(UnconfiguredPhases)
    else if phases.value < s.pin.phases then Bad(PhasesDecreased)
    else if !Get(s.cells.fields, Power(1)).Num? then Bad(PowerUnavailable(1))
    else if phases.value == 2 && !Get(s.cells.fields, Power(2)).Num? then Bad(PowerUnavailable(2))
    else JudgeSource(s, phases.value, now)
  }

  datatype Report = Report(valid: bool, g1: int, g2: int, phases: int, source: Option<string>, instance: Option<int>,
                           age: real)

  /** A successful look pins what it saw. */
  function Pinned(s: State, now: real): State {
    match Judge(s, now)
    case Bad(_) => s
    case Usable(source, phases, _) =>
      s.(pin := Pin(Some(source.service), Some(source.instance), Max(s.pin.phases, phases)))
  }

  function Snapshot(s: State, now: real): (State, Report) {
    var t := Pinned(s, now);
    var verdict := Judge(s, now);
    (t, Report(verdict.Usable?, s.cells.good.l1, if t.pin.phases == 2 then s.cells.good.l2 else 0,
               t.pin.phases, t.pin.source, t.pin.instance, if verdict.Usable? then verdict.age else 0.0))
  }

  // ---------------------------------------------------------------- runs

  datatype Event =
    | Signal(path: Path, raw: Raw, now: real)
    | Read(fields: map<Path, Raw>, token: Option<nat>, now: real)
    | MeterSignal(service: Option<string>, meterPath: MeterPath, raw: Raw, token: Option<nat>, now: real)
    | MeterRead(meter: string, metadata: Option<map<MeterPath, Raw>>, issued: nat, now: real)
    | OwnerLost(owner: string)
    | ReadLost(reason: string)
    | ReadFailed(issued: nat, reason: string)
    | Look(now: real)

  function Step(s: State, e: Event): State {
    match e
    case Signal(path, raw, now) => Update(s, path, raw, now)
    case Read(fields, token, now) => Replace(s, fields, token, now)
    case MeterSignal(service, path, raw, token, now) => UpdateMeter(s, service, path, raw, token, now)
    case MeterRead(service, fields, token, now) => ReplaceMeter(s, service, fields, token, now)
    case OwnerLost(service) => OwnerChanged(s, service)
    case ReadLost(reason) => Unavailable(s, reason)
    case ReadFailed(token, reason) => FailedRead(s, token, reason)
    case Look(now) => Pinned(s, now)
  }

  function Run(s: State, events: seq<Event>): State {
    if events == [] then s else Step(Run(s, events[..|events| - 1]), events[|events| - 1])
  }

  // ---------------------------------------------------------------- one source, one instance, no lost phase

  predicate Extends(later: Pin, earlier: Pin) {
    && (earlier.source.Some? ==> later.source == earlier.source)
    && (earlier.instance.Some? ==> later.instance == earlier.instance)
    && later.phases >= earlier.phases
  }

  lemma {:induction false} PinOnlyExtends(s: State, events: seq<Event>)
    ensures Extends(Run(s, events).pin, s.pin)
    decreases |events|
  {
    if events != [] {
      PinOnlyExtends(s, events[..|events| - 1]);
      assert Extends(Run(s, events).pin, Run(s, events[..|events| - 1]).pin);
    }
  }

  /** Any two valid snapshots of a run carry the same source and device instance, and the later one no
      fewer phases, whatever happened between them. */
  lemma ValidSnapshotsAgree(s: State, before: real, events: seq<Event>, now: real)
    requires Snapshot(s, before).1.valid && Snapshot(Run(Pinned(s, before), events), now).1.valid
    ensures
      var first := Snapshot(s, before).1;
      var second := Snapshot(Run(Pinned(s, before), events), now).1;
      && first.source.Some? && second.source == first.source
      && first.instance.Some? && second.instance == first.instance
      && second.phases >= first.phases
  {
    PinOnlyExtends(Pinned(s, before), events);
  }

  // ---------------------------------------------------------------- what a valid snapshot shows

  predicate GoodShown(cells: Cells) {
    && (Get(cells.fields, Power(1)).Num? ==> cells.good.l1 == Round(cells.fields[Power(1)].number))
    && (Get(cells.fields, Power(2)).Num? ==> cells.good.l2 == Round(cells.fields[Power(2)].number))
  }

  lemma {:induction false} StoreAllShowsGood(cells: Cells, paths: seq<Path>, fields: map<Path, Raw>, now: real)
    requires GoodShown(cells)
    ensures GoodShown(StoreAll(cells, paths, fields, now))
    decreases |paths|
  {
    if paths != [] { StoreAllShowsGood(cells, paths[..|paths| - 1], fields, now); }
  }

  lemma StepShowsGood(s: State, e: Event)
    requires GoodShown(s.cells)
    ensures GoodShown(Step(s, e).cells)
  {
    match e
    case Read(fields, token, now) => StoreAllShowsGood(s.cells, GRID_PATHS, fields, now);
    case Signal(path, raw, now) => assert GoodShown(Store(s.cells, path, raw, now));
    case _ =>
  }

  /** This event gives `path` the value it now has. */
  predicate Wrote(s: State, e: Event, path: Path, value: Field, at: real) {
    match e
    case Signal(p, raw, now) => p == path && Normal(p, raw) == value && now == at
    case Read(fields, token, now) =>
      (token.Some? ==> token.value == s.generation) && Normal(path, Lookup(fields, path)) == value && now == at
    case _ => false
  }

  lemma {:induction false} StoreAllWrites(cells: Cells, paths: seq<Path>, fields: map<Path, Raw>, now: real, path: Path)
    ensures
      var t := StoreAll(cells, paths, fields, now);
      if path in paths
      then path in t.fields && path in t.updated && t.fields[path] == Normal(path, Lookup(fields, path))
          && t.updated[path] == now
      else (path in t.fields <==> path in cells.fields) && (path in t.updated <==> path in cells.updated)
           && (path in cells.fields ==> t.fields[path] == cells.fields[path])
           && (path in cells.updated ==> t.updated[path] == cells.updated[path])
    decreases |paths|
  {
    if paths != [] {
      var n := |paths| - 1;
      StoreAllWrites(cells, paths[..n], fields, now, path);
      assert paths == paths[..n] + [paths[n]];
    }
  }

  predicate Known(cells: Cells, path: Path) {
    path in cells.updated && path in cells.fields
  }

  lemma StepWritesOrKeeps(s: State, e: Event, path: Path)
    requires Known(Step(s, e).cells, path)
    ensures
      var t := Step(s, e).cells;
      || Wrote(s, e, path, t.fields[path], t.updated[path])
      || (Known(s.cells, path) && t.fields[path] == s.cells.fields[path] && t.updated[path] == s.cells.updated[path])
  {
    if e.Read? { StoreAllWrites(s.cells, GRID_PATHS, e.fields, e.now, path); }
  }

  /** The cached value and its time stamp come from one accepted event of the run. */
  ghost predicate Originates(s: State, events: seq<Event>, path: Path, value: Field, at: real) {
    exists k :: 0 <= k < |events| && Wrote(Run(s, events[..k]), events[k], path, value, at)
  }

  lemma OriginSurvives(s: State, events: seq<Event>, n: nat, path: Path, value: Field, at: real)
    requires n <= |events| && Originates(s, events[..n], path, value, at)
    ensures Originates(s, events, path, value, at)
  {
    var k :| 0 <= k < n && Wrote(Run(s, events[..n][..k]), events[..n][k], path, value, at);
    assert events[..n][..k] == events[..k];
    assert Wrote(Run(s, events[..k]), events[k], path, value, at);
  }

  lemma {:induction false} EveryValueOriginates(s: State, events: seq<Event>, path: Path)
    requires s.cells.updated == map[] && Known(Run(s, events).cells, path)
    ensures
      var cells := Run(s, events).cells;
      Originates(s, events, path, cells.fields[path], cells.updated[path])
    decreases |events|
  {
    if events != [] {
      var n := |events| - 1;
      var before := Run(s, events[..n]);
      var cells := Run(s, events).cells;
      StepWritesOrKeeps(before, events[n], path);
      if Wrote(before, events[n], path, cells.fields[path], cells.updated[path]) {
        assert Originates(s, events, path, cells.fields[path], cells.updated[path]);
      } else {
        EveryValueOriginates(s, events[..n], path);
        OriginSurvives(s, events, n, path, cells.fields[path], cells.updated[path]);
      }
    }
  }

  lemma {:induction false} AgeBoundsEveryPath(updated: map<Path, real>, paths: seq<Path>, now: real, k: nat)
    requires OldestAge(updated, paths, now).Some? && k < |paths|
    ensures paths[k] in updated && now - updated[paths[k]] <= OldestAge(updated, paths, now).value
    decreases |paths|
  {
    if k > 0 { AgeBoundsEveryPath(updated, paths[1..], now, k - 1); }
  }

  ghost predicate SameKeys(cells: Cells) {
    forall p :: p in cells.updated <==> p in cells.fields
  }

  lemma {:induction false} EveryRunIsWellKept(s: State, events: seq<Event>)
    requires GoodShown(s.cells) && SameKeys(s.cells)
    ensures GoodShown(Run(s, events).cells) && SameKeys(Run(s, events).cells)
    ensures Run(s, events).maxAge == s.maxAge && Run(s, events).expectedPhases == s.expectedPhases
    decreases |events|
  {
    if events != [] {
      var before := Run(s, events[..|events| - 1]);
      var e := events[|events| - 1];
      EveryRunIsWellKept(s, events[..|events| - 1]);
      StepShowsGood(before, e);
      if e.Read? {
        forall p
          ensures p in StoreAll(before.cells, GRID_PATHS, e.fields, e.now).updated
            <==> p in StoreAll(before.cells, GRID_PATHS, e.fields, e.now).fields
        {
          StoreAllWrites(before.cells, GRID_PATHS, e.fields, e.now, p);
        }
      }
    }
  }

  /** The readings behind a valid snapshot: each required value was delivered by an accepted event of
      the run no more than `maxAge` before the look. */
  ghost predicate Backed(s: State, events: seq<Event>, path: Path, now: real) {
    exists value, at :: Originates(s, events, path, value, at) && at >= now - s.maxAge
        && Get(Run(s, events).cells.fields, path) == value
  }

  lemma RecentPathIsBacked(s: State, events: seq<Event>, now: real, path: Path)
    requires s.cells == Cells(map[], map[], Good(0, 0))
    requires
      var cells := Run(s, events).cells;
      path in cells.updated && now - cells.updated[path] <= s.maxAge
    ensures Backed(s, events, path, now)
  {
    EveryRunIsWellKept(s, events);
    EveryValueOriginates(s, events, path);
  }

  lemma RequiredPathIsBacked(s: State, events: seq<Event>, now: real, k: nat)
    requires s.cells == Cells(map[], map[], Good(0, 0))
    requires Judge(Run(s, events), now).Usable?
    requires
      var t := Run(s, events);
      k < |RequiredPaths(Judge(t, now).phases, Chosen(t.cells.fields).value.1)|
    ensures
      var t := Run(s, events);
      Backed(s, events, RequiredPaths(Judge(t, now).phases, Chosen(t.cells.fields).value.1)[k], now)
  {
    var t := Run(s, events);
    EveryRunIsWellKept(s, events);
    var paths := RequiredPaths(Judge(t, now).phases, Chosen(t.cells.fields).value.1);
    RequiredPathsAreRecent(t, now, paths, k);
    RecentPathIsBacked(s, events, now, paths[k]);
  }

  lemma RequiredPathsAreRecent(t: State, now: real, paths: seq<Path>, k: nat)
    requires Judge(t, now).Usable? && Chosen(t.cells.fields).Some?
    requires paths == RequiredPaths(Judge(t, now).phases, Chosen(t.cells.fields).value.1) && k < |paths|
    ensures paths[k] in t.cells.updated && now - t.cells.updated[paths[k]] <= t.maxAge
  {
    AgeBoundsEveryPath(t.cells.updated, paths, now, k);
  }

  /** The report shows the rounded powers the cache holds, for as many phases as it reports. */
  predicate ShowsCache(fields: map<Path, Field>, report: Report) {
    && (report.phases == 1 || report.phases == 2) && Get(fields, PhaseCount) == Num(report.phases as real)
    && Get(fields, Power(1)).Num? && report.g1 == Round(Get(fields, Power(1)).number)
    && (if report.phases == 1 then report.g2 == 0
        else Get(fields, Power(2)).Num? && report.g2 == Round(Get(fields, Power(2)).number))
  }

  lemma UsableShowsCache(s: State, now: real)
    requires Judge(s, now).Usable? && GoodShown(s.cells)
    ensures ShowsCache(s.cells.fields, Snapshot(s, now).1) && Snapshot(s, now).1.phases == Judge(s, now).phases
  {
    assert Judge(s, now).phases == PhaseCountOf(s.cells.fields).value;
  }

  lemma UsableNamesSource(s: State, now: real)
    requires Judge(s, now).Usable?
    ensures Chosen(s.cells.fields).Some? && Judge(s, now).age <= s.maxAge
    ensures
      var report := Snapshot(s, now).1;
      var (source, input) := Chosen(s.cells.fields).value;
      && input <= 1 && Candidate(s.cells.fields, input) == Some(source)
      && report.source == Some(source.service) && report.instance == Some(source.instance)
  {
  }

  /** A valid snapshot shows the rounded phase powers last delivered, and the source identity; each value
      behind it, down to the identity fields of the chosen input, was delivered by an accepted event at
      most `maxAge` before the look. Re-reading anything else never renews it. */
  lemma ValidSnapshotIsFresh(maxAge: real, service: string, phases: int, events: seq<Event>, now: real)
    requires Snapshot(Run(Init(maxAge, service, phases), events), now).1.valid
    ensures
      var t := Run(Init(maxAge, service, phases), events);
      ShowsCache(t.cells.fields, Snapshot(t, now).1) && Snapshot(t, now).1.age <= maxAge
    ensures
      var s := Init(maxAge, service, phases);
      var report := Snapshot(Run(s, events), now).1;
      exists input | 0 <= input <= 1 ::
        && report.source.Some? && report.instance.Some?
        && Candidate(Run(s, events).cells.fields, input) == Some(Source(report.source.value, report.instance.value))
        && (forall k :: 0 <= k < |RequiredPaths(report.phases, input)| ==>
              Backed(s, events, RequiredPaths(report.phases, input)[k], now))
  {
    var s := Init(maxAge, service, phases);
    var t := Run(s, events);
    EveryRunIsWellKept(s, events);
    UsableShowsCache(t, now);
    UsableNamesSource(t, now);
    var input := Chosen(t.cells.fields).value.1;
    forall k | 0 <= k < |RequiredPaths(Judge(t, now).phases, input)|
      ensures Backed(s, events, RequiredPaths(Judge(t, now).phases, input)[k], now)
    {
      RequiredPathIsBacked(s, events, now, k);
    }
  }

  // ---------------------------------------------------------------- the external meter behind it

  /** This event reports whether the meter is connected. */
  predicate WroteConnected(s: State, e: Event, service: string, value: Option<real>, at: real) {
    && SelectedMeter(s.cells.fields) == Some(service)
    && match e
       case MeterSignal(sender, path, raw, token, now) =>
         sender == Some(service) && path.Connected? && (token.Some? ==> token.value == s.generation)
             && Number(raw) == value && now == at
       case MeterRead(sender, fields, token, now) =>
         sender == service && fields.Some? && token == s.generation
             && Number(Lookup(fields.value, Connected)) == value && now == at
       case _ => false
  }

  predicate KnowsConnected(meter: Meter, service: string) {
    (service, Connected) in meter.fields && (service, Connected) in meter.updated
  }

  lemma StepReportsOrKeeps(s: State, e: Event, service: string)
    requires KnowsConnected(Step(s, e).meter, service)
    ensures
      var (t, key) := (Step(s, e).meter, (service, Connected));
      || WroteConnected(s, e, service, t.fields[key], t.updated[key])
      || (KnowsConnected(s.meter, service) && t.fields[key] == s.meter.fields[key]
          && t.updated[key] == s.meter.updated[key])
  {
  }

  ghost predicate ConnectedReported(s: State, events: seq<Event>, service: string, value: Option<real>, at: real) {
    exists k :: 0 <= k < |events| && WroteConnected(Run(s, events[..k]), events[k], service, value, at)
  }

  lemma StillReported(s: State, events: seq<Event>, service: string, value: Option<real>, at: real)
    requires events != [] && ConnectedReported(s, events[..|events| - 1], service, value, at)
    ensures ConnectedReported(s, events, service, value, at)
  {
    var earlier := events[..|events| - 1];
    var k :| 0 <= k < |earlier| && WroteConnected(Run(s, earlier[..k]), earlier[k], service, value, at);
    assert earlier[..k] == events[..k];
  }

  lemma {:induction false} EveryConnectedWasReported(s: State, events: seq<Event>, service: string)
    requires s.meter == NO_METER && KnowsConnected(Run(s, events).meter, service)
    ensures
      var meter := Run(s, events).meter;
      ConnectedReported(s, events, service, meter.fields[(service, Connected)], meter.updated[(service, Connected)])
    decreases |events|
  {
    if events != [] {
      var n := |events| - 1;
      var before := Run(s, events[..n]);
      var (value, at) := (Run(s, events).meter.fields[(service, Connected)],
                          Run(s, events).meter.updated[(service, Connected)]);
      StepReportsOrKeeps(before, events[n], service);
      if !WroteConnected(before, events[n], service, value, at) {
        EveryConnectedWasReported(s, events[..n], service);
        StillReported(s, events, service, value, at);
      }
    }
  }

  predicate SameMeterKeys(meter: Meter) {
    forall key <- meter.updated :: key in meter.fields
  }

  lemma {:induction false} MeterKeysStaySame(s: State, events: seq<Event>)
    requires SameMeterKeys(s.meter)
    ensures SameMeterKeys(Run(s, events).meter)
    decreases |events|
  {
    if events != [] { MeterKeysStaySame(s, events[..|events| - 1]); }
  }

  /** A valid snapshot of an external meter rests on complete metadata and on a report, at most `maxAge`
      old, that the meter is connected; a phase count it declares agrees. */
  lemma ValidExternalMeterIsConnected(maxAge: real, service: string, phases: int, events: seq<Event>, now: real)
    requires Snapshot(Run(Init(maxAge, service, phases), events), now).1.valid
    ensures
      var s := Init(maxAge, service, phases);
      var t := Run(s, events);
      var report := Snapshot(t, now).1;
      var source := report.source.GetOr("");
      report.source.Some? && (GRID_PREFIX <= source ==>
        && source in t.meter.ready
        && (exists at :: ConnectedReported(s, events, source, Some(1.0), at) && at >= now - maxAge)
        && (MeterGet(t.meter, source, Phases).Some?
            ==> MeterGet(t.meter, source, Phases) == Some(report.phases as real)))
  {
    var s := Init(maxAge, service, phases);
    var t := Run(s, events);
    EveryRunIsWellKept(s, events);
    UsableShowsCache(t, now);
    UsableNamesSource(t, now);
    var source := Chosen(t.cells.fields).value.0.service;
    if GRID_PREFIX <= source {
      MeterKeysStaySame(s, events);
      assert MeterError(t.meter, source, Judge(t, now).phases).None?;
      assert KnowsConnected(t.meter, source);
      EveryConnectedWasReported(s, events, source);
    }
  }

  // ---------------------------------------------------------------- late replies

  lemma {:induction false} GenerationNeverDecreases(s: State, events: seq<Event>)
    ensures s.generation <= Run(s, events).generation
    decreases |events|
  {
    if events != [] { GenerationNeverDecreases(s, events[..|events| - 1]); }
  }

  lemma {:induction false} EarlierTokensAreOlder(s: State, events: seq<Event>, k: nat)
    requires k <= |events|
    ensures Run(s, events[..k]).generation <= Run(s, events).generation
    decreases |events|
  {
    if k == |events| {
      assert events[..k] == events;
    } else {
      EarlierTokensAreOlder(s, events[..|events| - 1], k);
      assert events[..|events| - 1][..k] == events[..k];
    }
  }

  predicate Loses(s: State, e: Event) {
    e.ReadLost? || (e.OwnerLost? && ConcernsGrid(s, e.owner)) || (e.ReadFailed? && e.issued == s.generation)
  }

  /** The token was read at some point of the run so far. */
  ghost predicate IssuedDuring(s: State, events: seq<Event>, token: nat) {
    exists k :: 0 <= k <= |events| && Run(s, events[..k]).generation == token
  }

  lemma IssuedTokensAreOld(s: State, events: seq<Event>, token: nat)
    requires IssuedDuring(s, events, token)
    ensures token <= Run(s, events).generation
  {
    var k :| 0 <= k <= |events| && Run(s, events[..k]).generation == token;
    EarlierTokensAreOlder(s, events, k);
  }

  lemma {:induction false} ErrorStays(s: State, generation: nat, events: seq<Event>)
    requires s.ownerError.Some? && s.generation >= generation
    requires forall e <- events :: e.Read? ==> e.token.Some? && e.token.value < generation
    ensures Run(s, events).ownerError.Some? && Run(s, events).generation >= generation
    decreases |events|
  {
    if events != [] {
      ErrorStays(s, generation, events[..|events| - 1]);
      assert events[|events| - 1] in events;
    }
  }

  /** After the owner of the source changed, or an authoritative read failed, replies to reads begun
      before that never make a snapshot valid again, nor does any signal or metadata. */
  lemma LateRepliesNeverResurrect(s: State, before: seq<Event>, loss: Event, after: seq<Event>, now: real)
    requires Loses(Run(s, before), loss)
    requires forall e <- after :: e.Read? ==> e.token.Some? && IssuedDuring(s, before, e.token.value)
    ensures !Snapshot(Run(Step(Run(s, before), loss), after), now).1.valid
  {
    var lost := Step(Run(s, before), loss);
    forall e <- after | e.Read? ensures e.token.value < lost.generation {
      IssuedTokensAreOld(s, before, e.token.value);
    }
    ErrorStays(lost, lost.generation, after);
  }

  lemma {:induction false} NoMeterBecomesReady(s: State, generation: nat, events: seq<Event>)
    requires s.meter.ready == {} && s.generation >= generation
    requires forall e <- events :: e.MeterRead? ==> e.metadata.None? || e.issued < generation
    ensures Run(s, events).meter.ready == {} && Run(s, events).generation >= generation
    decreases |events|
  {
    if events != [] {
      NoMeterBecomesReady(s, generation, events[..|events| - 1]);
      assert events[|events| - 1] in events;
    }
  }

  /** For an external meter the complete metadata has to be read anew as well: until then a snapshot is
      valid only for another kind of source. */
  lemma LateMetadataNeverResurrects(s: State, before: seq<Event>, loss: Event, after: seq<Event>, now: real)
    requires Loses(Run(s, before), loss)
    requires forall e <- after :: e.MeterRead? ==> e.metadata.None? || IssuedDuring(s, before, e.issued)
    ensures
      var report := Snapshot(Run(Step(Run(s, before), loss), after), now).1;
      report.valid ==> report.source.Some? && !(GRID_PREFIX <= report.source.value)
  {
    var lost := Step(Run(s, before), loss);
    forall e <- after | e.MeterRead? && e.metadata.Some? ensures e.issued < lost.generation {
      IssuedTokensAreOld(s, before, e.issued);
    }
    NoMeterBecomesReady(lost, lost.generation, after);
  }

  // ---------------------------------------------------------------- the object

  class Telemetry {
    const maxAge: real
    const expectedPhases: int
    var generation: nat
    var cells: Cells
    var meter: Meter
    var pin: Pin
    var ownerError: Option<string>

    ghost function Abs(): State
      reads this
    {
      State(maxAge, expectedPhases, generation, cells, meter, pin, ownerError)
    }

    constructor (maxAge: real, expectedService: string, expectedPhases: int)
      ensures Abs() == Init(maxAge, expectedService, expectedPhases)
    {
      this.maxAge, this.expectedPhases, generation := maxAge, expectedPhases, 0;
      cells, meter, ownerError := Cells(map[], map[], Good(0, 0)), NO_METER, None;
      pin := Pin(if expectedService == "" then None else Some(expectedService), None, expectedPhases);
    }

    method StoreField(path: Path, raw: Raw, now: real)
      modifies `cells
      ensures cells == Store(old(cells), path, raw, now)
    {
      var value := Normal(path, raw);
      cells := cells.(fields := cells.fields[path := value], updated := cells.updated[path := now]);
      if path == Power(1) && value.Num? { cells := cells.(good := cells.good.(l1 := Round(value.number))); }
      if path == Power(2) && value.Num? { cells := cells.(good := cells.good.(l2 := Round(value.number))); }
    }

    method UpdateField(path: Path, raw: Raw, now: real)
      modifies `generation, `cells
      ensures Abs() == Update(old(Abs()), path, raw, now)
    {
      if path !in GRID_PATHS { return; }
      if Invalidates(cells, path, raw) { generation := generation + 1; }
      StoreField(path, raw, now);
    }

    method ReplaceFields(fields: map<Path, Raw>, token: Option<nat>, now: real) returns (applied: Option<nat>)
      modifies `generation, `cells, `ownerError
      ensures Abs() == Replace(old(Abs()), fields, token, now)
      ensures applied == if token.Some? && token.value != old(generation) then None else Some(generation)
    {
      if token.Some? && token.value != generation { return None; }
      generation := generation + 1;
      for i := 0 to |GRID_PATHS|
        invariant cells == StoreAll(old(cells), GRID_PATHS[..i], fields, now)
        invariant generation == old(generation) + 1
      {
        assert GRID_PATHS[..i + 1][..i] == GRID_PATHS[..i];
        StoreField(GRID_PATHS[i], Lookup(fields, GRID_PATHS[i]), now);
      }
      assert GRID_PATHS[..|GRID_PATHS|] == GRID_PATHS;
      ownerError := None;
      applied := Some(generation);
    }

    method UpdateMeterField(service: Option<string>, path: MeterPath, raw: Raw, token: Option<nat>, now: real)
        returns (observed: bool)
      modifies `generation, `meter
      ensures Abs() == UpdateMeter(old(Abs()), service, path, raw, token, now)
    {
      if service.None? || service != SelectedMeter(cells.fields) { return false; }
      if token.Some? && token.value != generation { return false; }
      var value := Number(raw);
      if token.None? {
        if path.Connected? && value != Some(1.0) { generation := generation + 1; }
        if path.Phases? && value != MeterGet(meter, service.value, Phases) { generation := generation + 1; }
      }
      if path.Phases? { meter := meter.(declared := meter.declared + {service.value}); }
      meter := meter.(fields := meter.fields[(service.value, path) := value],
                      updated := meter.updated[(service.value, path) := now]);
      return true;
    }

    method ReplaceMeterFields(service: string, fields: Option<map<MeterPath, Raw>>, token: nat, now: real)
        returns (accepted: bool)
      modifies `generation, `meter
      ensures Abs() == ReplaceMeter(old(Abs()), service, fields, token, now)
      ensures accepted <==> token == old(generation) && Some(service) == SelectedMeter(cells.fields) && fields.Some?
    {
      if token != generation || Some(service) != SelectedMeter(cells.fields) { return false; }
      generation := generation + 1;
      if fields.None? {
        meter := meter.(ready := meter.ready - {service});
        return false;
      }
      meter := StoreMeter(meter, service, Connected, Number(Lookup(fields.value, Connected)), now);
      meter := StoreMeter(meter, service, Phases, Number(Lookup(fields.value, Phases)), now);
      if Phases in fields.value { meter := meter.(declared := meter.declared + {service}); }
      meter := meter.(ready := meter.ready + {service});
      return true;
    }

    method MarkUnavailable(reason: string)
      modifies `generation, `cells, `meter, `ownerError
      ensures Abs() == Unavailable(old(Abs()), reason)
    {
      generation := generation + 1;
      cells := cells.(fields := map[], updated := map[]);
      meter := meter.(ready := {}, fields := map[], updated := map[]);
      ownerError := Some(reason);
    }

    method MarkOwnerChanged(service: string) returns (concerned: bool)
      modifies `generation, `cells, `meter, `ownerError
      ensures Abs() == OwnerChanged(old(Abs()), service) && concerned == old(ConcernsGrid(Abs(), service))
    {
      if service != SYSTEM_SERVICE && Some(service) != pin.source
          && Some(service) != SelectedMeter(cells.fields) { return false; }
      MarkUnavailable("Grid source owner changed: " + service);
      return true;
    }

    /** Looking pins: a successful snapshot fixes the source, the instance and the phases seen. */
    method TakeSnapshot(now: real) returns (report: Report)
      modifies `pin
      ensures (Abs(), report) == Snapshot(old(Abs()), now)
    {
      var verdict := Judge(State(maxAge, expectedPhases, generation, cells, meter, pin, ownerError), now);
      if verdict.Usable? {
        pin := Pin(Some(verdict.source.service), Some(verdict.source.instance), Max(pin.phases, verdict.phases));
      }
      report := Report(verdict.Usable?, cells.good.l1, if pin.phases == 2 then cells.good.l2 else 0,
                       pin.phases, pin.source, pin.instance, if verdict.Usable? then verdict.age else 0.0);
    }
  }
}
