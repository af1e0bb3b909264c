/**
 The pre-charge inbox: a journal reserves a request before its callback runs, so a callback never runs
 twice for one payload, whatever fails or dies in between. `calls` is a history no program reads.
 */
module Precharge {
  import opened Prelude

  const PAST_LIMIT: real := 300.0
  const FUTURE_LIMIT: real := 30.0
  const RETENTION: real := 172800.0
  const CAPACITY: nat := 4096
  const MAX_ID: nat := 96
  const TRIGGER := "low_solar_forecast"

  /** A numeric field that is missing, not finite or not a plain number arrives as None. */
  datatype Payload = Payload(requestId: string, version: Option<int>, trigger: string, forecast: Option<real>,
                             threshold: Option<real>, issuedAt: Option<real>, expiresAt: Option<real>)

  datatype Mark = Queued | AcceptedUnproved | SuppressedMark | Uncertain

  datatype Record = Record(mark: Mark, until: real)

  type Journal = map<string, Record>

  datatype Call = Call(payload: Payload, at: real, returned: bool)

  datatype Kind = AcceptedReply | SuppressedReply | Duplicate | Rejected | Unavailable

  datatype Reply = Reply(kind: Kind, code: int, reason: string, original: Option<Mark>)

  /** A save may fail, or the process may die, before or after the atomic replacement. */
  datatype SaveFate = Saved | FailedBefore | FailedAfter | DiedBefore | DiedAfter

  datatype CallFate = Returned | Threw | Died

  /** What the environment does to one delivery; `suppressed` is None when that query raises. */
  datatype Fates = Fates(suppressed: Option<bool>, reserve: SaveFate, call: CallFate, confirm: SaveFate)

  datatype State = State(hasPath: bool, memory: Journal, disk: Journal, error: bool, up: bool, clock: real,
                         calls: seq<Call>)

  function Init(hasPath: bool, journal: Journal, clock: real): State {
    State(hasPath, if hasPath then journal else map[], journal, false, true, clock, [])
  }

  // ---------------------------------------------------------------- judging a payload

  predicate IdChar(c: char) {
    'A' <= c <= 'Z' || 'a' <= c <= 'z' || '0' <= c <= '9' || c == '_' || c == '-'
  }

  predicate ValidId(id: string) {
    1 <= |id| <= MAX_ID && forall k :: 0 <= k < |id| ==> IdChar(id[k])
  }

  predicate ValidNumber(value: Option<real>) {
    value.Some? && value.value >= 0.0
  }

  predicate ValidNumbers(p: Payload) {
    ValidNumber(p.forecast) && ValidNumber(p.threshold) && ValidNumber(p.issuedAt) && ValidNumber(p.expiresAt)
  }

  function InvalidNumber(p: Payload): (reason: Option<string>)
    ensures reason.None? <==> ValidNumbers(p)
  {
    if !ValidNumber(p.forecast) then Some("invalid_forecast_energy_wh")
    else if !ValidNumber(p.threshold) then Some("invalid_threshold_wh")
    else if !ValidNumber(p.issuedAt) then Some("invalid_issued_at")
    else if !ValidNumber(p.expiresAt) then Some("invalid_expires_at")
    else None
  }

  predicate Expired(p: Payload, now: real)
    requires ValidNumbers(p)
  {
    || !(now - PAST_LIMIT <= p.issuedAt.value <= now + FUTURE_LIMIT)
    || !(now < p.expiresAt.value <= p.issuedAt.value + PAST_LIMIT)
  }

  function Refuse(kind: Kind, code: int, reason: string): Reply {
    Reply(kind, code, reason, None)
  }

  /** Everything judged before the lock is taken, at the first reading of the clock. */
  function Screen(payload: Option<Payload>, now: real): (reply: Option<Reply>)
    ensures reply.None? ==> payload.Some? && ValidId(payload.value.requestId) && ValidNumbers(payload.value)
  {
    if payload.None? || !ValidId(payload.value.requestId) then Some(Refuse(Rejected, 400, "invalid_request_id"))
    else if payload.value.version != Some(1) || payload.value.trigger != TRIGGER
    then Some(Refuse(Rejected, 400, "invalid_contract"))
    else if InvalidNumber(payload.value).Some? then Some(Refuse(Rejected, 400, InvalidNumber(payload.value).value))
    else if Expired(payload.value, now) then Some(Refuse(Rejected, 410, "expired_or_invalid_time"))
    else if payload.value.forecast.value >= payload.value.threshold.value then
      Some(Refuse(Rejected, 400, "forecast_not_below_threshold"))
    else None
  }

  function PreviousResult(mark: Mark): Reply {
    match mark
    case Uncertain => Refuse(Unavailable, 503, "decision_uncertain")
    case AcceptedUnproved => Refuse(Unavailable, 503, "legacy_decision_unverified")
    case _ => Reply(Duplicate, 200, "already_decided", Some(mark))
  }

  // ---------------------------------------------------------------- the journal

  function Retained(journal: Journal, now: real): Journal {
    map id | id in journal && journal[id].until > now :: journal[id]
  }

  predicate Succeeds(s: State, fate: SaveFate) {
    !s.hasPath || fate.Saved?
  }

  function SaveRecords(s: State, records: Journal, fate: SaveFate): State {
    if !s.hasPath then s.(memory := records)
    else
      match fate
      case Saved => s.(disk := records, memory := records)
      case FailedBefore => s
      case FailedAfter => s.(disk := records)
      case DiedBefore => s.(up := false)
      case DiedAfter => s.(disk := records, up := false)
  }

  function Unless(s: State, reply: Reply): Option<Reply> {
    if s.up then Some(reply) else None
  }

  const UNDECIDED := Refuse(Unavailable, 503, "decision_unavailable")

  /** The callback and the confirmation of a reservation that is already durable. */
  function RunCallback(s: State, p: Payload, now: real, records: Journal, f: Fates): (State, Option<Reply>) {
    var called := s.(calls := s.calls + [Call(p, now, f.call.Returned?)]);
    match f.call
    case Died => (called.(up := false), None)
    case Threw => (called, Some(UNDECIDED))
    case Returned =>
      var confirmed := SaveRecords(called, records[p.requestId := Record(Queued, now + RETENTION)], f.confirm);
      if Succeeds(s, f.confirm) then (confirmed, Some(Refuse(AcceptedReply, 202, "queued_one_cycle")))
      else (confirmed.(memory := records), Unless(confirmed, UNDECIDED))
  }

  function AcceptRequest(s: State, p: Payload, now: real, f: Fates): (State, Option<Reply>) {
    if f.suppressed.None? then (s, Some(UNDECIDED))
    else
      var blocked := f.suppressed.value;
      var records := Retained(s.memory, now);
      if |records| >= CAPACITY then (s, Some(Refuse(Unavailable, 503, "journal_full")))
      else
        var reserved := records[p.requestId := Record(if blocked then SuppressedMark else Uncertain, now + RETENTION)];
        var noted := SaveRecords(if blocked then s else s.(memory := reserved), reserved, f.reserve);
        if !Succeeds(s, f.reserve) then (noted, Unless(noted, UNDECIDED))
        else if blocked then (noted, Some(Refuse(SuppressedReply, 409, "expensive_window")))
        else RunCallback(noted, p, now, reserved, f)
  }

  /** One delivery: `first` is the clock before the lock was requested, `now` the clock under it. */
  function Handle(s: State, payload: Option<Payload>, first: real, now: real, f: Fates): (State, Option<Reply>) {
    if Screen(payload, first).Some? then (s, Screen(payload, first))
    else
      var p := payload.value;
      if s.error then (s, Some(Refuse(Unavailable, 503, "journal_unavailable")))
      else if p.requestId in s.memory && s.memory[p.requestId].until > first then
        (s, Some(PreviousResult(s.memory[p.requestId].mark)))
      else
        var later := s.(clock := now);
        if Expired(p, now) then (later, Some(Refuse(Rejected, 410, "expired_or_invalid_time")))
        else AcceptRequest(later, p, now, f)
  }

  /** A new process reads the file; one it cannot read makes it refuse every request. */
  function Restart(s: State, readable: bool): State {
    s.(memory := if s.hasPath && readable then s.disk else map[], error := s.hasPath && !readable, up := true)
  }

  // ---------------------------------------------------------------- runs

  datatype Event =
    | Deliver(payload: Option<Payload>, first: real, now: real, fates: Fates)
    | Reboot(readable: bool)

  /** The wall clock never runs backwards. */
  predicate Timely(s: State, e: Event) {
    e.Deliver? ==> s.clock <= e.now && e.first <= e.now
  }

  function Step(s: State, e: Event): State {
    match e
    case Deliver(payload, first, now, fates) => if s.up then Handle(s, payload, first, now, fates).0 else s
    case Reboot(readable) => Restart(s, readable)
  }

  function Run(s: State, events: seq<Event>): State {
    if events == [] then s else Step(Run(s, events[..|events| - 1]), events[|events| - 1])
  }

  predicate AllTimely(s: State, events: seq<Event>) {
    events != [] ==>
      AllTimely(s, events[..|events| - 1]) && Timely(Run(s, events[..|events| - 1]), events[|events| - 1])
  }

  // ---------------------------------------------------------------- at most once

  /** A journal remembers a call until its retention is over. */
  predicate Remembers(journal: Journal, c: Call, clock: real) {
    || (c.payload.requestId in journal && journal[c.payload.requestId].until >= c.at + RETENTION)
    || clock >= c.at + RETENTION
  }

  predicate AllRemembered(journal: Journal, calls: seq<Call>, clock: real) {
    forall k :: 0 <= k < |calls| ==> Remembers(journal, calls[k], clock)
  }

  predicate Spaced(calls: seq<Call>) {
    forall i, j :: 0 <= i < j < |calls| && calls[i].payload.requestId == calls[j].payload.requestId ==>
      calls[j].at >= calls[i].at + RETENTION
  }

  predicate NoneRecent(calls: seq<Call>, id: string, now: real) {
    forall k :: 0 <= k < |calls| && calls[k].payload.requestId == id ==> now >= calls[k].at + RETENTION
  }

  predicate InTime(calls: seq<Call>) {
    forall k :: 0 <= k < |calls| ==> ValidNumbers(calls[k].payload) && !Expired(calls[k].payload, calls[k].at)
  }

  predicate Inv(s: State) {
    && Spaced(s.calls) && InTime(s.calls)
    && (s.up && !s.error ==> AllRemembered(s.memory, s.calls, s.clock))
    && (s.hasPath ==> AllRemembered(s.disk, s.calls, s.clock))
  }

  lemma ReservationRemembers(journal: Journal, calls: seq<Call>, clock: real, id: string, mark: Mark, now: real)
    requires AllRemembered(journal, calls, clock) && clock <= now
    requires NoneRecent(calls, id, now)
    ensures AllRemembered(Retained(journal, now)[id := Record(mark, now + RETENTION)], calls, now)
    ensures AllRemembered(journal, calls, now)
  {
    forall k | 0 <= k < |calls|
      ensures Remembers(Retained(journal, now)[id := Record(mark, now + RETENTION)], calls[k], now)
    {
      assert Remembers(journal, calls[k], clock);
    }
  }

  lemma OldCallsAreOver(journal: Journal, calls: seq<Call>, clock: real, id: string, first: real, now: real)
    requires AllRemembered(journal, calls, clock) && clock <= now && first <= now
    requires id in journal ==> journal[id].until <= first
    ensures NoneRecent(calls, id, now)
  {
    forall k | 0 <= k < |calls| && calls[k].payload.requestId == id ensures now >= calls[k].at + RETENTION {
      assert Remembers(journal, calls[k], clock);
    }
  }

  /** A new call, at least a retention after every call for its id. */
  lemma NewCallIsSpaced(calls: seq<Call>, c: Call)
    requires Spaced(calls) && InTime(calls) && ValidNumbers(c.payload) && !Expired(c.payload, c.at)
    requires NoneRecent(calls, c.payload.requestId, c.at)
    ensures Spaced(calls + [c]) && InTime(calls + [c])
  {
  }

  lemma NewCallIsRemembered(journal: Journal, calls: seq<Call>, c: Call, mark: Mark, now: real)
    requires AllRemembered(journal, calls, now) && NoneRecent(calls, c.payload.requestId, now) && c.at == now
    ensures AllRemembered(journal[c.payload.requestId := Record(mark, now + RETENTION)], calls + [c], now)
  {
    var marked := journal[c.payload.requestId := Record(mark, now + RETENTION)];
    forall k | 0 <= k < |calls| ensures Remembers(marked, calls[k], now) {
      assert Remembers(journal, calls[k], now);
    }
  }

  lemma CallbackKeepsInv(s: State, p: Payload, now: real, records: Journal, f: Fates)
    requires Inv(s) && s.up && !s.error && s.clock == now && ValidNumbers(p) && !Expired(p, now)
    requires s.memory == records && (s.hasPath ==> s.disk == records)
    requires p.requestId in records && records[p.requestId] == Record(Uncertain, now + RETENTION)
    requires NoneRecent(s.calls, p.requestId, now)
    ensures Inv(RunCallback(s, p, now, records, f).0)
  {
    var c := Call(p, now, f.call.Returned?);
    NewCallIsSpaced(s.calls, c);
    NewCallIsRemembered(records, s.calls, c, Queued, now);
    NewCallIsRemembered(records, s.calls, c, Uncertain, now);
    assert records[p.requestId := Record(Uncertain, now + RETENTION)] == records;
  }

  lemma SaveKeepsInv(s: State, records: Journal, fate: SaveFate)
    requires Inv(s) && AllRemembered(records, s.calls, s.clock)
    ensures Inv(SaveRecords(s, records, fate)) && Inv(s.(memory := records))
        && Inv(SaveRecords(s.(memory := records), records, fate))
  {
  }

  lemma AcceptKeepsInv(s: State, p: Payload, now: real, f: Fates)
    requires Inv(s) && s.up && !s.error && s.clock == now && ValidNumbers(p) && !Expired(p, now)
    requires NoneRecent(s.calls, p.requestId, now)
    ensures Inv(AcceptRequest(s, p, now, f).0)
  {
    if f.suppressed.Some? && |Retained(s.memory, now)| < CAPACITY {
      var blocked := f.suppressed.value;
      var mark := if blocked then SuppressedMark else Uncertain;
      ReservationRemembers(s.memory, s.calls, now, p.requestId, mark, now);
      var reserved := Retained(s.memory, now)[p.requestId := Record(mark, now + RETENTION)];
      SaveKeepsInv(s, reserved, f.reserve);
      if blocked {
        assert AcceptRequest(s, p, now, f).0 == SaveRecords(s, reserved, f.reserve);
      } else {
        var noted := SaveRecords(s.(memory := reserved), reserved, f.reserve);
        if Succeeds(s, f.reserve) {
          CallbackKeepsInv(noted, p, now, reserved, f);
        } else {
          assert AcceptRequest(s, p, now, f).0 == noted;
        }
      }
    }
  }

  lemma LaterClockKeepsInv(s: State, now: real)
    requires Inv(s) && s.clock <= now
    ensures Inv(s.(clock := now))
  {
    forall k | 0 <= k < |s.calls|
      ensures s.up && !s.error ==> Remembers(s.memory, s.calls[k], now)
      ensures s.hasPath ==> Remembers(s.disk, s.calls[k], now)
    {
      assert s.up && !s.error ==> Remembers(s.memory, s.calls[k], s.clock);
      assert s.hasPath ==> Remembers(s.disk, s.calls[k], s.clock);
    }
  }

  lemma StepKeepsInv(s: State, e: Event)
    requires Inv(s) && Timely(s, e) && (e.Reboot? ==> s.hasPath)
    ensures Inv(Step(s, e))
  {
    if e.Deliver? && s.up && Screen(e.payload, e.first).None? && !s.error {
      var p := e.payload.value;
      if !(p.requestId in s.memory && s.memory[p.requestId].until > e.first) {
        OldCallsAreOver(s.memory, s.calls, s.clock, p.requestId, e.first, e.now);
        LaterClockKeepsInv(s, e.now);
        if !Expired(p, e.now) { AcceptKeepsInv(s.(clock := e.now), p, e.now, e.fates); }
      }
    }
  }

  lemma StepKeepsPath(s: State, e: Event)
    ensures Step(s, e).hasPath == s.hasPath
  {
  }

  lemma {:induction false} EveryRunKeepsInv(s: State, events: seq<Event>)
    requires Inv(s) && AllTimely(s, events)
    requires s.hasPath || forall k :: 0 <= k < |events| ==> events[k].Deliver?
    ensures Inv(Run(s, events)) && Run(s, events).hasPath == s.hasPath
    decreases |events|
  {
    if events != [] {
      var n := |events| - 1;
      var before := Run(s, events[..n]);
      assert AllTimely(s, events[..n]) && Timely(before, events[n]);
      EveryRunKeepsInv(s, events[..n]);
      StepKeepsInv(before, events[n]);
      assert Run(s, events) == Step(before, events[n]);
      StepKeepsPath(before, events[n]);
    }
  }

  /** Two callbacks for one request id are at least 48 hours apart, over every run with a journal file
      (or one that never restarts): repeated deliveries, stale clocks, saves that fail on either side of
      the replacement, raising callbacks, deaths and restarts. */
  lemma CallsAreTwoDaysApart(hasPath: bool, journal: Journal, clock: real, events: seq<Event>, i: nat, j: nat)
    requires AllTimely(Init(hasPath, journal, clock), events)
    requires hasPath || forall k :: 0 <= k < |events| ==> events[k].Deliver?
    requires i < j < |Run(Init(hasPath, journal, clock), events).calls|
    ensures
      var calls := Run(Init(hasPath, journal, clock), events).calls;
      calls[i].payload.requestId == calls[j].payload.requestId ==> calls[j].at >= calls[i].at + RETENTION
  {
    EveryRunKeepsInv(Init(hasPath, journal, clock), events);
  }

  /** At most once forever: the retention outlives the validity of any payload, so no payload is ever
      accepted twice. */
  lemma AtMostOncePerPayload(hasPath: bool, journal: Journal, clock: real, events: seq<Event>, i: nat, j: nat)
    requires AllTimely(Init(hasPath, journal, clock), events)
    requires hasPath || forall k :: 0 <= k < |events| ==> events[k].Deliver?
    requires i < j < |Run(Init(hasPath, journal, clock), events).calls|
    ensures
      var calls := Run(Init(hasPath, journal, clock), events).calls;
      calls[i].payload != calls[j].payload
  {
    EveryRunKeepsInv(Init(hasPath, journal, clock), events);
    CallsAreTwoDaysApart(hasPath, journal, clock, events, i, j);
    var calls := Run(Init(hasPath, journal, clock), events).calls;
    assert !Expired(calls[i].payload, calls[i].at) && !Expired(calls[j].payload, calls[j].at);
  }

  const EASY := Fates(Some(false), Saved, Returned, Saved)

  /** Without a journal file a restart forgets: any payload accepted once is accepted again after it. */
  lemma NoFileRestartAcceptsTwice(p: Payload, now: real)
    requires Screen(Some(p), now).None?
    ensures
      var events := [Deliver(Some(p), now, now, EASY), Reboot(true), Deliver(Some(p), now, now, EASY)];
      Run(Init(false, map[], now), events).calls == [Call(p, now, true), Call(p, now, true)]
  {
    var e := Deliver(Some(p), now, now, EASY);
    var events := [e, Reboot(true), e];
    var s := Init(false, map[], now);
    assert Retained(map[], now) == map[];
    assert events[..2][..1] == events[..1] == [e] && events[..2] == [e, Reboot(true)];
    assert Run(s, [e]) == Step(s, e) by { assert [e][..0] == []; }
  }

  predicate NeverTwice(calls: seq<Call>) {
    forall i, j :: 0 <= i < j < |calls| ==> calls[i].payload != calls[j].payload
  }

  /** Over all runs from all journals, restarts included, no payload is accepted twice. */
  ghost predicate AtMostOnce(hasPath: bool) {
    forall journal, clock, events :: AllTimely(Init(hasPath, journal, clock), events) ==>
      NeverTwice(Run(Init(hasPath, journal, clock), events).calls)
  }

  /** A journal file is what at-most-once across restarts takes: with it every run has it, and without it
      some run does not. */
  lemma AtMostOnceExactlyWithFile(hasPath: bool)
    ensures AtMostOnce(hasPath) <==> hasPath
  {
    if hasPath {
      forall journal, clock, events | AllTimely(Init(true, journal, clock), events)
        ensures NeverTwice(Run(Init(true, journal, clock), events).calls)
      {
        var calls := Run(Init(true, journal, clock), events).calls;
        forall i, j | 0 <= i < j < |calls| ensures calls[i].payload != calls[j].payload {
          AtMostOncePerPayload(true, journal, clock, events, i, j);
        }
      }
    } else {
      var p := Payload("a", Some(1), TRIGGER, Some(0.0), Some(1.0), Some(0.0), Some(1.0));
      assert Screen(Some(p), 0.0).None?;
      var events := [Deliver(Some(p), 0.0, 0.0, EASY), Reboot(true), Deliver(Some(p), 0.0, 0.0, EASY)];
      NoFileRestartAcceptsTwice(p, 0.0);
      var calls := Run(Init(false, map[], 0.0), events).calls;
      assert calls[0].payload == calls[1].payload;
      RestartRunIsTimely(p);
    }
  }

  lemma RestartRunIsTimely(p: Payload)
    requires Screen(Some(p), 0.0).None?
    ensures
      AllTimely(Init(false, map[], 0.0),
                [Deliver(Some(p), 0.0, 0.0, EASY), Reboot(true), Deliver(Some(p), 0.0, 0.0, EASY)])
  {
    var e := Deliver(Some(p), 0.0, 0.0, EASY);
    var s := Init(false, map[], 0.0);
    var events := [e, Reboot(true), e];
    assert events[..2] == [e, Reboot(true)] && [e, Reboot(true)][..1] == [e] && [e][..0] == [];
    assert Run(s, [e]) == Step(s, e) && AllTimely(s, [e]);
    assert Step(s, e).clock == 0.0;
    assert Run(s, [e, Reboot(true)]) == Step(Step(s, e), Reboot(true)) && AllTimely(s, [e, Reboot(true)]);
  }

  // ---------------------------------------------------------------- what a queued mark proves

  /** A callback for the id returned, at the very instant the record expires from. */
  predicate Behind(calls: seq<Call>, id: string, until: real) {
    exists k :: 0 <= k < |calls| && calls[k].payload.requestId == id && calls[k].returned
      && calls[k].at + RETENTION == until
  }

  /** Each queued record was written for a callback that returned. */
  predicate Proved(journal: Journal, calls: seq<Call>) {
    forall id :: id in journal && journal[id].mark.Queued? ==> Behind(calls, id, journal[id].until)
  }

  lemma StaysBehind(calls: seq<Call>, c: Call, id: string, until: real)
    requires Behind(calls, id, until)
    ensures Behind(calls + [c], id, until)
  {
    var k :| 0 <= k < |calls| && calls[k].payload.requestId == id && calls[k].returned
             && calls[k].at + RETENTION == until;
    assert (calls + [c])[k] == calls[k];
  }

  lemma MoreCallsStillProve(journal: Journal, calls: seq<Call>, c: Call)
    requires Proved(journal, calls)
    ensures Proved(journal, calls + [c])
  {
    forall id | id in journal && journal[id].mark.Queued? ensures Behind(calls + [c], id, journal[id].until) {
      StaysBehind(calls, c, id, journal[id].until);
    }
  }

  lemma ConfirmationIsProved(records: Journal, calls: seq<Call>, p: Payload, now: real)
    requires Proved(records, calls)
    ensures Proved(records[p.requestId := Record(Queued, now + RETENTION)], calls + [Call(p, now, true)])
  {
    var c := Call(p, now, true);
    MoreCallsStillProve(records, calls, c);
    assert (calls + [c])[|calls|] == c;
    assert Behind(calls + [c], p.requestId, now + RETENTION);
  }

  lemma CallbackIsProved(s: State, p: Payload, now: real, records: Journal, f: Fates)
    requires Proved(s.memory, s.calls) && Proved(s.disk, s.calls) && Proved(records, s.calls)
    ensures
      var t := RunCallback(s, p, now, records, f).0;
      Proved(t.memory, t.calls) && Proved(t.disk, t.calls)
  {
    var c := Call(p, now, f.call.Returned?);
    MoreCallsStillProve(s.memory, s.calls, c);
    MoreCallsStillProve(s.disk, s.calls, c);
    MoreCallsStillProve(records, s.calls, c);
    if f.call.Returned? { ConfirmationIsProved(records, s.calls, p, now); }
  }

  lemma ReservationIsProved(journal: Journal, calls: seq<Call>, now: real, id: string, mark: Mark)
    requires Proved(journal, calls) && !mark.Queued?
    ensures Proved(Retained(journal, now)[id := Record(mark, now + RETENTION)], calls)
  {
  }

  lemma AcceptIsProved(s: State, p: Payload, now: real, f: Fates)
    requires Proved(s.memory, s.calls) && Proved(s.disk, s.calls)
    ensures
      var t := AcceptRequest(s, p, now, f).0;
      Proved(t.memory, t.calls) && Proved(t.disk, t.calls)
  {
    if f.suppressed.Some? && |Retained(s.memory, now)| < CAPACITY {
      var mark := if f.suppressed.value then SuppressedMark else Uncertain;
      ReservationIsProved(s.memory, s.calls, now, p.requestId, mark);
      var reserved := Retained(s.memory, now)[p.requestId := Record(mark, now + RETENTION)];
      var noted := SaveRecords(if f.suppressed.value then s else s.(memory := reserved), reserved, f.reserve);
      if Succeeds(s, f.reserve) && mark.Uncertain? { CallbackIsProved(noted, p, now, reserved, f); }
    }
  }

  lemma StepIsProved(s: State, e: Event)
    requires Proved(s.memory, s.calls) && Proved(s.disk, s.calls)
    ensures Proved(Step(s, e).memory, Step(s, e).calls) && Proved(Step(s, e).disk, Step(s, e).calls)
  {
    if e.Deliver? && Screen(e.payload, e.first).None? {
      AcceptIsProved(s.(clock := e.now), e.payload.value, e.now, e.fates);
    }
  }

  lemma {:induction false} EveryRunIsProved(s: State, events: seq<Event>)
    requires Proved(s.memory, s.calls) && Proved(s.disk, s.calls)
    ensures Proved(Run(s, events).memory, Run(s, events).calls) && Proved(Run(s, events).disk, Run(s, events).calls)
    decreases |events|
  {
    if events != [] {
      EveryRunIsProved(s, events[..|events| - 1]);
      StepIsProved(Run(s, events[..|events| - 1]), events[|events| - 1]);
    }
  }

  lemma AnsweredFromMemory(s: State, payload: Option<Payload>, first: real, now: real, f: Fates)
    requires Handle(s, payload, first, now, f).1.Some?
    requires Handle(s, payload, first, now, f).1.value.original == Some(Queued)
    ensures payload.Some? && payload.value.requestId in s.memory
    ensures s.memory[payload.value.requestId].mark.Queued? && s.memory[payload.value.requestId].until > first
  {
  }

  /** "Already decided: queued" is only ever answered after a callback for that id returned, within the
      retention of that call. */
  lemma DuplicateQueuedMeansReturned(hasPath: bool, clock: real, events: seq<Event>, payload: Option<Payload>,
                                     first: real, now: real, f: Fates)
    requires
      var s := Run(Init(hasPath, map[], clock), events);
      && Handle(s, payload, first, now, f).1.Some?
      && Handle(s, payload, first, now, f).1.value.original == Some(Queued)
    ensures
      var calls := Run(Init(hasPath, map[], clock), events).calls;
      exists k :: 0 <= k < |calls| && payload.Some? && calls[k].payload.requestId == payload.value.requestId
                  && calls[k].returned && first < calls[k].at + RETENTION
  {
    EveryRunIsProved(Init(hasPath, map[], clock), events);
    var s := Run(Init(hasPath, map[], clock), events);
    var id := payload.value.requestId;
    AnsweredFromMemory(s, payload, first, now, f);
    assert Behind(s.calls, id, s.memory[id].until);
  }

  // ---------------------------------------------------------------- the object

  class PrechargeInbox {
    const hasPath: bool
    var memory: Journal
    var disk: Journal
    var error: bool
    ghost var up: bool
    ghost var clock: real
    ghost var calls: seq<Call>

    ghost function Abs(): State
      reads this
    {
      State(hasPath, memory, disk, error, up, clock, calls)
    }

    constructor (hasPath: bool, journal: Journal, clock: real)
      ensures Abs() == Init(hasPath, journal, clock)
    {
      this.hasPath, memory, disk, error := hasPath, if hasPath then journal else map[], journal, false;
      up, this.clock, calls := true, clock, [];
    }

    method Save(records: Journal, fate: SaveFate) returns (saved: bool)
      requires up
      modifies `memory, `disk, `up
      ensures Abs() == SaveRecords(old(Abs()), records, fate) && saved == Succeeds(old(Abs()), fate)
    {
      if hasPath {
        if fate.FailedBefore? || fate.DiedBefore? {
          up := fate.FailedBefore?;
          return false;
        }
        disk := records;
        if !fate.Saved? {
          up := fate.FailedAfter?;
          return false;
        }
      }
      memory := records;
      return true;
    }

    method Confirm(p: Payload, now: real, records: Journal, f: Fates) returns (reply: Option<Reply>)
      requires up
      modifies `memory, `disk, `up, `calls
      ensures (Abs(), reply) == RunCallback(old(Abs()), p, now, records, f)
    {
      calls := calls + [Call(p, now, f.call.Returned?)];
      if f.call.Died? {
        up := false;
        return None;
      }
      if f.call.Threw? { return Some(UNDECIDED); }
      var saved := Save(records[p.requestId := Record(Queued, now + RETENTION)], f.confirm);
      if saved { return Some(Reply(AcceptedReply, 202, "queued_one_cycle", None)); }
      memory := records;
      return if f.confirm.DiedBefore? || f.confirm.DiedAfter? then None else Some(UNDECIDED);
    }

    method AcceptRequestLocked(p: Payload, now: real, f: Fates) returns (reply: Option<Reply>)
      requires up
      modifies `memory, `disk, `up, `calls
      ensures (Abs(), reply) == AcceptRequest(old(Abs()), p, now, f)
    {
      if f.suppressed.None? { return Some(UNDECIDED); }
      var blocked := f.suppressed.value;
      var records := map id | id in memory && memory[id].until > now :: memory[id];
      assert records == Retained(old(memory), now);
      if |records| >= CAPACITY { return Some(Reply(Unavailable, 503, "journal_full", None)); }
      records := records[p.requestId := Record(if blocked then SuppressedMark else Uncertain, now + RETENTION)];
      if !blocked { memory := records; }
      var saved := Save(records, f.reserve);
      if !saved { return if f.reserve.DiedBefore? || f.reserve.DiedAfter? then None else Some(UNDECIDED); }
      if blocked { return Some(Reply(SuppressedReply, 409, "expensive_window", None)); }
      reply := Confirm(p, now, records, f);
    }

    method HandleDelivery(payload: Option<Payload>, first: real, now: real, f: Fates) returns (reply: Option<Reply>)
      requires up
      modifies this
      ensures (Abs(), reply) == Handle(old(Abs()), payload, first, now, f)
    {
      reply := Screen(payload, first);
      if reply.Some? { return; }
      if error { return Some(Reply(Unavailable, 503, "journal_unavailable", None)); }
      var id := payload.value.requestId;
      if id in memory && memory[id].until > first { return Some(PreviousResult(memory[id].mark)); }
      clock := now;
      if Expired(payload.value, now) { return Some(Reply(Rejected, 410, "expired_or_invalid_time", None)); }
      reply := AcceptRequestLocked(payload.value, now, f);
    }
  }
}
