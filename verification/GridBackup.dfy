/**
 The optional backup meter: used only while fresh and connected and the primary is unavailable or has not
 yet been valid for the recovery time. `mono` and `wall` are the two clocks, each read once per call.
 `switches` is a history no program reads: every transition, where the object keeps the last eight.
 */
module GridBackup {
  import opened Prelude

  const READ_AGE: real := 3.0
  const FUTURE_AGE: real := 5.0
  const KEPT: nat := 8
  const CLIP: nat := 512

  datatype Config = Config(service: string, maxAge: real, recovery: real, enabled: bool)

  /** One cached reply; a number that is missing or not finite is None. */
  datatype Fields = Empty | Fields(connected: Option<real>, role: string, power: Option<real>, updated: Option<real>,
                                   instance: Option<real>)

  /** What the selection reads of the primary meter's snapshot. */
  datatype Primary = Primary(valid: bool, source: Option<string>, reason: Option<string>)

  datatype Transition = Transition(generation: nat, at: real, fromSource: Option<string>, toSource: Option<string>,
                                   usingBackup: bool, primaryValid: bool, reason: Option<string>)

  datatype Cache = Cache(fields: Fields, readTime: real, deadline: real)

  datatype Choice = Choice(usingBackup: bool, primarySince: Option<real>, generation: nat, kept: seq<Transition>,
                           switches: seq<Transition>)

  datatype State = State(cfg: Config, generation: nat, cache: Cache, choice: Choice)

  function Init(cfg: Config): State {
    State(cfg, 0, Cache(Empty, 0.0, 0.0), Choice(false, None, 0, [], []))
  }

  function Invalidate(s: State): State {
    s.(generation := s.generation + 1, cache := s.cache.(fields := Empty, deadline := 0.0))
  }

  const NO_REPLY := Fields(None, "", None, None, None)

  function Deadline(cfg: Config, updated: Option<real>, mono: real, wall: real): real {
    if updated.None? then 0.0
    else
      var age := wall - updated.value;
      if -FUTURE_AGE <= age <= cfg.maxAge then mono + cfg.maxAge - RealMax(0.0, age) else 0.0
  }

  /** A failed read arrives as Empty and is cached as a reply without any value. */
  function Replace(s: State, fields: Fields, token: nat, mono: real, wall: real): State {
    if token != s.generation then s
    else
      var reply := if fields.Empty? then NO_REPLY else fields;
      s.(cache := Cache(reply, mono, Deadline(s.cfg, reply.updated, mono, wall)))
  }

  predicate Ready(c: Cache, now: real) {
    && c.fields.Fields? && c.fields.connected == Some(1.0) && c.fields.role == "acload" && c.fields.power.Some?
    && c.fields.instance.Some? && c.fields.instance.value >= 0.0
    && c.fields.instance.value.Floor as real == c.fields.instance.value
    && now < c.deadline && now - c.readTime <= READ_AGE
  }

  function PrimarySince(since: Option<real>, valid: bool, now: real): Option<real> {
    if !valid then None else if since.None? then Some(now) else since
  }

  predicate UseBackup(s: State, valid: bool, now: real) {
    var since := PrimarySince(s.choice.primarySince, valid, now);
    && s.cfg.enabled && Ready(s.cache, now)
    && (!valid || (s.choice.usingBackup && now - since.value < s.cfg.recovery))
  }

  function Clip(text: string): string {
    if |text| > CLIP then text[..CLIP] else text
  }

  function ClipAny(text: Option<string>): Option<string> {
    if text.Some? then Some(Clip(text.value)) else None
  }

  function Record(s: State, primary: Primary, use: bool, now: real): Transition {
    var backup := Some(Clip(s.cfg.service));
    var main := ClipAny(primary.source);
    Transition(s.choice.generation + 1, now, if s.choice.usingBackup then backup else main,
               if use then backup else main, use, primary.valid, ClipAny(primary.reason))
  }

  function Keep(kept: seq<Transition>, t: Transition): seq<Transition> {
    if |kept| < KEPT then kept + [t] else kept[1..] + [t]
  }

  function Choose(s: State, primary: Primary, now: real): State {
    var use := UseBackup(s, primary.valid, now);
    var since := PrimarySince(s.choice.primarySince, primary.valid, now);
    if use == s.choice.usingBackup then s.(choice := s.choice.(primarySince := since))
    else
      var t := Record(s, primary, use, now);
      s.(choice := Choice(use, since, s.choice.generation + 1, Keep(s.choice.kept, t), s.choice.switches + [t]))
  }

  /** The reading the control loop gets; `backup` is None while the primary's own snapshot is passed on. */
  datatype Reading = Reading(power: int, instance: int, age: real, measuredAt: Option<real>)

  datatype Report = Report(available: bool, backup: Option<Reading>, selection: nat, transitions: seq<Transition>)

  function Select(s: State, primary: Primary, now: real): (State, Report) {
    var t := Choose(s, primary, now);
    var c := s.cache;
    (t, Report(Ready(c, now),
               if UseBackup(s, primary.valid, now)
               then Some(Reading(Round(c.fields.power.value), c.fields.instance.value.Floor,
                                 RealMax(0.0, s.cfg.maxAge - (c.deadline - now)), c.fields.updated))
               else None,
               t.choice.generation, t.choice.kept))
  }

  // ---------------------------------------------------------------- runs

  datatype Event =
    | Reply(fields: Fields, token: nat, mono: real, wall: real)
    | Lost
    | Look(primary: Primary, now: real)

  function Step(s: State, e: Event): State {
    match e
    case Reply(fields, token, mono, wall) => Replace(s, fields, token, mono, wall)
    case Lost => Invalidate(s)
    case Look(primary, now) => Choose(s, primary, now)
  }

  function Run(s: State, events: seq<Event>): State {
    if events == [] then s else Step(Run(s, events[..|events| - 1]), events[|events| - 1])
  }

  /** Both clocks advance together. */
  predicate InStep(events: seq<Event>, offset: real) {
    forall k :: 0 <= k < |events| && events[k].Reply? ==> events[k].wall == events[k].mono + offset
  }

  // ---------------------------------------------------------------- the lifetime of a measurement

  predicate Bounded(s: State, offset: real) {
    s.cache.deadline == 0.0
    || (s.cache.fields.Fields? && s.cache.fields.updated.Some?
        && s.cache.deadline <= s.cache.fields.updated.value - offset + s.cfg.maxAge)
  }

  lemma {:induction false} EveryDeadlineIsBounded(cfg: Config, events: seq<Event>, offset: real)
    requires InStep(events, offset)
    ensures Bounded(Run(Init(cfg), events), offset) && Run(Init(cfg), events).cfg == cfg
    decreases |events|
  {
    if events != [] { EveryDeadlineIsBounded(cfg, events[..|events| - 1], offset); }
  }

  /** However often a report is read again, its measurement is never used once it is `maxAge` old by its
      own source time, and the age shown never understates that age. */
  lemma MeasurementLifetime(cfg: Config, events: seq<Event>, offset: real, primary: Primary, now: real)
    requires InStep(events, offset) && now >= 0.0
    ensures
      var report := Select(Run(Init(cfg), events), primary, now).1;
      report.backup.Some? ==>
        && report.available && cfg.enabled && report.backup.value.measuredAt.Some?
        && (now + offset) - report.backup.value.measuredAt.value <= report.backup.value.age
        && (now + offset) - report.backup.value.measuredAt.value < cfg.maxAge
  {
    EveryDeadlineIsBounded(cfg, events, offset);
  }

  /** After the source was lost, replies to reads begun before that never make the backup available. */
  lemma {:induction false} LateReplyNeverServes(s: State, events: seq<Event>)
    requires forall k :: 0 <= k < |events| && events[k].Reply? ==> events[k].token <= s.generation
    ensures Run(Invalidate(s), events).cache.fields.Empty? && Run(Invalidate(s), events).generation > s.generation
    decreases |events|
  {
    if events != [] { LateReplyNeverServes(s, events[..|events| - 1]); }
  }

  lemma LateReplyNeverUsed(s: State, events: seq<Event>, primary: Primary, now: real)
    requires forall k :: 0 <= k < |events| && events[k].Reply? ==> events[k].token <= s.generation
    ensures
      var report := Select(Run(Invalidate(s), events), primary, now).1;
      !report.available && report.backup.None?
  {
    LateReplyNeverServes(s, events);
  }

  // ---------------------------------------------------------------- return to the primary

  /** The start of the unbroken run of valid looks at the end of `events`, read off the events alone. */
  function ValidSince(events: seq<Event>): Option<real> {
    if events == [] then None
    else
      var e := events[|events| - 1];
      var earlier := ValidSince(events[..|events| - 1]);
      if !e.Look? then earlier else PrimarySince(earlier, e.primary.valid, e.now)
  }

  lemma {:induction false} PrimarySinceIsValidSince(cfg: Config, events: seq<Event>)
    ensures Run(Init(cfg), events).choice.primarySince == ValidSince(events) && Run(Init(cfg), events).cfg == cfg
    decreases |events|
  {
    if events != [] { PrimarySinceIsValidSince(cfg, events[..|events| - 1]); }
  }

  /** A look uses the backup exactly when it is enabled and ready, and the primary is invalid, or was in
      recovery already and has not been seen valid without a break for the recovery time. */
  lemma BackupExactlyWhen(cfg: Config, events: seq<Event>, primary: Primary, now: real)
    ensures
      var s := Run(Init(cfg), events);
      var since := ValidSince(events + [Look(primary, now)]);
      Select(s, primary, now).1.backup.Some? <==>
        && cfg.enabled && Ready(s.cache, now)
        && (primary.valid ==> s.choice.usingBackup && now < since.value + cfg.recovery)
  {
    PrimarySinceIsValidSince(cfg, events);
    assert (events + [Look(primary, now)])[..|events|] == events;
  }

  // ---------------------------------------------------------------- the count of switches

  /** How often two successive looks chose different sources, starting from the primary. */
  function Switches(s: State, events: seq<Event>): nat {
    if events == [] then 0
    else
      var before := Run(s, events[..|events| - 1]);
      var e := events[|events| - 1];
      Switches(s, events[..|events| - 1])
      + (if e.Look? && Step(before, e).choice.usingBackup != before.choice.usingBackup then 1 else 0)
  }

  function LastKept(switches: seq<Transition>): seq<Transition> {
    if |switches| <= KEPT then switches else switches[|switches| - KEPT..]
  }

  /** Switch k+1 goes to the backup when k is even and back to the primary when it is odd. */
  predicate Alternate(switches: seq<Transition>) {
    forall k :: 0 <= k < |switches| ==> switches[k].generation == k + 1 && switches[k].usingBackup == (k % 2 == 0)
  }

  predicate Counted(c: Choice) {
    && c.generation == |c.switches| && c.kept == LastKept(c.switches) && Alternate(c.switches)
    && c.usingBackup == (|c.switches| % 2 == 1)
  }

  lemma KeepKeepsTheLast(switches: seq<Transition>, t: Transition)
    ensures Keep(LastKept(switches), t) == LastKept(switches + [t])
  {
  }

  lemma SwitchCounts(c: Choice, t: Transition, since: Option<real>)
    requires Counted(c) && t.generation == c.generation + 1 && t.usingBackup == !c.usingBackup
    ensures Counted(Choice(t.usingBackup, since, c.generation + 1, Keep(c.kept, t), c.switches + [t]))
  {
    KeepKeepsTheLast(c.switches, t);
    var after := c.switches + [t];
    assert forall k :: 0 <= k < |c.switches| ==> after[k] == c.switches[k];
  }

  lemma ChooseCounts(s: State, primary: Primary, now: real)
    requires Counted(s.choice)
    ensures Counted(Choose(s, primary, now).choice)
  {
    var use := UseBackup(s, primary.valid, now);
    if use != s.choice.usingBackup {
      SwitchCounts(s.choice, Record(s, primary, use, now), PrimarySince(s.choice.primarySince, primary.valid, now));
    }
  }

  /** The selection generation counts exactly the source switches, and the transitions kept are the last
      eight of them in order, numbered without a gap and alternating between the two sources. */
  lemma {:induction false} GenerationCountsSwitches(cfg: Config, events: seq<Event>)
    ensures
      var c := Run(Init(cfg), events).choice;
      Counted(c) && c.generation == Switches(Init(cfg), events) && |c.kept| == Min(KEPT, c.generation)
    decreases |events|
  {
    if events != [] {
      var before := Run(Init(cfg), events[..|events| - 1]);
      var e := events[|events| - 1];
      GenerationCountsSwitches(cfg, events[..|events| - 1]);
      if e.Look? { ChooseCounts(before, e.primary, e.now); }
    }
  }

  // ---------------------------------------------------------------- the object

  class Backup {
    const cfg: Config
    var generation: nat
    var cache: Cache
    var usingBackup: bool
    var primarySince: Option<real>
    var selection: nat
    var kept: seq<Transition>
    ghost var switches: seq<Transition>

    ghost function Abs(): State
      reads this
    {
      State(cfg, generation, cache, Choice(usingBackup, primarySince, selection, kept, switches))
    }

    constructor (cfg: Config)
      ensures Abs() == Init(cfg)
    {
      this.cfg, generation, cache := cfg, 0, Cache(Empty, 0.0, 0.0);
      usingBackup, primarySince, selection, kept, switches := false, None, 0, [], [];
    }

    method InvalidateReply()
      modifies `generation, `cache
      ensures Abs() == Invalidate(old(Abs()))
    {
      generation := generation + 1;
      cache := cache.(fields := Empty, deadline := 0.0);
    }

    method ReplaceReply(fields: Fields, token: nat, mono: real, wall: real)
      modifies `cache
      ensures Abs() == Replace(old(Abs()), fields, token, mono, wall)
    {
      if token != generation { return; }
      var reply := if fields.Fields? then fields else NO_REPLY;
      var deadline := 0.0;
      if reply.updated.Some? {
        var age := wall - reply.updated.value;
        if -FUTURE_AGE <= age <= cfg.maxAge { deadline := mono + cfg.maxAge - RealMax(0.0, age); }
      }
      cache := Cache(reply, mono, deadline);
    }

    method SelectSource(primary: Primary, now: real) returns (report: Report)
      modifies `usingBackup, `primarySince, `selection, `kept, `switches
      ensures (Abs(), report) == Select(old(Abs()), primary, now)
    {
      var ready := Ready(cache, now);
      if !primary.valid {
        primarySince := None;
      } else if primarySince.None? {
        primarySince := Some(now);
      }
      var use := cfg.enabled && ready && (!primary.valid || (usingBackup && now - primarySince.value < cfg.recovery));
      if use != usingBackup {
        var t := Record(State(cfg, generation, cache, Choice(usingBackup, primarySince, selection, kept, [])),
                        primary, use, now);
        selection := selection + 1;
        kept := if |kept| < KEPT then kept + [t] else kept[1..] + [t];
        switches := switches + [t];
        usingBackup := use;
      }
      var backup := None;
      if use {
        backup := Some(Reading(Round(cache.fields.power.value), cache.fields.instance.value.Floor,
                               RealMax(0.0, cfg.maxAge - (cache.deadline - now)), cache.fields.updated));
      }
      report := Report(ready, backup, selection, kept);
    }
  }
}
