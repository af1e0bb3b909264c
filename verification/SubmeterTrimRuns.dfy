/** Budget, spacing and re-validation of the slow trim, over every run with nondecreasing clocks. */
module SubmeterTrimRuns {
  import opened Prelude
  import opened SubmeterTrim

  // ---------------------------------------------------------------- what every step keeps

  /** The watts trimmed since the last new baseline, read off the ledger alone. */
  function LedgerTotal(ledger: seq<Entry>): int {
    if ledger == [] then 0
    else match ledger[|ledger| - 1]
      case Rebased => 0
      case Step(delta, _, _) => LedgerTotal(ledger[..|ledger| - 1]) + delta
  }

  predicate KindMatches(d: Decision) {
    && (d.kind.Trim? <==> d.delta != 0)
    && (d.delta == 0 ==> (d.kind.Base? <==> d.setpoint != d.previous))
  }

  /** A correction that may still be committed against the current baseline. */
  predicate LiveTrim(s: State, d: Decision, clock: real, wall: real) {
    && 1 <= Abs(d.delta) <= MAX_STEP && d.setpoint == d.previous + d.delta
    && Abs(s.total + d.delta) <= MAX_TOTAL
    && s.command.Some? && d.previous == s.command.value.setpoint
    && s.command.value.time + SETTLE_SECONDS <= d.proposedAt <= clock
    && d.measurement.Some?
    && s.command.value.wall + MEASUREMENT_DELAY + MIN_SPAN <= d.measurement.value <= wall + MAX_FUTURE
    && s.lastMeasurement == d.measurement
    && s.limits.Some? && s.limits.value.0 < d.setpoint as real < s.limits.value.1
  }

  predicate OnOffer(s: State, d: Decision) {
    && d.id < |s.past.offered| && s.past.offered[d.id] == d
  }

  /** Since a correction was offered, its report is not news any more, or a new baseline was set. */
  predicate Superseded(last: Option<real>, command: Option<Command>, d: Decision) {
    || (last.Some? && d.measurement.Some? && d.measurement.value <= last.value)
    || (command.Some? && command.value.time >= d.proposedAt)
  }

  predicate PastOk(offered: seq<Decision>, nextId: nat, last: Option<real>, command: Option<Command>, clock: real) {
    && nextId == |offered|
    && (forall k :: 0 <= k < |offered| ==> offered[k].id == k && KindMatches(offered[k]))
    && (forall k :: 0 <= k < |offered| && offered[k].delta != 0 ==>
          offered[k].proposedAt <= clock && Superseded(last, command, offered[k]))
    && (forall j, k :: 0 <= j < k < |offered| && offered[j].delta != 0 ==> !SameValue(offered[j], offered[k]))
  }

  predicate Ascending(reports: seq<Report>) {
    forall j, k :: 0 <= j < k < |reports| ==> reports[j].timestamp < reports[k].timestamp
  }

  /** Measured well after the last command, and no later than the latest report. */
  predicate Counts(r: Report, command: Option<Command>, last: Option<real>) {
    && command.Some? && r.timestamp >= command.value.wall + MEASUREMENT_DELAY
    && last.Some? && r.timestamp <= last.value
  }

  predicate WindowOk(reports: seq<Report>, command: Option<Command>, last: Option<real>, needsWarmup: bool) {
    && Ascending(reports)
    && (needsWarmup ==> reports == [])
    && (forall k :: 0 <= k < |reports| ==> Counts(reports[k], command, last))
  }

  /** Accepted trims are small, and 10 s (monotonic) and 15 s (wall) apart. */
  predicate Apart(first: Entry, second: Entry) {
    first.Step? && second.Step? ==>
      second.clock >= first.clock + SETTLE_SECONDS
      && second.wall >= first.wall + MEASUREMENT_DELAY + MIN_SPAN - MAX_FUTURE
  }

  predicate LedgerOk(ledger: seq<Entry>, total: int, command: Option<Command>) {
    && LedgerTotal(ledger) == total && Abs(total) <= MAX_TOTAL
    && (forall e <- ledger :: e.Step? ==>
          1 <= Abs(e.delta) <= MAX_STEP && command.Some?
          && e.clock <= command.value.time && e.wall <= command.value.wall)
    && (forall j, k :: 0 <= j < k < |ledger| ==> Apart(ledger[j], ledger[k]))
  }

  predicate ClocksOk(s: State, clock: real, wall: real) {
    && (s.lastNow.Some? ==> s.lastNow.value <= clock)
    && (s.command.Some? ==> s.command.value.time <= clock && s.command.value.wall <= wall)
  }

  /** Everything but the decision on issue, which a proposal replaces as its last act. */
  predicate Core(s: State, clock: real, wall: real) {
    && PastOk(s.past.offered, s.offer.nextId, s.lastMeasurement, s.command, clock)
    && WindowOk(s.window.reports, s.command, s.lastMeasurement, s.needsWarmup)
    && LedgerOk(s.past.ledger, s.total, s.command) && ClocksOk(s, clock, wall)
    && (s.offer.pending.Some? ==>
          s.offer.pending.value.delta != 0 && OnOffer(s, s.offer.pending.value)
          && LiveTrim(s, s.offer.pending.value, clock, wall) && !s.needsWarmup)
  }

  predicate Inv(s: State, clock: real, wall: real) {
    && Core(s, clock, wall)
    && (s.offer.issued.Some? ==>
          OnOffer(s, s.offer.issued.value)
          && (s.offer.issued.value.delta != 0 ==> LiveTrim(s, s.offer.issued.value, clock, wall)))
  }

  lemma LaterClockKeepsPast(offered: seq<Decision>, nextId: nat, last: Option<real>, command: Option<Command>,
                            clock: real, clock': real)
    requires PastOk(offered, nextId, last, command, clock) && clock <= clock'
    ensures PastOk(offered, nextId, last, command, clock')
  {
  }

  /** A new baseline supersedes whatever was offered before it. */
  lemma BaselineKeepsPast(offered: seq<Decision>, nextId: nat, last: Option<real>, prior: Option<Command>,
                          command: Option<Command>, last': Option<real>, clock: real)
    requires PastOk(offered, nextId, last, prior, clock) && command.Some? && command.value.time == clock
    ensures PastOk(offered, nextId, last', command, clock)
  {
  }

  lemma ResetKeepsCore(s: State, clock: real, wall: real)
    requires Core(s, clock, wall)
    ensures Core(Reset(s), clock, wall) && Core(ClearWindow(s), clock, wall)
    ensures Inv(Reset(s), clock, wall)
  {
  }

  lemma LaterClocksKeepCore(s: State, clock: real, wall: real, clock': real, wall': real)
    requires Core(s, clock, wall) && clock <= clock' && wall <= wall'
    ensures Core(s, clock', wall') && Core(s.(lastNow := Some(clock')), clock', wall')
    ensures Inv(s, clock, wall) ==> Inv(s, clock', wall')
  {
    LaterClockKeepsPast(s.past.offered, s.offer.nextId, s.lastMeasurement, s.command, clock, clock');
  }

  /** Issuing a decision that leaves the command alone. */
  lemma HeldKeepsInv(s: State, base: int, previous: int, now: real, reason: Reason, measurement: Option<real>,
                     clock: real, wall: real)
    requires Core(s, clock, wall)
    ensures Inv(Decide(s, Offered(s, base, previous, now, reason, 0, measurement)), clock, wall)
  {
    var d := Offered(s, base, previous, now, reason, 0, measurement);
    var t := Decide(s, d);
    assert t.past.offered[..|s.past.offered|] == s.past.offered;
    forall k | 0 <= k < |s.past.offered| && s.past.offered[k].delta != 0 ensures !SameValue(s.past.offered[k], d) {}
  }

  lemma TrimKeepsInv(s: State, d: Decision, clock: real, wall: real)
    requires Core(s, clock, wall) && LiveTrim(s, d, clock, wall) && !s.needsWarmup
    requires d.id == s.offer.nextId && d.kind.Trim? && d.proposedAt == clock
    requires forall k :: 0 <= k < |s.past.offered| && s.past.offered[k].delta != 0 ==> !SameValue(s.past.offered[k], d)
    ensures Inv(Decide(s, d), clock, wall)
  {
    var t := Decide(s, d);
    assert t.past.offered[..|s.past.offered|] == s.past.offered;
  }

  lemma {:induction false} KeptReportsAreOld(reports: seq<Report>, timestamp: real)
    ensures forall k :: 0 <= k < |KeepReports(reports, timestamp)| ==> KeepReports(reports, timestamp)[k] in reports
  {
    if reports != [] { KeptReportsAreOld(reports[1..], timestamp); }
  }

  lemma {:induction false} NewestReportIsKept(reports: seq<Report>, timestamp: real)
    requires reports != [] && reports[|reports| - 1].timestamp == timestamp
    ensures KeepReports(reports, timestamp) != []
    ensures KeepReports(reports, timestamp)[|KeepReports(reports, timestamp)| - 1] == reports[|reports| - 1]
  {
    if |reports| > 1 { NewestReportIsKept(reports[1..], timestamp); }
  }

  /** The reports kept are still sorted, and end in the newest. */
  lemma {:induction false} KeepReportsIsSorted(reports: seq<Report>, timestamp: real)
    requires Ascending(reports)
    ensures Ascending(KeepReports(reports, timestamp))
    ensures reports != [] && reports[|reports| - 1].timestamp == timestamp ==>
      var kept := KeepReports(reports, timestamp);
      kept != [] && kept[|kept| - 1] == reports[|reports| - 1]
  {
    if reports != [] {
      var rest := reports[1..];
      var kept := KeepReports(rest, timestamp);
      KeepReportsIsSorted(rest, timestamp);
      KeptReportsAreOld(rest, timestamp);
      forall k | 0 <= k < |kept| ensures reports[0].timestamp < kept[k].timestamp { assert kept[k] in rest; }
      if reports[|reports| - 1].timestamp == timestamp { NewestReportIsKept(reports, timestamp); }
    }
  }

  /** A recorded change of the command: only a trim keeps the running total. */
  lemma RecordKeepsLedger(ledger: seq<Entry>, total: int, prior: Option<Command>, e: Entry, total': int,
                          command: Command)
    requires LedgerOk(ledger, total, prior)
    requires prior.Some? ==> command.time >= prior.value.time && command.wall >= prior.value.wall
    requires e.Rebased? ==> total' == 0
    requires e.Step? ==>
      && total' == total + e.delta && Abs(total') <= MAX_TOTAL && 1 <= Abs(e.delta) <= MAX_STEP && prior.Some?
      && e.clock == command.time >= prior.value.time + SETTLE_SECONDS
      && e.wall == command.wall >= prior.value.wall + MEASUREMENT_DELAY + MIN_SPAN - MAX_FUTURE
    ensures LedgerOk(ledger + [e], total', Some(command))
  {
    assert (ledger + [e])[..|ledger|] == ledger;
  }

  lemma RestartKeepsCore(s: State, context: Context, previous: int, clock: real, wall: real)
    requires Core(s, clock, wall)
    ensures Core(RestartBaseline(s, previous, clock, wall).(context := Some(context)), clock, wall)
  {
    var t := RestartBaseline(s, previous, clock, wall);
    BaselineKeepsPast(s.past.offered, s.offer.nextId, s.lastMeasurement, s.command, t.command, None, clock);
    RecordKeepsLedger(s.past.ledger, s.total, s.command, Rebased, 0, t.command.value);
  }

  lemma RebaseKeepsCore(s: State, context: Context, previous: int, clock: real, wall: real)
    requires Core(s, clock, wall)
    ensures
      var t := Rebase(s, context, previous, clock, wall);
      Core(t, clock, wall) && !t.needsWarmup && t.command.Some? && t.command.value.setpoint == previous
          && t.limits == s.limits
  {
    if Some(context) != s.context || s.command.None? || s.command.value.setpoint != previous {
      RestartKeepsCore(s, context, previous, clock, wall);
    }
  }

  /** Every correction offered before a new report differs from any made from it. */
  predicate NewsTo(offered: seq<Decision>, command: Option<Command>, timestamp: real) {
    forall k :: 0 <= k < |offered| && offered[k].delta != 0 ==>
      || (offered[k].measurement.Some? && offered[k].measurement.value < timestamp)
      || (command.Some? && command.value.time >= offered[k].proposedAt)
  }

  predicate AllBefore(reports: seq<Report>, timestamp: real) {
    forall k :: 0 <= k < |reports| ==> reports[k].timestamp < timestamp
  }

  lemma NewReportKeepsPast(offered: seq<Decision>, nextId: nat, last: Option<real>, command: Option<Command>,
                           clock: real, timestamp: real)
    requires PastOk(offered, nextId, last, command, clock) && (last.Some? ==> last.value <= timestamp)
    ensures PastOk(offered, nextId, Some(timestamp), command, clock)
    ensures last.None? || last.value < timestamp ==> NewsTo(offered, command, timestamp)
  {
  }

  lemma NewReportKeepsWindow(reports: seq<Report>, command: Option<Command>, last: Option<real>, needsWarmup: bool,
                             timestamp: real)
    requires WindowOk(reports, command, last, needsWarmup) && (last.Some? ==> last.value <= timestamp)
    ensures WindowOk(reports, command, Some(timestamp), needsWarmup)
    ensures last.None? || last.value < timestamp ==> AllBefore(reports, timestamp)
  {
    forall k | 0 <= k < |reports|
      ensures reports[k].timestamp <= timestamp
          && (last.None? || last.value < timestamp ==> reports[k].timestamp < timestamp)
    {
      assert Counts(reports[k], command, last);
    }
  }

  lemma UpdateReportKeepsCore(s: State, timestamp: real, power: real, clock: real, wall: real)
    requires Core(s, clock, wall)
    ensures
      var (t, error, isNew) := UpdateReport(s, timestamp, power);
      && Core(t, clock, wall)
      && t == s.(offer := t.offer, lastMeasurement := t.lastMeasurement, lastPower := t.lastPower)
      && (error.None? ==> t.lastMeasurement == Some(timestamp))
      && (isNew ==>
            t.offer.pending.None? && NewsTo(t.past.offered, t.command, timestamp)
            && AllBefore(t.window.reports, timestamp))
  {
    if s.lastMeasurement.None? || timestamp >= s.lastMeasurement.value {
      NewReportKeepsPast(s.past.offered, s.offer.nextId, s.lastMeasurement, s.command, clock, timestamp);
      NewReportKeepsWindow(s.window.reports, s.command, s.lastMeasurement, s.needsWarmup, timestamp);
    }
  }

  lemma GrowKeepsCore(s: State, report: Report, isNew: bool, clock: real, wall: real)
    requires Core(s, clock, wall) && !s.needsWarmup && s.command.Some? && s.lastMeasurement == Some(report.timestamp)
    requires report.timestamp >= s.command.value.wall + MEASUREMENT_DELAY
    requires isNew ==> AllBefore(s.window.reports, report.timestamp)
    ensures
      var kept := Grow(s.window.reports, report, isNew);
      Core(s.(window := s.window.(reports := kept)), clock, wall)
          && (isNew ==> kept != [] && kept[|kept| - 1] == report)
  {
    var grown := if isNew then s.window.reports + [report] else s.window.reports;
    assert Ascending(grown);
    KeepReportsIsSorted(grown, report.timestamp);
    KeptReportsAreOld(grown, report.timestamp);
  }

  /** What holds when a window with its newest report is judged against the accepted command `base`. */
  predicate Ready(s: State, base: int, clock: real, timestamp: real, isNew: bool, low: real, high: real, wall: real) {
    && Core(s, clock, wall) && !s.needsWarmup && s.command.Some? && s.command.value.setpoint == base
    && s.limits == Some((low, high)) && s.lastMeasurement == Some(timestamp) && timestamp <= wall + MAX_FUTURE
    && (isNew ==> s.offer.pending.None? && NewsTo(s.past.offered, s.command, timestamp) && s.window.reports != []
                  && s.window.reports[|s.window.reports| - 1].timestamp == timestamp)
  }

  lemma NewTrimIsLive(s: State, base: int, clock: real, timestamp: real, low: real, high: real, wall: real, d: Decision)
    requires Ready(s, base, clock, timestamp, true, low, high, wall) && s.window.average.Some?
    requires clock - s.command.value.time >= SETTLE_SECONDS
    requires timestamp - s.window.reports[0].timestamp >= MIN_SPAN
    requires d == BoundedTrim(s, base, base, clock, timestamp, s.window.average.value, low, high).1 && d.delta != 0
    ensures LiveTrim(s, d, clock, wall) && d.kind.Trim? && d.proposedAt == clock && d.id == s.offer.nextId
    ensures forall k :: 0 <= k < |s.past.offered| && s.past.offered[k].delta != 0 ==> !SameValue(s.past.offered[k], d)
  {
    assert d == Offered(s, base, base, clock, Trimmed, Correction(s.window.average.value), Some(timestamp));
  }

  lemma SettleKeepsInv(s: State, base: int, clock: real, timestamp: real, isNew: bool, low: real, high: real,
                       wall: real)
    requires Ready(s, base, clock, timestamp, isNew, low, high, wall)
    requires s.window.reports != [] ==> s.window.average.Some?
    ensures
      var (t, d) := Settle(s, base, base, clock, timestamp, isNew, low, high);
      Inv(t, clock, wall) && t.offer.issued == Some(d)
  {
    var (t, d) := Settle(s, base, base, clock, timestamp, isNew, low, high);
    if d.delta == 0 {
      assert (t, d) == (Decide(s, d), Offered(s, base, base, clock, d.reason, 0, d.measurement));
      HeldKeepsInv(s, base, base, clock, d.reason, d.measurement, clock, wall);
    } else if s.offer.pending.None? {
      NewTrimIsLive(s, base, clock, timestamp, low, high, wall, d);
      TrimKeepsInv(s, d, clock, wall);
    }
  }

  lemma JudgeKeepsInv(s: State, base: int, clock: real, timestamp: real, isNew: bool, low: real, high: real, wall: real)
    requires Ready(s, base, clock, timestamp, isNew, low, high, wall)
    ensures
      var (t, d) := JudgeWindow(s, base, base, clock, timestamp, isNew, low, high);
      Inv(t, clock, wall) && t.offer.issued == Some(d)
  {
    var reports := s.window.reports;
    ResetKeepsCore(s, clock, wall);
    if reports == [] {
      SettleKeepsInv(s, base, clock, timestamp, isNew, low, high, wall);
    } else if Spread(Powers(reports), SUBMETER_RANGE) {
      HeldKeepsInv(ClearWindow(s), base, base, clock, SubmeterUnstable, None, clock, wall);
    } else if Spread(PrimarySince(s.window.primary, reports[0].observedAt), PRIMARY_RANGE) {
      HeldKeepsInv(ClearWindow(s), base, base, clock, PrimaryUnstable, None, clock, wall);
    } else {
      var average := Sum(Powers(reports)) / |reports| as real;
      var averaged := s.(window := s.window.(average := Some(average)));
      assert Ready(averaged, base, clock, timestamp, isNew, low, high, wall);
      SettleKeepsInv(averaged, base, clock, timestamp, isNew, low, high, wall);
    }
  }

  lemma CountKeepsInv(s: State, base: int, clock: real, timestamp: real, power: real, isNew: bool, low: real,
                      high: real, wall: real)
    requires Core(s, clock, wall) && !s.needsWarmup && s.command.Some? && s.command.value.setpoint == base
    requires s.limits == Some((low, high)) && s.lastMeasurement == Some(timestamp) && timestamp <= wall + MAX_FUTURE
    requires isNew ==>
               s.offer.pending.None? && NewsTo(s.past.offered, s.command, timestamp)
               && AllBefore(s.window.reports, timestamp)
    ensures
      var (t, d) := CountReport(s, base, base, clock, timestamp, power, isNew, low, high);
      Inv(t, clock, wall) && t.offer.issued == Some(d)
  {
    if timestamp < s.command.value.wall + MEASUREMENT_DELAY {
      HeldKeepsInv(s.(offer := s.offer.(pending := None)), base, base, clock, PredatesSettle, None, clock, wall);
    } else {
      GrowKeepsCore(s, Report(timestamp, power, clock), isNew, clock, wall);
      var kept := s.(window := s.window.(reports := Grow(s.window.reports, Report(timestamp, power, clock), isNew)));
      assert isNew ==> NewsTo(kept.past.offered, kept.command, timestamp);
      JudgeKeepsInv(kept, base, clock, timestamp, isNew, low, high, wall);
    }
  }

  lemma ProposeWindowKeepsInv(s: State, base: int, clock: real, raw: real, filtered: real, timestamp: real, power: real,
                              low: real, high: real, wall: real)
    requires Core(s, clock, wall) && !s.needsWarmup && s.command.Some? && s.command.value.setpoint == base
    requires s.limits == Some((low, high)) && timestamp <= wall + MAX_FUTURE
    ensures
      var (t, d) := ProposeWindow(s, base, base, clock, raw, filtered, timestamp, power, low, high);
      Inv(t, clock, wall) && t.offer.issued == Some(d)
  {
    if RealAbs(raw - filtered) > RAW_DEVIATION {
      ResetKeepsCore(s, clock, wall);
      HeldKeepsInv(ClearWindow(s), base, base, clock, PrimaryTransient, None, clock, wall);
      return;
    }
    var seen := s.(window := s.window.(primary := KeepPoints(s.window.primary + [Point(clock, filtered)], clock)));
    assert Core(seen, clock, wall);
    UpdateReportKeepsCore(seen, timestamp, power, clock, wall);
    var (updated, error, isNew) := UpdateReport(seen, timestamp, power);
    ResetKeepsCore(updated, clock, wall);
    if error.Some? {
      HeldKeepsInv(ClearWindow(updated), base, base, clock, error.value, None, clock, wall);
    } else {
      CountKeepsInv(updated, base, clock, timestamp, power, isNew, low, high, wall);
    }
  }

  lemma ProposeMeasuredKeepsInv(s: State, i: Input, clock: real, wall: real, low: real, high: real)
    requires Core(s, clock, wall) && s.limits == Some((low, high))
    ensures
      var (t, d) := ProposeMeasured(s, i, i.previous, clock, wall, low, high);
      Inv(t, clock, wall) && t.offer.issued == Some(d)
  {
    ResetKeepsCore(s, clock, wall);
    if i.raw.None? || i.filtered.None? {
      HeldKeepsInv(Reset(s), i.previous, i.previous, clock, InvalidPrimary, None, clock, wall);
    } else if !ValidSource(i.source) {
      HeldKeepsInv(Reset(s), i.previous, i.previous, clock, InvalidSource, None, clock, wall);
    } else {
      match CheckSample(s.pin, i.sample, wall)
      case Bad(reason) => HeldKeepsInv(Reset(s), i.previous, i.previous, clock, reason, None, clock, wall);
      case Good(identity, timestamp, power) =>
        var pinned := s.(pin := Pin(Some(identity.service), Some(identity.instance)));
        assert Core(pinned, clock, wall);
        var context := Context(i.source.value, identity);
        RebaseKeepsCore(pinned, context, i.previous, clock, wall);
        ProposeWindowKeepsInv(Rebase(pinned, context, i.previous, clock, wall), i.previous, clock, i.raw.value,
                              i.filtered.value, timestamp, power, low, high, wall);
    }
  }

  lemma NewLimitsKeepCore(s: State, limits: (real, real), clock: real, wall: real)
    requires Core(s, clock, wall)
    ensures
      var bounded := if s.limits.Some? && s.limits.value != limits then Reset(s) else s;
      Core(bounded.(limits := Some(limits)), clock, wall)
  {
  }

  lemma ProposeAtKeepsInv(s: State, i: Input, clock: real, wall: real)
    requires Core(s, clock, wall)
    ensures
      var (t, d) := ProposeAt(s, i, clock, wall);
      Inv(t, clock, wall) && t.offer.issued == Some(d)
  {
    var base := i.base.GetOr(i.previous);
    ResetKeepsCore(s, clock, wall);
    if !s.enabled || !i.eligible {
      HeldKeepsInv(Reset(s), base, i.previous, clock, if !s.enabled then Disabled else i.reason, None, clock, wall);
    } else if i.base.None? {
      HeldKeepsInv(Reset(s), i.previous, i.previous, clock, InvalidBase, None, clock, wall);
    } else if base != i.previous {
      HeldKeepsInv(ClearWindow(s), base, i.previous, clock, FastCommand, None, clock, wall);
    } else if i.low.None? || i.high.None? || i.low.value >= i.high.value
        || !(i.low.value <= base as real <= i.high.value) {
      HeldKeepsInv(Reset(s), base, i.previous, clock, InvalidLimits, None, clock, wall);
    } else {
      var limits := (i.low.value, i.high.value);
      var bounded := if s.limits.Some? && s.limits.value != limits then Reset(s) else s;
      NewLimitsKeepCore(s, limits, clock, wall);
      ProposeMeasuredKeepsInv(bounded.(limits := Some(limits)), i, clock, wall, i.low.value, i.high.value);
    }
  }

  lemma ProposeKeepsInv(s: State, i: Input, clock: real, wall: real)
    requires Inv(s, clock, wall) && (i.now.Some? ==> i.now.value >= clock) && (i.wall.Some? ==> i.wall.value >= wall)
    ensures
      var (t, d) := Propose(s, i);
      Inv(t, i.now.GetOr(clock), i.wall.GetOr(wall)) && t.offer.issued == Some(d)
  {
    var clock', wall' := i.now.GetOr(clock), i.wall.GetOr(wall);
    LaterClocksKeepCore(s, clock, wall, clock', wall');
    if i.now.None? || i.wall.None? || i.now.value < 0.0 || i.wall.value <= 0.0 {
      ResetKeepsCore(s, clock', wall');
      HeldKeepsInv(Reset(s), i.base.GetOr(i.previous), i.previous, 0.0, InvalidClock, None, clock', wall');
    } else {
      ProposeAtKeepsInv(s.(lastNow := i.now), i, clock', wall');
    }
  }

  lemma CommitKeepsInv(s: State, d: Decision, now: Option<real>, wallNow: Option<real>, clock: real, wall: real)
    requires Inv(s, clock, wall) && OnOffer(s, d)
    requires (now.Some? ==> now.value >= clock) && (wallNow.Some? ==> wallNow.value >= wall)
    ensures Inv(Commit(s, d, now, wallNow).0, now.GetOr(clock), wallNow.GetOr(wall))
  {
    LaterClocksKeepCore(s, clock, wall, now.GetOr(clock), wallNow.GetOr(wall));
    if Committable(s, d, now, wallNow) {
      assert d == s.offer.issued.value;
      var t := Commit(s, d, now, wallNow).0;
      if d.setpoint != d.previous {
        RecordKeepsLedger(s.past.ledger, s.total, s.command, t.past.ledger[|s.past.ledger|], t.total, t.command.value);
        BaselineKeepsPast(s.past.offered, s.offer.nextId, s.lastMeasurement, s.command, t.command, s.lastMeasurement,
                          now.value);
      }
    }
  }

  // ---------------------------------------------------------------- every run

  /** `Record(k, ...)` offers the k-th decision ever made for commit, however stale it is. */
  datatype Event =
    | Offer(input: Input)
    | Record(k: nat, now: Option<real>, wallNow: Option<real>)
    | Discard

  /** A state with the latest clock readings handed to it. */
  datatype Timed = Timed(s: State, clock: real, wall: real)

  function Step(r: Timed, e: Event): Timed {
    match e
    case Offer(i) => Timed(Propose(r.s, i).0, i.now.GetOr(r.clock), i.wall.GetOr(r.wall))
    case Record(k, now, wallNow) =>
      if k < |r.s.past.offered|
      then Timed(Commit(r.s, r.s.past.offered[k], now, wallNow).0, now.GetOr(r.clock), wallNow.GetOr(r.wall)) else r
    case Discard => r.(s := Reset(r.s))
  }

  predicate InOrder(r: Timed, e: Event) {
    match e
    case Offer(i) => (i.now.Some? ==> i.now.value >= r.clock) && (i.wall.Some? ==> i.wall.value >= r.wall)
    case Record(_, now, wallNow) => (now.Some? ==> now.value >= r.clock) && (wallNow.Some? ==> wallNow.value >= r.wall)
    case Discard => true
  }

  function Run(r: Timed, events: seq<Event>): Timed {
    if events == [] then r else Step(Run(r, events[..|events| - 1]), events[|events| - 1])
  }

  /** Neither clock ever runs backwards. */
  predicate ClocksAdvance(r: Timed, events: seq<Event>) {
    events != [] ==>
      ClocksAdvance(r, events[..|events| - 1]) && InOrder(Run(r, events[..|events| - 1]), events[|events| - 1])
  }

  function Start(enabled: bool, service: Option<string>, instance: Option<int>): Timed {
    Timed(Init(enabled, service, instance), 0.0, 0.0)
  }

  lemma StepKeepsInv(r: Timed, e: Event)
    requires Inv(r.s, r.clock, r.wall) && InOrder(r, e)
    ensures Inv(Step(r, e).s, Step(r, e).clock, Step(r, e).wall)
  {
    match e
    case Offer(i) => ProposeKeepsInv(r.s, i, r.clock, r.wall);
    case Record(k, now, wallNow) =>
      if k < |r.s.past.offered| { CommitKeepsInv(r.s, r.s.past.offered[k], now, wallNow, r.clock, r.wall); }
    case Discard => ResetKeepsCore(r.s, r.clock, r.wall);
  }

  lemma {:induction false} EveryRunKeepsInv(start: Timed, events: seq<Event>)
    requires Inv(start.s, start.clock, start.wall) && ClocksAdvance(start, events)
    ensures Inv(Run(start, events).s, Run(start, events).clock, Run(start, events).wall)
    decreases |events|
  {
    if events != [] {
      EveryRunKeepsInv(start, events[..|events| - 1]);
      StepKeepsInv(Run(start, events[..|events| - 1]), events[|events| - 1]);
    }
  }

  /** In every run the trims accepted since the last new baseline sum to the running total, which never
      exceeds the budget; each is 1 to 4 W; and two accepted trims, in whatever baselines, are at least
      10 s apart on the monotonic clock and 15 s apart on the wall clock. */
  lemma BudgetAndSpacing(enabled: bool, service: Option<string>, instance: Option<int>, events: seq<Event>)
    requires ClocksAdvance(Start(enabled, service, instance), events)
    ensures
      var s := Run(Start(enabled, service, instance), events).s;
      && s.total == LedgerTotal(s.past.ledger) && Abs(s.total) <= 60
      && (forall e <- s.past.ledger :: e.Step? ==> 1 <= Abs(e.delta) <= 4)
      && (forall j, k :: 0 <= j < k < |s.past.ledger| && s.past.ledger[j].Step? && s.past.ledger[k].Step? ==>
            && s.past.ledger[k].clock >= s.past.ledger[j].clock + 10.0
            && s.past.ledger[k].wall >= s.past.ledger[j].wall + 15.0)
  {
    EveryRunKeepsInv(Start(enabled, service, instance), events);
    var s := Run(Start(enabled, service, instance), events).s;
    forall j, k | 0 <= j < k < |s.past.ledger| && s.past.ledger[j].Step? && s.past.ledger[k].Step?
      ensures s.past.ledger[k].clock >= s.past.ledger[j].clock + 10.0
          && s.past.ledger[k].wall >= s.past.ledger[j].wall + 15.0
    {
      assert Apart(s.past.ledger[j], s.past.ledger[k]);
    }
  }

  /** Every trim that is recorded moves the accepted command, by its own watts, to a value strictly inside
      the limits it was judged against. */
  lemma RecordedTrimIsInsideLimits(r: Timed, e: Event)
    requires Inv(r.s, r.clock, r.wall) && e.Record? && Step(r, e).s.past.ledger != r.s.past.ledger
    ensures
      var t := Step(r, e).s;
      var entry := t.past.ledger[|t.past.ledger| - 1];
      && t.past.ledger == r.s.past.ledger + [entry] && t.command.Some?
      && (entry.Step? ==>
            && r.s.command.Some? && t.command.value.setpoint == r.s.command.value.setpoint + entry.delta
            && r.s.limits.Some? && r.s.limits.value.0 < t.command.value.setpoint as real < r.s.limits.value.1)
  {
    var d := r.s.past.offered[e.k];
    assert d.id == e.k && KindMatches(d);
  }

  // ---------------------------------------------------------------- what renews the budget

  /** A valid sample against a context or an accepted command that differs from the recorded one. */
  predicate VerifiedNewBaseline(s: State, i: Input) {
    && i.wall.Some? && s.enabled && i.eligible && i.base == Some(i.previous) && ValidSource(i.source)
    && CheckSample(s.pin, i.sample, i.wall.value).Good?
    && (s.context != Some(Context(i.source.value, CheckSample(s.pin, i.sample, i.wall.value).identity))
        || s.command.None? || s.command.value.setpoint != i.previous)
  }

  // ---------------------------------------------------------------- re-validation before the write

  /** Neither the submeter nor the primary meter spread too far over the window. */
  predicate StableWindow(reports: seq<Report>, primary: seq<Point>) {
    reports != [] ==>
      !Spread(Powers(reports), SUBMETER_RANGE) && !Spread(PrimarySince(primary, reports[0].observedAt), PRIMARY_RANGE)
  }

  /** The command has settled, and the window stays stable with the newest primary reading in it. */
  predicate StillStable(s: State, clock: real, filtered: real, timestamp: real) {
    && s.command.Some? && clock - s.command.value.time >= SETTLE_SECONDS
    && timestamp >= s.command.value.wall + MEASUREMENT_DELAY
    && StableWindow(KeepReports(s.window.reports, timestamp),
                    KeepPoints(s.window.primary + [Point(clock, filtered)], clock))
  }

  /** The window a proposal was made from is still the current one: same source, command, limits and
      report, still eligible, still warm, and every stability test passes on what is known now. */
  predicate Undisturbed(s: State, i: Input) {
    && i.eligible && s.enabled && !s.needsWarmup
    && i.base == Some(i.previous) && s.command.Some? && i.previous == s.command.value.setpoint
    && i.low.Some? && i.high.Some? && (s.limits.Some? ==> s.limits == Some((i.low.value, i.high.value)))
    && i.now.Some? && i.wall.Some? && i.source.Some?
    && i.raw.Some? && i.filtered.Some? && RealAbs(i.raw.value - i.filtered.value) <= RAW_DEVIATION
    && (match CheckSample(s.pin, i.sample, i.wall.value)
        case Good(identity, timestamp, power) =>
          && s.context == Some(Context(i.source.value, identity))
          && s.lastMeasurement == Some(timestamp) && s.lastPower == Some(power)
          && StillStable(s, i.now.value, i.filtered.value, timestamp)
        case Bad(_) => false)
  }

  /** Once its report is accepted, a proposal is a new object or the pending one. */
  predicate NewOrPending(s: State, t: State, d: Decision) {
    && t.past.ledger == s.past.ledger && t.total == s.total
    && t.past.offered == (if d.id == s.offer.nextId then s.past.offered + [d] else s.past.offered)
    && (d.id != s.offer.nextId ==> s.offer.pending == Some(d))
  }

  lemma JudgeOutcome(s: State, base: int, clock: real, timestamp: real, isNew: bool, low: real, high: real)
    requires s.command.Some? && (s.offer.pending.Some? ==> s.offer.pending.value.id < s.offer.nextId)
    ensures
      var (t, d) := JudgeWindow(s, base, base, clock, timestamp, isNew, low, high);
      && NewOrPending(s, t, d)
      && (d.id != s.offer.nextId ==>
            StableWindow(s.window.reports, s.window.primary) && clock - s.command.value.time >= SETTLE_SECONDS)
  {
  }

  lemma CountOutcome(s: State, base: int, clock: real, timestamp: real, power: real, isNew: bool, low: real, high: real)
    requires s.command.Some? && (s.offer.pending.Some? ==> s.offer.pending.value.id < s.offer.nextId)
    ensures
      var (t, d) := CountReport(s, base, base, clock, timestamp, power, isNew, low, high);
      && NewOrPending(s, t, d)
      && (d.id != s.offer.nextId ==>
            && StableWindow(Grow(s.window.reports, Report(timestamp, power, clock), isNew), s.window.primary)
            && clock - s.command.value.time >= SETTLE_SECONDS && timestamp >= s.command.value.wall + MEASUREMENT_DELAY)
  {
    var reports := Grow(s.window.reports, Report(timestamp, power, clock), isNew);
    JudgeOutcome(s.(window := s.window.(reports := reports)), base, clock, timestamp, isNew, low, high);
  }

  /** A proposal from the window is a new object, or the pending one for an unchanged report. */
  lemma WindowOutcome(s: State, base: int, clock: real, raw: real, filtered: real, timestamp: real, power: real,
                      low: real, high: real)
    requires s.command.Some? && (s.offer.pending.Some? ==> s.offer.pending.value.id < s.offer.nextId)
    ensures
      var (t, d) := ProposeWindow(s, base, base, clock, raw, filtered, timestamp, power, low, high);
      && NewOrPending(s, t, d)
      && (d.id != s.offer.nextId ==> s.lastMeasurement == Some(timestamp) && s.lastPower == Some(power)
                                     && RealAbs(raw - filtered) <= RAW_DEVIATION
                                     && StillStable(s, clock, filtered, timestamp))
  {
    if RealAbs(raw - filtered) <= RAW_DEVIATION {
      var seen := s.(window := s.window.(primary := KeepPoints(s.window.primary + [Point(clock, filtered)], clock)));
      var (updated, error, isNew) := UpdateReport(seen, timestamp, power);
      if error.None? { CountOutcome(updated, base, clock, timestamp, power, isNew, low, high); }
    }
  }

  predicate PendingIsWarm(s: State) {
    s.offer.pending.Some? ==> !s.needsWarmup && s.offer.pending.value.id < s.offer.nextId
  }

  /** What a proposal does to the histories: at most one object is made, and the budget is renewed only
      by a verified new baseline. */
  predicate Outcome(s: State, i: Input, t: State, d: Decision) {
    && s.past.offered <= t.past.offered
    && (d.id != s.offer.nextId ==>
          s.offer.pending == Some(d) && Undisturbed(s, i) && t.past == s.past && t.total == s.total)
    && ((t.past.ledger == s.past.ledger && t.total == s.total)
        || (t.past.ledger == s.past.ledger + [Rebased] && t.total == 0 && VerifiedNewBaseline(s, i)))
  }

  lemma MeasuredOutcome(s: State, i: Input, limits: (real, real))
    requires PendingIsWarm(s) && i.now.Some? && i.wall.Some? && s.enabled && i.eligible && i.base == Some(i.previous)
    requires s.limits == Some(limits) && i.low == Some(limits.0) && i.high == Some(limits.1)
    ensures
      var (t, d) := ProposeMeasured(s, i, i.previous, i.now.value, i.wall.value, limits.0, limits.1);
      Outcome(s, i, t, d)
  {
    if i.raw.Some? && i.filtered.Some? && ValidSource(i.source) {
      match CheckSample(s.pin, i.sample, i.wall.value)
      case Bad(_) =>
      case Good(identity, timestamp, power) =>
        var pinned := s.(pin := Pin(Some(identity.service), Some(identity.instance)));
        var rebased := Rebase(pinned, Context(i.source.value, identity), i.previous, i.now.value, i.wall.value);
        WindowOutcome(rebased, i.previous, i.now.value, i.raw.value, i.filtered.value, timestamp, power, limits.0,
                      limits.1);
    }
  }

  lemma ProposeAtOutcome(s: State, i: Input)
    requires PendingIsWarm(s) && i.now.Some? && i.wall.Some?
    ensures var (t, d) := ProposeAt(s, i, i.now.value, i.wall.value); Outcome(s, i, t, d)
  {
    if s.enabled && i.eligible && i.base == Some(i.previous) && i.low.Some? && i.high.Some? {
      var limits := (i.low.value, i.high.value);
      var bounded := if s.limits.Some? && s.limits.value != limits then Reset(s) else s;
      MeasuredOutcome(bounded.(limits := Some(limits)), i, limits);
    }
  }

  /** A proposal is a new object, or the pending one in an undisturbed window; and no proposal renews
      the budget but one that verified a new source or a new accepted command. */
  lemma ProposalOutcome(s: State, i: Input)
    requires PendingIsWarm(s)
    ensures Outcome(s, i, Propose(s, i).0, Propose(s, i).1)
  {
    if i.now.Some? && i.wall.Some? { ProposeAtOutcome(s.(lastNow := i.now), i); }
  }

  lemma OffersAreUnique(s: State, clock: real, j: nat, k: nat)
    requires PastOk(s.past.offered, s.offer.nextId, s.lastMeasurement, s.command, clock) && j < |s.past.offered|
        && k < |s.past.offered|
    requires s.past.offered[j].delta != 0 && s.past.offered[k].delta != 0
    requires SameValue(s.past.offered[j], s.past.offered[k])
    ensures j == k
  {
  }

  /** The write-time check compares a fresh proposal with the decision by value. If they are equal and
      the decision moves the command, the fresh proposal is the very object still issued, nothing about
      its window has changed, and a commit at any later sane clock records it within the budget. */
  lemma RevalidationIsSound(s: State, d: Decision, i: Input, clock: real, wall: real, now: real, wallNow: real)
    requires Inv(s, clock, wall) && OnOffer(s, d) && d.delta != 0
    requires (i.now.Some? ==> i.now.value >= clock) && (i.wall.Some? ==> i.wall.value >= wall)
    requires SameValue(Propose(s, i).1, d)
    requires now >= i.now.GetOr(clock) && wallNow > 0.0
    ensures Propose(s, i).1 == d && Propose(s, i).0.offer.issued == Some(d) && s.offer.pending == Some(d)
    ensures Undisturbed(s, i)
    ensures
      var (t, ok) := Commit(Propose(s, i).0, d, Some(now), Some(wallNow));
      && ok && t.total == s.total + d.delta && Abs(t.total) <= MAX_TOTAL
      && t.command == Some(Command(d.setpoint, now, wallNow))
      && t.past.ledger == Propose(s, i).0.past.ledger + [Entry.Step(d.delta, now, wallNow)]
  {
    var (t, r) := Propose(s, i);
    ProposeKeepsInv(s, i, clock, wall);
    ProposalOutcome(s, i);
    assert t.past.offered[d.id] == d && t.past.offered[r.id] == r;
    OffersAreUnique(t, i.now.GetOr(clock), r.id, d.id);
    assert LiveTrim(t, d, i.now.GetOr(clock), i.wall.GetOr(wall));
  }
}
