# Verified model of the inverter control core

A Dafny model of the daemon that steers a grid-tied inverter: who may write the power setpoint, how a slow
correction is trusted, which measurements are believed, how messages and logs are delivered, and the
arithmetic of setpoints, tariffs and battery limits. `dafny verify dfyconfig.toml` checks all of it.

Each component is modelled twice. A set of functions says what one atomic section does to a value of type
`State`; lemmas are proved about those functions and about runs of them, where a run is any sequence of
events. A class with the program's own fields does the same step by step, and every method ensures that its
abstract state afterwards is what the function says. One lock-held method of the program is one atomic
section. Where the program takes several locks in turn (status delivery, the dump-load worker, the saving of
the energy ledger) each section is an event of its own and all interleavings are covered. Device writes,
publishes, saves and callbacks succeed, are refused, raise or die as the event says.

| module | component |
|---|---|
| `Prelude` | options, outcomes, Python's `int()` and `round()` |
| `Watchdog`, `WatchdogRuns` | the four competing writers of the setpoint, and what every run of them keeps |
| `SubmeterTrim`, `SubmeterTrimRuns` | the slow propose/commit correction: budget, spacing, re-validation |
| `Calculator` | the setpoint calculation |
| `Controller`, `ControllerRuns` | the locked write path that joins the three above |
| `GridTelemetry`, `GridBackup`, `Shunt` | token-guarded measurements, the backup meter, the battery shunt |
| `GridEnergy` | the daily energy ledger against a physical counter |
| `LogForwarder` | a cursor over rotating logs |
| `OverrideDelivery` | latest-status-wins delivery through a bounded queue |
| `Precharge` | the at-most-once journal |
| `DumpLoads` | the supersedable worker |
| `Tariff`, `TariffDocument` | period expansion to an exact weekly cover, seasons, normalisation |
| `Dvcc` | current-limit curves and their rate limiter |

Times, watts measured and counters are exact reals; setpoints and limits are integers, cut by truncation or
half-even rounding where the program does so. A calendar is a pair of functions from instants to local days
and from local days to their midnight, assumed only to put each instant between its day's midnight and the
next. Identity of a Python object is a number: the `id` of a trim decision, the `version` of a status.

Results where a stated property needs a condition:

- A status whose publish raises is lost until another status or session exactly when nothing else carries it:
  no wakeup queued or about to be queued, no pending mark that outlasts the producer, no other sender about to
  send it (`OverrideDelivery.RaiseLosesExactly`). Otherwise the sections already due deliver it
  (`OverrideDelivery.CanStillBeDelivered`); without raises none is lost.
- The pre-charge inbox accepts each payload at most once over every run if and only if it has a journal file
  (`Precharge.AtMostOnceExactlyWithFile`). The program runs without one only in its test mode
  (`inverter_control/controller.py:237-241`); without restarts at most once holds even then
  (`Precharge.AtMostOncePerPayload`).
- The charge curve over temperature rises on its cold side if and only if the minimum current bridges the drop
  at the reduced threshold (`Dvcc.ColdSideRisesExactly`), which with distinct thresholds a minimum of at most a
  fifth of the maximum never does (`Dvcc.ColdCurveIsNotMonotone`); its hot side falls, and the curves over
  voltage and imbalance are monotone throughout.
- An override set while hardware is forced by a meter loss keeps the start of the outage, so the hold is
  judged from the original loss after the override stops (`WatchdogRuns.OverrideDoesNotRenewHold`).
- A log scan whose two listings agree misses nothing, provided the newest rotated file does not expire while
  the scan runs. That proviso is part of how the directory may change; without it there are races that skip a
  retained line (`LogForwarder.RaceSkipsLine`, `LogForwarder.RaceHidesPrevious`).

## Model

| member | source | states |
|---|---|---|
| `Watchdog.HardwareWatchdog.constructor` | inverter_control/watchdog.py:36-89 | starts without override, episode or history |
| `Watchdog.HardwareWatchdog.SetSetpointOverride` | inverter_control/watchdog.py:132-184 | the whole new state of a Start, Edit or Stop: a value outside 32 bits, refused or raising leaves the prior mode; an accepted one bumps the generation, clears failsafe and episode but keeps the outage start; reports success exactly then |
| `Watchdog.HardwareWatchdog.MaintainOverrideLocked` | inverter_control/watchdog.py:186-214 | refreshes the accepted value when due, with the clocks read before and after the write |
| `Watchdog.HardwareWatchdog.WriteControlSetpoint` | inverter_control/watchdog.py:220-240 | rejects while overridden, obsolete or triggered, without touching anything; otherwise the device decides |
| `Watchdog.HardwareWatchdog.MarkSetpointUpdate` | inverter_control/watchdog.py:276-282 | during an outage an accepted write does not count as a valid setpoint |
| `Watchdog.HardwareWatchdog.DbusUpdate` | inverter_control/watchdog.py:242-252 | a good reading judges the hold first and ends the outage only outside an episode |
| `Watchdog.HardwareWatchdog.DbusInvalid` | inverter_control/watchdog.py:254-269 | starts an outage at most once and pauses recovery |
| `Watchdog.HardwareWatchdog.CheckGridLossLocked` | inverter_control/watchdog.py:289-316 | an expired hold forces the fallback and forgets an earlier generic zero |
| `Watchdog.HardwareWatchdog.MaintainGridLossFallbackLocked` | inverter_control/watchdog.py:318-344 | attempts -10 W when due and records attempt, acceptance and retry state |
| `Watchdog.HardwareWatchdog.RecoverGridLossLocked` | inverter_control/watchdog.py:438-452 | counts good heartbeats of an episode and leaves it at the second |
| `Watchdog.HardwareWatchdog.RecoverFromFailsafeLocked` | inverter_control/watchdog.py:535-559 | leaves an episode without a write, a generic failsafe only with an accepted restore |
| `Watchdog.HardwareWatchdog.ApplyFailsafeLocked` | inverter_control/watchdog.py:494-528 | writes 0 and keeps the setpoint captured before the first attempt |
| `Watchdog.HardwareWatchdog.CheckHeartbeatLocked` | inverter_control/watchdog.py:454-492 | one heartbeat: override, meter loss and liveness in that order |
| `Watchdog.HardwareWatchdog.JudgeLivenessLocked` | inverter_control/watchdog.py:466-492 | three stale beats trigger, two good ones recover |
| `Watchdog.HardwareWatchdog.Begin` | inverter_control/watchdog.py:346-371 | a (re)start forgets failsafe, episode and outage, unless already running |
| `Watchdog.HardwareWatchdog.NextFallbackDeadline` | inverter_control/watchdog.py:385-412 | the wakeup is the earliest of heartbeat, override refresh and fallback attempt |
| `WatchdogRuns.EveryRunFixesHardware` | inverter_control/watchdog.py:132-240 | over every run of accepted, refused and raising writes the mode fixes the last accepted command: override v means v, forced meter loss -10, other forced states 0; an override excludes triggered and forced; no stale restore value survives |
| `WatchdogRuns.StepsAreJustified` | inverter_control/watchdog.py:220-240 | each event attempts at most one write, a control value only while not overridden, not triggered and of the current generation; -10, 0 and restores come from the safety checks alone |
| `WatchdogRuns.StaleCalculationNeverWrites` | inverter_control/watchdog.py:132-184 | a calculation begun before a mode change is rejected however long the run goes on |
| `WatchdogRuns.GenerationGrows` | inverter_control/watchdog.py:216-218 | the control generation never decreases over a run |
| `WatchdogRuns.FailedEditChangesNothing` | inverter_control/watchdog.py:132-184 | a failed edit changes nothing but the record of the attempt |
| `WatchdogRuns.OutageStartNeverMoves` | inverter_control/watchdog.py:254-269 | over every run without a good reading or start, the outage start stays |
| `WatchdogRuns.ExpiredHoldForcesFallback` | inverter_control/watchdog.py:242-316 | live and without override, any check, beat or even good reading at or after start + hold forces the fallback first |
| `WatchdogRuns.OverrideDoesNotRenewHold` | inverter_control/watchdog.py:132-316 | an override started during an outage and stopped later: the first check at or after the original start + hold forces the fallback, whatever happened under it but a good reading |
| `WatchdogRuns.OnlyThreeExits` | inverter_control/watchdog.py:535-559 | an episode is left only by an override change, a start, or a good beat after an accepted -10; that exit writes nothing but -10 |
| `WatchdogRuns.RecoveryTakesTwoGoodBeats` | inverter_control/watchdog.py:438-452 | in every run the beat that ends an episode is the second good one in a row, and -10 still stands |
| `WatchdogRuns.SuccessesAreGoodBeats` | inverter_control/watchdog.py:438-492 | the success counter is the number of consecutive good beats, counted from the events alone |
| `WatchdogRuns.FallbackAttemptsAreSpaced` | inverter_control/watchdog.py:318-344 | within an episode attempts are 1 s apart, 2 s after an accepted one, over every run |
| `WatchdogRuns.DeadlineIsFirstAttempt` | inverter_control/watchdog.py:385-412 | the computed deadline is exactly the first instant at which the check attempts a write |
| `LogForwarder.RetainedLogFiles` | inverter_control/log_forwarder.py:191-221 | a scan of a moving directory is given up unless both listings agree; then it is the complete listing under all three kinds of name, current, previous and rotated |
| `LogForwarder.NothingMoved` | inverter_control/log_forwarder.py:191-221 | names that agree before and after the scan mean that nothing was rotated, renamed or expired in between |
| `LogForwarder.ScanIsComplete` | inverter_control/log_forwarder.py:191-221 | a directory at rest is listed without a gap, each file once, under a name that opens it |
| `LogForwarder.RaceSkipsLine` | inverter_control/log_forwarder.py:191-276 | could every rotated file expire within one scan: in any race in which both listings agree and the saved file, retained as previous, was not found, whatever is read from current leaves every nonblank line from the cursor on unread, unacknowledged and behind the new cursor |
| `LogForwarder.RaceHidesPrevious` | inverter_control/log_forwarder.py:191-276 | such a race exists from a safe cursor, with only the last directory breaking the proviso: a retained line is skipped and the new cursor is not safe |
| `LogForwarder.StatArchives` | inverter_control/log_forwarder.py:191-221 | archives are stat-ed one by one while the directory moves on |
| `LogForwarder.ReadCompleteLines` | inverter_control/log_forwarder.py:223-239 | reads exactly the nonblank lines up to the batch size, leaves an unterminated last line of the current file pending |
| `LogForwarder.ReadEntry` | inverter_control/log_forwarder.py:241-276 | one file from the start position: lines, references and the cursor after them |
| `LogForwarder.DrainEntries` | inverter_control/log_forwarder.py:241-276 | files from the saved inode on are opened until one yields lines; nothing retained is skipped |
| `LogForwarder.ReadNewLines` | inverter_control/log_forwarder.py:241-276 | whatever rotates underneath: lines come in file order, a safe cursor stays safe once they are acknowledged, nothing acknowledged is read again while the inode is retained, and an empty poll at rest has drained everything |
| `LogForwarder.Serve` | inverter_control/log_forwarder.py:370-390 | one service: exactly a successful push acknowledges the batch and lets the cursor pass its lines, a failed one leaves both; lines pushed for the first time come after all acknowledged before |
| `LogForwarder.Forwarder.ProcessLogs` | inverter_control/log_forwarder.py:362-395 | all services with failing pushes and a death anywhere: the trace grows by this poll's pushes with their fates, the saved and working cursors pass no retained nonblank line but those of successful pushes, and the state file changes only by a complete save |
| `LogForwarder.Polls` | inverter_control/log_forwarder.py:362-395 | the same over every run of polls, crashes and lost saves from an empty state: acknowledged is exactly the union of the pushes on the trace that succeeded |
| `LogForwarder.AckedByAPush` | inverter_control/log_forwarder.py:370-390 | a line is acknowledged exactly when some successful push of its service carried it |
| `LogForwarder.FirstPushesKeepFileOrder` | inverter_control/log_forwarder.py:370-390 | between two successful pushes of a service each later line comes later in the files or is a replay of one pushed before |
| `LogForwarder.BatchLeavesNoGap` | inverter_control/log_forwarder.py:241-276 | what was acknowledged is closed downwards: no retained nonblank line before it is missing |
| `LogForwarder.NoGapSurvives` | inverter_control/log_forwarder.py:241-276 | appends, rotations and deletions leave it so |
| `LogForwarder.SafetySurvives` | inverter_control/log_forwarder.py:241-276 | appends, rotations and deletions never make a safe cursor unsafe |
| `LogForwarder.AllSafetySurvives` | inverter_control/log_forwarder.py:362-395 | the same for the cursors of all services |
| `LogForwarder.LineEndSurvivesAppend` | inverter_control/log_forwarder.py:223-239 | appending never changes a line that was complete |
| `OverrideDelivery.HandedNeverGoBack` | inverter_control/mqtt_bridge.py:222-231 | under any interleaving, raising publishes included, versions handed to the client never go back and one version is one status |
| `OverrideDelivery.NoStatusIsLost` | inverter_control/mqtt_bridge.py:394-411 | while nothing raises, a connected newer status always has a pending flag, a queued or served wakeup or a replay under way |
| `OverrideDelivery.SettledMeansDelivered` | inverter_control/mqtt_bridge.py:233-257 | once everything rests on a live connection the last status handed over is the latest one |
| `OverrideDelivery.RaiseLosesExactly` | inverter_control/mqtt_bridge.py:160-257 | a raise by the worker, the replay or the subscriptions before it loses the latest status, until another status or session, exactly when nothing else carries it: no queued or coming wakeup, no lasting pending mark, no other sender about to send it |
| `OverrideDelivery.CanStillBeDelivered` | inverter_control/mqtt_bridge.py:160-257 | from every healthy state the sections already due deliver the latest status, without a new status or session |
| `OverrideDelivery.LossIsReachable` | inverter_control/mqtt_bridge.py:160-181 | from every settled connection the next status is lost if its one send raises |
| `OverrideDelivery.QuietRunsAreHealthy` | inverter_control/mqtt_bridge.py:160-257 | every run without a raise that ends connected is such a state |
| `OverrideDelivery.StepKeepsOrder` | inverter_control/mqtt_bridge.py:222-231 | what each atomic section keeps: order, mutual exclusion, the queue bound, and hand-overs only appended |
| `OverrideDelivery.EveryQuietRunLosesNone` | inverter_control/mqtt_bridge.py:160-257 | the no-loss invariant over every run without raises |
| `OverrideDelivery.Bridge.PublishSetpointOverride` | inverter_control/mqtt_bridge.py:394-403 | notes a different status as pending and goes on only when connected and pending |
| `OverrideDelivery.Bridge.PutNowait` | inverter_control/mqtt_bridge.py:404-411 | queues a wakeup or, full, leaves the status pending |
| `OverrideDelivery.Bridge.ClearPending` | inverter_control/mqtt_bridge.py:404-406 | the pending flag falls only after the wakeup is queued |
| `OverrideDelivery.Bridge.GetItem` | inverter_control/mqtt_bridge.py:160-167 | takes the oldest queue entry |
| `OverrideDelivery.Bridge.JudgeItem` | inverter_control/mqtt_bridge.py:168-176 | drops an entry without a connection |
| `OverrideDelivery.Bridge.Snapshot` | inverter_control/mqtt_bridge.py:222-231 | the latest status, under both locks |
| `OverrideDelivery.Bridge.ClientPublish` | inverter_control/mqtt_bridge.py:227-231 | hands the snapshot over unless the client raises |
| `OverrideDelivery.Bridge.OnConnect` | inverter_control/mqtt_bridge.py:233-240 | a rejected session is no connection |
| `OverrideDelivery.Bridge.AfterReplay` | inverter_control/mqtt_bridge.py:250-256 | pending falls only if the replayed status is still the latest |
| `OverrideDelivery.Bridge.OnDisconnect` | inverter_control/mqtt_bridge.py:273-277 | drops the connection flag |
| `SubmeterTrim.Correction` | inverter_control/submeter_trim.py:301-308 | 1 to 4 W against the sign of the average |
| `SubmeterTrim.Rebase` | inverter_control/submeter_trim.py:310-370 | a good sample always leaves a command to measure against |
| `SubmeterTrim.Trimmer.constructor` | inverter_control/submeter_trim.py:72-104 | empty window, no budget used |
| `SubmeterTrim.Trimmer.ResetTrim` | inverter_control/submeter_trim.py:106-117 | a reset discards history and offers, never budget, baseline or high-watermark |
| `SubmeterTrim.Trimmer.DropWindow` | inverter_control/submeter_trim.py:119-123 | clears the window and the pending offer only |
| `SubmeterTrim.Trimmer.Issue` | inverter_control/submeter_trim.py:125-152 | a new object with its kind; a trim stays pending |
| `SubmeterTrim.Trimmer.StartBaseline` | inverter_control/submeter_trim.py:154-162 | a new baseline renews the budget and forgets the last report |
| `SubmeterTrim.Trimmer.NoteReport` | inverter_control/submeter_trim.py:236-246 | older or altered reports are distrusted, a newer one retires the pending offer |
| `SubmeterTrim.Trimmer.ProposeBounded` | inverter_control/submeter_trim.py:301-308 | the correction, or none at the budget or the limits |
| `SubmeterTrim.Trimmer.ProposeSettled` | inverter_control/submeter_trim.py:262-286 | settling, pending, repeated, collecting, deadzone and correction in that order |
| `SubmeterTrim.Trimmer.ProposeFromWindow` | inverter_control/submeter_trim.py:288-299 | unstable windows are discarded, stable ones averaged |
| `SubmeterTrim.Trimmer.ProposeMeasurement` | inverter_control/submeter_trim.py:248-286 | transients, report identity, settling delay and window growth |
| `SubmeterTrim.Trimmer.ProposeSample` | inverter_control/submeter_trim.py:340-370 | identity and source are pinned and a changed context restarts the baseline |
| `SubmeterTrim.Trimmer.ProposeMode` | inverter_control/submeter_trim.py:208-234 | mode, base and limits are judged before any measurement |
| `SubmeterTrim.Trimmer.ProposeDecision` | inverter_control/submeter_trim.py:310-370 | the whole proposal as a function of the old state |
| `SubmeterTrim.Trimmer.CommitDecision` | inverter_control/submeter_trim.py:372-400 | records only the object still issued, at a sane clock |
| `SubmeterTrimRuns.BudgetAndSpacing` | inverter_control/submeter_trim.py:301-308 | over every run of proposals, commits and resets: trims since the last baseline sum to at most 60 W, each is 1 to 4 W, two accepted ones are 10 s apart monotonic and 15 s apart in wall time |
| `SubmeterTrimRuns.RecordedTrimIsInsideLimits` | inverter_control/submeter_trim.py:301-308 | every recorded trim moves the accepted command by its watts to strictly inside the limits |
| `SubmeterTrimRuns.ProposalOutcome` | inverter_control/submeter_trim.py:310-370 | no proposal renews the budget but one that verified a new source or command; a proposal is a new object or the pending one of an undisturbed window |
| `SubmeterTrimRuns.RevalidationIsSound` | inverter_control/submeter_trim.py:372-400 | a fresh proposal equal to a nonzero decision is the very object issued, nothing about its window changed, the spreads of meter and primary readings, the settling and the deviation still pass, and its commit succeeds within the budget |
| `SubmeterTrimRuns.EveryRunKeepsInv` | inverter_control/submeter_trim.py:48-400 | what every run keeps: window, ledger, offers and clocks |
| `SubmeterTrimRuns.ProposeKeepsInv` | inverter_control/submeter_trim.py:310-370 | a proposal keeps it and issues what it returns |
| `SubmeterTrimRuns.CommitKeepsInv` | inverter_control/submeter_trim.py:372-400 | a commit of any decision ever offered keeps it |
| `SubmeterTrimRuns.KeepReportsIsSorted` | inverter_control/submeter_trim.py:248-286 | pruning keeps the reports in time order and the newest last |
| `GridEnergy.ParseSource` | inverter_control/grid_energy.py:63-78 | an accepted identity is valid and its instance is the number read |
| `GridEnergy.Judge` | inverter_control/grid_energy.py:204-225 | a usable reply has a valid source, a known instant and nonnegative counters |
| `GridEnergy.ReportedDeltaIsTrue` | inverter_control/grid_energy.py:263-298 | over every run, saves, crashes and meter swaps included: a shown delta is the counter difference between its two instants, nonnegative and inside the day; a complete day starts exactly at its midnight |
| `GridEnergy.BracketFixesMidnight` | inverter_control/grid_energy.py:248-261 | an unchanged bracket fixes the counter at a midnight no reading was taken at |
| `GridEnergy.EveryRunIsValid` | inverter_control/grid_energy.py:89-110 | every reachable ledger, saved copy and file passes the loader |
| `GridEnergy.PersistThenLoad` | inverter_control/grid_energy.py:134-169 | saving a reached ledger and starting again restores exactly it |
| `GridEnergy.EveryRunIsCleanOnlyWhenSaved` | inverter_control/grid_energy.py:315-341 | a ledger not marked dirty is the one on disk, whatever interleaved with the save |
| `GridEnergy.EveryRunAgrees` | inverter_control/grid_energy.py:178-246 | baseline and latest reading agree with the physical counter |
| `GridEnergy.ShownFiguresAreFresh` | inverter_control/grid_energy.py:300-313 | figures are shown exactly for a fresh reading of the same day with both clocks in step and no error or reset after it |
| `GridEnergy.NothingShownUntilNextReading` | inverter_control/grid_energy.py:171-176 | after a failed read nothing is shown until a reply is accepted |
| `GridEnergy.GridEnergyLedger.constructor` | inverter_control/grid_energy.py:116-151 | loads a valid file, else starts empty with a reason |
| `GridEnergy.GridEnergyLedger.InvalidateReading` | inverter_control/grid_energy.py:171-176 | marks the error and, on request, a reset |
| `GridEnergy.GridEnergyLedger.ObserveReading` | inverter_control/grid_energy.py:178-202 | reseeds on a reason or a new day, else only moves the latest reading |
| `GridEnergy.GridEnergyLedger.ObserveReply` | inverter_control/grid_energy.py:204-225 | a rejected reply only invalidates |
| `GridEnergy.GridEnergyLedger.TakeCopy` | inverter_control/grid_energy.py:315-331 | copies at most once a minute and only when dirty |
| `GridEnergy.GridEnergyLedger.FinishSave` | inverter_control/grid_energy.py:332-341 | stays dirty if anything was observed meanwhile or the save raised |
| `Precharge.InvalidNumber` | inverter_control/precharge.py:12-21 | no reason exactly when all four numbers are valid |
| `Precharge.Screen` | inverter_control/precharge.py:131-163 | what passes is a valid id with valid numbers |
| `Precharge.AtMostOncePerPayload` | inverter_control/precharge.py:83-119 | over every run with a journal file (or without restarts) no payload is ever accepted twice |
| `Precharge.AtMostOnceExactlyWithFile` | inverter_control/precharge.py:39-45 | every run from every state accepts each payload at most once if and only if there is a journal file |
| `Precharge.CallsAreTwoDaysApart` | inverter_control/precharge.py:83-119 | two accepts of one id are at least 48 hours apart, whatever fails, dies or restarts |
| `Precharge.NoFileRestartAcceptsTwice` | inverter_control/precharge.py:39-45 | without a file a restart forgets: any payload accepted once is accepted again |
| `Precharge.DuplicateQueuedMeansReturned` | inverter_control/precharge.py:121-129 | "already queued" is answered only after a callback for that id returned, within its retention |
| `Precharge.EveryRunKeepsInv` | inverter_control/precharge.py:67-119 | memory and file remember every call until its retention is over |
| `Precharge.EveryRunIsProved` | inverter_control/precharge.py:99-116 | every queued record belongs to a callback that returned |
| `Precharge.PrechargeInbox.Save` | inverter_control/precharge.py:67-81 | a failure or death before or after the replacement |
| `Precharge.PrechargeInbox.Confirm` | inverter_control/precharge.py:98-117 | callback, then confirmation; a failed one stays uncertain in memory |
| `Precharge.PrechargeInbox.AcceptRequestLocked` | inverter_control/precharge.py:83-119 | reserves before calling; full and raising cases leave no call |
| `Precharge.PrechargeInbox.HandleDelivery` | inverter_control/precharge.py:131-175 | first clock before the lock, second under it, earlier decisions answered from the journal |
| `GridTelemetry.ValidSnapshotsAgree` | inverter_control/grid_telemetry.py:272-303 | any two valid snapshots of a run carry one source and instance and no fewer phases |
| `GridTelemetry.ValidSnapshotIsFresh` | inverter_control/grid_telemetry.py:272-322 | a valid snapshot shows the rounded powers last delivered; each value behind it was delivered by an accepted event at most max_age before |
| `GridTelemetry.ValidExternalMeterIsConnected` | inverter_control/grid_telemetry.py:254-270 | a valid snapshot of an external meter rests on complete metadata, a report of connection at most max_age old, and an agreeing phase count |
| `GridTelemetry.LateRepliesNeverResurrect` | inverter_control/victron.py:1222-1273 | after an owner change or failed read, replies to reads begun before never make a snapshot valid again |
| `GridTelemetry.LateMetadataNeverResurrects` | inverter_control/victron.py:1283-1336 | an external meter also needs metadata read anew |
| `GridTelemetry.EveryValueOriginates` | inverter_control/grid_telemetry.py:95-133 | each cached value and time stamp comes from one accepted event |
| `GridTelemetry.PinOnlyExtends` | inverter_control/grid_telemetry.py:297-303 | source, instance and phase count are pinned for good |
| `GridTelemetry.GenerationNeverDecreases` | inverter_control/grid_telemetry.py:118-121 | read tokens only grow |
| `GridTelemetry.Telemetry.StoreField` | inverter_control/grid_telemetry.py:107-115 | stores value and time, and keeps the last good power |
| `GridTelemetry.Telemetry.UpdateField` | inverter_control/grid_telemetry.py:95-105 | a changed contract or an invalid power invalidates reads in flight |
| `GridTelemetry.Telemetry.ReplaceFields` | inverter_control/grid_telemetry.py:123-133 | a complete read with a current token replaces every field, missing ones included |
| `GridTelemetry.Telemetry.UpdateMeterField` | inverter_control/grid_telemetry.py:170-190 | meter signals count only for the selected meter |
| `GridTelemetry.Telemetry.ReplaceMeterFields` | inverter_control/grid_telemetry.py:192-209 | metadata is published whole or not at all |
| `GridTelemetry.Telemetry.MarkOwnerChanged` | inverter_control/grid_telemetry.py:211-226 | an owner change of the system or the source clears the cache |
| `GridTelemetry.Telemetry.MarkUnavailable` | inverter_control/grid_telemetry.py:228-237 | a failed authoritative read clears the cache |
| `GridTelemetry.Telemetry.TakeSnapshot` | inverter_control/grid_telemetry.py:272-322 | the report, and the pins a successful look leaves |
| `Shunt.ReplyAppliedIffUndisturbed` | inverter_control/victron.py:1374-1409 | a shunt reply is applied exactly when the state is still the one its read began in |
| `Shunt.DisconnectedShowsNothing` | inverter_control/victron.py:606-632 | a disconnected shunt shows no reading over every run |
| `Shunt.GenerationMarksEveryChange` | inverter_control/victron.py:1392-1409 | whatever changes the cache moves the token on |
| `Shunt.ShuntCache.CommitSnapshot` | inverter_control/victron.py:1379-1409 | applies or refuses a reply as a whole |
| `Shunt.ShuntCache.ClearData` | inverter_control/victron.py:1392-1398 | drops readings and ages and retires reads in flight |
| `GridBackup.MeasurementLifetime` | inverter_control/grid_backup.py:99-127 | with clocks in step a measurement is never used once max_age old by its own source time, however often re-read, and the age shown never understates it |
| `GridBackup.BackupExactlyWhen` | inverter_control/grid_backup.py:129-143 | backup exactly when enabled and ready and the primary is invalid or has not been seen valid without a break for the recovery time |
| `GridBackup.GenerationCountsSwitches` | inverter_control/grid_backup.py:145-166 | the selection generation counts the switches; the transitions kept are the last eight, gapless and alternating |
| `GridBackup.LateReplyNeverUsed` | inverter_control/grid_backup.py:93-102 | after a loss earlier replies never make the backup available |
| `GridBackup.PrimarySinceIsValidSince` | inverter_control/grid_backup.py:129-134 | the recovery clock is the start of the unbroken run of valid looks |
| `GridBackup.Backup.InvalidateReply` | inverter_control/grid_backup.py:93-97 | retires reads in flight and the deadline |
| `GridBackup.Backup.ReplaceReply` | inverter_control/grid_backup.py:99-127 | caches a current reply and the deadline its source time leaves |
| `GridBackup.Backup.SelectSource` | inverter_control/grid_backup.py:168-224 | the choice, its transition and the reading handed on |
| `DumpLoads.NoLostWakeupAndOrderedCalls` | inverter_control/homeassistant.py:452-500 | a pending intent carries the current generation and a set wakeup; no older-generation or opposite call follows a newer one |
| `DumpLoads.StopEndsTheWorker` | inverter_control/homeassistant.py:157-161 | after a completed stop every worker section is enabled and leads to its exit |
| `DumpLoads.AtMostOneRetiredCall` | inverter_control/homeassistant.py:484-500 | once superseded, expired or stopped, a batch sends at most the one call past its check |
| `DumpLoads.SupersededBatchesFallSilent` | inverter_control/homeassistant.py:163-168 | a cancel or reversal retires all earlier batches for good, up to one call in all |
| `DumpLoads.DumpLoadClient.RequestDumpLoads` | inverter_control/homeassistant.py:452-474 | the newest intent replaces the pending one; a repeated direction keeps its generation |
| `DumpLoads.DumpLoadClient.CancelDumpLoads` | inverter_control/homeassistant.py:163-168 | a new generation with nothing pending |
| `DumpLoads.DumpLoadClient.TakeRequest` | inverter_control/homeassistant.py:479-484 | takes the intent and clears the wakeup together |
| `DumpLoads.DumpLoadClient.MayCall` | inverter_control/homeassistant.py:486-498 | the check before each call |
| `DumpLoads.DumpLoadClient.ServeBatch` | inverter_control/homeassistant.py:485-500 | an undisturbed batch calls a prefix of the loads in order, cut short only by the clock |
| `Calculator.Eased` | inverter_control/logic.py:492-495 | an eased change keeps its sign, never grows, and is whole on a burst |
| `Calculator.SetpointIsBounded` | inverter_control/logic.py:492-524 | every setpoint is inside the limits or exactly 0 from the guard; from an in-range previous one it moves at most delta_limit and never past what the strategies ask |
| `Calculator.ConvergeNeverOvershoots` | inverter_control/logic.py:492-495 | a cycle never passes the wanted setpoint |
| `Calculator.LimitBounds` | inverter_control/logic.py:497-507 | range and slew together |
| `Calculator.PriorityDecides` | inverter_control/logic.py:178-259 | the highest-priority mode that applies decides alone, each by its own amount: while a car charges exactly the reserve of the solar output is left, a charge-only mode cuts a discharge to the solar output beyond the offset |
| `Calculator.DeadbandHoldsStill` | inverter_control/logic.py:384-399 | a filtered hold keeps the command: a raw derivative never alternates it |
| `Calculator.CreepStaysBounded` | inverter_control/logic.py:150-168 | over any sequence of cycles the creep stays within creep_max |
| `Calculator.FilterStaysBetween` | inverter_control/logic.py:472-482 | the filtered grid lies between its old value and the effective one |
| `Calculator.BlendIsBetween` | inverter_control/logic.py:440-452 | a weighted blend lies between its parts |
| `Calculator.SetpointCalculator.ResetMeasurementHistory` | inverter_control/logic.py:285-288 | forgets samples, not policy |
| `Calculator.SetpointCalculator.BlendDerivedGrid` | inverter_control/logic.py:419-452 | home-derived blending on both sides, with its own memory |
| `Calculator.SetpointCalculator.NormalStrategy` | inverter_control/logic.py:112-175 | deadband creep or damped correction |
| `Calculator.SetpointCalculator.FilterGrid` | inverter_control/logic.py:454-482 | effective grid and filter before and after |
| `Calculator.SetpointCalculator.RunStrategies` | inverter_control/logic.py:361-417 | normal with burst and brake, then the modes in order |
| `Calculator.SetpointCalculator.ApplyLimits` | inverter_control/logic.py:497-507 | clamp, slew, clamp |
| `Calculator.SetpointCalculator.CalculateSetpoint` | inverter_control/logic.py:454-524 | the whole calculation as a function of its memory |
| `Controller.ControlLoop.constructor` | inverter_control/controller.py:290-372 | no setpoint, trim or request yet |
| `Controller.ControlLoop.SetPowerLimits` | inverter_control/controller.py:387-408 | unordered limits change nothing; ordered ones are clamped to 3000 W |
| `Controller.ControlLoop.SetManualSetpoint` | inverter_control/controller.py:523-529 | clamped to the active limits |
| `Controller.ControlLoop.ResetSubmeterTrim` | inverter_control/controller.py:893-896 | drops the held trim and its history |
| `Controller.ControlLoop.Propose` | inverter_control/controller.py:924-936 | one proposal of the trim object |
| `Controller.ControlLoop.IsTrimWriteReady` | inverter_control/controller.py:907-936 | context, mode, slew and hold re-checked, then proposed again and compared |
| `Controller.ControlLoop.GuardSetpoint` | inverter_control/controller.py:776-809 | limits, charger guard and tariff window at write time |
| `Controller.ControlLoop.AcceptControlSetpoint` | inverter_control/controller.py:758-769 | commit and baseline in one section |
| `Controller.ControlLoop.WriteCycleSetpoint` | inverter_control/controller.py:753-817 | the whole locked section |
| `ControllerRuns.WriteIsBoundedAndRecorded` | inverter_control/controller.py:753-817 | whatever changed since the calculation: the value is inside the limits active then, or exactly 0 where the charger or the tariff guard is in force; accepted, baseline and hardware are that value; refused or not ready, nothing changes |
| `ControllerRuns.EveryControlWriteIsBounded` | inverter_control/controller.py:753-832 | over every run each control write ever attempted is within 3000 W and the limits stay ordered |
| `ControllerRuns.AcceptedTrimIsCommitted` | inverter_control/controller.py:753-775 | over every run an accepted trim is the trim proposed, unaltered, and is committed in the same section with its budget |
| `ControllerRuns.ReadyTrimIsUnaltered` | inverter_control/controller.py:907-936 | a trim that passes the check is pending in an undisturbed window, strictly inside the limits, with every mode off |
| `ControllerRuns.EveryRunKeepsInv` | inverter_control/controller.py:677-832 | what every run of calculations, writes, limit and mode changes, overrides and outages keeps |
| `ControllerRuns.CalculateKeepsInv` | inverter_control/controller.py:677-721 | a calculation holds only a decision the trim issued |
| `ControllerRuns.FinishKeepsInv` | inverter_control/controller.py:1525-1546 | a finished cycle keeps it |
| `ControllerRuns.GuardedIsAllowed` | inverter_control/controller.py:776-832 | the guards never leave the limits but to 0, and only where the charger guard is active or the write would charge in an expensive window; a trim still held is unaltered |
| `Tariff.SlotsAreSpelledOnce` | inverter_control/tariff.py:56-61 | each half hour has exactly one spelling; only an end may be 24:00 |
| `Tariff.PeriodValues` | inverter_control/tariff.py:64-78 | a valid period is ordered, inside the day, on distinct days |
| `Tariff.ExpansionIsExactCover` | inverter_control/tariff.py:81-93 | expansion succeeds exactly when 1 to 336 valid periods cover all 48x7 cells once each; each cell holds the rate of its one period |
| `Tariff.FillPeriod` | inverter_control/tariff.py:87-92 | in place: succeeds exactly when no cell is taken, and then the grid is that of one more period |
| `Tariff.PeriodsGrid` | inverter_control/tariff.py:81-93 | the nested loops compute the specified expansion |
| `Tariff.CheckedRows` | inverter_control/tariff.py:45-53 | a grid with a hole is refused |
| `Tariff.FilledByCoverer` | inverter_control/tariff.py:87-92 | a cell is filled exactly when some period covers it |
| `TariffDocument.NormalisationIsIdempotent` | inverter_control/tariff.py:153-169 | any accepted compact, legacy or version-2 tariff normalises to a version-2 one that is accepted and normalises to itself |
| `TariffDocument.SeasonsAreSortedAndDisjoint` | inverter_control/tariff.py:128-150 | at most 12 seasons, months sorted, within 1 to 12, pairwise disjoint, all grids full |
| `TariffDocument.UseMonthsExactly` | inverter_control/tariff.py:138-141 | months are accepted exactly when they are real, new and each once |
| `TariffDocument.CollectMonths` | inverter_control/tariff.py:138-141 | the loop over the months of a season |
| `TariffDocument.CollectSeason` | inverter_control/tariff.py:132-149 | one season against the months used so far |
| `TariffDocument.CollectSeasons` | inverter_control/tariff.py:128-150 | the loop over the seasons with its growing set |
| `TariffDocument.Text` | inverter_control/tariff.py:23-26 | an accepted text is stripped, nonempty and short enough |
| `TariffDocument.Strip` | inverter_control/tariff.py:23-26 | no blank at either end |
| `TariffDocument.CheckedGrid` | inverter_control/tariff.py:45-53 | an accepted grid has 48 rows of seven |
| `TariffDocument.SortSorts` | inverter_control/tariff.py:143-147 | sorting orders and permutes |
| `TariffDocument.MetadataReadsBack` | inverter_control/tariff.py:96-125 | normalised metadata is accepted unchanged |
| `Dvcc.ChargeFallsWithCellVoltage` | inverter_control/dvcc.py:102-137 | across all breakpoints the charge limit never rises with the highest cell and stays within 0 and the maximum |
| `Dvcc.ChargeFallsWithImbalance` | inverter_control/dvcc.py:139-163 | likewise for the imbalance, never below the minimum current |
| `Dvcc.DischargeRisesWithCellVoltage` | inverter_control/dvcc.py:224-244 | across all breakpoints the discharge limit never falls with the lowest cell |
| `Dvcc.ColdSideRisesExactly` | inverter_control/dvcc.py:165-197 | for all ordered thresholds the charge curve rises up to the hot limit exactly when the minimum current bridges the drop at the reduced threshold without exceeding the maximum |
| `Dvcc.ColdCurveIsNotMonotone` | inverter_control/dvcc.py:165-197 | hence with distinct thresholds and a minimum of at most a fifth of the maximum it never does, whatever the values |
| `Dvcc.HotSideFalls` | inverter_control/dvcc.py:165-197 | from the optimal temperature on, hotter never allows more |
| `Dvcc.CombinedChargeFalls` | inverter_control/dvcc.py:282-297 | a rising highest cell, which raises the imbalance too, never raises the combined limit |
| `Dvcc.CombinedLimitsRise` | inverter_control/dvcc.py:282-312 | a rising lowest cell never lowers either combined limit |
| `Dvcc.MostRestrictiveWins` | inverter_control/dvcc.py:282-312 | the combined limit is one of its sources and at most each |
| `Dvcc.LimitsAreInRange` | inverter_control/dvcc.py:282-312 | every combined limit is between 0 and the configured maximum, whatever data is present or missing |
| `Dvcc.EveryOutputIsInRange` | inverter_control/dvcc.py:354-393 | over every run both outputs stay between 0 and the highest maximum ever in force |
| `Dvcc.HardStopIsImmediate` | inverter_control/dvcc.py:314-344 | a cutoff, a temperature stop or a blocking BMS stops the current in that very cycle |
| `Dvcc.OutputsStayBetween` | inverter_control/dvcc.py:314-344 | after the first call both outputs stay between previous and target, rise by at most rate x dt, fall by at most twice that |
| `Dvcc.LimitedStaysBetween` | inverter_control/dvcc.py:346-352 | one limited value, and the hard zero at once |
| `Dvcc.ConstantTargetIsReached` | inverter_control/dvcc.py:346-352 | a constant target is reached as soon as the accumulated rate x dt covers the gap, however irregular the calls |
| `Dvcc.RunReachesTarget` | inverter_control/dvcc.py:314-344 | the same of the calculator: over every run of cycles with one positive target both outputs move straight towards it and stand on it as soon as rate x time since the start (twice that when falling) covers the gap |
| `Dvcc.Least` | inverter_control/dvcc.py:282-312 | the least value of the list |
| `Dvcc.DvccCalculator.constructor` | inverter_control/dvcc.py:36-95 | starts from the configured maxima |
| `Dvcc.DvccCalculator.SetBatteryLimits` | inverter_control/dvcc.py:97-100 | changes the maxima only |
| `Dvcc.DvccCalculator.ApplyRateLimit` | inverter_control/dvcc.py:314-344 | the limiter with its memory |
| `Dvcc.DvccCalculator.CalculateLimits` | inverter_control/dvcc.py:354-393 | both currents and the charge voltage of one cycle |

## Left out

- D-Bus, sockets, HTTP, TLS, MQTT and Home Assistant clients, threads and their start and join: foreign calls with the outcomes named above.
- Text parsing (JSON, regular expressions, bus replies) and Unicode digits in times: parsed values are inputs, and a value that does not parse is None, Invalid or Nothing.
- Floating-point rounding, the exponential grid filter and display rounding, including the nine decimals of a reported energy delta and one decimal of a current limit.
- Diagnostics, metrics, logging, console text, flag strings and user-interface state; of the flags only whether a burst or a brake fired is kept.
- Watchdog status texts, request ids, the MQTT liveness mark and the monitoring thread's loop around its deadline.
- Log files: reuse of an inode after deletion, truncation, and unreadable entries of the state file; one opened file is read as of one instant.
- The queue's other traffic in status delivery is one kind of entry, and a worker that is not running simply takes no step.
- Energy ledger without a file, and the time-zone subscription that feeds it; a calendar in which one local day is entered twice.
- Pre-charge: exceptions other than the three kinds caught behave as these for the journal, only their reply differs; the validation of a journal's records is one flag.
- GridBackup's display identity (instance and name of the last seen load meter) and the status fields derived from it.
- GridTelemetry's operator texts of each refusal beyond the kind of refusal.
- Controller: the reads that build a calculation (their results are inputs, at any limits and mode they may have seen), ESS selection, loop timing, the pre-charge horizon, and the comparison that recognises an already used backup sample (its outcome is an event).
- The calculator's own copy of the power limits: it is changed together with the controller's under one lock and is one value here.
- Tariff files and their size limit, the interactive prompt, and JSON numbers that are booleans.
- Dvcc: monotonicity of the charge-state curves and of the discharge temperature curve, which follow the same arithmetic as the proved ones.
- Configuration loading, installer, release, packaging and continuous-integration scripts.
