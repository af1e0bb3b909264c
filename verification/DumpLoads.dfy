/**
 The dump-load worker: requesters replace one pending intent, a worker takes it and calls each load in
 turn, checking before every call that its batch still stands. The worker's position in its loop and the
 calls sent so far are histories no program reads.
 */
module DumpLoads {
  import opened Prelude

  const TTL: real := 5.0

  datatype Batch = Batch(on: bool, generation: nat, expires: real)

  /** One HTTP call, for the load numbered `entity`. */
  datatype Call = Call(batch: Batch, entity: nat)

  /** `Checked` is past the last check before a call: that call can no longer be recalled. */
  datatype Worker = AtLoop | Waiting | Woken | Batching(batch: Batch, next: nat) | Checked(batch: Batch, next: nat)
      | Exited

  datatype Stopper = NotStopping | Flagged | Cancelled

  datatype Intent = Intent(generation: nat, wanted: Option<bool>, pending: Option<Batch>, wakeup: bool)

  datatype State = State(entities: nat, running: bool, stopped: bool, intent: Intent, worker: Worker,
                         stopper: Stopper, calls: seq<Call>)

  function Init(entities: nat): State {
    State(entities, false, false, Intent(0, None, None, false), Exited, NotStopping, [])
  }

  function Start(s: State): State {
    if s.running || !s.worker.Exited? then s
    else s.(running := true, stopped := false, worker := if s.entities == 0 then Exited else AtLoop)
  }

  /** A repeated direction keeps its generation; a changed one supersedes it. */
  function Request(s: State, on: bool, now: real): State {
    if s.entities == 0 || !s.running || s.stopped then s
    else
      var generation := if s.intent.wanted == Some(on) then s.intent.generation else s.intent.generation + 1;
      s.(intent := Intent(generation, Some(on), Some(Batch(on, generation, now + TTL)), true))
  }

  function Cancel(s: State): State {
    s.(intent := s.intent.(generation := s.intent.generation + 1, wanted := None, pending := None))
  }

  function TakePending(s: State): State {
    s.(intent := s.intent.(pending := None, wakeup := false),
       worker := if s.intent.pending.Some? then Batching(s.intent.pending.value, 0) else AtLoop)
  }

  /** The check before each call, under the lock. */
  function CheckBatch(s: State, now: real): State
    requires s.worker.Batching?
  {
    var b := s.worker.batch;
    if s.worker.next >= s.entities || s.stopped || b.generation != s.intent.generation || now >= b.expires
    then s.(worker := AtLoop)
    else s.(worker := Checked(b, s.worker.next))
  }

  function SendCall(s: State): State
    requires s.worker.Checked?
  {
    s.(calls := s.calls + [Call(s.worker.batch, s.worker.next)], worker := Batching(s.worker.batch, s.worker.next + 1))
  }

  datatype Event =
    | Started | Requested(on: bool, now: real) | CancelledLoads
    | StopFlagged | StopCancels | StopWakes
    | LoopTest | WaitReturns | Take | Check(now: real) | Send

  function Step(s: State, e: Event): State {
    match e
    case Started => Start(s)
    case Requested(on, now) => Request(s, on, now)
    case CancelledLoads => Cancel(s)
    case StopFlagged => if s.stopper.NotStopping? then s.(running := false, stopped := true, stopper := Flagged) else s
    case StopCancels => if s.stopper.Flagged? then Cancel(s).(stopper := Cancelled) else s
    case StopWakes => if s.stopper.Cancelled? then s.(intent := s.intent.(wakeup := true), stopper := NotStopping)
        else s
    case LoopTest => if s.worker.AtLoop? then s.(worker := if s.stopped then Exited else Waiting) else s
    case WaitReturns => if s.worker.Waiting? && s.intent.wakeup then s.(worker := Woken) else s
    case Take => if s.worker.Woken? then TakePending(s) else s
    case Check(now) => if s.worker.Batching? then CheckBatch(s, now) else s
    case Send => if s.worker.Checked? then SendCall(s) else s
  }

  function Run(s: State, events: seq<Event>): State {
    if events == [] then s else Step(Run(s, events[..|events| - 1]), events[|events| - 1])
  }

  // ---------------------------------------------------------------- no lost wakeup

  function Current(w: Worker): Option<Batch> {
    if w.Batching? || w.Checked? then Some(w.batch) else None
  }

  /** A batch of the current generation wants what the current intent wants. */
  predicate Fits(b: Batch, i: Intent) {
    b.generation <= i.generation && (b.generation == i.generation ==> i.wanted == Some(b.on))
  }

  predicate Follows(later: Batch, earlier: Batch) {
    earlier.generation <= later.generation && (earlier.generation == later.generation ==> earlier.on == later.on)
  }

  predicate PendingOk(i: Intent) {
    i.pending.Some? ==> i.pending.value.generation == i.generation && i.wanted == Some(i.pending.value.on) && i.wakeup
  }

  /** A completed stop left nothing pending, and a waiting worker can only find the wakeup set. */
  predicate StopOk(s: State) {
    && (s.running ==> !s.stopped)
    && (s.stopped && !s.stopper.Flagged? ==> s.intent.pending.None?)
    && (s.stopped && s.stopper.NotStopping? && s.worker.Waiting? ==> s.intent.wakeup)
  }

  predicate CallsOk(calls: seq<Call>, i: Intent, w: Worker) {
    && (forall k :: 0 <= k < |calls| ==> Fits(calls[k].batch, i))
    && (forall j, k :: 0 <= j < k < |calls| ==> Follows(calls[k].batch, calls[j].batch))
    && (Current(w).Some? ==>
          Fits(Current(w).value, i) && forall k :: 0 <= k < |calls| ==> Follows(Current(w).value, calls[k].batch))
  }

  predicate Inv(s: State) {
    PendingOk(s.intent) && StopOk(s) && CallsOk(s.calls, s.intent, s.worker)
  }

  lemma StepKeepsInv(s: State, e: Event)
    requires Inv(s)
    ensures Inv(Step(s, e)) && s.intent.generation <= Step(s, e).intent.generation && s.calls <= Step(s, e).calls
  {
  }

  lemma {:induction false} EveryRunKeepsInv(s: State, events: seq<Event>)
    requires Inv(s)
    ensures
      var t := Run(s, events);
      Inv(t) && s.intent.generation <= t.intent.generation && s.calls <= t.calls
    decreases |events|
  {
    if events != [] {
      EveryRunKeepsInv(s, events[..|events| - 1]);
      StepKeepsInv(Run(s, events[..|events| - 1]), events[|events| - 1]);
    }
  }

  /** In every interleaving a pending intent carries the current generation and a set wakeup, and no
      older-generation call ever follows a newer one, nor a call in the opposite direction of the same
      generation. */
  lemma NoLostWakeupAndOrderedCalls(entities: nat, events: seq<Event>)
    ensures
      var s := Run(Init(entities), events);
      s.intent.pending.Some? ==> s.intent.pending.value.generation == s.intent.generation && s.intent.wakeup
    ensures
      var calls := Run(Init(entities), events).calls;
      forall j, k :: 0 <= j < k < |calls| ==>
        && calls[j].batch.generation <= calls[k].batch.generation
        && (calls[j].batch.generation == calls[k].batch.generation ==> calls[j].batch.on == calls[k].batch.on)
  {
    EveryRunKeepsInv(Init(entities), events);
    var calls := Run(Init(entities), events).calls;
    assert forall j, k :: 0 <= j < k < |calls| ==> Follows(calls[k].batch, calls[j].batch);
  }

  // ---------------------------------------------------------------- stop always ends the worker

  /** Worker sections left before the loop ends, once it is stopped. */
  function Remaining(w: Worker): nat {
    match w
    case Exited => 0
    case AtLoop => 1
    case Batching(_, _) => 2
    case Woken => 2
    case Checked(_, _) => 3
    case Waiting => 3
  }

  predicate WorkerSection(s: State, e: Event) {
    match s.worker
    case AtLoop => e.LoopTest?
    case Waiting => e.WaitReturns?
    case Woken => e.Take?
    case Batching(_, _) => e.Check?
    case Checked(_, _) => e.Send?
    case Exited => false
  }

  /** After a completed stop each section of the worker is enabled and brings it closer to its exit, and
      nothing but a new start takes it back: the wait cannot block. */
  lemma StopEndsTheWorker(s: State, e: Event)
    requires Inv(s) && s.stopped && s.stopper.NotStopping? && !e.Started?
    ensures Step(s, e).stopped && Remaining(Step(s, e).worker) <= Remaining(s.worker)
    ensures WorkerSection(s, e) ==> Remaining(Step(s, e).worker) < Remaining(s.worker)
  {
  }

  // ---------------------------------------------------------------- a retired batch

  /** Why batches are retired: a newer generation, the clock, or a stop. */
  datatype Limit = Superseded(generation: nat) | Expired(at: real) | Stopped

  predicate Covers(limit: Limit, b: Batch) {
    match limit
    case Superseded(generation) => b.generation <= generation
    case Expired(at) => b.expires <= at
    case Stopped => true
  }

  predicate InForce(limit: Limit, s: State, e: Event) {
    match limit
    case Superseded(generation) => s.intent.generation > generation
    case Expired(at) => e.Check? ==> e.now >= at
    case Stopped => s.stopped && !e.Started?
  }

  predicate AlwaysInForce(limit: Limit, s: State, events: seq<Event>) {
    events != [] ==>
      && AlwaysInForce(limit, s, events[..|events| - 1])
      && InForce(limit, Run(s, events[..|events| - 1]), events[|events| - 1])
  }

  function CoveredCalls(limit: Limit, calls: seq<Call>): nat {
    if calls == [] then 0
    else CoveredCalls(limit, calls[..|calls| - 1]) + (if Covers(limit, calls[|calls| - 1].batch) then 1 else 0)
  }

  function InFlight(limit: Limit, w: Worker): nat {
    if w.Checked? && Covers(limit, w.batch) then 1 else 0
  }

  lemma StepSpendsFlight(limit: Limit, s: State, e: Event)
    requires InForce(limit, s, e)
    ensures
      var t := Step(s, e);
      CoveredCalls(limit, t.calls) + InFlight(limit, t.worker)
        <= CoveredCalls(limit, s.calls) + InFlight(limit, s.worker)
  {
    if e.Send? && s.worker.Checked? {
      var t := Step(s, e);
      assert t.calls[..|t.calls| - 1] == s.calls;
    }
  }

  /** Once its batch is superseded, expired or stopped, at most the one call already past its check is
      still sent, however long the run goes on. */
  lemma {:induction false} AtMostOneRetiredCall(limit: Limit, s: State, events: seq<Event>)
    requires AlwaysInForce(limit, s, events)
    ensures
      var t := Run(s, events);
      CoveredCalls(limit, t.calls) + InFlight(limit, t.worker)
        <= CoveredCalls(limit, s.calls) + InFlight(limit, s.worker)
      && InFlight(limit, s.worker) <= 1
    decreases |events|
  {
    if events != [] {
      AtMostOneRetiredCall(limit, s, events[..|events| - 1]);
      StepSpendsFlight(limit, Run(s, events[..|events| - 1]), events[|events| - 1]);
    }
  }

  lemma {:induction false} NewerStaysNewer(s: State, generation: nat, events: seq<Event>)
    requires Inv(s) && s.intent.generation > generation
    ensures AlwaysInForce(Superseded(generation), s, events)
    decreases |events|
  {
    if events != [] {
      NewerStaysNewer(s, generation, events[..|events| - 1]);
      EveryRunKeepsInv(s, events[..|events| - 1]);
    }
  }

  /** A cancel, or a request for the other direction, retires every batch made before it for good: after
      it at most one call is sent for all of them together. */
  lemma SupersededBatchesFallSilent(entities: nat, before: seq<Event>, change: Event, after: seq<Event>)
    requires Step(Run(Init(entities), before), change).intent.generation
        != Run(Init(entities), before).intent.generation
    ensures
      var s := Run(Init(entities), before);
      var retired := Superseded(s.intent.generation);
      CoveredCalls(retired, Run(Step(s, change), after).calls) <= CoveredCalls(retired, Step(s, change).calls) + 1
  {
    var s := Run(Init(entities), before);
    EveryRunKeepsInv(Init(entities), before);
    StepKeepsInv(s, change);
    NewerStaysNewer(Step(s, change), s.intent.generation, after);
    AtMostOneRetiredCall(Superseded(s.intent.generation), Step(s, change), after);
  }

  // ---------------------------------------------------------------- the object

  class DumpLoadClient {
    const entities: nat
    var running: bool
    var stopped: bool
    var intent: Intent
    ghost var worker: Worker
    ghost var stopper: Stopper
    ghost var calls: seq<Call>

    ghost function Abs(): State
      reads this
    {
      State(entities, running, stopped, intent, worker, stopper, calls)
    }

    constructor (entities: nat)
      ensures Abs() == Init(entities)
    {
      this.entities, running, stopped := entities, false, false;
      intent, worker, stopper, calls := Intent(0, None, None, false), Exited, NotStopping, [];
    }

    method RequestDumpLoads(on: bool, now: real) returns (accepted: nat)
      modifies `intent
      ensures Abs() == Step(old(Abs()), Requested(on, now))
      ensures accepted == if running && !stopped then entities else 0
    {
      if entities == 0 { return 0; }
      if !running || stopped { return 0; }
      if intent.wanted != Some(on) {
        intent := intent.(generation := intent.generation + 1, wanted := Some(on));
      }
      intent := intent.(pending := Some(Batch(on, intent.generation, now + TTL)), wakeup := true);
      return entities;
    }

    method CancelDumpLoads()
      modifies `intent
      ensures Abs() == Step(old(Abs()), CancelledLoads)
    {
      intent := intent.(generation := intent.generation + 1, wanted := None, pending := None);
    }

    method TakeRequest() returns (pending: Option<Batch>)
      requires worker.Woken?
      modifies `intent, `worker
      ensures Abs() == Step(old(Abs()), Take) && pending == old(intent.pending)
    {
      pending := intent.pending;
      intent := intent.(pending := None, wakeup := false);
      worker := if pending.Some? then Batching(pending.value, 0) else AtLoop;
    }

    method MayCall(batch: Batch, next: nat, now: real) returns (allowed: bool)
      requires worker == Batching(batch, next)
      modifies `worker
      ensures Abs() == Step(old(Abs()), Check(now)) && (allowed <==> worker.Checked?)
    {
      allowed := next < entities && !stopped && batch.generation == intent.generation && now < batch.expires;
      worker := if allowed then Checked(batch, next) else AtLoop;
    }

    /** The whole batch, undisturbed: the loads called are a prefix of all loads, in order, and cut short
        only by the clock. */
    method ServeBatch(batch: Batch, clock: seq<real>) returns (sent: nat)
      requires worker == Batching(batch, 0) && !stopped && batch.generation == intent.generation
      requires |clock| == entities
      modifies `worker, `calls
      ensures worker.AtLoop? && sent <= entities
      ensures calls == old(calls) + seq(sent, (k: nat) => Call(batch, k))
      ensures forall k :: 0 <= k < sent ==> clock[k] < batch.expires
      ensures sent < entities ==> clock[sent] >= batch.expires
    {
      sent := 0;
      while sent < entities
        invariant sent <= entities && worker == Batching(batch, sent)
        invariant calls == old(calls) + seq(sent, (k: nat) => Call(batch, k))
        invariant forall k :: 0 <= k < sent ==> clock[k] < batch.expires
      {
        var allowed := MayCall(batch, sent, clock[sent]);
        if !allowed { return; }
        calls := calls + [Call(batch, sent)];
        worker := Batching(batch, sent + 1);
        sent := sent + 1;
      }
      worker := AtLoop;
    }
  }
}
