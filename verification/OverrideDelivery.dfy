/**
 Delivery of the override status: producers, the publish worker and the connect callback interleave
 between any two of their atomic sections. The queue carries wakeups, not snapshots; each sender takes
 the latest status while it holds the publish lock. A status that differs from the one before it is a
 new version, which stands for the identity of the status object.
 */
module OverrideDelivery {
  import opened Prelude

  const CAPACITY: nat := 100

  datatype Status = Status(value: Option<int>, lastError: Option<string>, requestId: Option<string>)

  datatype Message = Message(version: nat, status: Status)

  datatype Item = Wakeup | Other

  /** How far a sender is: `Locked` and `Holding` own the publish lock. */
  datatype Sender = Idle | Took(item: Item) | Ready | Locked | Holding(message: Message) | Sent(message: Message)

  /** A producer past its first section holds the status lock. */
  datatype Producer = Away | Putting | Clearing

  datatype State = State(latest: Message, pending: bool, connected: bool, queue: seq<Item>,
                         worker: Sender, replay: Sender, producer: Producer, handed: seq<Message>)

  const NO_STATUS := Status(None, None, None)

  function Init(): State {
    State(Message(0, NO_STATUS), true, false, [], Idle, Idle, Away, [])
  }

  predicate Owns(sender: Sender) {
    sender.Locked? || sender.Holding?
  }

  /** The atomic sections, in program order per thread. `raises` is the fate of the client's publish. */
  datatype Event =
    | Publish(status: Status, threadStarts: bool) | Put | Clear
    | Enqueue
    | Take | CheckConnected | WorkerLock | WorkerSnapshot | WorkerSend(raises: bool)
    | Connect(accepted: bool) | SubscribeRaises | ReplayLock | ReplaySnapshot | ReplaySend(raises: bool) | ReplayEnd
    | Disconnect

  function Offer(s: State, status: Status, threadStarts: bool): State {
    var noted := if status == s.latest.status then s
                 else s.(latest := Message(s.latest.version + 1, status), pending := true);
    if !noted.connected || !noted.pending || !threadStarts then noted else noted.(producer := Putting)
  }

  function PutWakeup(s: State): State {
    if |s.queue| < CAPACITY then s.(queue := s.queue + [Wakeup], producer := Clearing) else s.(producer := Away)
  }

  function EnqueueOther(s: State): State {
    if |s.queue| < CAPACITY then s.(queue := s.queue + [Other]) else s
  }

  function TakeItem(s: State): State
    requires s.queue != []
  {
    s.(worker := Took(s.queue[0]), queue := s.queue[1..])
  }

  /** Without a connection a wakeup is dropped: the next connect replays the status anyway. */
  function CheckItem(s: State): State
    requires s.worker.Took?
  {
    s.(worker := if s.connected && s.worker.item.Wakeup? then Ready else Idle)
  }

  function OpenSession(s: State, accepted: bool): State {
    if accepted then s.(connected := true, replay := Ready) else s.(connected := false)
  }

  /** Pending work survives a replay that was overtaken by a newer status. */
  function EndReplay(s: State): State
    requires s.replay.Sent?
  {
    s.(pending := s.pending && s.replay.message.version != s.latest.version, replay := Idle)
  }

  /** One atomic section; a section whose thread is elsewhere, or whose lock is taken, does not happen. */
  function Step(s: State, e: Event): State {
    match e
    case Publish(status, starts) => if s.producer.Away? then Offer(s, status, starts) else s
    case Put => if s.producer.Putting? then PutWakeup(s) else s
    case Clear => if s.producer.Clearing? then s.(pending := false, producer := Away) else s
    case Enqueue => EnqueueOther(s)
    case Take => if s.worker.Idle? && s.queue != [] then TakeItem(s) else s
    case CheckConnected => if s.worker.Took? then CheckItem(s) else s
    case WorkerLock => if s.worker.Ready? && !Owns(s.replay) then s.(worker := Locked) else s
    case WorkerSnapshot => if s.worker.Locked? && s.producer.Away? then s.(worker := Holding(s.latest)) else s
    case WorkerSend(raises) =>
      if !s.worker.Holding? then s
      else s.(handed := if raises then s.handed else s.handed + [s.worker.message], worker := Idle)
    case Connect(accepted) => if s.replay.Idle? then OpenSession(s, accepted) else s
    case SubscribeRaises => if s.replay.Ready? then s.(replay := Idle) else s
    case ReplayLock => if s.replay.Ready? && !Owns(s.worker) then s.(replay := Locked) else s
    case ReplaySnapshot => if s.replay.Locked? && s.producer.Away? then s.(replay := Holding(s.latest)) else s
    case ReplaySend(raises) =>
      if !s.replay.Holding? then s
      else if raises then s.(replay := Idle)
      else s.(handed := s.handed + [s.replay.message], replay := Sent(s.replay.message))
    case ReplayEnd => if s.replay.Sent? && s.producer.Away? then EndReplay(s) else s
    case Disconnect => s.(connected := false)
  }

  function Run(s: State, events: seq<Event>): State {
    if events == [] then s else Step(Run(s, events[..|events| - 1]), events[|events| - 1])
  }

  // ---------------------------------------------------------------- the order of what is handed over

  /** `m` is the latest status, or an older version of it. */
  predicate Known(m: Message, latest: Message) {
    m.version < latest.version || m == latest
  }

  predicate Ordered(handed: seq<Message>) {
    forall i, j :: 0 <= i < j < |handed| ==> Known(handed[i], handed[j])
  }

  predicate AllKnown(handed: seq<Message>, latest: Message) {
    forall i :: 0 <= i < |handed| ==> Known(handed[i], latest)
  }

  /** A sender that owns the publish lock holds nothing older than what was handed over. */
  predicate SenderOk(sender: Sender, latest: Message, handed: seq<Message>) {
    match sender
    case Holding(m) => Known(m, latest) && AllKnown(handed, m)
    case Sent(m) => Known(m, latest) && handed != [] && Known(m, handed[|handed| - 1])
    case _ => true
  }

  predicate InOrder(s: State) {
    && Ordered(s.handed) && AllKnown(s.handed, s.latest)
    && SenderOk(s.worker, s.latest, s.handed) && SenderOk(s.replay, s.latest, s.handed)
    && !(Owns(s.worker) && Owns(s.replay)) && |s.queue| <= CAPACITY
  }

  lemma HandOver(handed: seq<Message>, latest: Message, m: Message, other: Sender)
    requires Ordered(handed) && AllKnown(handed, latest) && AllKnown(handed, m) && Known(m, latest)
    requires SenderOk(other, latest, handed) && !Owns(other)
    ensures Ordered(handed + [m]) && AllKnown(handed + [m], latest) && SenderOk(other, latest, handed + [m])
  {
  }

  lemma NewVersionKeepsOrder(s: State, status: Status, threadStarts: bool)
    requires InOrder(s)
    ensures InOrder(Offer(s, status, threadStarts))
  {
  }

  lemma WorkerSendKeepsOrder(s: State, raises: bool)
    requires InOrder(s) && s.worker.Holding?
    ensures InOrder(Step(s, WorkerSend(raises))) && s.handed <= Step(s, WorkerSend(raises)).handed
  {
    HandOver(s.handed, s.latest, s.worker.message, s.replay);
  }

  lemma ReplaySendKeepsOrder(s: State, raises: bool)
    requires InOrder(s) && s.replay.Holding?
    ensures InOrder(Step(s, ReplaySend(raises))) && s.handed <= Step(s, ReplaySend(raises)).handed
  {
    HandOver(s.handed, s.latest, s.replay.message, s.worker);
  }

  lemma WorkerSectionKeepsOrder(s: State, e: Event)
    requires InOrder(s) && (e.Take? || e.CheckConnected? || e.WorkerLock? || e.WorkerSnapshot?)
    ensures InOrder(Step(s, e)) && Step(s, e).handed == s.handed
  {
  }

  lemma ReplaySectionKeepsOrder(s: State, e: Event)
    requires InOrder(s)
    requires e.Connect? || e.SubscribeRaises? || e.ReplayLock? || e.ReplaySnapshot? || e.ReplayEnd? || e.Disconnect?
    ensures InOrder(Step(s, e)) && Step(s, e).handed == s.handed
  {
  }

  lemma StepKeepsOrder(s: State, e: Event)
    requires InOrder(s)
    ensures InOrder(Step(s, e))
    ensures s.handed <= Step(s, e).handed
  {
    match e
    case Publish(status, starts) => NewVersionKeepsOrder(s, status, starts);
    case WorkerSend(raises) => if s.worker.Holding? { WorkerSendKeepsOrder(s, raises); }
    case ReplaySend(raises) => if s.replay.Holding? { ReplaySendKeepsOrder(s, raises); }
    case Put =>
    case Clear =>
    case Enqueue =>
    case _ =>
      if e.Take? || e.CheckConnected? || e.WorkerLock? || e.WorkerSnapshot? {
        WorkerSectionKeepsOrder(s, e);
      } else {
        ReplaySectionKeepsOrder(s, e);
      }
  }

  lemma {:induction false} EveryRunIsInOrder(events: seq<Event>)
    ensures InOrder(Run(Init(), events))
    decreases |events|
  {
    if events != [] {
      EveryRunIsInOrder(events[..|events| - 1]);
      StepKeepsOrder(Run(Init(), events[..|events| - 1]), events[|events| - 1]);
    }
  }

  /** Whatever the interleaving, and even when publishes raise: a later hand-over never carries an older
      version, and the same version is always the same status. */
  lemma HandedNeverGoBack(events: seq<Event>, i: nat, j: nat)
    requires i < j < |Run(Init(), events).handed|
    ensures
      var handed := Run(Init(), events).handed;
      && handed[i].version <= handed[j].version <= Run(Init(), events).latest.version
      && (handed[i].version == handed[j].version ==> handed[i].status == handed[j].status)
  {
    EveryRunIsInOrder(events);
    var handed := Run(Init(), events).handed;
    assert Known(handed[i], handed[j]);
  }

  // ---------------------------------------------------------------- no status is lost

  predicate Undelivered(s: State) {
    s.handed == [] || s.handed[|s.handed| - 1].version < s.latest.version
  }

  /** A sender that will still read the latest status, or has just read it. */
  predicate WillSend(sender: Sender, latest: Message) {
    match sender
    case Took(item) => item.Wakeup?
    case Ready => true
    case Locked => true
    case Holding(m) => m == latest
    case _ => false
  }

  predicate WakeupQueued(queue: seq<Item>) {
    exists i :: 0 <= i < |queue| && queue[i].Wakeup?
  }

  predicate Carried(s: State) {
    WakeupQueued(s.queue) || WillSend(s.worker, s.latest) || WillSend(s.replay, s.latest)
  }

  predicate NoneLost(s: State) {
    && (s.connected && Undelivered(s) ==> s.pending || Carried(s))
    && (s.producer.Putting? ==> s.pending)
    && (s.producer.Clearing? && s.connected && Undelivered(s) ==> Carried(s))
    && !s.replay.Took?
  }

  predicate Quiet(e: Event) {
    match e
    case WorkerSend(raises) => !raises
    case ReplaySend(raises) => !raises
    case SubscribeRaises => false
    case _ => true
  }

  lemma EnqueueKeepsWakeup(queue: seq<Item>, item: Item)
    ensures WakeupQueued(queue) || item.Wakeup? <==> WakeupQueued(queue + [item])
  {
    assert (queue + [item])[|queue|] == item;
    if WakeupQueued(queue) {
      var i :| 0 <= i < |queue| && queue[i].Wakeup?;
      assert (queue + [item])[i].Wakeup?;
    }
  }

  lemma TakeKeepsWakeup(queue: seq<Item>)
    requires queue != []
    ensures WakeupQueued(queue) ==> queue[0].Wakeup? || WakeupQueued(queue[1..])
  {
    if WakeupQueued(queue) && !queue[0].Wakeup? {
      var i :| 0 <= i < |queue| && queue[i].Wakeup?;
      assert queue[1..][i - 1].Wakeup?;
    }
  }

  lemma ProducerLosesNone(s: State, e: Event)
    requires NoneLost(s) && (e.Publish? || e.Put? || e.Clear? || e.Enqueue?)
    ensures NoneLost(Step(s, e))
  {
    EnqueueKeepsWakeup(s.queue, Wakeup);
    EnqueueKeepsWakeup(s.queue, Other);
  }

  lemma SenderLosesNone(s: State, e: Event)
    requires NoneLost(s) && InOrder(s) && Quiet(e) && !(e.Publish? || e.Put? || e.Clear? || e.Enqueue?)
    ensures NoneLost(Step(s, e))
  {
    if s.queue != [] { TakeKeepsWakeup(s.queue); }
  }

  lemma {:induction false} EveryQuietRunLosesNone(events: seq<Event>)
    requires forall k :: 0 <= k < |events| ==> Quiet(events[k])
    ensures NoneLost(Run(Init(), events))
    decreases |events|
  {
    if events != [] {
      var before := events[..|events| - 1];
      var e := events[|events| - 1];
      EveryQuietRunLosesNone(before);
      EveryRunIsInOrder(before);
      if e.Publish? || e.Put? || e.Clear? || e.Enqueue? {
        ProducerLosesNone(Run(Init(), before), e);
      } else {
        SenderLosesNone(Run(Init(), before), e);
      }
    }
  }

  /** While nothing raises and the broker is connected, a status newer than the last one handed over is
      marked pending, or a wakeup for it is queued or being served, or a replay is under way. */
  lemma NoStatusIsLost(events: seq<Event>)
    requires forall k :: 0 <= k < |events| ==> Quiet(events[k])
    ensures
      var s := Run(Init(), events);
      s.connected && Undelivered(s) ==>
        s.pending || WakeupQueued(s.queue) || WillSend(s.worker, s.latest) || WillSend(s.replay, s.latest)
  {
    EveryQuietRunLosesNone(events);
  }

  predicate Settled(s: State) {
    && s.connected && !s.pending && !WakeupQueued(s.queue)
    && s.worker.Idle? && s.replay.Idle? && s.producer.Away?
  }

  /** Once everything came to rest on a live connection, the broker holds exactly the latest status. */
  lemma SettledMeansDelivered(events: seq<Event>)
    requires forall k :: 0 <= k < |events| ==> Quiet(events[k])
    requires Settled(Run(Init(), events))
    ensures
      var s := Run(Init(), events);
      s.handed != [] && s.handed[|s.handed| - 1] == s.latest
  {
    EveryQuietRunLosesNone(events);
    EveryRunIsInOrder(events);
    var s := Run(Init(), events);
    assert Known(s.handed[|s.handed| - 1], s.latest);
  }

  // ---------------------------------------------------------------- a status can still be delivered

  predicate NextIsWorker(s: State) {
    s.worker.Holding? || s.worker.Locked? || s.worker.Took? || (s.worker.Ready? && !Owns(s.replay))
  }

  /** One section that brings an undelivered status closer to the client: whoever holds a lock goes first,
      then the queue is drained, and last the main loop repeats the status. */
  function NextSection(s: State): Event {
    if s.producer.Putting? then Put
    else if s.producer.Clearing? then Clear
    else if NextIsWorker(s) then
      match s.worker
      case Holding(_) => WorkerSend(false)
      case Locked => WorkerSnapshot
      case Took(_) => CheckConnected
      case _ => WorkerLock
    else
      match s.replay
      case Holding(_) => ReplaySend(false)
      case Locked => ReplaySnapshot
      case Sent(_) => ReplayEnd
      case Ready => ReplayLock
      case _ => if s.queue != [] then Take else Publish(s.latest.status, true)
  }

  /** How far the producer is from having queued its wakeup. */
  function Phase(s: State): nat {
    match s.producer
    case Clearing => 1
    case Putting => if |s.queue| < CAPACITY then 2 else 4
    case Away => if s.pending then 3 else 0
  }

  function Rank(sender: Sender): nat {
    match sender
    case Took(_) => 4
    case Ready => 4
    case Locked => 3
    case Holding(_) => 2
    case Sent(_) => 1
    case Idle => 0
  }

  /** What the senders still have to do. */
  function Work(s: State): nat {
    6 * |s.queue| + (if s.worker.Took? then 5 else Rank(s.worker)) + Rank(s.replay)
  }

  predicate Healthy(s: State) {
    InOrder(s) && NoneLost(s) && s.connected && !s.worker.Sent?
  }

  /** An event that could bring a lost status back: a different status, or a new session. */
  predicate Revives(s: State, e: Event) {
    (e.Publish? && e.status != s.latest.status) || (e.Connect? && e.accepted)
  }

  lemma NextSectionKeepsHealth(s: State)
    requires Healthy(s)
    ensures Healthy(Step(s, NextSection(s))) && Step(s, NextSection(s)).latest == s.latest
    ensures Quiet(NextSection(s)) && !Revives(s, NextSection(s))
  {
    var e := NextSection(s);
    StepKeepsOrder(s, e);
    if e.Publish? || e.Put? || e.Clear? || e.Enqueue? { ProducerLosesNone(s, e); } else { SenderLosesNone(s, e); }
  }

  lemma NextSectionMakesProgress(s: State)
    requires Healthy(s) && Undelivered(s)
    ensures
      var t := Step(s, NextSection(s));
      Phase(t) < Phase(s) || (Phase(t) == Phase(s) && Work(t) < Work(s))
  {
  }

  predicate AllQuiet(events: seq<Event>) {
    forall k :: 0 <= k < |events| ==> Quiet(events[k])
  }

  predicate NoRevival(s: State, events: seq<Event>) {
    forall k :: 0 <= k < |events| ==> !Revives(s, events[k])
  }

  predicate Delivered(s: State) {
    s.handed != [] && s.handed[|s.handed| - 1] == s.latest
  }

  lemma {:induction false} RunFirst(s: State, e: Event, events: seq<Event>)
    ensures Run(s, [e] + events) == Run(Step(s, e), events)
    decreases |events|
  {
    if events == [] {
      assert [e] + events == [e] && [e][..0] == [];
      assert Run(s, [e][..0]) == s;
    } else {
      var n := |events| - 1;
      RunFirst(s, e, events[..n]);
      assert ([e] + events)[..|[e] + events| - 1] == [e] + events[..n];
    }
  }

  /** From every healthy state on a live connection the sections of the bridge itself, together with the
      main loop repeating the same status, hand the latest status over: no deadlock, and no new status,
      session or luck needed. */
  lemma {:induction false} CanStillBeDelivered(s: State) returns (events: seq<Event>)
    requires Healthy(s)
    ensures AllQuiet(events) && NoRevival(s, events) && Delivered(Run(s, events))
    decreases Phase(s), Work(s)
  {
    if !Undelivered(s) {
      assert Known(s.handed[|s.handed| - 1], s.latest);
      return [];
    }
    var e := NextSection(s);
    NextSectionKeepsHealth(s);
    NextSectionMakesProgress(s);
    var rest := CanStillBeDelivered(Step(s, e));
    RunFirst(s, e, rest);
    events := [e] + rest;
  }

  // ---------------------------------------------------------------- what a raise costs

  /** Nobody will send the latest status any more: no carrier is left, and no pending mark outlasts the
      producer's section. */
  predicate Doomed(s: State) {
    && (s.pending ==> s.producer.Clearing?) && !s.producer.Putting?
    && !WakeupQueued(s.queue) && !WillSend(s.worker, s.latest) && !WillSend(s.replay, s.latest)
  }

  /** Whatever happens but a different status or a new session, the status is never handed over. */
  ghost predicate LostForGood(s: State) {
    forall events :: NoRevival(s, events) ==> Undelivered(Run(s, events))
  }

  lemma DoomedStaysDoomed(s: State, e: Event)
    requires Doomed(s) && InOrder(s) && Undelivered(s) && !Revives(s, e) && !s.replay.Took? && !s.worker.Sent?
    ensures
      var t := Step(s, e);
      Doomed(t) && Undelivered(t) && t.latest == s.latest && !t.replay.Took? && !t.worker.Sent?
  {
    EnqueueKeepsWakeup(s.queue, Other);
    forall i | 0 <= i < |s.queue| - 1 ensures s.queue[1..][i].Other? { assert !s.queue[i + 1].Wakeup?; }
    if s.queue != [] { assert !s.queue[0].Wakeup?; }
  }

  lemma {:induction false} DoomedForever(s: State, events: seq<Event>)
    requires Doomed(s) && InOrder(s) && Undelivered(s) && NoRevival(s, events) && !s.replay.Took? && !s.worker.Sent?
    ensures
      var t := Run(s, events);
      Doomed(t) && InOrder(t) && Undelivered(t) && t.latest == s.latest && !t.replay.Took? && !t.worker.Sent?
    decreases |events|
  {
    if events != [] {
      var before := Run(s, events[..|events| - 1]);
      DoomedForever(s, events[..|events| - 1]);
      DoomedStaysDoomed(before, events[|events| - 1]);
      StepKeepsOrder(before, events[|events| - 1]);
    }
  }

  /** The three sections a raise can end. */
  predicate RaiseEnabled(s: State, e: Event) {
    (e == WorkerSend(true) && s.worker.Holding?) || (e == ReplaySend(true) && s.replay.Holding?)
    || (e.SubscribeRaises? && s.replay.Ready?)
  }

  /** What else carries the status when a sender raises: the other sender, a queued wakeup, or a pending
      mark that no producer is about to clear. */
  predicate CarriedOtherwise(s: State, e: Event) {
    || WakeupQueued(s.queue) || s.producer.Putting? || (s.pending && !s.producer.Clearing?)
    || (if e.WorkerSend? then WillSend(s.replay, s.latest) else WillSend(s.worker, s.latest))
  }

  lemma RaiseDoomsExactly(s: State, e: Event)
    requires Healthy(s) && Undelivered(s) && RaiseEnabled(s, e)
    ensures Doomed(Step(s, e)) <==> !CarriedOtherwise(s, e)
    ensures InOrder(Step(s, e)) && Undelivered(Step(s, e)) && !Doomed(Step(s, e)) ==> Healthy(Step(s, e))
  {
    StepKeepsOrder(s, e);
  }

  /** On a live connection, after a run without raises: a raise of either sender loses an undelivered
      status for good exactly when nothing else carries it. Then the sender that raised held that very
      status, or was about to read it; otherwise the bridge's own sections still deliver it. */
  lemma RaiseLosesExactly(s: State, e: Event)
    requires Healthy(s) && Undelivered(s) && RaiseEnabled(s, e)
    ensures LostForGood(Step(s, e)) <==> !CarriedOtherwise(s, e)
    ensures LostForGood(Step(s, e)) ==>
      WillSend(if e.WorkerSend? then s.worker else s.replay, s.latest)
  {
    var t := Step(s, e);
    RaiseDoomsExactly(s, e);
    StepKeepsOrder(s, e);
    if Doomed(t) {
      forall events | NoRevival(t, events) ensures Undelivered(Run(t, events)) { DoomedForever(t, events); }
    } else {
      var events := CanStillBeDelivered(t);
      assert NoRevival(t, events) && !Undelivered(Run(t, events));
    }
  }

  lemma StepLeavesWorkerUnsent(s: State, e: Event)
    requires !s.worker.Sent?
    ensures !Step(s, e).worker.Sent?
  {
  }

  lemma {:induction false} WorkerNeverSent(events: seq<Event>)
    ensures !Run(Init(), events).worker.Sent?
    decreases |events|
  {
    if events != [] {
      WorkerNeverSent(events[..|events| - 1]);
      StepLeavesWorkerUnsent(Run(Init(), events[..|events| - 1]), events[|events| - 1]);
    }
  }

  /** Every quiet run on a live connection is healthy, so the two results above apply to it. */
  lemma QuietRunsAreHealthy(events: seq<Event>)
    requires AllQuiet(events) && Run(Init(), events).connected
    ensures Healthy(Run(Init(), events))
  {
    EveryRunIsInOrder(events);
    EveryQuietRunLosesNone(events);
    WorkerNeverSent(events);
  }

  /** Up to the point where the worker holds a new status, published on a quiet connection. */
  function Serving(status: Status): seq<Event> {
    [Publish(status, true), Put, Clear, Take, CheckConnected, WorkerLock, WorkerSnapshot]
  }

  lemma Unroll(s: State, events: seq<Event>, n: nat)
    requires n < |events|
    ensures Run(s, events[..n + 1]) == Step(Run(s, events[..n]), events[n])
  {
    assert events[..n + 1][..n] == events[..n];
  }

  lemma WakeupIsQueued(s: State, status: Status)
    requires Settled(s) && s.queue == [] && status != s.latest.status
    ensures Run(s, Serving(status)[..3]) == s.(latest := Message(s.latest.version + 1, status), queue := [Wakeup])
  {
    Unroll(s, Serving(status), 0);
    Unroll(s, Serving(status), 1);
    Unroll(s, Serving(status), 2);
  }

  lemma WakeupIsServed(s: State, status: Status)
    requires Settled(s) && s.queue == [] && status != s.latest.status
    ensures Run(s, Serving(status)[..5]) == s.(latest := Message(s.latest.version + 1, status), worker := Ready)
  {
    WakeupIsQueued(s, status);
    Unroll(s, Serving(status), 3);
    Unroll(s, Serving(status), 4);
  }

  lemma StatusIsHeld(s: State, status: Status)
    requires Settled(s) && s.queue == [] && status != s.latest.status
    ensures
      var latest := Message(s.latest.version + 1, status);
      Run(s, Serving(status)) == s.(latest := latest, worker := Holding(latest))
  {
    WakeupIsServed(s, status);
    Unroll(s, Serving(status), 5);
    Unroll(s, Serving(status), 6);
    assert Serving(status)[..7] == Serving(status);
  }

  lemma HeldIsUncarried(s: State, latest: Message)
    requires Healthy(s) && Settled(s) && s.queue == [] && latest.version > s.latest.version
    ensures
      var holding := s.(latest := latest, worker := Holding(latest));
      Healthy(holding) && Undelivered(holding) && !CarriedOtherwise(holding, WorkerSend(true))
  {
    if s.handed != [] { assert Known(s.handed[|s.handed| - 1], s.latest); }
  }

  /** The loss is no idle case: from every settled state a new status and a worker that raises reach it. */
  lemma LossIsReachable(s: State, status: Status)
    requires Healthy(s) && Settled(s) && s.queue == [] && status != s.latest.status
    ensures
      var holding := Run(s, Serving(status));
      holding.latest.status == status && holding.worker == Holding(holding.latest)
      && LostForGood(Step(holding, WorkerSend(true)))
  {
    StatusIsHeld(s, status);
    HeldIsUncarried(s, Message(s.latest.version + 1, status));
    RaiseLosesExactly(Run(s, Serving(status)), WorkerSend(true));
  }

  // ---------------------------------------------------------------- the object

  /** The bridge; one method per atomic section of its three threads. */
  class Bridge {
    var latest: Message
    var pending: bool
    var connected: bool
    var queue: seq<Item>
    ghost var worker: Sender
    ghost var replay: Sender
    ghost var producer: Producer
    ghost var handed: seq<Message>

    ghost function Abs(): State
      reads this
    {
      State(latest, pending, connected, queue, worker, replay, producer, handed)
    }

    constructor ()
      ensures Abs() == Init()
    {
      latest, pending, connected, queue := Message(0, NO_STATUS), true, false, [];
      worker, replay, producer, handed := Idle, Idle, Away, [];
    }

    method PublishSetpointOverride(status: Status, threadStarts: bool)
      requires producer.Away?
      modifies `latest, `pending, `producer
      ensures Abs() == Step(old(Abs()), Publish(status, threadStarts))
    {
      if status != latest.status {
        latest := Message(latest.version + 1, status);
        pending := true;
      }
      if connected && pending && threadStarts { producer := Putting; }
    }

    method PutNowait() returns (accepted: bool)
      requires producer.Putting?
      modifies `queue, `producer
      ensures Abs() == Step(old(Abs()), Put) && (accepted <==> producer.Clearing?)
    {
      accepted := |queue| < CAPACITY;
      if accepted { queue := queue + [Wakeup]; }
      producer := if accepted then Clearing else Away;
    }

    method ClearPending()
      requires producer.Clearing?
      modifies `pending, `producer
      ensures Abs() == Step(old(Abs()), Clear)
    {
      pending := false;
      producer := Away;
    }

    method GetItem() returns (item: Option<Item>)
      requires worker.Idle?
      modifies `queue, `worker
      ensures Abs() == Step(old(Abs()), Take)
      ensures item == if old(queue) == [] then None else Some(old(queue)[0])
    {
      if queue == [] { return None; }
      item := Some(queue[0]);
      queue := queue[1..];
      worker := Took(item.value);
    }

    method JudgeItem(item: Item) returns (send: bool)
      requires worker == Took(item)
      modifies `worker
      ensures Abs() == Step(old(Abs()), CheckConnected) && (send <==> worker.Ready?)
    {
      send := connected && item.Wakeup?;
      worker := if send then Ready else Idle;
    }

    /** The status lock is free, and this sender owns the publish lock. */
    method Snapshot(ghost byWorker: bool) returns (message: Message)
      requires producer.Away? && (if byWorker then worker else replay).Locked?
      modifies `worker, `replay
      ensures Abs() == Step(old(Abs()), if byWorker then WorkerSnapshot else ReplaySnapshot)
      ensures message == latest && (if byWorker then worker else replay) == Holding(message)
    {
      message := latest;
      if byWorker { worker := Holding(message); } else { replay := Holding(message); }
    }

    method ClientPublish(ghost byWorker: bool, message: Message, raises: bool)
      requires (if byWorker then worker else replay) == Holding(message)
      modifies `worker, `replay, `handed
      ensures Abs() == Step(old(Abs()), if byWorker then WorkerSend(raises) else ReplaySend(raises))
    {
      if !raises { handed := handed + [message]; }
      if byWorker { worker := Idle; } else { replay := if raises then Idle else Sent(message); }
    }

    method OnConnect(accepted: bool)
      requires replay.Idle?
      modifies `connected, `replay
      ensures Abs() == Step(old(Abs()), Connect(accepted))
    {
      connected := accepted;
      if accepted { replay := Ready; }
    }

    method AfterReplay(published: Message)
      requires replay == Sent(published) && producer.Away?
      modifies `pending, `replay
      ensures Abs() == Step(old(Abs()), ReplayEnd)
    {
      if latest.version == published.version { pending := false; }
      replay := Idle;
    }

    method OnDisconnect()
      modifies `connected
      ensures Abs() == Step(old(Abs()), Disconnect)
    {
      connected := false;
    }
  }
}
