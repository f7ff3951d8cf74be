/**
 The life of items under any interleaving of their controllers, the processor, the sweep and the shutdown.
 Finalization is two steps: entering the once-only section, where the admission handle is read, and publishing.
 */
module ItemProtocol {
  import opened FlowItems
  import opened Options

  datatype Once = Open | Running(pending: FinalState) | Done

  /** Where an item is; it only ever moves forward through these places. */
  datatype Place = Fresh | Buffered | Held | Queued | Left | Dropped

  function Rank(p: Place): nat {
    match p
    case Fresh => 0
    case Buffered => 1
    case Held => 2
    case Queued => 3
    case Left => 4
    case Dropped => 5
  }

  /** The controller goroutine of an item. */
  datatype Waiter = Owner | Waiting | Expired | Returned(state: FinalState)

  /** `queue` is the flow of the request; `late` records that the once-only section was taken before the admission. */
  datatype Item = Item(
    queue: nat,
    life: Life,
    once: Once,
    place: Place,
    waiter: Waiter,
    admissions: nat,
    departures: nat,
    late: bool)

  function NewItem(queue: nat): Item {
    Item(queue, NEWBORN, Open, Fresh, Owner, 0, 0, false)
  }

  datatype Processor = Idle | Holding(i: nat) | Admitting(i: nat) | Dispatching(i: nat)

  /**
   The shutdown empties the channel, lists the queues while others may still be created (`base` were there when the
   listing began), and has its workers drain every listed queue once.
   */
  datatype Mode = Serving | Draining | Listing(base: set<nat>) | Evicting(todo: set<nat>) | Halted

  /**
   `queues` are the queues provisioned on the shard; `tasks` are the finalizations the processor and its workers have
   still to complete; `present` records the items that were buffered or queued when the shutdown began.
   */
  datatype State = State(
    items: seq<Item>,
    queues: set<nat>,
    channel: seq<nat>,
    processor: Processor,
    tasks: map<nat, FinalState>,
    mode: Mode,
    present: set<nat>)

  datatype Action =
    | Create(queue: nat)
    | Submit(i: nat)
    | Refuse(i: nat, capacity: bool, why: Error)
    | Expire(i: nat, cause: Error)
    | Publish(i: nat)
    | Return(i: nat)
    | Receive
    | Discard
    | Pass
    | Reject(capacity: bool, why: Error)
    | Admit(handle: nat)
    | Peek(i: nat)
    | Take
    | Settle(i: nat)
    | Sweep(queue: nat)
    | NewQueue(queue: nat)
    | Stop
    | DrainNext
    | DrainDone
    | Snapshot(seen: set<nat>)
    | Drain(queue: nat)
    | StopDone

  predicate IsController(a: Action) {
    a.Submit? || a.Refuse? || a.Expire? || a.Publish? || a.Return?
  }

  predicate IsProcessor(a: Action) {
    a.Receive? || a.Discard? || a.Pass? || a.Reject? || a.Admit? || a.Peek? || a.Take?
  }

  predicate IsBackground(a: Action) {
    a.Settle? || a.Sweep? || a.NewQueue?
  }

  predicate IsShutdown(a: Action) {
    a.Stop? || a.DrainNext? || a.DrainDone? || a.Snapshot? || a.Drain? || a.StopDone?
  }

  function Init(): State {
    State([], {}, [], Idle, map[], Serving, {})
  }

  function RejectedState(capacity: bool, why: Error): FinalState {
    if capacity then FinalState(RejectedCapacity, Some({ErrRejected} + why))
    else FinalState(RejectedOther, Some({ErrRejected} + why))
  }

  const SHUTDOWN_REJECTION := FinalState(RejectedOther, Some({ErrRejected, ErrFlowControllerNotRunning}))
  const SHUTDOWN_EVICTION := FinalState(EvictedOther, Some({ErrEvicted, ErrFlowControllerNotRunning}))

  predicate Known(s: State, i: nat) {
    i < |s.items|
  }

  function With(s: State, i: nat, it: Item): State
    requires Known(s, i)
  {
    s.(items := s.items[i := it])
  }

  /** Enters the once-only section with the given state, unless somebody already has. */
  function Entered(it: Item, f: FinalState): Item {
    if it.once.Open? then it.(once := Running(f)) else it
  }

  // ---------------------------------------------------------------------------------------------
  // Controllers.

  function ControllerStep(s: State, a: Action): Option<State>
    requires IsController(a)
  {
    if !Known(s, a.i) then None else
    var it := s.items[a.i];
    match a
    case Submit(i) =>
      if it.waiter != Owner then None
      else Some(With(s, i, it.(waiter := Waiting, place := Buffered)).(channel := s.channel + [i]))
    case Refuse(i, capacity, why) =>
      if it.waiter != Owner then None
      else Some(With(s, i, Entered(it, RejectedState(capacity, why)).(waiter := Expired)))
    case Expire(i, cause) =>
      if it.waiter != Owner && it.waiter != Waiting then None
      else Some(With(s, i, Entered(it, InferOutcome(cause, it.life.handle.Some?)).(waiter := Expired)))
    case Publish(i) =>
      if !it.once.Running? then None
      else Some(With(s, i, it.(life := Finalized(it.life, it.once.pending), once := Done)))
    case Return(i) =>
      if (it.waiter != Waiting && it.waiter != Expired) || it.life.final.None? then None
      else Some(With(s, i, it.(waiter := Returned(it.life.final.value))))
  }

  // ---------------------------------------------------------------------------------------------
  // The processor.

  function ProcessorStep(s: State, a: Action): Option<State>
    requires IsProcessor(a)
  {
    match (a, s.processor)
    case (Receive, Idle) =>
      if s.channel == [] || !Known(s, s.channel[0]) || s.mode != Serving then None
      else
        var i := s.channel[0];
        Some(With(s, i, s.items[i].(place := Held)).(channel := s.channel[1..], processor := Holding(i)))
    case (Discard, Holding(i)) =>
      if !Known(s, i) || s.items[i].life.final.None? then None
      else Some(With(s, i, s.items[i].(place := Dropped)).(processor := Idle))
    case (Pass, Holding(i)) =>
      if !Known(s, i) || s.items[i].life.final.Some? then None else Some(s.(processor := Admitting(i)))
    case (Reject(capacity, why), Admitting(i)) =>
      if !Known(s, i) then None
      else Some(With(s, i, s.items[i].(place := Dropped)).(
                  processor := Idle, tasks := s.tasks[i := RejectedState(capacity, why)]))
    case (Admit(h), Admitting(i)) =>
      if !Known(s, i) || s.items[i].queue !in s.queues then None
      else Some(With(s, i, Admitted(s.items[i], h)).(processor := Idle))
    case (Peek(i), Idle) =>
      if !Known(s, i) || s.items[i].place != Queued || s.mode != Serving then None
      else Some(s.(processor := Dispatching(i)))
    case (Take, Dispatching(i)) =>
      if !Known(s, i) || s.items[i].place != Queued then Some(s.(processor := Idle))
      else Some(With(s, i, Departed(s.items[i])).(
                  processor := Idle, tasks := s.tasks[i := FinalState(Dispatched, None)]))
    case _ => None
  }

  function Admitted(it: Item, handle: nat): Item {
    it.(place := Queued, life := it.life.(handle := Some(handle)),
        admissions := it.admissions + 1, late := !it.once.Open?)
  }

  function Departed(it: Item): Item {
    it.(place := Left, departures := it.departures + 1)
  }

  /** Cleanup of one queue: exactly its finalized items leave. */
  function Swept(it: Item): Item {
    if it.place == Queued && it.life.final.Some? then Departed(it) else it
  }

  predicate InQueue(it: Item, queue: nat) {
    it.place == Queued && it.queue == queue
  }

  /** Draining one queue: all its items leave, to be finalized as evicted. */
  function Drained(s: State, queue: nat): State {
    s.(items := seq(|s.items|, i requires 0 <= i < |s.items| =>
                      if InQueue(s.items[i], queue) then Departed(s.items[i]) else s.items[i]),
       tasks := map i | i in s.tasks.Keys + InQueueNow(s, queue) ::
                  if i in InQueueNow(s, queue) then SHUTDOWN_EVICTION else s.tasks[i])
  }

  function InQueueNow(s: State, queue: nat): set<nat> {
    set i | 0 <= i < |s.items| && InQueue(s.items[i], queue)
  }

  function BackgroundStep(s: State, a: Action): Option<State>
    requires IsBackground(a)
  {
    match a
    case Settle(i) =>
      if i !in s.tasks || !Known(s, i) then None
      else
        if s.items[i].once.Open? then Some(With(s, i, Entered(s.items[i], s.tasks[i])))
        else if s.items[i].once.Running? then None
        else Some(s.(tasks := s.tasks - {i}))
    case Sweep(queue) =>
      Some(s.(items := seq(|s.items|, i requires 0 <= i < |s.items| =>
                         if s.items[i].queue == queue then Swept(s.items[i]) else s.items[i])))
    case NewQueue(queue) => Some(s.(queues := s.queues + {queue}))
  }

  function ShutdownStep(s: State, a: Action): Option<State>
    requires IsShutdown(a)
  {
    match a
    case Stop =>
      if s.mode != Serving || s.processor != Idle then None
      else Some(s.(mode := Draining,
                   present := set i | 0 <= i < |s.items| &&
                                      (s.items[i].place == Buffered || s.items[i].place == Queued)))
    case DrainNext =>
      if s.mode != Draining || s.channel == [] || !Known(s, s.channel[0]) then None
      else
        var i := s.channel[0];
        Some(With(s, i, s.items[i].(place := Dropped)).(
               channel := s.channel[1..], tasks := s.tasks[i := SHUTDOWN_REJECTION]))
    case DrainDone =>
      if s.mode != Draining || s.channel != [] then None else Some(s.(mode := Listing(s.queues)))
    case Snapshot(seen) =>
      if !s.mode.Listing? || !(s.mode.base <= seen <= s.queues) then None else Some(s.(mode := Evicting(seen)))
    case Drain(queue) =>
      if !s.mode.Evicting? || queue !in s.mode.todo then None
      else Some(Drained(s, queue).(mode := Evicting(s.mode.todo - {queue})))
    case StopDone =>
      if s.mode != Evicting({}) || s.tasks != map[] then None else Some(s.(mode := Halted))
  }

  function Next(s: State, a: Action): Option<State> {
    if a.Create? then Some(s.(items := s.items + [NewItem(a.queue)]))
    else if IsController(a) then ControllerStep(s, a)
    else if IsBackground(a) then BackgroundStep(s, a)
    else if IsShutdown(a) then ShutdownStep(s, a)
    else ProcessorStep(s, a)
  }

  function Exec(s: State, run: seq<Action>): Option<State>
    decreases |run|
  {
    if run == [] then Some(s) else
    match Next(s, run[0])
    case None => None
    case Some(next) => Exec(next, run[1..])
  }

  // ---------------------------------------------------------------------------------------------
  // The invariant.

  /** A state that may be published for an item: proper, and only an admitted item is dispatched or evicted. */
  predicate Fits(f: FinalState, l: Life) {
    Proper(f) && (f.outcome.Dispatched? || f.outcome.Evicted() ==> l.handle.Some?)
  }

  predicate ItemSound(it: Item) {
    && match it.once {
         case Open => it.life.final.None? && it.life.signals == []
         case Running(f) => it.life.final.None? && it.life.signals == [] && Fits(f, it.life)
         case Done =>
           it.life.final.Some? && it.life.signals == [it.life.final.value] && Fits(it.life.final.value, it.life)
       }
    && (it.life.handle.Some? <==> it.place == Queued || it.place == Left)
    && it.admissions == (if it.place == Queued || it.place == Left then 1 else 0)
    && it.departures == (if it.place == Left then 1 else 0)
    && (it.waiter.Owner? ==> it.place == Fresh && it.once.Open?)
    && OutcomeFitsAdmission(it)
    && (it.waiter.Expired? ==> !it.once.Open?)
    && (it.waiter.Returned? ==> it.life.final == Some(it.waiter.state))
  }

  /** An item admitted late has a rejection for its outcome, one admitted in time has none. */
  predicate OutcomeFitsAdmission(it: Item) {
    && (it.late ==> it.life.handle.Some? && !it.once.Open?)
    && (it.life.handle.Some? && it.once.Running? ==> (it.late <==> it.once.pending.outcome.Rejected()))
    && (it.life.handle.Some? && it.life.final.Some? ==> (it.late <==> it.life.final.value.outcome.Rejected()))
    && (it.life.handle.None? && it.once.Running? ==> it.once.pending.outcome.Rejected())
    && (it.life.handle.None? && it.life.final.Some? ==> it.life.final.value.outcome.Rejected())
  }

  ghost predicate ItemsSound(s: State) {
    forall i :: 0 <= i < |s.items| ==> ItemSound(s.items[i])
  }

  /** The channel lists exactly the buffered items, each once; the processor's hand holds exactly the held one. */
  ghost predicate PlacesSound(s: State) {
    && (forall j :: 0 <= j < |s.channel| ==> s.channel[j] < |s.items| && s.items[s.channel[j]].place == Buffered)
    && (forall j, k :: 0 <= j < k < |s.channel| ==> s.channel[j] != s.channel[k])
    && (forall i :: 0 <= i < |s.items| && s.items[i].place == Buffered ==> i in s.channel)
    && (forall i :: 0 <= i < |s.items| ==>
          (s.items[i].place == Held <==> s.processor == Holding(i) || s.processor == Admitting(i)))
    && (s.processor.Holding? || s.processor.Admitting? ==> s.processor.i < |s.items|)
    && (s.mode != Serving ==> s.processor == Idle)
  }

  /** An item that the processor, the sweep or the shutdown is through with is final, or about to be. */
  ghost predicate GoneAreSettled(s: State) {
    forall i :: 0 <= i < |s.items| && (s.items[i].place == Left || s.items[i].place == Dropped) ==>
      i in s.tasks || !s.items[i].once.Open?
  }

  ghost predicate TasksSound(s: State) {
    forall i :: i in s.tasks ==>
      && i < |s.items| && Fits(s.tasks[i], s.items[i].life)
      && (s.items[i].place == Left || s.items[i].place == Dropped)
      && (s.tasks[i].outcome.Rejected() <==> s.items[i].place == Dropped)
  }

  /** Whoever was present at the shutdown is still buffered or queued, or is final or about to be. */
  ghost predicate PresentSound(s: State) {
    && (s.mode == Serving ==> s.present == {})
    && (forall i :: i in s.present ==> i < |s.items|)
    && (forall i :: i in s.present ==>
          || (s.mode == Draining && i in s.channel)
          || (s.mode != Halted && s.items[i].place == Queued)
          || i in s.tasks || s.items[i].life.final.Some?)
    && (s.mode == Halted ==> s.tasks == map[])
  }

  predicate Covered(s: State, queues: set<nat>) {
    forall i :: 0 <= i < |s.items| && s.items[i].place == Queued ==> s.items[i].queue in queues
  }

  /** Every queued item is in a provisioned queue, and once the processor has stopped in one still to be drained. */
  ghost predicate QueuesSound(s: State) {
    && Covered(s, s.queues)
    && (s.mode.Listing? ==> s.mode.base <= s.queues && Covered(s, s.mode.base))
    && (s.mode.Evicting? ==> Covered(s, s.mode.todo))
    && (s.mode == Halted ==> Covered(s, {}))
  }

  ghost predicate Inv(s: State) {
    ItemsSound(s) && PlacesSound(s) && TasksSound(s) && PresentSound(s) && QueuesSound(s) && GoneAreSettled(s)
  }

  lemma ControllerKeepsItems(s: State, a: Action)
    requires ItemsSound(s) && IsController(a)
    requires ControllerStep(s, a).Some?
    ensures ItemsSound(ControllerStep(s, a).value)
  {
    assert ItemSound(s.items[a.i]);
  }

  lemma ControllerKeepsRest(s: State, a: Action)
    requires Inv(s) && IsController(a)
    requires ControllerStep(s, a).Some?
    ensures var s' := ControllerStep(s, a).value;
            PlacesSound(s') && TasksSound(s') && PresentSound(s') && QueuesSound(s')
  {
    ControllerKeepsPlaces(s, a);
    QueuesFrame(s, ControllerStep(s, a).value);
    ControllerKeepsTasks(s, a);
    ControllerKeepsPresent(s, a);
  }

  lemma ControllerKeepsPlaces(s: State, a: Action)
    requires Inv(s) && IsController(a) && ControllerStep(s, a).Some?
    ensures PlacesSound(ControllerStep(s, a).value)
  {
    assert ItemSound(s.items[a.i]);
    if a.Submit? {
      SubmitKeepsPlaces(s, a.i, ControllerStep(s, a).value);
    } else {
      PlacesFrame(s, ControllerStep(s, a).value);
    }
  }

  /** A step that moves no item keeps the places. */
  lemma PlacesFrame(s: State, s': State)
    requires PlacesSound(s) && |s'.items| == |s.items| && s'.channel == s.channel
    requires s'.processor == s.processor && (s'.mode != Serving ==> s'.processor == Idle)
    requires forall i :: 0 <= i < |s.items| ==> s'.items[i].place == s.items[i].place
    ensures PlacesSound(s')
  {
  }

  /** A step that queues nothing, and takes no queue off the list, keeps every queued item covered. */
  lemma QueuesFrame(s: State, s': State)
    requires QueuesSound(s) && |s'.items| == |s.items| && s.queues <= s'.queues && s'.mode == s.mode
    requires forall i :: 0 <= i < |s.items| ==>
               s'.items[i].queue == s.items[i].queue && (s'.items[i].place == Queued ==> s.items[i].place == Queued)
    ensures QueuesSound(s')
  {
  }

  lemma SubmitKeepsPlaces(s: State, i: nat, s': State)
    requires PlacesSound(s) && i < |s.items| && s.items[i].place == Fresh
    requires s' == With(s, i, s.items[i].(waiter := Waiting, place := Buffered)).(channel := s.channel + [i])
    ensures PlacesSound(s')
  {
    forall j | 0 <= j < |s.channel|
      ensures s.channel[j] != i && s'.items[s.channel[j]].place == Buffered
    {
      assert s.items[s.channel[j]].place == Buffered;
    }
    forall k | 0 <= k < |s'.items| && s'.items[k].place == Buffered
      ensures k in s'.channel
    {
      assert k != i ==> k in s.channel;
    }
  }

  /** The item in the processor's hand moves on, and leaves the hand unless it stays held. */
  lemma HandMoves(s: State, s': State, i: nat)
    requires PlacesSound(s) && (s.processor == Holding(i) || s.processor == Admitting(i)) && i < |s.items|
    requires |s'.items| == |s.items| && s'.channel == s.channel && s'.mode == s.mode
    requires forall j :: 0 <= j < |s.items| && j != i ==> s'.items[j].place == s.items[j].place
    requires s'.items[i].place != Buffered
    requires s'.processor == if s'.items[i].place == Held then Admitting(i) else Idle
    ensures PlacesSound(s')
  {
    assert s.items[i].place == Held;
    forall j | 0 <= j < |s.channel|
      ensures s'.items[s.channel[j]].place == Buffered
    {
      assert s.items[s.channel[j]].place == Buffered;
    }
  }

  lemma ControllerKeepsTasks(s: State, a: Action)
    requires Inv(s) && IsController(a) && ControllerStep(s, a).Some?
    ensures TasksSound(ControllerStep(s, a).value)
  {
    assert ItemSound(s.items[a.i]);
  }

  lemma ControllerKeepsPresent(s: State, a: Action)
    requires Inv(s) && IsController(a) && ControllerStep(s, a).Some?
    ensures PresentSound(ControllerStep(s, a).value)
  {
    assert ItemSound(s.items[a.i]);
  }

  lemma ProcessorKeepsItems(s: State, a: Action)
    requires ItemsSound(s) && PlacesSound(s)
    requires IsProcessor(a)
    requires ProcessorStep(s, a).Some?
    ensures ItemsSound(ProcessorStep(s, a).value)
  {
    var s' := ProcessorStep(s, a).value;
    if a.Receive? {
      assert ItemSound(s.items[s.channel[0]]) && s.items[s.channel[0]].place == Buffered;
    }
  }

  lemma ChannelTail(channel: seq<nat>)
    requires channel != [] && forall j, k :: 0 <= j < k < |channel| ==> channel[j] != channel[k]
    ensures channel[0] !in channel[1..]
    ensures forall i :: i in channel && i != channel[0] ==> i in channel[1..]
    ensures forall j, k :: 0 <= j < k < |channel[1..]| ==> channel[1..][j] != channel[1..][k]
  {
  }

  /** The head of the channel leaves it, for the processor's hand or for good. */
  lemma HeadLeaves(s: State, n: State)
    requires PlacesSound(s) && s.channel != [] && s.processor == Idle && |n.items| == |s.items|
    requires n.channel == s.channel[1..] && (n.mode != Serving ==> n.processor == Idle)
    requires n.processor == (if n.items[s.channel[0]].place == Held then Holding(s.channel[0]) else Idle)
    requires n.items[s.channel[0]].place != Buffered
    requires forall i :: 0 <= i < |s.items| && i != s.channel[0] ==> n.items[i].place == s.items[i].place
    ensures PlacesSound(n)
  {
    ChannelTail(s.channel);
    forall j | 0 <= j < |n.channel|
      ensures n.channel[j] < |n.items| && n.items[n.channel[j]].place == Buffered
    {
      assert n.channel[j] == s.channel[j + 1] && n.channel[j] in s.channel[1..];
    }
  }

  lemma ReceiveKeepsPlaces(s: State)
    requires PlacesSound(s) && ProcessorStep(s, Receive).Some?
    ensures PlacesSound(ProcessorStep(s, Receive).value)
  {
    HeadLeaves(s, ProcessorStep(s, Receive).value);
  }

  lemma HandKeepsPlaces(s: State, a: Action)
    requires PlacesSound(s) && (a.Discard? || a.Pass? || a.Reject? || a.Admit? || a.Peek? || a.Take?)
    requires ProcessorStep(s, a).Some?
    ensures PlacesSound(ProcessorStep(s, a).value)
  {
    var s' := ProcessorStep(s, a).value;
    if a.Peek? || a.Take? {
      DispatchKeepsPlaces(s, a, s');
    } else {
      HandMoves(s, s', s.processor.i);
    }
  }

  lemma DispatchKeepsPlaces(s: State, a: Action, s': State)
    requires PlacesSound(s) && (a.Peek? || a.Take?) && ProcessorStep(s, a) == Some(s')
    ensures PlacesSound(s')
  {
    forall j | 0 <= j < |s.channel|
      ensures s'.items[s.channel[j]].place == Buffered
    {
      assert s.items[s.channel[j]].place == Buffered;
    }
  }

  lemma ProcessorKeepsTasks(s: State, a: Action)
    requires ItemsSound(s) && PlacesSound(s) && TasksSound(s)
    requires IsProcessor(a)
    requires ProcessorStep(s, a).Some?
    ensures TasksSound(ProcessorStep(s, a).value)
  {
    if a.Take? {
      TakeKeepsTasks(s);
    } else if a.Receive? {
      assert s.items[s.channel[0]].place == Buffered;
    } else if !a.Peek? {
      HandKeepsTasks(s, a);
    }
  }

  lemma TakeKeepsTasks(s: State)
    requires ItemsSound(s) && TasksSound(s) && ProcessorStep(s, Take).Some?
    ensures TasksSound(ProcessorStep(s, Take).value)
  {
    if Known(s, s.processor.i) {
      assert ItemSound(s.items[s.processor.i]);
    }
  }

  lemma HandKeepsTasks(s: State, a: Action)
    requires PlacesSound(s) && TasksSound(s) && (a.Discard? || a.Pass? || a.Reject? || a.Admit?)
    requires ProcessorStep(s, a).Some?
    ensures TasksSound(ProcessorStep(s, a).value)
  {
    assert s.items[s.processor.i].place == Held;
  }

  lemma ProcessorKeepsPresent(s: State, a: Action)
    requires PlacesSound(s) && PresentSound(s)
    requires IsProcessor(a)
    requires ProcessorStep(s, a).Some?
    ensures PresentSound(ProcessorStep(s, a).value)
  {
  }

  lemma ProcessorKeepsQueues(s: State, a: Action)
    requires PlacesSound(s) && QueuesSound(s) && IsProcessor(a) && ProcessorStep(s, a).Some?
    ensures QueuesSound(ProcessorStep(s, a).value)
  {
    if !a.Admit? {
      QueuesFrame(s, ProcessorStep(s, a).value);
    }
  }

  lemma BackgroundKeepsInv(s: State, a: Action)
    requires Inv(s) && IsBackground(a) && BackgroundStep(s, a).Some?
    ensures Inv(BackgroundStep(s, a).value)
  {
    QueuesFrame(s, BackgroundStep(s, a).value);
    BackgroundKeepsSettled(s, a);
    if a.Settle? {
      SettleKeepsInv(s, a);
    } else if a.Sweep? {
      SweepKeepsInv(s, a);
    }
  }

  lemma SettleKeepsInv(s: State, a: Action)
    requires Inv(s) && a.Settle? && BackgroundStep(s, a).Some?
    requires QueuesSound(BackgroundStep(s, a).value) && GoneAreSettled(BackgroundStep(s, a).value)
    ensures Inv(BackgroundStep(s, a).value)
  {
    assert ItemSound(s.items[a.i]);
    PlacesFrame(s, BackgroundStep(s, a).value);
  }

  lemma SweepKeepsInv(s: State, a: Action)
    requires Inv(s) && a.Sweep? && BackgroundStep(s, a).Some?
    requires QueuesSound(BackgroundStep(s, a).value) && GoneAreSettled(BackgroundStep(s, a).value)
    ensures Inv(BackgroundStep(s, a).value)
  {
    SweepKeepsPlaces(s, a);
    SweepKeepsRest(s, a);
  }

  lemma SweepKeepsPlaces(s: State, a: Action)
    requires PlacesSound(s) && a.Sweep? && BackgroundStep(s, a).Some?
    ensures PlacesSound(BackgroundStep(s, a).value)
  {
  }

  lemma SweepKeepsRest(s: State, a: Action)
    requires ItemsSound(s) && TasksSound(s) && PresentSound(s) && a.Sweep? && BackgroundStep(s, a).Some?
    ensures var s' := BackgroundStep(s, a).value; ItemsSound(s') && TasksSound(s') && PresentSound(s')
  {
  }

  lemma ShutdownKeepsItems(s: State, a: Action)
    requires Inv(s) && IsShutdown(a)
    requires ShutdownStep(s, a).Some?
    ensures ItemsSound(ShutdownStep(s, a).value) && TasksSound(ShutdownStep(s, a).value)
  {
    if a.DrainNext? {
      assert ItemSound(s.items[s.channel[0]]) && s.items[s.channel[0]].place == Buffered;
    }
    if a.Drain? {
      DrainedKeepsItems(s, a.queue);
    }
  }

  lemma DrainedKeepsItems(s: State, queue: nat)
    requires ItemsSound(s) && TasksSound(s)
    ensures ItemsSound(Drained(s, queue)) && TasksSound(Drained(s, queue))
  {
    forall i | 0 <= i < |s.items|
      ensures ItemSound(Drained(s, queue).items[i])
    {
      assert ItemSound(s.items[i]);
    }
  }

  lemma DrainKeepsPlaces(s: State)
    requires PlacesSound(s) && ShutdownStep(s, DrainNext).Some?
    ensures PlacesSound(ShutdownStep(s, DrainNext).value)
  {
    HeadLeaves(s, ShutdownStep(s, DrainNext).value);
  }

  lemma ShutdownKeepsPlaces(s: State, a: Action)
    requires PlacesSound(s) && IsShutdown(a) && !a.DrainNext?
    requires ShutdownStep(s, a).Some?
    ensures PlacesSound(ShutdownStep(s, a).value)
  {
  }

  lemma ShutdownKeepsPresent(s: State, a: Action)
    requires PlacesSound(s) && PresentSound(s) && QueuesSound(s) && IsShutdown(a)
    requires ShutdownStep(s, a).Some?
    ensures PresentSound(ShutdownStep(s, a).value)
  {
    if a.DrainNext? {
      assert forall i :: i in s.channel && i != s.channel[0] ==> i in s.channel[1..];
    }
  }

  lemma ShutdownKeepsQueues(s: State, a: Action)
    requires QueuesSound(s) && IsShutdown(a) && ShutdownStep(s, a).Some?
    ensures QueuesSound(ShutdownStep(s, a).value)
  {
    var s' := ShutdownStep(s, a).value;
    if a.DrainNext? {
      QueuesFrame(s, s');
    } else if a.Drain? {
      DrainedLeavesTheRest(s, a.queue);
    }
  }

  /** A drained queue is empty, and the drain puts nothing into another. */
  lemma DrainedLeavesTheRest(s: State, queue: nat)
    ensures var s' := Drained(s, queue);
            && |s'.items| == |s.items|
            && forall i :: 0 <= i < |s.items| ==>
                 && s'.items[i].queue == s.items[i].queue
                 && (s'.items[i].place == Queued <==> s.items[i].place == Queued && s.items[i].queue != queue)
  {
  }

  lemma ControllerKeepsSettled(s: State, a: Action)
    requires ItemsSound(s) && GoneAreSettled(s) && IsController(a) && ControllerStep(s, a).Some?
    ensures GoneAreSettled(ControllerStep(s, a).value)
  {
    assert ItemSound(s.items[a.i]);
  }

  lemma ProcessorKeepsSettled(s: State, a: Action)
    requires ItemsSound(s) && GoneAreSettled(s) && IsProcessor(a) && ProcessorStep(s, a).Some?
    ensures GoneAreSettled(ProcessorStep(s, a).value)
  {
    if a.Discard? {
      assert ItemSound(s.items[s.processor.i]);
    }
  }

  lemma BackgroundKeepsSettled(s: State, a: Action)
    requires ItemsSound(s) && GoneAreSettled(s) && IsBackground(a) && BackgroundStep(s, a).Some?
    ensures GoneAreSettled(BackgroundStep(s, a).value)
  {
    if a.Sweep? {
      forall i | 0 <= i < |s.items| && s.items[i].life.final.Some?
        ensures !s.items[i].once.Open?
      {
        assert ItemSound(s.items[i]);
      }
    }
  }

  lemma ShutdownKeepsSettled(s: State, a: Action)
    requires GoneAreSettled(s) && IsShutdown(a) && ShutdownStep(s, a).Some?
    ensures GoneAreSettled(ShutdownStep(s, a).value)
  {
  }

  lemma StepKeepsInv(s: State, a: Action)
    requires Inv(s) && Next(s, a).Some?
    ensures Inv(Next(s, a).value)
  {
    if a.Create? {
      CreateKeepsInv(s, a.queue);
    } else if IsController(a) {
      ControllerKeepsItems(s, a);
      ControllerKeepsRest(s, a);
      ControllerKeepsSettled(s, a);
    } else if IsBackground(a) {
      BackgroundKeepsInv(s, a);
    } else if IsShutdown(a) {
      ShutdownKeepsItems(s, a);
      ShutdownKeepsPresent(s, a);
      ShutdownKeepsQueues(s, a);
      ShutdownKeepsSettled(s, a);
      if a.DrainNext? {
        DrainKeepsPlaces(s);
      } else {
        ShutdownKeepsPlaces(s, a);
      }
    } else {
      ProcessorKeepsItems(s, a);
      ProcessorKeepsTasks(s, a);
      ProcessorKeepsPresent(s, a);
      ProcessorKeepsQueues(s, a);
      ProcessorKeepsSettled(s, a);
      if a.Receive? {
        ReceiveKeepsPlaces(s);
      } else {
        HandKeepsPlaces(s, a);
      }
    }
  }

  lemma CreateKeepsInv(s: State, queue: nat)
    requires Inv(s)
    ensures Inv(s.(items := s.items + [NewItem(queue)]))
  {
  }

  // ---------------------------------------------------------------------------------------------
  // Every run.

  lemma {:induction false} RunKeepsInv(s: State, run: seq<Action>)
    requires Inv(s) && Exec(s, run).Some?
    ensures Inv(Exec(s, run).value)
    decreases |run|
  {
    if run != [] {
      StepKeepsInv(s, run[0]);
      RunKeepsInv(Next(s, run[0]).value, run[1..]);
    }
  }

  /**
   In every run an item is signalled at most once, with its final state; that state is proper; only an admitted item
   is dispatched or evicted; a waiting request returns exactly its item's final state; and an item is admitted at
   most once and leaves its queue at most once.
   */
  lemma OutcomesAreProper(run: seq<Action>, i: nat)
    requires Exec(Init(), run).Some? && i < |Exec(Init(), run).value.items|
    ensures var it := Exec(Init(), run).value.items[i];
            && |it.life.signals| <= 1
            && (it.life.final.Some? ==> Proper(it.life.final.value) && it.life.signals == [it.life.final.value])
            && (it.life.final.Some? && it.life.final.value.outcome.Dispatched? ==> it.admissions == 1)
            && (it.life.final.Some? && it.life.final.value.outcome.Evicted() ==> it.admissions == 1)
            && (it.waiter.Returned? ==> it.life.final == Some(it.waiter.state))
            && it.departures <= it.admissions <= 1
  {
    RunKeepsInv(Init(), run);
    assert ItemSound(Exec(Init(), run).value.items[i]);
  }

  /**
   In every run no item is lost: one that is out of the processor's hand, the channel and its queue is final, or has
   been entered, or has its finalization waiting.
   */
  lemma NoItemIsLost(run: seq<Action>, i: nat)
    requires Exec(Init(), run).Some? && i < |Exec(Init(), run).value.items|
    ensures var s := Exec(Init(), run).value;
            s.items[i].place == Left || s.items[i].place == Dropped ==> i in s.tasks || !s.items[i].once.Open?
  {
    RunKeepsInv(Init(), run);
  }

  /** The item is final, and the processor has not yet passed it. */
  predicate FinalBeforeCheck(s: State, i: nat) {
    && i < |s.items| && s.items[i].life.final.Some? && s.items[i].admissions == 0
    && s.items[i].place != Queued && s.items[i].place != Left && s.processor != Admitting(i)
  }

  lemma ProcessorKeepsFinal(s: State, a: Action, i: nat)
    requires PlacesSound(s) && FinalBeforeCheck(s, i) && IsProcessor(a) && ProcessorStep(s, a).Some?
    ensures FinalBeforeCheck(ProcessorStep(s, a).value, i)
  {
  }

  lemma ControllerKeepsFinal(s: State, a: Action, i: nat)
    requires FinalBeforeCheck(s, i) && IsController(a) && ControllerStep(s, a).Some?
    ensures FinalBeforeCheck(ControllerStep(s, a).value, i)
  {
  }

  lemma OthersKeepFinal(s: State, a: Action, i: nat)
    requires FinalBeforeCheck(s, i) && (a.Create? || IsBackground(a) || IsShutdown(a)) && Next(s, a).Some?
    ensures FinalBeforeCheck(Next(s, a).value, i)
  {
  }

  lemma StepKeepsFinal(s: State, a: Action, i: nat)
    requires Inv(s) && FinalBeforeCheck(s, i) && Next(s, a).Some?
    ensures FinalBeforeCheck(Next(s, a).value, i)
  {
    if IsProcessor(a) {
      ProcessorKeepsFinal(s, a, i);
    } else if IsController(a) {
      ControllerKeepsFinal(s, a, i);
    } else {
      OthersKeepFinal(s, a, i);
    }
  }

  /** However a run goes on, an item that was final before the processor passed it is never admitted. */
  lemma {:induction false} FinalIsNotAdmitted(s: State, run: seq<Action>, i: nat)
    requires Inv(s) && FinalBeforeCheck(s, i) && Exec(s, run).Some?
    ensures i < |Exec(s, run).value.items| && Exec(s, run).value.items[i].admissions == 0
    decreases |run|
  {
    if run != [] {
      StepKeepsFinal(s, run[0], i);
      StepKeepsInv(s, run[0]);
      FinalIsNotAdmitted(Next(s, run[0]).value, run[1..], i);
    }
  }

  /** An item never moves back, and what has been published of it stays. */
  predicate Progressed(before: Item, after: Item) {
    && Rank(before.place) <= Rank(after.place)
    && before.admissions <= after.admissions && before.departures <= after.departures
    && (before.life.final.Some? ==> after.life.final == before.life.final && after.life.signals == before.life.signals)
    && (before.once.Running? ==> after.once == before.once || after.life.final == Some(before.once.pending))
  }

  lemma ControllerProgresses(s: State, a: Action, i: nat)
    requires IsController(a) && ControllerStep(s, a).Some?
    requires i < |s.items| && ItemSound(s.items[i])
    ensures var s' := ControllerStep(s, a).value; i < |s'.items| && Progressed(s.items[i], s'.items[i])
  {
  }

  lemma ProcessorProgresses(s: State, a: Action, i: nat)
    requires IsProcessor(a)
    requires PlacesSound(s) && ProcessorStep(s, a).Some? && i < |s.items| && ItemSound(s.items[i])
    ensures var s' := ProcessorStep(s, a).value; i < |s'.items| && Progressed(s.items[i], s'.items[i])
  {
    if a.Receive? {
      assert s.items[s.channel[0]].place == Buffered;
    }
  }

  lemma BackgroundProgresses(s: State, a: Action, i: nat)
    requires IsBackground(a) && BackgroundStep(s, a).Some? && i < |s.items| && ItemSound(s.items[i])
    ensures var s' := BackgroundStep(s, a).value; i < |s'.items| && Progressed(s.items[i], s'.items[i])
  {
  }

  lemma ShutdownProgresses(s: State, a: Action, i: nat)
    requires IsShutdown(a) && PlacesSound(s) && ShutdownStep(s, a).Some? && i < |s.items| && ItemSound(s.items[i])
    ensures var s' := ShutdownStep(s, a).value; i < |s'.items| && Progressed(s.items[i], s'.items[i])
  {
    if a.DrainNext? {
      assert s.items[s.channel[0]].place == Buffered;
    }
  }

  lemma StepProgresses(s: State, a: Action, i: nat)
    requires Inv(s) && Next(s, a).Some? && i < |s.items|
    ensures var s' := Next(s, a).value; i < |s'.items| && Progressed(s.items[i], s'.items[i])
  {
    if a.Create? {
    } else if IsController(a) {
      ControllerProgresses(s, a, i);
    } else if IsBackground(a) {
      BackgroundProgresses(s, a, i);
    } else if IsShutdown(a) {
      ShutdownProgresses(s, a, i);
    } else {
      ProcessorProgresses(s, a, i);
    }
  }

  /** However a run goes on, a final state never changes and no item returns to an earlier place. */
  lemma {:induction false} FinalStateIsForever(s: State, run: seq<Action>, i: nat)
    requires Inv(s) && Exec(s, run).Some? && i < |s.items|
    ensures var s' := Exec(s, run).value;
            && i < |s'.items|
            && Rank(s.items[i].place) <= Rank(s'.items[i].place)
            && (s.items[i].life.final.Some? ==>
                  && s'.items[i].life.final == s.items[i].life.final
                  && s'.items[i].life.signals == s.items[i].life.signals)
    decreases |run|
  {
    if run != [] {
      StepProgresses(s, run[0], i);
      StepKeepsInv(s, run[0]);
      FinalStateIsForever(Next(s, run[0]).value, run[1..], i);
    }
  }

  /** A sweep takes out of the queue exactly its finalized items and touches nothing else. */
  lemma SweepTakesExactlyTheFinal(s: State, queue: nat, i: nat)
    requires Inv(s) && i < |s.items|
    ensures var s' := Next(s, Sweep(queue)).value;
            && i < |s'.items|
            && (s'.items[i].place != s.items[i].place <==>
                  InQueue(s.items[i], queue) && s.items[i].life.final.Some?)
            && (s'.items[i].place != s.items[i].place ==> s'.items[i].place == Left)
            && s'.items[i].life == s.items[i].life
            && s'.channel == s.channel && s'.tasks == s.tasks
  {
  }

  lemma {:induction false} PresentStays(s: State, run: seq<Action>)
    requires s.mode != Serving && Exec(s, run).Some?
    ensures Exec(s, run).value.present == s.present
    decreases |run|
  {
    if run != [] {
      PresentStays(Next(s, run[0]).value, run[1..]);
    }
  }

  /**
   After a shutdown every queue is empty and stays so, because only the stopped processor could fill one, and every
   item that was buffered or queued when it began is final, in a proper state.
   */
  lemma ShutdownFinalizesAll(before: seq<Action>, after: seq<Action>, i: nat)
    requires Exec(Init(), before).Some? && Next(Exec(Init(), before).value, Stop).Some?
    requires Exec(Init(), before + [Stop] + after).Some?
    requires var s := Exec(Init(), before + [Stop] + after).value; s.mode == Halted && i < |s.items|
    ensures var was, s := Exec(Init(), before).value, Exec(Init(), before + [Stop] + after).value;
            && s.items[i].place != Queued
            && (i < |was.items| && (was.items[i].place == Buffered || was.items[i].place == Queued) ==>
                  s.items[i].life.final.Some? && Proper(s.items[i].life.final.value))
  {
    var all := before + [Stop] + after;
    ExecSnoc(Init(), before, Stop);
    ExecAppend(Init(), before + [Stop], after);
    PresentStays(Exec(Init(), before + [Stop]).value, after);
    RunKeepsInv(Init(), all);
    assert ItemSound(Exec(Init(), all).value.items[i]);
  }

  // ---------------------------------------------------------------------------------------------
  // Zombies.

  /** The class of an expiry is settled by the handle at the moment the once-only section is entered. */
  lemma ExpiryFollowsTheHandle(s: State, i: nat, cause: Error)
    requires Inv(s) && Next(s, Expire(i, cause)).Some? && s.items[i].once.Open?
    ensures var once := Next(s, Expire(i, cause)).value.items[i].once;
            && once.Running?
            && (once.pending.outcome.Evicted() <==> s.items[i].place == Queued || s.items[i].place == Left)
            && (once.pending.outcome.Rejected() <==> s.items[i].place == Fresh || s.items[i].place == Buffered
                                                      || s.items[i].place == Held || s.items[i].place == Dropped)
  {
    assert ItemSound(s.items[i]);
  }

  function Expiring(queue: nat, handle: nat, cause: Error): seq<Action> {
    [Create(queue), NewQueue(queue), Submit(0), Receive, Pass, Expire(0, cause), Admit(handle), Publish(0)]
  }

  function HeldItem(queue: nat): Item {
    NewItem(queue).(waiter := Waiting, place := Held)
  }

  /** The processor has checked the only item and is about to admit it. */
  function AboutToAdmit(queue: nat): State {
    State([HeldItem(queue)], {queue}, [], Admitting(0), map[], Serving, {})
  }

  lemma ReachAdmission(queue: nat)
    ensures Exec(Init(), [Create(queue), NewQueue(queue), Submit(0), Receive, Pass]) == Some(AboutToAdmit(queue))
  {
    var run := [Create(queue), NewQueue(queue), Submit(0), Receive, Pass];
    var it, s4 := NewItem(queue), AboutToAdmit(queue);
    var s0 := Init().(items := [it]);
    var s1 := s0.(queues := {queue});
    var s2 := s1.(items := [it.(waiter := Waiting, place := Buffered)], channel := [0]);
    var s3 := s4.(processor := Holding(0));
    Singleton(it, s2.items[0]);
    Singleton(s2.items[0], HeldItem(queue));
    Singleton(0, 0);
    assert Next(Init(), run[0]) == Some(s0);
    assert Next(s0, run[1]) == Some(s1) by { assert {} + {queue} == {queue}; }
    assert Next(s1, run[2]) == Some(s2);
    assert Next(s2, run[3]) == Some(s3);
    assert Next(s3, run[4]) == Some(s4);
    ExecCons(s3, run[4], s4, [], s4);
    ExecCons(s2, run[3], s3, run[4..], s4);
    ExecCons(s1, run[2], s2, run[3..], s4);
    ExecCons(s0, run[1], s1, run[2..], s4);
    ExecCons(Init(), run[0], s0, run[1..], s4);
  }

  lemma ExpireThenAdmit(queue: nat, handle: nat, cause: Error) returns (end: State)
    ensures Exec(AboutToAdmit(queue), [Expire(0, cause), Admit(handle), Publish(0)]) == Some(end)
    ensures |end.items| == 1 && end.items[0].place == Queued
    ensures end.items[0].life.final == Some(InferOutcome(cause, false))
  {
    var run := [Expire(0, cause), Admit(handle), Publish(0)];
    var f, s4 := InferOutcome(cause, false), AboutToAdmit(queue);
    var s5 := s4.(items := [HeldItem(queue).(waiter := Expired, once := Running(f))]);
    var s6 := s4.(items := [Admitted(s5.items[0], handle)], processor := Idle);
    end := s6.(items := [s6.items[0].(life := Life(Some(handle), Some(f), [f]), once := Done)]);
    Singleton(HeldItem(queue), s5.items[0]);
    Singleton(s5.items[0], s6.items[0]);
    Singleton(s6.items[0], end.items[0]);
    Singleton(f, f);
    assert Next(s4, run[0]) == Some(s5);
    assert Next(s5, run[1]) == Some(s6);
    assert Next(s6, run[2]) == Some(end);
    ExecCons(s6, run[2], end, [], end);
    ExecCons(s5, run[1], s6, run[2..], end);
    ExecCons(s4, run[0], s5, run[1..], end);
  }

  /** A request that expires between the processor's check and the admission is rejected and yet queued. */
  lemma RejectedItemMayBeQueued(queue: nat, handle: nat, cause: Error)
    ensures var end := Exec(Init(), Expiring(queue, handle, cause));
            && end.Some? && |end.value.items| == 1
            && end.value.items[0].place == Queued
            && end.value.items[0].life.final == Some(InferOutcome(cause, false))
  {
    ReachAdmission(queue);
    var end := ExpireThenAdmit(queue, handle, cause);
    var first := [Create(queue), NewQueue(queue), Submit(0), Receive, Pass];
    var second := [Expire(0, cause), Admit(handle), Publish(0)];
    ExecAppend(Init(), first, second);
    assert first + second == Expiring(queue, handle, cause);
  }

  // When exactly that happens, in every run.

  predicate ExpiresAt(run: seq<Action>, j: nat, i: nat) {
    j < |run| && run[j].Expire? && run[j].i == i
  }

  predicate AdmitsAt(run: seq<Action>, k: nat, i: nat) {
    && k < |run| && run[k].Admit?
    && var before := Exec(Init(), run[..k]); before.Some? && before.value.processor == Admitting(i)
  }

  ghost predicate Expires(run: seq<Action>, i: nat) {
    exists j :: ExpiresAt(run, j, i)
  }

  /** The request's context ended before the processor admitted its item. */
  ghost predicate ExpiresBeforeAdmission(run: seq<Action>, i: nat) {
    exists j, k :: ExpiresAt(run, j, i) && AdmitsAt(run, k, i) && j < k
  }

  lemma {:induction false} ExecSnoc(s: State, run: seq<Action>, a: Action)
    ensures Exec(s, run + [a]) == match Exec(s, run) { case None => None case Some(t) => Next(t, a) }
    decreases |run|
  {
    if run == [] {
      assert run + [a] == [a];
    } else {
      assert (run + [a])[1..] == run[1..] + [a];
      match Next(s, run[0])
      case None =>
      case Some(t) => ExecSnoc(t, run[1..], a);
    }
  }

  lemma {:induction false} ExecAppend(s: State, first: seq<Action>, second: seq<Action>)
    requires Exec(s, first).Some?
    ensures Exec(s, first + second) == Exec(Exec(s, first).value, second)
    decreases |first|
  {
    if first == [] {
      assert first + second == second;
    } else {
      assert (first + second)[1..] == first[1..] + second;
      ExecAppend(Next(s, first[0]).value, first[1..], second);
    }
  }

  lemma ExpiresSnoc(run: seq<Action>, a: Action, i: nat)
    ensures Expires(run + [a], i) <==> Expires(run, i) || (a.Expire? && a.i == i)
  {
    if j :| ExpiresAt(run, j, i) {
      assert ExpiresAt(run + [a], j, i);
    }
    if a.Expire? && a.i == i {
      assert ExpiresAt(run + [a], |run|, i);
    }
    if j: nat :| ExpiresAt(run + [a], j, i) && j < |run| {
      assert ExpiresAt(run, j, i);
    }
  }

  lemma AdmitsSnoc(run: seq<Action>, a: Action, i: nat, k: nat)
    requires Exec(Init(), run).Some?
    ensures AdmitsAt(run + [a], k, i) <==>
            AdmitsAt(run, k, i) || (k == |run| && a.Admit? && Exec(Init(), run).value.processor == Admitting(i))
  {
    if k < |run| {
      assert (run + [a])[..k] == run[..k];
    } else if k == |run| {
      assert (run + [a])[..k] == run;
    }
  }

  lemma ExpiresBeforeSnoc(run: seq<Action>, a: Action, i: nat)
    requires Exec(Init(), run).Some?
    ensures ExpiresBeforeAdmission(run + [a], i) <==>
            || ExpiresBeforeAdmission(run, i)
            || (Expires(run, i) && a.Admit? && Exec(Init(), run).value.processor == Admitting(i))
  {
    if j, k :| ExpiresAt(run, j, i) && AdmitsAt(run, k, i) && j < k {
      AdmitsSnoc(run, a, i, k);
      assert ExpiresAt(run + [a], j, i);
    }
    if j, k :| ExpiresAt(run + [a], j, i) && AdmitsAt(run + [a], k, i) && j < k {
      AdmitsSnoc(run, a, i, k);
      assert ExpiresAt(run, j, i);
    }
    if Expires(run, i) && a.Admit? && Exec(Init(), run).value.processor == Admitting(i) {
      var j :| ExpiresAt(run, j, i);
      AdmitsSnoc(run, a, i, |run|);
      assert ExpiresAt(run + [a], j, i);
    }
  }

  /** What an item tells of the run that led to it; `expired` and `late` are facts of the run. */
  predicate Tells(s: State, i: nat, expired: bool, late: bool) {
    if i < |s.items| then
      var it := s.items[i];
      && (it.waiter.Owner? || it.place == Buffered || it.place == Held ==> (it.once.Open? <==> !expired))
      && (it.late <==> late)
    else !expired && !late
  }

  lemma ControllerTells(s: State, a: Action, n: State, i: nat, expired: bool, late: bool)
    requires IsController(a) && ControllerStep(s, a) == Some(n) && Tells(s, i, expired, late)
    requires ItemsSound(s)
    ensures Tells(n, i, expired || (a.Expire? && a.i == i), late)
  {
    assert ItemSound(s.items[a.i]);
  }

  lemma ReceiveTells(s: State, n: State, i: nat, expired: bool, late: bool)
    requires PlacesSound(s) && ProcessorStep(s, Receive) == Some(n) && Tells(s, i, expired, late)
    ensures Tells(n, i, expired, late)
  {
    assert s.items[s.channel[0]].place == Buffered;
  }

  lemma HandTells(s: State, a: Action, n: State, i: nat, expired: bool, late: bool)
    requires a.Discard? || a.Pass? || a.Reject? || a.Admit?
    requires PlacesSound(s) && ItemsSound(s) && ProcessorStep(s, a) == Some(n) && Tells(s, i, expired, late)
    ensures Tells(n, i, expired, late || (expired && a.Admit? && s.processor == Admitting(i)))
  {
    var h := s.processor.i;
    assert ItemSound(s.items[h]) && s.items[h].place == Held;
  }

  lemma DispatchTells(s: State, a: Action, n: State, i: nat, expired: bool, late: bool)
    requires (a.Peek? || a.Take?) && ProcessorStep(s, a) == Some(n) && Tells(s, i, expired, late)
    requires ItemsSound(s)
    ensures Tells(n, i, expired, late)
  {
    if i < |s.items| {
      assert ItemSound(s.items[i]);
    }
  }

  lemma BackgroundTells(s: State, a: Action, n: State, i: nat, expired: bool, late: bool)
    requires IsBackground(a) && BackgroundStep(s, a) == Some(n) && Tells(s, i, expired, late)
    requires ItemsSound(s) && TasksSound(s)
    ensures Tells(n, i, expired, late)
  {
    if i < |s.items| {
      assert ItemSound(s.items[i]);
    }
  }

  lemma ShutdownTells(s: State, a: Action, n: State, i: nat, expired: bool, late: bool)
    requires IsShutdown(a) && ShutdownStep(s, a) == Some(n) && Tells(s, i, expired, late)
    requires ItemsSound(s) && PlacesSound(s)
    ensures Tells(n, i, expired, late)
  {
    if i < |s.items| {
      assert ItemSound(s.items[i]);
    }
    if a.DrainNext? {
      assert s.items[s.channel[0]].place == Buffered;
      assert ItemSound(s.items[s.channel[0]]);
    }
  }

  lemma StepTells(s: State, a: Action, n: State, i: nat, expired: bool, late: bool)
    requires Inv(s) && Next(s, a) == Some(n) && Tells(s, i, expired, late)
    ensures Tells(n, i, expired || (a.Expire? && a.i == i),
                  late || (expired && a.Admit? && s.processor == Admitting(i)))
  {
    if a.Create? {
    } else if IsController(a) {
      ControllerTells(s, a, n, i, expired, late);
    } else if IsBackground(a) {
      BackgroundTells(s, a, n, i, expired, late);
    } else if IsShutdown(a) {
      ShutdownTells(s, a, n, i, expired, late);
    } else if a.Receive? {
      ReceiveTells(s, n, i, expired, late);
    } else if a.Peek? || a.Take? {
      DispatchTells(s, a, n, i, expired, late);
    } else {
      HandTells(s, a, n, i, expired, late);
    }
  }

  lemma {:induction false} RunTells(run: seq<Action>, i: nat)
    requires Exec(Init(), run).Some?
    ensures Tells(Exec(Init(), run).value, i, Expires(run, i), ExpiresBeforeAdmission(run, i))
    decreases |run|
  {
    if run != [] {
      var most, a := run[..|run| - 1], run[|run| - 1];
      assert most + [a] == run;
      ExecSnoc(Init(), most, a);
      RunTells(most, i);
      RunKeepsInv(Init(), most);
      ExpiresSnoc(most, a, i);
      ExpiresBeforeSnoc(most, a, i);
      StepTells(Exec(Init(), most).value, a, Exec(Init(), run).value, i,
                Expires(most, i), ExpiresBeforeAdmission(most, i));
    }
  }

  /**
   In every run, a finalized item was admitted to its queue and yet rejected exactly when its context ended before
   its admission; an item admitted while its context was alive is dispatched or evicted.
   */
  lemma QueuedAndRejectedExactlyWhenLate(run: seq<Action>, i: nat)
    requires Exec(Init(), run).Some?
    requires i < |Exec(Init(), run).value.items| && Exec(Init(), run).value.items[i].life.final.Some?
    ensures var it := Exec(Init(), run).value.items[i];
            && (it.admissions == 1 && it.life.final.value.outcome.Rejected() <==> ExpiresBeforeAdmission(run, i))
            && (it.admissions == 1 && !ExpiresBeforeAdmission(run, i) ==>
                  it.life.final.value.outcome.Dispatched? || it.life.final.value.outcome.Evicted())
            && (it.admissions == 0 ==> it.life.final.value.outcome.Rejected())
  {
    RunTells(run, i);
    RunKeepsInv(Init(), run);
    assert ItemSound(Exec(Init(), run).value.items[i]);
  }

  lemma Singleton<T>(x: T, y: T)
    ensures [x][0 := y] == [y] && [] + [x] == [x] && [x][1..] == []
  {
  }

  lemma ExecCons(s: State, a: Action, s': State, rest: seq<Action>, end: State)
    requires Next(s, a) == Some(s') && Exec(s', rest) == Some(end)
    ensures Exec(s, [a] + rest) == Some(end)
  {
    assert ([a] + rest)[1..] == rest;
  }
}
