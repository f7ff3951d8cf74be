/**
 The asynchronous queues that run the response-body plugins. Each request, known by its ID, sends its chunks to a queue
 of its own with a worker goroutine; the final chunk drains the queue and runs in place. Every access to the shared
 map and every channel operation is one atomic step, and a run is any interleaving of such steps.
 */
module BodyQueues {
  import opened Options

  const CHANNEL_CAPACITY := 100

  /** The `k`-th body call of a request. */
  datatype Work<Id> = Work(id: Id, k: nat, startOfStream: bool)

  /** A plugin call, as the plugins see it. */
  datatype Call<Id> = Call(work: Work<Id>, endOfStream: bool)

  datatype Phase<Id> =
    | Ready
    | Loading(work: Work<Id>)
    | Storing(work: Work<Id>)
    | Sending(work: Work<Id>)
    | Draining(work: Work<Id>)
    | Closing(work: Work<Id>)
    | Awaiting(work: Work<Id>)
    | Final(work: Work<Id>)
    | Finished

  /** `count` body calls have been made; `started` says that a start of stream has been handed out. */
  datatype Request<Id> = Request(phase: Phase<Id>, count: nat, started: bool)

  /** A channel and its worker: `running` is the work in the worker's hands. */
  datatype Queue<Id> = Queue(ch: seq<Work<Id>>, closed: bool, running: Option<Work<Id>>, done: bool)

  /** `table` is the shared map's key set; `calls` lists the plugin calls in the order they are made. */
  datatype State<Id> = State(
    requests: map<Id, Request<Id>>, table: set<Id>, queues: map<Id, Queue<Id>>, calls: seq<Call<Id>>)

  datatype Action<Id> =
    | Enter(id: Id)
    | Chunk(id: Id)
    | End(id: Id)
    | Load(id: Id)
    | Store(id: Id)
    | Send(id: Id)
    | LoadAndDelete(id: Id)
    | Close(id: Id)
    | Await(id: Id)
    | RunFinal(id: Id)
    | Take(id: Id)
    | RunQueued(id: Id)
    | Exit(id: Id)

  function Init<Id>(): State<Id> {
    State(map[], {}, map[], [])
  }

  function At<Id>(s: State<Id>, id: Id, p: Phase<Id>): State<Id>
    requires id in s.requests
  {
    s.(requests := s.requests[id := s.requests[id].(phase := p)])
  }

  /** The next body call of the request begins. */
  function Begin<Id>(s: State<Id>, id: Id, last: bool): State<Id>
    requires id in s.requests
  {
    var r := s.requests[id];
    var w := Work(id, r.count, !r.started);
    s.(requests := s.requests[id := Request(if last then Draining(w) else Loading(w), r.count + 1, true)])
  }

  function RequestStep<Id>(s: State<Id>, a: Action<Id>): Option<State<Id>>
    requires a.id in s.requests
  {
    var id := a.id;
    match (a, s.requests[id].phase)
    case (Chunk(_), Ready) => Some(Begin(s, id, false))
    case (End(_), Ready) => Some(Begin(s, id, true))
    case (Load(_), Loading(w)) => Some(At(s, id, if id in s.table then Sending(w) else Storing(w)))
    case (Store(_), Storing(w)) =>
      Some(At(s, id, Sending(w)).(table := s.table + {id}, queues := s.queues[id := Queue([], false, None, false)]))
    case (Send(_), Sending(w)) =>
      if id in s.queues && !s.queues[id].closed && |s.queues[id].ch| < CHANNEL_CAPACITY
      then Some(At(s, id, Ready).(queues := s.queues[id := s.queues[id].(ch := s.queues[id].ch + [w])])) else None
    case (LoadAndDelete(_), Draining(w)) =>
      Some(At(s, id, if id in s.table then Closing(w) else Final(w)).(table := s.table - {id}))
    case (Close(_), Closing(w)) =>
      if id in s.queues
      then Some(At(s, id, Awaiting(w)).(queues := s.queues[id := s.queues[id].(closed := true)])) else None
    case (Await(_), Awaiting(w)) => if id in s.queues && s.queues[id].done then Some(At(s, id, Final(w))) else None
    case (RunFinal(_), Final(w)) => Some(At(s, id, Finished).(calls := s.calls + [Call(w, true)]))
    case _ => None
  }

  function WorkerStep<Id>(s: State<Id>, a: Action<Id>): Option<State<Id>>
    requires a.id in s.queues
  {
    var id := a.id;
    var q := s.queues[id];
    if a.Take? && q.running.None? && q.ch != [] && !q.done
    then Some(s.(queues := s.queues[id := q.(running := Some(q.ch[0]), ch := q.ch[1..])]))
    else if a.RunQueued? && q.running.Some?
    then Some(s.(queues := s.queues[id := q.(running := None)], calls := s.calls + [Call(q.running.value, false)]))
    else if a.Exit? && q.running.None? && q.ch == [] && q.closed && !q.done
    then Some(s.(queues := s.queues[id := q.(done := true)]))
    else None
  }

  function Next<Id>(s: State<Id>, a: Action<Id>): Option<State<Id>> {
    if a.Enter? then
      if a.id in s.requests then None else Some(s.(requests := s.requests[a.id := Request(Ready, 0, false)]))
    else if a.Take? || a.RunQueued? || a.Exit? then
      if a.id in s.queues then WorkerStep(s, a) else None
    else if a.id in s.requests then RequestStep(s, a) else None
  }

  function Exec<Id>(s: State<Id>, run: seq<Action<Id>>): Option<State<Id>>
    decreases |run|
  {
    if run == [] then Some(s)
    else
      match Next(s, run[0])
      case None => None
      case Some(next) => Exec(next, run[1..])
  }

  // ---------------------------------------------------------------------------------------------
  // Where the work of a request is.

  /** The plugin calls of one request. */
  function CallsOf<Id(==)>(calls: seq<Call<Id>>, id: Id): seq<Call<Id>> {
    if calls == [] then []
    else
      var last := calls[|calls| - 1];
      CallsOf(calls[..|calls| - 1], id) + if last.work.id == id then [last] else []
  }

  function WorkOf<Id>(calls: seq<Call<Id>>): (work: seq<Work<Id>>)
    ensures |work| == |calls| && forall i :: 0 <= i < |calls| ==> work[i] == calls[i].work
  {
    seq(|calls|, i requires 0 <= i < |calls| => calls[i].work)
  }

  function Queued<Id>(q: Queue<Id>): seq<Work<Id>> {
    (if q.running.Some? then [q.running.value] else []) + q.ch
  }

  function InHand<Id>(p: Phase<Id>): seq<Work<Id>> {
    if p.Ready? || p.Finished? then [] else [p.work]
  }

  /** The calls made, then the queued work, then the work in the hands of the request. */
  function Line<Id>(s: State<Id>, id: Id): seq<Work<Id>>
    requires id in s.requests
  {
    WorkOf(CallsOf(s.calls, id)) + (if id in s.queues then Queued(s.queues[id]) else []) + InHand(s.requests[id].phase)
  }

  /** The first `n` body calls of a request: the first one alone starts the stream. */
  function Expected<Id>(id: Id, n: nat): (work: seq<Work<Id>>)
    ensures |work| == n && forall k :: 0 <= k < n ==> work[k] == Work(id, k, k == 0)
  {
    seq(n, k requires 0 <= k < n => Work(id, k, k == 0))
  }

  predicate Idle<Id>(q: Queue<Id>) {
    q.ch == [] && q.running.None? && q.done
  }

  /** How the phase of a request goes with its queue. */
  predicate Coherent<Id>(s: State<Id>, id: Id)
    requires id in s.requests
  {
    var p := s.requests[id].phase;
    && (id in s.queues && s.queues[id].done ==> s.queues[id].closed && Idle(s.queues[id]))
    && (id in s.queues && s.queues[id].closed ==> p.Awaiting? || p.Final? || p.Finished?)
    && (p.Ready? || p.Loading? || p.Draining? ==> (id in s.queues <==> id in s.table))
    && (p.Storing? ==> id !in s.queues)
    && (p.Sending? ==> id in s.queues && id in s.table)
    && (p.Closing? || p.Awaiting? || p.Final? || p.Finished? ==> id !in s.table)
    && (p.Closing? || p.Awaiting? ==> id in s.queues)
    && (p.Awaiting? ==> s.queues[id].closed)
    && (p.Final? || p.Finished? ==> id in s.queues ==> Idle(s.queues[id]))
    && (s.requests[id].started <==> s.requests[id].count > 0)
    && (!p.Ready? ==> s.requests[id].count > 0)
  }

  /** The final call comes last, and only when the request is finished. */
  predicate Ended<Id>(s: State<Id>, id: Id)
    requires id in s.requests
  {
    var calls := CallsOf(s.calls, id);
    forall i :: 0 <= i < |calls| ==> (calls[i].endOfStream <==> s.requests[id].phase.Finished? && i == |calls| - 1)
  }

  predicate InvFor<Id>(s: State<Id>, id: Id)
    requires id in s.requests
  {
    Coherent(s, id) && Ended(s, id) && Line(s, id) == Expected(id, s.requests[id].count)
  }

  ghost predicate Registered<Id>(s: State<Id>) {
    && (forall id :: id in s.queues ==> id in s.requests)
    && (forall id :: id in s.table ==> id in s.queues)
    && (forall c :: c in s.calls ==> c.work.id in s.requests)
  }

  ghost predicate Inv<Id>(s: State<Id>) {
    Registered(s) && forall id :: id in s.requests ==> InvFor(s, id)
  }

  // ---------------------------------------------------------------------------------------------
  // Every step keeps the work of every request in line.

  lemma CallsAppend<Id>(calls: seq<Call<Id>>, c: Call<Id>, id: Id)
    ensures CallsOf(calls + [c], id) == CallsOf(calls, id) + if c.work.id == id then [c] else []
  {
    assert (calls + [c])[..|calls|] == calls;
  }

  /** The call that a step makes. */
  function Made<Id>(s: State<Id>, a: Action<Id>): seq<Call<Id>> {
    if a.RunFinal? && a.id in s.requests && s.requests[a.id].phase.Final? then [Call(s.requests[a.id].phase.work, true)]
    else if a.RunQueued? && a.id in s.queues && s.queues[a.id].running.Some?
    then [Call(s.queues[a.id].running.value, false)]
    else []
  }

  /** A step touches its own request alone. */
  lemma StepTouches<Id>(s: State<Id>, a: Action<Id>, n: State<Id>)
    requires Next(s, a) == Some(n)
    ensures n.calls == s.calls + Made(s, a)
    ensures forall id :: id != a.id ==> (id in n.requests <==> id in s.requests) && (id in n.queues <==> id in s.queues)
    ensures forall id :: id != a.id ==> (id in n.table <==> id in s.table)
    ensures forall id :: id != a.id && id in s.requests ==> n.requests[id] == s.requests[id]
    ensures forall id :: id != a.id && id in s.queues ==> n.queues[id] == s.queues[id]
    ensures a.id in n.requests || a.id !in s.requests
  {
    assert s.calls + [] == s.calls;
  }

  /** Every piece of work in a request's line is its own. */
  lemma OwnWork<Id>(s: State<Id>, id: Id)
    requires id in s.requests && InvFor(s, id)
    ensures id in s.queues && s.queues[id].running.Some? ==> s.queues[id].running.value.id == id
    ensures forall w :: w in InHand(s.requests[id].phase) ==> w.id == id
  {
    var line := Line(s, id);
    assert forall w :: w in line ==> w.id == id;
    if id in s.queues && s.queues[id].running.Some? {
      assert s.queues[id].running.value in Queued(s.queues[id]);
    }
  }

  /** `n` is like `s` for this request. */
  predicate SameFor<Id>(s: State<Id>, n: State<Id>, id: Id) {
    && id in s.requests && id in n.requests && n.requests[id] == s.requests[id]
    && (id in s.queues <==> id in n.queues) && (id in s.queues ==> n.queues[id] == s.queues[id])
    && (id in s.table <==> id in n.table)
    && CallsOf(n.calls, id) == CallsOf(s.calls, id)
  }

  lemma SameKeepsInv<Id>(s: State<Id>, n: State<Id>, id: Id)
    requires SameFor(s, n, id) && InvFor(s, id)
    ensures InvFor(n, id)
  {
  }

  lemma OthersAreSame<Id>(s: State<Id>, a: Action<Id>, n: State<Id>, id: Id)
    requires Next(s, a) == Some(n) && id in s.requests && id != a.id
    requires Made(s, a) != [] ==> Made(s, a)[0].work.id == a.id
    ensures SameFor(s, n, id)
  {
    StepTouches(s, a, n);
    if Made(s, a) != [] {
      assert Made(s, a) == [Made(s, a)[0]];
      CallsAppend(s.calls, Made(s, a)[0], id);
    } else {
      assert s.calls + [] == s.calls;
    }
  }

  lemma RequestKeepsCoherent<Id>(s: State<Id>, a: Action<Id>, n: State<Id>)
    requires a.id in s.requests && Coherent(s, a.id) && Next(s, a) == Some(n)
    requires a.id in s.table ==> a.id in s.queues
    requires !(a.Take? || a.RunQueued? || a.Exit?)
    ensures Coherent(n, a.id)
  {
  }

  lemma RequestKeepsLine<Id>(s: State<Id>, a: Action<Id>, n: State<Id>)
    requires a.id in s.requests && InvFor(s, a.id) && Next(s, a) == Some(n)
    requires !(a.Take? || a.RunQueued? || a.Exit? || a.RunFinal?)
    ensures Line(n, a.id) == Expected(a.id, n.requests[a.id].count)
    ensures n.calls == s.calls && (n.requests[a.id].phase.Finished? <==> s.requests[a.id].phase.Finished?)
  {
    var id := a.id;
    var r, calls := s.requests[id], WorkOf(CallsOf(s.calls, id));
    var queued := if id in s.queues then Queued(s.queues[id]) else [];
    if a.Chunk? || a.End? {
      var w := Work(id, r.count, !r.started);
      assert Expected(id, r.count + 1) == Expected(id, r.count) + [w];
      assert Line(n, id) == Line(s, id) + [w];
    } else if a.Send? {
      assert Queued(n.queues[id]) == queued + [r.phase.work];
    } else if a.Store? {
      assert Queued(n.queues[id]) == [];
    } else if a.Close? {
      assert Queued(n.queues[id]) == queued;
    }
  }

  lemma TakeKeepsInv<Id>(s: State<Id>, a: Action<Id>, n: State<Id>)
    requires a.id in s.requests && InvFor(s, a.id) && Next(s, a) == Some(n) && (a.Take? || a.Exit?)
    ensures InvFor(n, a.id)
  {
    TakeKeepsQueued(s, a, n);
    TakeKeepsCoherent(s, a, n);
  }

  lemma TakeKeepsQueued<Id>(s: State<Id>, a: Action<Id>, n: State<Id>)
    requires Next(s, a) == Some(n) && (a.Take? || a.Exit?)
    ensures Queued(n.queues[a.id]) == Queued(s.queues[a.id]) && n.requests == s.requests && n.calls == s.calls
  {
    var q := s.queues[a.id];
    if a.Take? {
      assert q.ch == [q.ch[0]] + q.ch[1..];
    }
  }

  lemma TakeKeepsCoherent<Id>(s: State<Id>, a: Action<Id>, n: State<Id>)
    requires a.id in s.requests && Coherent(s, a.id) && Next(s, a) == Some(n) && (a.Take? || a.Exit?)
    ensures Coherent(n, a.id)
  {
  }

  lemma Shift<T>(a: seq<T>, x: T, b: seq<T>, c: seq<T>)
    ensures (a + [x]) + b + c == a + ([x] + b) + c
  {
  }

  lemma RunKeepsLine<Id>(s: State<Id>, a: Action<Id>, n: State<Id>)
    requires a.id in s.requests && InvFor(s, a.id) && Next(s, a) == Some(n) && a.RunQueued?
    ensures Line(n, a.id) == Line(s, a.id)
    ensures CallsOf(n.calls, a.id) == CallsOf(s.calls, a.id) + [Call(s.queues[a.id].running.value, false)]
  {
    var id := a.id;
    var q := s.queues[id];
    OwnWork(s, id);
    var w := q.running.value;
    CallsAppend(s.calls, Call(w, false), id);
    var calls := WorkOf(CallsOf(s.calls, id));
    assert WorkOf(CallsOf(n.calls, id)) == calls + [w];
    assert Queued(n.queues[id]) == q.ch;
    Shift(calls, w, q.ch, InHand(s.requests[id].phase));
  }

  lemma QueuedRunKeepsInv<Id>(s: State<Id>, a: Action<Id>, n: State<Id>)
    requires a.id in s.requests && InvFor(s, a.id) && Next(s, a) == Some(n) && a.RunQueued?
    ensures InvFor(n, a.id)
  {
    RunKeepsLine(s, a, n);
    RunQueuedIsCoherent(s, a, n);
    assert forall c :: c in CallsOf(s.calls, a.id) ==> !c.endOfStream;
  }

  lemma RunQueuedIsCoherent<Id>(s: State<Id>, a: Action<Id>, n: State<Id>)
    requires a.id in s.requests && Coherent(s, a.id) && Next(s, a) == Some(n) && a.RunQueued?
    ensures Coherent(n, a.id) && n.requests == s.requests && !s.requests[a.id].phase.Finished?
  {
  }

  lemma FinalKeepsInv<Id>(s: State<Id>, a: Action<Id>, n: State<Id>)
    requires a.id in s.requests && InvFor(s, a.id) && Next(s, a) == Some(n) && a.RunFinal?
    ensures InvFor(n, a.id)
  {
    var id := a.id;
    OwnWork(s, id);
    var w := s.requests[id].phase.work;
    CallsAppend(s.calls, Call(w, true), id);
    assert WorkOf(CallsOf(n.calls, id)) == WorkOf(CallsOf(s.calls, id)) + [w];
    assert id in s.queues ==> Queued(s.queues[id]) == [];
    assert Line(n, id) == Line(s, id);
  }

  lemma OwnKeepsInv<Id>(s: State<Id>, a: Action<Id>, n: State<Id>)
    requires a.id in s.requests && InvFor(s, a.id) && Next(s, a) == Some(n)
    requires a.id in s.table ==> a.id in s.queues
    ensures a.id in n.requests && InvFor(n, a.id)
    ensures Made(s, a) != [] ==> Made(s, a)[0].work.id == a.id
  {
    OwnWork(s, a.id);
    StepTouches(s, a, n);
    if a.Take? || a.Exit? {
      TakeKeepsInv(s, a, n);
    } else if a.RunQueued? {
      QueuedRunKeepsInv(s, a, n);
    } else if a.RunFinal? {
      FinalKeepsInv(s, a, n);
    } else {
      RequestKeepsCoherent(s, a, n);
      RequestKeepsLine(s, a, n);
    }
  }

  lemma EntersInLine<Id>(s: State<Id>, a: Action<Id>, n: State<Id>)
    requires Registered(s) && a.id !in s.requests && Next(s, a) == Some(n)
    ensures a.id in n.requests && InvFor(n, a.id) && Made(s, a) == []
  {
    NoCallsYet(s.calls, a.id);
  }

  lemma StepRegisters<Id>(s: State<Id>, a: Action<Id>, n: State<Id>)
    requires Registered(s) && Next(s, a) == Some(n) && a.id in n.requests
    requires a.id in s.requests ==> InvFor(s, a.id)
    requires Made(s, a) != [] ==> Made(s, a)[0].work.id == a.id
    ensures Registered(n)
  {
    StepTouches(s, a, n);
  }

  lemma StepKeepsInv<Id>(s: State<Id>, a: Action<Id>, n: State<Id>)
    requires Inv(s) && Next(s, a) == Some(n)
    ensures Inv(n)
  {
    if a.id in s.requests {
      OwnKeepsInv(s, a, n);
    } else {
      EntersInLine(s, a, n);
    }
    StepRegisters(s, a, n);
    forall id | id in n.requests && id != a.id
      ensures InvFor(n, id)
    {
      StepTouches(s, a, n);
      OthersAreSame(s, a, n, id);
      SameKeepsInv(s, n, id);
    }
  }

  lemma {:induction false} NoCallsYet<Id>(calls: seq<Call<Id>>, id: Id)
    requires forall c :: c in calls ==> c.work.id != id
    ensures CallsOf(calls, id) == []
  {
    if calls != [] {
      NoCallsYet(calls[..|calls| - 1], id);
    }
  }

  lemma {:induction false} RunKeepsInv<Id>(s: State<Id>, run: seq<Action<Id>>)
    requires Inv(s) && Exec(s, run).Some?
    ensures Inv(Exec(s, run).value)
    decreases |run|
  {
    if run != [] {
      StepKeepsInv(s, run[0], Next(s, run[0]).value);
      RunKeepsInv(Next(s, run[0]).value, run[1..]);
    }
  }

  /**
   * In every reachable state the plugin calls of a request are its chunks in order, the first alone marked as start
   * of stream. Once it is finished they are all of its chunks, the last alone marked as end of stream, and no queue
   * of it remains.
   */
  lemma ChunksInOrder<Id>(run: seq<Action<Id>>, id: Id)
    requires Exec(Init(), run).Some? && id in Exec(Init<Id>(), run).value.requests
    ensures var s := Exec(Init<Id>(), run).value;
            var (calls, r) := (CallsOf(s.calls, id), s.requests[id]);
            && |calls| <= r.count
            && (forall k :: 0 <= k < |calls| ==> calls[k].work == Work(id, k, k == 0))
            && (forall k :: 0 <= k < |calls| ==> (calls[k].endOfStream <==> r.phase.Finished? && k == |calls| - 1))
            && (r.phase.Finished? ==>
                  |calls| == r.count > 0 && id !in s.table && (id in s.queues ==> Idle(s.queues[id])))
  {
    RunKeepsInv(Init<Id>(), run);
    var s := Exec(Init<Id>(), run).value;
    var calls, r := CallsOf(s.calls, id), s.requests[id];
    assert InvFor(s, id);
    forall k | 0 <= k < |calls|
      ensures calls[k].work == Work(id, k, k == 0)
    {
      assert Line(s, id)[k] == WorkOf(calls)[k];
    }
  }

  // ---------------------------------------------------------------------------------------------
  // A body call that has begun comes to its end.

  function PhaseRank<Id>(p: Phase<Id>): nat {
    match p
    case Loading(_) => 7
    case Storing(_) => 6
    case Sending(_) => 5
    case Draining(_) => 4
    case Closing(_) => 3
    case Awaiting(_) => 2
    case Final(_) => 1
    case _ => 0
  }

  function Backlog<Id>(q: Queue<Id>): nat {
    2 * |q.ch| + (if q.running.Some? then 1 else 0)
  }

  function BacklogOf<Id>(s: State<Id>, id: Id): nat {
    if id in s.queues then Backlog(s.queues[id]) + (if s.queues[id].done then 0 else 1) else 0
  }

  /** What the worker of the queue can do. */
  function WorkerTurn<Id>(q: Queue<Id>, id: Id): Action<Id> {
    if q.running.Some? then RunQueued(id) else if q.ch != [] then Take(id) else Exit(id)
  }

  /** The next step of the request, or of the worker it waits for. */
  function Turn<Id>(s: State<Id>, id: Id): Action<Id>
    requires id in s.requests
  {
    match s.requests[id].phase
    case Loading(_) => Load(id)
    case Storing(_) => Store(id)
    case Sending(_) =>
      if id in s.queues && |s.queues[id].ch| >= CHANNEL_CAPACITY then WorkerTurn(s.queues[id], id) else Send(id)
    case Draining(_) => LoadAndDelete(id)
    case Closing(_) => Close(id)
    case Awaiting(_) => if id in s.queues && !s.queues[id].done then WorkerTurn(s.queues[id], id) else Await(id)
    case Final(_) => RunFinal(id)
    case _ => Enter(id)
  }

  predicate Last<Id>(p: Phase<Id>) {
    p.Draining? || p.Closing? || p.Awaiting? || p.Final? || p.Finished?
  }

  lemma TurnIsPossible<Id>(s: State<Id>, id: Id)
    requires id in s.requests && Coherent(s, id) && !s.requests[id].phase.Ready? && !s.requests[id].phase.Finished?
    ensures Next(s, Turn(s, id)).Some?
    ensures var n := Next(s, Turn(s, id)).value;
            && id in n.requests
            && (Last(s.requests[id].phase) <==> Last(n.requests[id].phase))
            && (PhaseRank(n.requests[id].phase) < PhaseRank(s.requests[id].phase)
                || (n.requests[id].phase == s.requests[id].phase && BacklogOf(n, id) < BacklogOf(s, id)))
  {
  }

  /**
   From every reachable state, a body call that has begun can be carried through by its request and its worker alone:
   a chunk is handed over, and the last one leads to the final call.
   */
  lemma {:induction false} BodyCallEnds<Id>(s: State<Id>, id: Id) returns (run: seq<Action<Id>>)
    requires Inv(s) && id in s.requests
    ensures Exec(s, run).Some? && id in Exec(s, run).value.requests
    ensures var p, q := s.requests[id].phase, Exec(s, run).value.requests[id].phase;
            if Last(p) then q.Finished? else q.Ready?
    ensures forall i :: 0 <= i < |run| ==> run[i].id == id
    decreases PhaseRank(s.requests[id].phase), BacklogOf(s, id)
  {
    assert InvFor(s, id);
    if s.requests[id].phase.Ready? || s.requests[id].phase.Finished? {
      run := [];
    } else {
      TurnIsPossible(s, id);
      var a, n := Turn(s, id), Next(s, Turn(s, id)).value;
      StepKeepsInv(s, a, n);
      var rest := BodyCallEnds(n, id);
      run := [a] + rest;
      assert run[1..] == rest;
    }
  }
}
