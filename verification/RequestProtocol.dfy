/**
 Requests to the flow controller, over the items they create: a request connects to its flow, tries to place one item
 after another for as long as they end with a draining shard, and is answered once.
 */
module RequestProtocol {
  import opened FlowItems
  import opened Options
  import P = ItemProtocol
  import V = Verdicts

  /** What an answer rests on: the registry's refusal, the controller's stop, or the last item. */
  datatype Cause = NotConnected(err: Error) | ControllerStopped | FromItem

  datatype Phase = Connecting | Looping | Trying(i: nat) | Answered(state: FinalState, cause: Cause)

  /** `tries` are the items the request has created, in order. */
  datatype Request = Request(flow: nat, phase: Phase, tries: seq<nat>)

  datatype State = State(core: P.State, requests: seq<Request>, stopped: bool)

  /** `Core` is any step of an item, the processor, the sweep or the shutdown. */
  datatype Action =
    | Open(flow: nat)
    | Connect(r: nat)
    | ConnectFails(r: nat, err: Error)
    | StopController
    | NotRunning(r: nat)
    | Try(r: nat)
    | Collect(r: nat)
    | Core(step: P.Action)

  function Init(): State {
    State(P.Init(), [], false)
  }

  const NOT_RUNNING := FinalState(RejectedOther, Some({ErrRejected, ErrFlowControllerNotRunning}))

  function Refusal(err: Error): FinalState {
    FinalState(RejectedOther, Some({ErrRejected} + err))
  }

  /** The item was handed to a processor and came back because its shard was draining. */
  predicate Retried(it: P.Item) {
    && it.waiter.Returned? && it.place != P.Fresh
    && it.waiter.state.err.Some? && ErrShardDraining in it.waiter.state.err.value
  }

  function With(s: State, r: nat, q: Request): State
    requires r < |s.requests|
  {
    s.(requests := s.requests[r := q])
  }

  function RequestStep(s: State, a: Action): Option<State>
    requires a.Connect? || a.ConnectFails? || a.NotRunning? || a.Try? || a.Collect?
  {
    if a.r >= |s.requests| then None else
    var q := s.requests[a.r];
    match (a, q.phase)
    case (Connect(r), Connecting) => Some(With(s, r, q.(phase := Looping)))
    case (ConnectFails(r, err), Connecting) => Some(With(s, r, q.(phase := Answered(Refusal(err), NotConnected(err)))))
    case (NotRunning(r), Looping) =>
      if s.stopped then Some(With(s, r, q.(phase := Answered(NOT_RUNNING, ControllerStopped)))) else None
    case (Try(r), Looping) =>
      if s.stopped then None
      else
        var i := |s.core.items|;
        Some(With(s, r, q.(phase := Trying(i), tries := q.tries + [i])).(core := Created(s.core, q.flow)))
    case (Collect(r), Trying(i)) =>
      if i >= |s.core.items| || !s.core.items[i].waiter.Returned? then None
      else
        var it := s.core.items[i];
        Some(With(s, r, q.(phase := if Retried(it) then Looping else Answered(it.waiter.state, FromItem))))
    case _ => None
  }

  function Created(core: P.State, flow: nat): P.State {
    core.(items := core.items + [P.NewItem(flow)])
  }

  function Next(s: State, a: Action): Option<State> {
    match a
    case Open(flow) => Some(s.(requests := s.requests + [Request(flow, Connecting, [])]))
    case StopController => Some(s.(stopped := true))
    case Core(step) =>
      if step.Create? || P.Next(s.core, step).None? then None
      else Some(s.(core := P.Next(s.core, step).value))
    case _ => RequestStep(s, a)
  }

  function Exec(s: State, run: seq<Action>): Option<State>
    decreases |run|
  {
    if run == [] then Some(s) else
    match Next(s, run[0])
    case None => None
    case Some(next) => Exec(next, run[1..])
  }

  // ---------------------------------------------------------------------------------------------
  // The invariant.

  /** The first `n` items of the request came back from draining shards. */
  predicate AllRetried(items: seq<P.Item>, tries: seq<nat>, n: int) {
    forall k :: 0 <= k < n && k < |tries| ==> tries[k] < |items| && Retried(items[tries[k]])
  }

  /** The request's outcome is its last item's, or was decided between two items. */
  predicate AnswerSound(items: seq<P.Item>, stopped: bool, q: Request)
    requires q.phase.Answered? && forall k :: 0 <= k < |q.tries| ==> q.tries[k] < |items|
  {
    var f := q.phase.state;
    match q.phase.cause
    case NotConnected(err) => q.tries == [] && f == FinalState(RejectedOther, Some({ErrRejected} + err))
    case ControllerStopped =>
      && stopped && AllRetried(items, q.tries, |q.tries|)
      && f == FinalState(RejectedOther, Some({ErrRejected, ErrFlowControllerNotRunning}))
    case FromItem =>
      && q.tries != [] && AllRetried(items, q.tries, |q.tries| - 1)
      && var last := items[q.tries[|q.tries| - 1]];
         last.waiter == P.Returned(f) && !Retried(last) && last.life.final == Some(f) && Proper(f)
  }

  predicate RequestSound(items: seq<P.Item>, stopped: bool, q: Request) {
    && (forall k :: 0 <= k < |q.tries| ==> q.tries[k] < |items|)
    && match q.phase {
         case Connecting => q.tries == []
         case Looping => AllRetried(items, q.tries, |q.tries|)
         case Trying(i) =>
           q.tries != [] && i == q.tries[|q.tries| - 1] && AllRetried(items, q.tries, |q.tries| - 1)
         case Answered(_, _) => AnswerSound(items, stopped, q)
       }
  }

  predicate RequestsSound(items: seq<P.Item>, stopped: bool, requests: seq<Request>) {
    forall r :: 0 <= r < |requests| ==> RequestSound(items, stopped, requests[r])
  }

  predicate Apart(a: Request, b: Request) {
    forall i :: i in a.tries ==> i !in b.tries
  }

  /** No item serves two requests, or one request twice. */
  predicate ItemsOwned(requests: seq<Request>) {
    && (forall r, u :: 0 <= r < u < |requests| ==> Apart(requests[r], requests[u]))
    && (forall r :: 0 <= r < |requests| ==> Distinct(requests[r].tries))
  }

  predicate Distinct(tries: seq<nat>) {
    forall j, k :: 0 <= j < k < |tries| ==> tries[j] != tries[k]
  }

  ghost predicate Inv(s: State) {
    P.Inv(s.core) && RequestsSound(s.core.items, s.stopped, s.requests) && ItemsOwned(s.requests)
  }

  // ---------------------------------------------------------------------------------------------
  // Steps.

  /** What a request has read of an item stays true. */
  predicate ItemSettled(before: P.Item, after: P.Item) {
    && (before.waiter.Returned? ==> after.waiter == before.waiter && (Retried(after) <==> Retried(before)))
    && (before.life.final.Some? ==> after.life.final == before.life.final)
  }

  predicate Settled(before: seq<P.Item>, after: seq<P.Item>) {
    && |before| <= |after|
    && forall i :: 0 <= i < |before| ==> ItemSettled(before[i], after[i])
  }

  lemma ReturnedStays(s: P.State, a: P.Action, i: nat)
    requires P.Next(s, a).Some? && i < |s.items| && s.items[i].waiter.Returned?
    ensures var n := P.Next(s, a).value; i < |n.items| && n.items[i].waiter == s.items[i].waiter
  {
  }

  predicate IsFresh(s: P.State, i: nat) {
    i < |s.items| && s.items[i].waiter.Returned? && s.items[i].place == P.Fresh
  }

  lemma ProcessorLeavesFresh(s: P.State, a: P.Action, i: nat)
    requires P.PlacesSound(s) && P.IsProcessor(a) && P.ProcessorStep(s, a).Some? && IsFresh(s, i)
    ensures IsFresh(P.ProcessorStep(s, a).value, i)
  {
  }

  lemma ShutdownLeavesFresh(s: P.State, a: P.Action, i: nat)
    requires P.PlacesSound(s) && P.IsShutdown(a) && P.ShutdownStep(s, a).Some? && IsFresh(s, i)
    ensures IsFresh(P.ShutdownStep(s, a).value, i)
  {
  }

  /** An item that was never submitted stays so once its request has it back. */
  lemma FreshStays(s: P.State, a: P.Action, i: nat)
    requires P.PlacesSound(s) && P.Next(s, a).Some? && IsFresh(s, i)
    ensures IsFresh(P.Next(s, a).value, i)
  {
    if P.IsProcessor(a) {
      ProcessorLeavesFresh(s, a, i);
    } else if P.IsShutdown(a) {
      ShutdownLeavesFresh(s, a, i);
    }
  }

  lemma ProgressSettles(before: P.Item, after: P.Item)
    requires P.Progressed(before, after) && (before.waiter.Returned? ==> after.waiter == before.waiter)
    requires before.waiter.Returned? && before.place == P.Fresh ==> after.place == P.Fresh
    ensures ItemSettled(before, after)
  {
  }

  lemma ItemStepSettles(s: P.State, a: P.Action, i: nat)
    requires P.Inv(s) && P.Next(s, a).Some? && i < |s.items|
    ensures i < |P.Next(s, a).value.items| && ItemSettled(s.items[i], P.Next(s, a).value.items[i])
  {
    P.StepProgresses(s, a, i);
    if s.items[i].waiter.Returned? {
      ReturnedStays(s, a, i);
      if s.items[i].place == P.Fresh {
        FreshStays(s, a, i);
      }
    }
    ProgressSettles(s.items[i], P.Next(s, a).value.items[i]);
  }

  lemma CoreStepSettles(s: P.State, a: P.Action, n: P.State)
    requires P.Inv(s) && P.Next(s, a) == Some(n)
    ensures Settled(s.items, n.items)
  {
    if |s.items| > 0 {
      ItemStepSettles(s, a, |s.items| - 1);
    }
    forall i | 0 <= i < |s.items|
      ensures ItemSettled(s.items[i], n.items[i])
    {
      ItemStepSettles(s, a, i);
    }
  }

  lemma SettledKeepsRequest(before: seq<P.Item>, after: seq<P.Item>, stopped: bool, q: Request)
    requires Settled(before, after) && RequestSound(before, stopped, q)
    ensures RequestSound(after, stopped, q)
  {
  }

  lemma SettledKeepsRequests(before: seq<P.Item>, after: seq<P.Item>, stopped: bool, requests: seq<Request>)
    requires Settled(before, after) && RequestsSound(before, stopped, requests)
    ensures RequestsSound(after, stopped, requests)
  {
    forall r | 0 <= r < |requests|
      ensures RequestSound(after, stopped, requests[r])
    {
      SettledKeepsRequest(before, after, stopped, requests[r]);
    }
  }

  /** A request that changes only its phase still owns what it owned. */
  lemma PhaseKeepsOwnership(requests: seq<Request>, r: nat, q: Request)
    requires ItemsOwned(requests) && r < |requests| && q.tries == requests[r].tries
    ensures ItemsOwned(requests[r := q])
  {
  }

  lemma TryKeepsOwnership(items: seq<P.Item>, stopped: bool, requests: seq<Request>, r: nat, q: Request)
    requires ItemsOwned(requests) && RequestsSound(items, stopped, requests) && r < |requests|
    requires q.tries == requests[r].tries + [|items|]
    ensures ItemsOwned(requests[r := q])
  {
    forall u | 0 <= u < |requests|
      ensures |items| !in requests[u].tries
    {
      assert RequestSound(items, stopped, requests[u]);
    }
  }

  lemma TryKeepsInv(s: State, a: Action, n: State)
    requires Inv(s) && a.Try? && RequestStep(s, a) == Some(n)
    ensures Inv(n)
  {
    var q, i := s.requests[a.r], |s.core.items|;
    assert P.Next(s.core, P.Create(q.flow)) == Some(n.core);
    P.StepKeepsInv(s.core, P.Create(q.flow));
    CoreStepSettles(s.core, P.Create(q.flow), n.core);
    SettledKeepsRequests(s.core.items, n.core.items, s.stopped, s.requests);
    TryKeepsOwnership(s.core.items, s.stopped, s.requests, a.r, n.requests[a.r]);
    assert RequestSound(n.core.items, s.stopped, q);
  }

  lemma CollectKeepsInv(s: State, a: Action, n: State)
    requires Inv(s) && a.Collect? && RequestStep(s, a) == Some(n)
    ensures Inv(n)
  {
    var q := s.requests[a.r];
    assert RequestSound(s.core.items, s.stopped, q);
    assert P.ItemSound(s.core.items[q.phase.i]);
    PhaseKeepsOwnership(s.requests, a.r, n.requests[a.r]);
  }

  lemma PhaseKeepsInv(s: State, a: Action, n: State)
    requires Inv(s) && (a.Connect? || a.ConnectFails? || a.NotRunning?) && RequestStep(s, a) == Some(n)
    ensures Inv(n)
  {
    assert RequestSound(s.core.items, s.stopped, s.requests[a.r]);
    PhaseKeepsOwnership(s.requests, a.r, n.requests[a.r]);
  }

  lemma StepKeepsInv(s: State, a: Action, n: State)
    requires Inv(s) && Next(s, a) == Some(n)
    ensures Inv(n)
  {
    match a
    case Open(flow) =>
    case StopController =>
      forall r | 0 <= r < |s.requests|
        ensures RequestSound(n.core.items, true, n.requests[r])
      {
        assert RequestSound(s.core.items, s.stopped, s.requests[r]);
      }
    case Core(step) =>
      P.StepKeepsInv(s.core, step);
      CoreStepSettles(s.core, step, n.core);
      SettledKeepsRequests(s.core.items, n.core.items, s.stopped, s.requests);
    case Try(_) => TryKeepsInv(s, a, n);
    case Collect(_) => CollectKeepsInv(s, a, n);
    case _ => PhaseKeepsInv(s, a, n);
  }

  lemma {:induction false} RunKeepsInv(s: State, run: seq<Action>)
    requires Inv(s) && Exec(s, run).Some?
    ensures Inv(Exec(s, run).value)
    decreases |run|
  {
    if run != [] {
      StepKeepsInv(s, run[0], Next(s, run[0]).value);
      RunKeepsInv(Next(s, run[0]).value, run[1..]);
    }
  }

  // ---------------------------------------------------------------------------------------------
  // Every run.

  predicate WasDispatched(it: P.Item) {
    it.life.final == Some(FinalState(Dispatched, None))
  }

  /**
   In every run, an answered request has a proper outcome: finalized, with a nil error exactly when dispatched, and
   with the error its class promises. It rests on the registry's refusal, on the controller's stop, or on its last
   item, which did not come back from a draining shard, while all items before did. It is dispatched exactly when one
   of its items was.
   */
  lemma RequestOutcomesAreProper(run: seq<Action>, r: nat)
    requires Exec(Init(), run).Some? && r < |Exec(Init(), run).value.requests|
    requires Exec(Init(), run).value.requests[r].phase.Answered?
    ensures var s := Exec(Init(), run).value;
            var q, f := s.requests[r], s.requests[r].phase.state;
            && Proper(f) && !f.outcome.NotYetFinalized? && (f.err.None? <==> f.outcome.Dispatched?)
            && (forall k :: 0 <= k < |q.tries| ==> q.tries[k] < |s.core.items|)
            && (f.outcome.Dispatched? <==> exists k :: 0 <= k < |q.tries| && WasDispatched(s.core.items[q.tries[k]]))
            && (forall k :: 0 <= k < |q.tries| - 1 ==> Retried(s.core.items[q.tries[k]]))
            && AnswerSound(s.core.items, s.stopped, q)
  {
    RunKeepsInv(Init(), run);
    var s := Exec(Init(), run).value;
    var q := s.requests[r];
    assert RequestSound(s.core.items, s.stopped, q);
    forall k | 0 <= k < |q.tries| && Retried(s.core.items[q.tries[k]])
      ensures !WasDispatched(s.core.items[q.tries[k]])
    {
      assert P.ItemSound(s.core.items[q.tries[k]]);
    }
  }

  /** Once the controller has stopped, no request creates another item. */
  lemma {:induction false} NoItemAfterTheStop(s: State, run: seq<Action>)
    requires s.stopped && Exec(s, run).Some?
    ensures Exec(s, run).value.stopped && |Exec(s, run).value.core.items| == |s.core.items|
    decreases |run|
  {
    if run != [] {
      NoItemAfterTheStop(Next(s, run[0]).value, run[1..]);
    }
  }

  /** In every run, an item belongs to one request and to one of its tries. */
  lemma ItemsHaveOneRequest(run: seq<Action>, r: nat, u: nat, j: nat, k: nat)
    requires Exec(Init(), run).Some?
    requires var s := Exec(Init(), run).value;
             r < |s.requests| && u < |s.requests| && j < |s.requests[r].tries| && k < |s.requests[u].tries|
    ensures var s := Exec(Init(), run).value;
            s.requests[r].tries[j] == s.requests[u].tries[k] ==> r == u && j == k
  {
    RunKeepsInv(Init(), run);
    var s := Exec(Init(), run).value;
    var i := s.requests[r].tries[j];
    assert i in s.requests[r].tries && s.requests[u].tries[k] in s.requests[u].tries;
    assert r < u ==> Apart(s.requests[r], s.requests[u]);
    assert u < r ==> Apart(s.requests[u], s.requests[r]);
  }

  // ---------------------------------------------------------------------------------------------
  // Requests and the steps of their items.

  /** The steps of the item protocol in a run. */
  function CoreSteps(s: State, a: Action): seq<P.Action> {
    match a
    case Core(step) => [step]
    case Try(r) => if r < |s.requests| then [P.Create(s.requests[r].flow)] else []
    case _ => []
  }

  function CoreRun(s: State, run: seq<Action>): seq<P.Action>
    decreases |run|
  {
    if run == [] || Next(s, run[0]).None? then []
    else CoreSteps(s, run[0]) + CoreRun(Next(s, run[0]).value, run[1..])
  }

  lemma ExecOne(s: P.State, a: P.Action)
    ensures P.Exec(s, [a]) == P.Next(s, a)
  {
    assert [a][1..] == [];
  }

  lemma {:induction false} CoreRunIsARun(s: State, run: seq<Action>)
    requires Exec(s, run).Some?
    ensures P.Exec(s.core, CoreRun(s, run)) == Some(Exec(s, run).value.core)
    decreases |run|
  {
    if run != [] {
      var n := Next(s, run[0]).value;
      match run[0] {
        case Core(step) => ExecOne(s.core, step);
        case Try(r) => ExecOne(s.core, P.Create(s.requests[r].flow));
        case _ =>
      }
      CoreRunIsARun(n, run[1..]);
      P.ExecAppend(s.core, CoreSteps(s, run[0]), CoreRun(n, run[1..]));
    }
  }

  /**
   In every run, an answered request is dispatched exactly when the processor took one of its items out of its queue
   for dispatch and was the first to come to that item's once-only section.
   */
  lemma DispatchedExactlyWhenTaken(run: seq<Action>, r: nat)
    requires Exec(Init(), run).Some? && r < |Exec(Init(), run).value.requests|
    requires Exec(Init(), run).value.requests[r].phase.Answered?
    ensures var q := Exec(Init(), run).value.requests[r];
            q.phase.state.outcome.Dispatched? <==>
            exists k :: 0 <= k < |q.tries| && V.TakenAndSettled(CoreRun(Init(), run), q.tries[k])
  {
    var s := Exec(Init(), run).value;
    var q, core := s.requests[r], CoreRun(Init(), run);
    RequestOutcomesAreProper(run, r);
    CoreRunIsARun(Init(), run);
    forall k | 0 <= k < |q.tries|
      ensures WasDispatched(s.core.items[q.tries[k]]) <==> V.TakenAndSettled(core, q.tries[k])
    {
      AnsweredItemsAreFinal(run, r, k);
      V.DispatchedExactlyWhenTaken(core, q.tries[k]);
    }
  }

  lemma AnsweredItemsAreFinal(run: seq<Action>, r: nat, k: nat)
    requires Exec(Init(), run).Some? && r < |Exec(Init(), run).value.requests|
    requires var q := Exec(Init(), run).value.requests[r]; q.phase.Answered? && k < |q.tries|
    ensures var s := Exec(Init(), run).value;
            s.requests[r].tries[k] < |s.core.items| && s.core.items[s.requests[r].tries[k]].life.final.Some?
  {
    RunKeepsInv(Init(), run);
    var s := Exec(Init(), run).value;
    assert RequestSound(s.core.items, s.stopped, s.requests[r]);
    assert P.ItemSound(s.core.items[s.requests[r].tries[k]]);
  }

  /** A request whose item nobody disturbs, on an idle processor. */
  function Serving(r: nat, i: nat, handle: nat): seq<Action> {
    [Connect(r), Try(r)] + Cores(V.Reaching(i, handle) + V.Finishing(i)) + [Collect(r)]
  }

  function Cores(steps: seq<P.Action>): seq<Action> {
    seq(|steps|, j requires 0 <= j < |steps| => Core(steps[j]))
  }

  lemma {:induction false} CoresRun(s: State, steps: seq<P.Action>)
    requires P.Exec(s.core, steps).Some? && forall a :: a in steps ==> !a.Create?
    ensures Exec(s, Cores(steps)) == Some(s.(core := P.Exec(s.core, steps).value))
    decreases |steps|
  {
    if steps != [] {
      var n := s.(core := P.Next(s.core, steps[0]).value);
      assert steps[0] in steps && forall a :: a in steps[1..] ==> a in steps;
      assert Next(s, Core(steps[0])) == Some(n);
      CoresRun(n, steps[1..]);
      assert Cores(steps)[1..] == Cores(steps[1..]);
    }
  }

  lemma {:induction false} ExecAppend(s: State, first: seq<Action>, second: seq<Action>)
    requires Exec(s, first).Some?
    ensures Exec(s, first + second) == Exec(Exec(s, first).value, second)
    decreases |first|
  {
    if first == [] {
      assert first + second == second;
    } else {
      assert (first + second)[1..] == first[1..] + second;
      ExecAppend(Next(s, first[0]).value, first[1..], second);
    }
  }

  lemma StartsTrying(s: State, r: nat)
    requires r < |s.requests| && s.requests[r].phase == Connecting && !s.stopped
    ensures Exec(s, [Connect(r), Try(r)]).Some?
    ensures var n := Exec(s, [Connect(r), Try(r)]).value;
            && n.core == Created(s.core, s.requests[r].flow)
            && |n.requests| == |s.requests| && n.requests[r].phase == Trying(|s.core.items|)
  {
    var n := With(s, r, s.requests[r].(phase := Looping));
    assert Next(s, Connect(r)) == Some(n);
    assert [Try(r)][1..] == [];
    assert Exec(n, [Try(r)]) == Next(n, Try(r));
    assert [Connect(r), Try(r)][1..] == [Try(r)];
  }

  lemma CollectsAnswer(s: State, r: nat, f: FinalState)
    requires r < |s.requests| && s.requests[r].phase.Trying? && s.requests[r].phase.i < |s.core.items| && f.err.None?
    requires s.core.items[s.requests[r].phase.i].waiter == P.Returned(f)
    ensures Exec(s, [Collect(r)]).Some?
    ensures var n := Exec(s, [Collect(r)]).value; r < |n.requests| && n.requests[r].phase == Answered(f, FromItem)
  {
    assert [Collect(r)][1..] == [];
  }

  /** A connecting request whose flow has its queue, on an idle processor and undisturbed, is answered as dispatched. */
  lemma UndisturbedRequestIsDispatched(s: State, r: nat, handle: nat)
    requires r < |s.requests| && s.requests[r].phase == Connecting && !s.stopped
    requires s.core.processor == P.Idle && s.core.mode == P.Serving && s.core.channel == []
    requires s.requests[r].flow in s.core.queues
    ensures var end := Exec(s, Serving(r, |s.core.items|, handle));
            && end.Some? && r < |end.value.requests|
            && end.value.requests[r].phase == Answered(FinalState(Dispatched, None), FromItem)
  {
    var i, flow := |s.core.items|, s.requests[r].flow;
    var reaching, finishing := V.Reaching(i, handle), V.Finishing(i);
    StartsTrying(s, r);
    var s1 := Exec(s, [Connect(r), Try(r)]).value;
    V.ReachesDispatch(s.core, flow, handle);
    assert s1.core == V.Plus(s.core, P.NewItem(flow));
    var ready := P.Exec(s1.core, reaching).value;
    V.TakenEndsDispatched(ready, i);
    P.ExecAppend(s1.core, reaching, finishing);
    CoresRun(s1, reaching + finishing);
    var s2 := s1.(core := P.Exec(s1.core, reaching + finishing).value);
    CollectsAnswer(s2, r, FinalState(Dispatched, None));
    ExecAppend(s, [Connect(r), Try(r)], Cores(reaching + finishing));
    ExecAppend(s, [Connect(r), Try(r)] + Cores(reaching + finishing), [Collect(r)]);
  }

  // ---------------------------------------------------------------------------------------------
  // The synchronous entry point.

  /** How one turn of the distribution loop ended: before it began, or with an item that was returned. */
  datatype Attempt = Stopped | Tried(i: nat)

  ghost predicate OfRun(run: seq<P.Action>, items: seq<P.Item>, attempts: seq<Attempt>) {
    && P.Exec(P.Init(), run).Some? && P.Exec(P.Init(), run).value.items == items
    && forall k :: 0 <= k < |attempts| && attempts[k].Tried? ==>
         attempts[k].i < |items| && items[attempts[k].i].waiter.Returned?
  }

  predicate IsRetried(items: seq<P.Item>, a: Attempt) {
    a.Tried? && a.i < |items| && Retried(items[a.i])
  }

  /**
   Submits a request and waits for its outcome. `connectError` is the registry's refusal, if any; `attempts` are the
   turns of the loop for as long as they last, on items that some run of the item protocol has returned. No result
   means that the caller is still waiting.
   */
  method EnqueueAndWait(connectError: Option<Error>, attempts: seq<Attempt>, items: seq<P.Item>,
                        ghost run: seq<P.Action>)
    returns (r: Option<FinalState>)
    requires OfRun(run, items, attempts)
    ensures r.Some? ==> Proper(r.value)
    ensures connectError.Some? ==> r == Some(FinalState(RejectedOther, Some({ErrRejected} + connectError.value)))
    ensures r.None? <==> connectError.None? && forall k :: 0 <= k < |attempts| ==> IsRetried(items, attempts[k])
    ensures r.Some? && connectError.None? ==>
              exists k :: 0 <= k < |attempts| && !IsRetried(items, attempts[k])
                && (forall j :: 0 <= j < k ==> IsRetried(items, attempts[j]))
                && Some(r.value) ==
                   (if attempts[k].Stopped?
                    then Some(FinalState(RejectedOther, Some({ErrRejected, ErrFlowControllerNotRunning})))
                    else items[attempts[k].i].life.final)
  {
    if connectError.Some? {
      return Some(Refusal(connectError.value));
    }
    for k := 0 to |attempts|
      invariant forall j :: 0 <= j < k ==> IsRetried(items, attempts[j])
    {
      match attempts[k]
      case Stopped => return Some(NOT_RUNNING);
      case Tried(i) =>
        P.OutcomesAreProper(run, i);
        if !Retried(items[i]) {
          return Some(items[i].waiter.state);
        }
    }
    return None;
  }
}
