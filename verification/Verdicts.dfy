/**
 What decides the outcome of an item. The verdict is read off the actions of a run alone: who came first to the item's
 once-only section, and, for the processor and the shutdown, what had taken the item away.
 */
module Verdicts {
  import opened FlowItems
  import opened ItemProtocol
  import opened Options

  /** The action takes the item out of the processor's hand, the channel or its queue, to be finalized. */
  predicate Removes(s: State, a: Action, i: nat) {
    i < |s.items| &&
    match a
    case Take => s.processor == Dispatching(i) && s.items[i].place == Queued
    case Reject(_, _) => s.processor == Admitting(i)
    case DrainNext => s.channel != [] && s.channel[0] == i
    case Drain(queue) => s.items[i].place == Queued && s.items[i].queue == queue
    case _ => false
  }

  /** The outcome that goes with a removal. */
  function RemovalVerdict(a: Action): FinalState {
    match a
    case Take => FinalState(Dispatched, None)
    case Reject(capacity, why) =>
      FinalState(if capacity then RejectedCapacity else RejectedOther, Some({ErrRejected} + why))
    case DrainNext => FinalState(RejectedOther, Some({ErrRejected, ErrFlowControllerNotRunning}))
    case Drain(_) => FinalState(EvictedOther, Some({ErrEvicted, ErrFlowControllerNotRunning}))
    case _ => FinalState(NotYetFinalized, None)
  }

  /** The action comes to the once-only section of the item. */
  predicate Enters(a: Action, i: nat) {
    (a.Refuse? || a.Expire? || a.Settle?) && a.i == i
  }

  /** What a run has done to one item: what took it away, whether it was admitted, and who entered first. */
  datatype History = History(removal: Option<Action>, admitted: bool, verdict: Option<FinalState>)

  const NOTHING := History(None, false, None)

  function VerdictOf(a: Action, h: History): FinalState {
    match a
    case Refuse(_, capacity, why) =>
      FinalState(if capacity then RejectedCapacity else RejectedOther, Some({ErrRejected} + why))
    case Expire(_, cause) => InferOutcome(cause, h.admitted)
    case _ => if h.removal.Some? then RemovalVerdict(h.removal.value) else FinalState(NotYetFinalized, None)
  }

  function Watched(s: State, a: Action, i: nat, h: History): History {
    History(if h.removal.None? && Removes(s, a, i) then Some(a) else h.removal,
            h.admitted || (a.Admit? && s.processor == Admitting(i)),
            if h.verdict.None? && Enters(a, i) then Some(VerdictOf(a, h)) else h.verdict)
  }

  function Watch(run: seq<Action>, i: nat): History {
    if run == [] then NOTHING
    else
      var most := run[..|run| - 1];
      match Exec(Init(), most)
      case None => Watch(most, i)
      case Some(s) => Watched(s, run[|run| - 1], i, Watch(most, i))
  }

  // ---------------------------------------------------------------------------------------------
  // The protocol follows the verdict.

  predicate OnceFollows(it: Item, h: History) {
    match it.once
    case Open => h.verdict.None?
    case Running(f) => h.verdict == Some(f)
    case Done => it.life.final.Some? && h.verdict == it.life.final
  }

  predicate ItemFollows(it: Item, h: History) {
    && OnceFollows(it, h)
    && (h.admitted <==> it.life.handle.Some?)
    && (h.removal.Some? ==> it.place == Left || it.place == Dropped)
  }

  predicate Follows(s: State, i: nat, h: History) {
    if i < |s.items| then
      && ItemFollows(s.items[i], h)
      && (i in s.tasks ==> h.removal.Some? && s.tasks[i] == RemovalVerdict(h.removal.value))
    else h == NOTHING
  }

  lemma ControllerFollows(s: State, a: Action, n: State, i: nat, h: History)
    requires IsController(a) && ControllerStep(s, a) == Some(n) && ItemsSound(s) && TasksSound(s) && Follows(s, i, h)
    ensures Follows(n, i, Watched(s, a, i, h))
  {
    assert ItemSound(s.items[a.i]);
  }

  lemma ReceiveFollows(s: State, n: State, i: nat, h: History)
    requires ProcessorStep(s, Receive) == Some(n) && PlacesSound(s) && Follows(s, i, h)
    ensures Follows(n, i, Watched(s, Receive, i, h))
  {
    assert s.items[s.channel[0]].place == Buffered;
  }

  lemma HandFollows(s: State, a: Action, n: State, i: nat, h: History)
    requires a.Discard? || a.Pass? || a.Reject? || a.Admit?
    requires ProcessorStep(s, a) == Some(n) && ItemsSound(s) && PlacesSound(s) && TasksSound(s) && Follows(s, i, h)
    ensures Follows(n, i, Watched(s, a, i, h))
  {
    assert ItemSound(s.items[s.processor.i]) && s.items[s.processor.i].place == Held;
  }

  lemma DispatchFollows(s: State, a: Action, n: State, i: nat, h: History)
    requires (a.Peek? || a.Take?) && ProcessorStep(s, a) == Some(n) && ItemsSound(s) && Follows(s, i, h)
    ensures Follows(n, i, Watched(s, a, i, h))
  {
  }

  lemma BackgroundFollows(s: State, a: Action, n: State, i: nat, h: History)
    requires IsBackground(a) && BackgroundStep(s, a) == Some(n) && ItemsSound(s) && Follows(s, i, h)
    ensures Follows(n, i, Watched(s, a, i, h))
  {
    if i < |s.items| {
      assert ItemSound(s.items[i]);
    }
  }

  lemma DrainNextFollows(s: State, n: State, i: nat, h: History)
    requires ShutdownStep(s, DrainNext) == Some(n) && PlacesSound(s) && TasksSound(s) && Follows(s, i, h)
    ensures Follows(n, i, Watched(s, DrainNext, i, h))
  {
    assert s.items[s.channel[0]].place == Buffered;
  }

  lemma DrainFollows(s: State, queue: nat, n: State, i: nat, h: History)
    requires ShutdownStep(s, Drain(queue)) == Some(n) && Follows(s, i, h)
    ensures Follows(n, i, Watched(s, Drain(queue), i, h))
  {
    assert i < |s.items| ==> (i in InQueueNow(s, queue) <==> InQueue(s.items[i], queue));
  }

  lemma PhaseFollows(s: State, a: Action, n: State, i: nat, h: History)
    requires a.Stop? || a.DrainDone? || a.Snapshot? || a.StopDone?
    requires ShutdownStep(s, a) == Some(n) && Follows(s, i, h)
    ensures Follows(n, i, Watched(s, a, i, h))
  {
  }

  lemma ShutdownFollows(s: State, a: Action, n: State, i: nat, h: History)
    requires IsShutdown(a) && ShutdownStep(s, a) == Some(n) && PlacesSound(s) && TasksSound(s) && Follows(s, i, h)
    ensures Follows(n, i, Watched(s, a, i, h))
  {
    match a
    case DrainNext => DrainNextFollows(s, n, i, h);
    case Drain(queue) => DrainFollows(s, queue, n, i, h);
    case _ => PhaseFollows(s, a, n, i, h);
  }

  lemma StepFollows(s: State, a: Action, n: State, i: nat, h: History)
    requires Inv(s) && Next(s, a) == Some(n) && Follows(s, i, h)
    ensures Follows(n, i, Watched(s, a, i, h))
  {
    if a.Create? {
      CreateFollows(s, a.queue, n, i, h);
    } else if IsController(a) {
      ControllerFollows(s, a, n, i, h);
    } else if IsBackground(a) {
      BackgroundFollows(s, a, n, i, h);
    } else if IsShutdown(a) {
      ShutdownFollows(s, a, n, i, h);
    } else if a.Receive? {
      ReceiveFollows(s, n, i, h);
    } else if a.Peek? || a.Take? {
      DispatchFollows(s, a, n, i, h);
    } else {
      HandFollows(s, a, n, i, h);
    }
  }

  lemma CreateFollows(s: State, queue: nat, n: State, i: nat, h: History)
    requires Next(s, Create(queue)) == Some(n) && TasksSound(s) && Follows(s, i, h)
    ensures Follows(n, i, Watched(s, Create(queue), i, h))
  {
  }

  lemma {:induction false} RunFollows(run: seq<Action>, i: nat)
    requires Exec(Init(), run).Some?
    ensures Follows(Exec(Init(), run).value, i, Watch(run, i))
    decreases |run|
  {
    if run != [] {
      var most, a := run[..|run| - 1], run[|run| - 1];
      assert most + [a] == run;
      ExecSnoc(Init(), most, a);
      RunFollows(most, i);
      RunKeepsInv(Init(), most);
      StepFollows(Exec(Init(), most).value, a, Exec(Init(), run).value, i, Watch(most, i));
    }
  }

  /**
   In every run an item's final state is the verdict of whoever first came to its once-only section: a refusal as the
   controller said, an expiry as inferred from its cause and from whether the item had been admitted, and otherwise
   what goes with the action that had taken the item away.
   */
  lemma FirstEntryDecides(run: seq<Action>, i: nat)
    requires Exec(Init(), run).Some? && i < |Exec(Init(), run).value.items|
    ensures var it := Exec(Init(), run).value.items[i];
            && (it.life.final.Some? ==> it.life.final == Watch(run, i).verdict)
            && (Watch(run, i).verdict.None? <==> it.once.Open?)
  {
    RunFollows(run, i);
    RunKeepsInv(Init(), run);
    assert ItemSound(Exec(Init(), run).value.items[i]);
  }

  // ---------------------------------------------------------------------------------------------
  // The same in terms of the positions in a run.

  predicate RemovesAt(run: seq<Action>, k: nat, i: nat) {
    k < |run| && Exec(Init(), run[..k]).Some? && Removes(Exec(Init(), run[..k]).value, run[k], i)
  }

  /** The processor takes the item out of its queue to dispatch it. */
  predicate TakenAt(run: seq<Action>, k: nat, i: nat) {
    RemovesAt(run, k, i) && run[k].Take?
  }

  /** The shutdown drains the item's queue. */
  predicate DrainedAt(run: seq<Action>, k: nat, i: nat) {
    RemovesAt(run, k, i) && run[k].Drain?
  }

  /** The processor or a worker finalizes the item, and nobody came to its once-only section before. */
  predicate SettledFirstAt(run: seq<Action>, m: nat, i: nat) {
    m < |run| && run[m] == Settle(i) && forall j :: 0 <= j < m ==> !Enters(run[j], i)
  }

  ghost predicate TakenAndSettled(run: seq<Action>, i: nat) {
    exists k, m :: TakenAt(run, k, i) && SettledFirstAt(run, m, i) && k < m
  }

  ghost predicate DrainedAndSettled(run: seq<Action>, i: nat) {
    exists k, m :: DrainedAt(run, k, i) && SettledFirstAt(run, m, i) && k < m
  }

  lemma PrefixOf(run: seq<Action>, k: nat)
    requires k < |run|
    ensures run[..|run| - 1][..k] == run[..k]
    ensures k < |run| - 1 ==> run[..|run| - 1][k] == run[k]
  {
  }

  lemma {:induction false} RunsFromTheStart(run: seq<Action>, k: nat)
    requires Exec(Init(), run).Some? && k <= |run|
    ensures Exec(Init(), run[..k]).Some?
    decreases |run|
  {
    if k < |run| {
      var most, a := run[..|run| - 1], run[|run| - 1];
      assert most + [a] == run;
      ExecSnoc(Init(), most, a);
      RunsFromTheStart(most, k);
      assert most[..k] == run[..k];
    } else {
      assert run[..k] == run;
    }
  }

  lemma RemovedIsHere(s: State, a: Action, i: nat)
    requires PlacesSound(s) && Removes(s, a, i)
    ensures s.items[i].place == Queued || s.items[i].place == Held || s.items[i].place == Buffered
  {
  }

  /** What takes an item away is the first to do so. */
  lemma RemovalIsFirst(run: seq<Action>, i: nat)
    requires Exec(Init(), run).Some? && Watch(run, i).removal.Some?
    ensures forall a :: !Removes(Exec(Init(), run).value, a, i)
  {
    RunFollows(run, i);
    RunKeepsInv(Init(), run);
    forall a
      ensures !Removes(Exec(Init(), run).value, a, i)
    {
      if Removes(Exec(Init(), run).value, a, i) {
        RemovedIsHere(Exec(Init(), run).value, a, i);
      }
    }
  }

  /** An item is taken away once, and the watch has it. */
  lemma {:induction false} WatchSeesRemoval(run: seq<Action>, k: nat, i: nat)
    requires Exec(Init(), run).Some? && RemovesAt(run, k, i)
    ensures Watch(run, i).removal == Some(run[k])
    decreases |run|
  {
    var most, a := run[..|run| - 1], run[|run| - 1];
    assert most + [a] == run;
    ExecSnoc(Init(), most, a);
    PrefixOf(run, k);
    if k < |run| - 1 {
      WatchSeesRemoval(most, k, i);
    } else if Watch(most, i).removal.Some? {
      RemovalIsFirst(most, i);
    }
  }

  lemma {:induction false} RemovalWasSeen(run: seq<Action>, i: nat) returns (k: nat)
    requires Exec(Init(), run).Some? && Watch(run, i).removal.Some?
    ensures RemovesAt(run, k, i) && Watch(run, i).removal == Some(run[k])
    decreases |run|
  {
    var most, a := run[..|run| - 1], run[|run| - 1];
    assert most + [a] == run;
    ExecSnoc(Init(), most, a);
    if Watch(most, i).removal.Some? {
      k := RemovalWasSeen(most, i);
      PrefixOf(run, k);
    } else {
      k := |run| - 1;
      assert run[..k] == most;
    }
  }

  lemma {:induction false} NobodyEnteredYet(run: seq<Action>, m: nat, i: nat)
    requires Exec(Init(), run).Some? && m <= |run| && forall j :: 0 <= j < m ==> !Enters(run[j], i)
    ensures Exec(Init(), run[..m]).Some? && Watch(run[..m], i).verdict.None?
    decreases m
  {
    RunsFromTheStart(run, m);
    if m > 0 {
      NobodyEnteredYet(run, m - 1, i);
      assert run[..m][..m - 1] == run[..m - 1];
    }
  }

  lemma {:induction false} VerdictStays(run: seq<Action>, m: nat, i: nat)
    requires Exec(Init(), run).Some? && m <= |run| && Watch(run[..m], i).verdict.Some?
    ensures Watch(run, i).verdict == Watch(run[..m], i).verdict
    decreases |run|
  {
    if m < |run| {
      var most, a := run[..|run| - 1], run[|run| - 1];
      assert most + [a] == run;
      ExecSnoc(Init(), most, a);
      assert most[..m] == run[..m];
      VerdictStays(most, m, i);
    } else {
      assert run[..m] == run;
    }
  }

  /** Whoever settles an item first had it taken away before, and that decides. */
  lemma SettledFirstDecides(run: seq<Action>, m: nat, i: nat) returns (k: nat)
    requires Exec(Init(), run).Some? && SettledFirstAt(run, m, i)
    ensures k < m && RemovesAt(run, k, i) && Watch(run, i).verdict == Some(RemovalVerdict(run[k]))
  {
    var before := run[..m];
    NobodyEnteredYet(run, m, i);
    RunFollows(before, i);
    RunsFromTheStart(run, m + 1);
    assert run[..m + 1] == before + [Settle(i)];
    ExecSnoc(Init(), before, Settle(i));
    k := RemovalWasSeen(before, i);
    assert before[..k] == run[..k] && before[k] == run[k];
    assert run[..m + 1][..m] == before;
    VerdictStays(run, m + 1, i);
  }

  /** A verdict that is neither a rejection by the controller nor an expiry was settled first. */
  lemma {:induction false} VerdictHasEntry(run: seq<Action>, i: nat) returns (m: nat)
    requires Exec(Init(), run).Some? && Watch(run, i).verdict.Some?
    ensures m < |run| && Enters(run[m], i) && forall j :: 0 <= j < m ==> !Enters(run[j], i)
    decreases |run|
  {
    var most, a := run[..|run| - 1], run[|run| - 1];
    assert most + [a] == run;
    ExecSnoc(Init(), most, a);
    if Watch(most, i).verdict.Some? {
      m := VerdictHasEntry(most, i);
    } else {
      m := |run| - 1;
      forall j | 0 <= j < m
        ensures !Enters(run[j], i)
      {
        NoVerdictNoEntry(most, j, i);
      }
    }
  }

  lemma {:induction false} NoVerdictNoEntry(run: seq<Action>, j: nat, i: nat)
    requires Exec(Init(), run).Some? && Watch(run, i).verdict.None? && j < |run|
    ensures !Enters(run[j], i)
    decreases |run|
  {
    var most, a := run[..|run| - 1], run[|run| - 1];
    assert most + [a] == run;
    ExecSnoc(Init(), most, a);
    if j < |most| {
      NoVerdictNoEntry(most, j, i);
    }
  }

  lemma EntryDecides(run: seq<Action>, m: nat, i: nat)
    requires Exec(Init(), run).Some? && m < |run| && Enters(run[m], i)
    requires forall j :: 0 <= j < m ==> !Enters(run[j], i)
    ensures Watch(run, i).verdict == Some(VerdictOf(run[m], Watch(run[..m], i)))
  {
    NobodyEnteredYet(run, m, i);
    RunsFromTheStart(run, m + 1);
    assert run[..m + 1][..m] == run[..m];
    VerdictStays(run, m + 1, i);
  }

  /**
   In every run a finalized item is dispatched exactly when the processor took it out of its queue for dispatch and
   then was the first to come to its once-only section. One that the shutdown drained, and was the first to come to,
   is evicted because the controller is not running.
   */
  lemma DispatchedExactlyWhenTaken(run: seq<Action>, i: nat)
    requires Exec(Init(), run).Some?
    requires i < |Exec(Init(), run).value.items| && Exec(Init(), run).value.items[i].life.final.Some?
    ensures var f := Exec(Init(), run).value.items[i].life.final.value;
            && (f.outcome.Dispatched? <==> TakenAndSettled(run, i))
            && (TakenAndSettled(run, i) ==> f == FinalState(Dispatched, None))
            && (DrainedAndSettled(run, i) ==>
                  f == FinalState(EvictedOther, Some({ErrEvicted, ErrFlowControllerNotRunning})))
  {
    var f := Exec(Init(), run).value.items[i].life.final.value;
    FirstEntryDecides(run, i);
    if TakenAndSettled(run, i) {
      var k, m :| TakenAt(run, k, i) && SettledFirstAt(run, m, i) && k < m;
      RemovalSettles(run, k, m, i);
    }
    if DrainedAndSettled(run, i) {
      var k, m :| DrainedAt(run, k, i) && SettledFirstAt(run, m, i) && k < m;
      RemovalSettles(run, k, m, i);
    }
    if f.outcome.Dispatched? {
      var m := VerdictHasEntry(run, i);
      EntryDecides(run, m, i);
      assert run[m] == Settle(i);
      var k := SettledFirstDecides(run, m, i);
      assert TakenAt(run, k, i) && SettledFirstAt(run, m, i);
    }
  }

  lemma RemovalSettles(run: seq<Action>, k: nat, m: nat, i: nat)
    requires Exec(Init(), run).Some? && RemovesAt(run, k, i) && SettledFirstAt(run, m, i)
    ensures Watch(run, i).verdict == Some(RemovalVerdict(run[k]))
  {
    var j := SettledFirstDecides(run, m, i);
    WatchSeesRemoval(run, j, i);
    WatchSeesRemoval(run, k, i);
  }

  // ---------------------------------------------------------------------------------------------
  // An item that nobody disturbs is dispatched.

  function Plus(s: State, it: Item): State {
    s.(items := s.items + [it])
  }

  lemma PlusUpdates(s: State, it: Item, next: Item)
    ensures Known(Plus(s, it), |s.items|) && With(Plus(s, it), |s.items|, next) == Plus(s, next)
  {
    assert (s.items + [it])[|s.items| := next] == s.items + [next];
  }

  function Reaching(i: nat, handle: nat): seq<Action> {
    [Submit(i), Receive, Pass, Admit(handle), Peek(i)]
  }

  function Finishing(i: nat): seq<Action> {
    [Take, Settle(i), Publish(i), Return(i)]
  }

  function QueuedItem(queue: nat, handle: nat): Item {
    Item(queue, Life(Some(handle), None, []), Open, Queued, Waiting, 1, 0, false)
  }

  function WaitingItem(queue: nat, place: Place): Item {
    NewItem(queue).(waiter := Waiting, place := place)
  }

  lemma SubmitsNew(s: State, queue: nat)
    requires s.channel == []
    ensures var i := |s.items|;
            Next(Plus(s, NewItem(queue)), Submit(i)) == Some(Plus(s, WaitingItem(queue, Buffered)).(channel := [i]))
  {
    PlusUpdates(s, NewItem(queue), WaitingItem(queue, Buffered));
    assert [] + [|s.items|] == [|s.items|];
  }

  lemma ReceivesNew(s: State, queue: nat)
    requires s.processor == Idle && s.mode == Serving && s.channel == []
    ensures var i := |s.items|;
            Next(Plus(s, WaitingItem(queue, Buffered)).(channel := [i]), Receive)
            == Some(Plus(s, WaitingItem(queue, Held)).(processor := Holding(i)))
  {
    PlusUpdates(s, WaitingItem(queue, Buffered), WaitingItem(queue, Held));
    assert [|s.items|][1..] == [];
  }

  lemma AdmitsNew(s: State, queue: nat, handle: nat)
    requires s.processor == Idle && queue in s.queues
    ensures Next(Plus(s, WaitingItem(queue, Held)).(processor := Admitting(|s.items|)), Admit(handle))
            == Some(Plus(s, QueuedItem(queue, handle)))
  {
    PlusUpdates(s, WaitingItem(queue, Held), QueuedItem(queue, handle));
  }

  lemma ReachesAdmission(s: State, queue: nat)
    requires s.processor == Idle && s.mode == Serving && s.channel == []
    ensures var i := |s.items|;
            Exec(Plus(s, NewItem(queue)), [Submit(i), Receive, Pass])
            == Some(Plus(s, WaitingItem(queue, Held)).(processor := Admitting(i)))
  {
    var i := |s.items|;
    SubmitsNew(s, queue);
    ReceivesNew(s, queue);
    var s0, s1 := Plus(s, NewItem(queue)), Plus(s, WaitingItem(queue, Buffered)).(channel := [i]);
    var s2 := Plus(s, WaitingItem(queue, Held)).(processor := Holding(i));
    var s3 := s2.(processor := Admitting(i));
    ExecCons(s2, Pass, s3, [], s3);
    ExecCons(s1, Receive, s2, [Pass] + [], s3);
    ExecCons(s0, Submit(i), s1, [Receive] + ([Pass] + []), s3);
    assert [Submit(i), Receive, Pass] == [Submit(i)] + ([Receive] + ([Pass] + []));
  }

  lemma ReachesPeek(s: State, queue: nat, handle: nat)
    requires s.processor == Idle && s.mode == Serving && queue in s.queues
    ensures var i := |s.items|;
            Exec(Plus(s, WaitingItem(queue, Held)).(processor := Admitting(i)), [Admit(handle), Peek(i)])
            == Some(Plus(s, QueuedItem(queue, handle)).(processor := Dispatching(i)))
  {
    var i := |s.items|;
    AdmitsNew(s, queue, handle);
    var s3, s4 := Plus(s, WaitingItem(queue, Held)).(processor := Admitting(i)), Plus(s, QueuedItem(queue, handle));
    var s5 := s4.(processor := Dispatching(i));
    ExecCons(s4, Peek(i), s5, [], s5);
    ExecCons(s3, Admit(handle), s4, [Peek(i)] + [], s5);
    assert [Admit(handle), Peek(i)] == [Admit(handle)] + ([Peek(i)] + []);
  }

  lemma ReachesDispatch(s: State, queue: nat, handle: nat)
    requires s.processor == Idle && s.mode == Serving && s.channel == [] && queue in s.queues
    ensures var i := |s.items|;
            Exec(Plus(s, NewItem(queue)), Reaching(i, handle))
            == Some(Plus(s, QueuedItem(queue, handle)).(processor := Dispatching(i)))
  {
    var i := |s.items|;
    ReachesAdmission(s, queue);
    ReachesPeek(s, queue, handle);
    ExecAppend(Plus(s, NewItem(queue)), [Submit(i), Receive, Pass], [Admit(handle), Peek(i)]);
    assert Reaching(i, handle) == [Submit(i), Receive, Pass] + [Admit(handle), Peek(i)];
  }

  /** An open item that is taken for dispatch, settled and published ends dispatched, and its request returns so. */
  lemma TakenEndsDispatched(s: State, i: nat)
    requires i < |s.items| && s.processor == Dispatching(i) && s.items[i].place == Queued
    requires s.items[i].once.Open? && s.items[i].life.final.None? && s.items[i].waiter == Waiting
    ensures Exec(s, Finishing(i)).Some?
    ensures var n := Exec(s, Finishing(i)).value;
            && |n.items| == |s.items| && n.items[i].life.final == Some(FinalState(Dispatched, None))
            && n.items[i].waiter == Returned(FinalState(Dispatched, None)) && n.items[i].place == Left
  {
    var f, run := FinalState(Dispatched, None), Finishing(i);
    var s1 := Next(s, Take).value;
    var s2 := Next(s1, Settle(i)).value;
    assert s2.items[i].once == Running(f);
    var s3 := Next(s2, Publish(i)).value;
    assert s3.items[i].life.final == Some(f);
    var s4 := Next(s3, Return(i)).value;
    ExecCons(s3, run[3], s4, [], s4);
    ExecCons(s2, run[2], s3, run[3..], s4);
    ExecCons(s1, run[1], s2, run[2..], s4);
    ExecCons(s, run[0], s1, run[1..], s4);
  }
}
