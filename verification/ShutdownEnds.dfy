/** A shutdown can always be carried to its end, and an item's controller can always give it up. */
module ShutdownEnds {
  import opened FlowItems
  import opened ItemProtocol
  import opened Options

  // ---------------------------------------------------------------------------------------------
  // The shutdown of the processor.

  lemma Prepend(s: State, a: Action, rest: seq<Action>)
    requires Next(s, a).Some?
    ensures Exec(s, [a] + rest) == Exec(Next(s, a).value, rest)
  {
    assert ([a] + rest)[1..] == rest;
  }

  lemma {:induction false} DrainsChannel(s: State) returns (run: seq<Action>)
    requires Inv(s) && s.mode == Draining
    ensures Exec(s, run).Some? && Inv(Exec(s, run).value)
    ensures Exec(s, run).value.mode == Draining && Exec(s, run).value.channel == []
    decreases |s.channel|
  {
    if s.channel == [] {
      run := [];
    } else {
      StepKeepsInv(s, DrainNext);
      var rest := DrainsChannel(Next(s, DrainNext).value);
      Prepend(s, DrainNext, rest);
      run := [DrainNext] + rest;
    }
  }

  lemma {:induction false} DrainsQueues(s: State) returns (run: seq<Action>)
    requires Inv(s) && s.mode.Evicting?
    ensures Exec(s, run).Some? && Inv(Exec(s, run).value) && Exec(s, run).value.mode == Evicting({})
    decreases if s.mode.Evicting? then |s.mode.todo| else 0
  {
    if s.mode.todo == {} {
      run := [];
    } else {
      var queue :| queue in s.mode.todo;
      StepKeepsInv(s, Drain(queue));
      var rest := DrainsQueues(Next(s, Drain(queue)).value);
      Prepend(s, Drain(queue), rest);
      run := [Drain(queue)] + rest;
    }
  }

  /** The steps that complete one finalization. */
  function SettleRun(it: Item, i: nat): seq<Action> {
    if it.once.Open? then [Settle(i)] + ([Publish(i)] + ([Settle(i)] + []))
    else if it.once.Running? then [Publish(i)] + ([Settle(i)] + [])
    else [Settle(i)] + []
  }

  lemma DoneSettles(s: State, i: nat)
    requires i in s.tasks && Known(s, i) && s.items[i].once.Done?
    ensures Exec(s, [Settle(i)] + []) == Some(s.(tasks := s.tasks - {i}))
  {
    Prepend(s, Settle(i), []);
  }

  lemma RunningSettles(s: State, i: nat)
    requires i in s.tasks && Known(s, i) && s.items[i].once.Running?
    ensures var end := Exec(s, [Publish(i)] + ([Settle(i)] + []));
            end.Some? && end.value.tasks == s.tasks - {i} && end.value.mode == s.mode
  {
    var n := Next(s, Publish(i)).value;
    DoneSettles(n, i);
    Prepend(s, Publish(i), [Settle(i)] + []);
  }

  lemma TaskSettles(s: State, i: nat)
    requires i in s.tasks && Known(s, i)
    ensures var end := Exec(s, SettleRun(s.items[i], i));
            end.Some? && end.value.tasks == s.tasks - {i} && end.value.mode == s.mode
  {
    if s.items[i].once.Open? {
      var n := Next(s, Settle(i)).value;
      RunningSettles(n, i);
      Prepend(s, Settle(i), [Publish(i)] + ([Settle(i)] + []));
    } else if s.items[i].once.Running? {
      RunningSettles(s, i);
    } else {
      DoneSettles(s, i);
    }
  }

  lemma SettlesOne(s: State, i: nat) returns (run: seq<Action>)
    requires Inv(s) && i in s.tasks
    ensures Exec(s, run).Some? && Inv(Exec(s, run).value)
    ensures Exec(s, run).value.tasks == s.tasks - {i} && Exec(s, run).value.mode == s.mode
  {
    run := SettleRun(s.items[i], i);
    TaskSettles(s, i);
    RunKeepsInv(s, run);
  }

  lemma FewerTasks(tasks: map<nat, FinalState>, i: nat)
    requires i in tasks
    ensures |tasks - {i}| < |tasks|
  {
    assert tasks == (tasks - {i})[i := tasks[i]];
  }

  lemma {:induction false} SettlesTasks(s: State) returns (run: seq<Action>)
    requires Inv(s)
    ensures Exec(s, run).Some? && Inv(Exec(s, run).value)
    ensures Exec(s, run).value.tasks == map[] && Exec(s, run).value.mode == s.mode
    decreases |s.tasks|
  {
    if |s.tasks| == 0 {
      run := [];
    } else {
      var i :| i in s.tasks;
      FewerTasks(s.tasks, i);
      var first := SettlesOne(s, i);
      var rest := SettlesTasks(Exec(s, first).value);
      ExecAppend(s, first, rest);
      run := first + rest;
    }
  }

  lemma EvictionEnds(s: State) returns (run: seq<Action>)
    requires Inv(s) && s.mode.Evicting?
    ensures Exec(s, run).Some? && Exec(s, run).value.mode == Halted
  {
    var drains := DrainsQueues(s);
    var s1 := Exec(s, drains).value;
    var settles := SettlesTasks(s1);
    var s2 := Exec(s1, settles).value;
    Prepend(s2, StopDone, []);
    ExecAppend(s1, settles, [StopDone] + []);
    ExecAppend(s, drains, settles + ([StopDone] + []));
    run := drains + (settles + ([StopDone] + []));
  }

  lemma ListingEnds(s: State) returns (run: seq<Action>)
    requires Inv(s) && s.mode == Draining && s.channel == []
    ensures Exec(s, run).Some? && Exec(s, run).value.mode == Halted
  {
    StepKeepsInv(s, DrainDone);
    var listing := Next(s, DrainDone).value;
    StepKeepsInv(listing, Snapshot(s.queues));
    var last := EvictionEnds(Next(listing, Snapshot(s.queues)).value);
    Prepend(listing, Snapshot(s.queues), last);
    Prepend(s, DrainDone, [Snapshot(s.queues)] + last);
    run := [DrainDone] + ([Snapshot(s.queues)] + last);
  }

  lemma DrainingEnds(s: State) returns (run: seq<Action>)
    requires Inv(s) && s.mode == Draining
    ensures Exec(s, run).Some? && Exec(s, run).value.mode == Halted
  {
    var drains := DrainsChannel(s);
    var last := ListingEnds(Exec(s, drains).value);
    ExecAppend(s, drains, last);
    run := drains + last;
  }

  /** From every reachable state in which the processor is between two items, a shutdown can be carried to its end. */
  lemma ShutdownCanEnd(before: seq<Action>) returns (run: seq<Action>)
    requires Exec(Init(), before).Some?
    requires var s := Exec(Init(), before).value; s.mode == Serving && s.processor == Idle
    ensures Exec(Exec(Init(), before).value, run).Some?
    ensures Exec(Exec(Init(), before).value, run).value.mode == Halted
  {
    RunKeepsInv(Init(), before);
    var s := Exec(Init(), before).value;
    StepKeepsInv(s, Stop);
    var last := DrainingEnds(Next(s, Stop).value);
    Prepend(s, Stop, last);
    run := [Stop] + last;
  }

  // ---------------------------------------------------------------------------------------------
  // The controller of an item.

  lemma PublishReturns(s: State, i: nat, f: FinalState)
    requires Known(s, i) && s.items[i].once == Running(f) && s.items[i].life.final.None? && s.items[i].waiter == Expired
    ensures var end := Exec(s, [Publish(i)] + ([Return(i)] + []));
            end.Some? && Known(end.value, i) && end.value.items[i].waiter == Returned(f)
  {
    var n := Next(s, Publish(i)).value;
    Prepend(n, Return(i), []);
    Prepend(s, Publish(i), [Return(i)] + []);
  }

  /** A request whose item no processor takes returns with the refusal. */
  lemma RefusedReturns(s: State, i: nat, capacity: bool, why: Error)
    requires Inv(s) && Known(s, i) && s.items[i].waiter == Owner
    ensures var end := Exec(s, [Refuse(i, capacity, why)] + ([Publish(i)] + ([Return(i)] + [])));
            && end.Some? && Known(end.value, i)
            && end.value.items[i].waiter ==
               Returned(FinalState(if capacity then RejectedCapacity else RejectedOther, Some({ErrRejected} + why)))
  {
    assert ItemSound(s.items[i]);
    var n := Next(s, Refuse(i, capacity, why)).value;
    PublishReturns(n, i, RejectedState(capacity, why));
    Prepend(s, Refuse(i, capacity, why), [Publish(i)] + ([Return(i)] + []));
  }

  /** A request whose context ends before anybody else finalized its item returns with the outcome of that. */
  lemma ExpiredReturns(s: State, i: nat, cause: Error)
    requires Inv(s) && Known(s, i) && (s.items[i].waiter == Owner || s.items[i].waiter == Waiting)
    requires s.items[i].once.Open?
    ensures var end := Exec(s, [Expire(i, cause)] + ([Publish(i)] + ([Return(i)] + [])));
            && end.Some? && Known(end.value, i)
            && end.value.items[i].waiter == Returned(InferOutcome(cause, s.items[i].admissions == 1))
  {
    assert ItemSound(s.items[i]);
    var n := Next(s, Expire(i, cause)).value;
    PublishReturns(n, i, InferOutcome(cause, s.items[i].admissions == 1));
    Prepend(s, Expire(i, cause), [Publish(i)] + ([Return(i)] + []));
  }
}
