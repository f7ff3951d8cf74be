/**
 The shutdown of the processor over the statistics protocol: it lists the queues, has workers drain every listed queue
 once, and waits for them and for the sweep. Nothing tests that the queues are empty.
 */
module ShutdownProtocol {
  import opened FlowKeys
  import opened ManagedQueues
  import opened Options
  import S = StatsProtocol

  /** `base` are the queues that have been there since the listing began; `todo` those still to be drained. */
  datatype Mode = Serving | Listing(base: set<FlowKey>) | Evicting(todo: set<FlowKey>) | Halted

  datatype State = State(core: S.State, mode: Mode)

  datatype Action =
    | Core(step: S.Action)
    | Stop
    | Snapshot(seen: set<FlowKey>)
    | DrainQueue(key: FlowKey)
    | Finish

  function Init(limit: S.Limit): State {
    State(S.Init(limit), Serving)
  }

  predicate IsAdmission(a: S.Action) {
    a.StartCheck? || a.ReadNext? || a.Decide? || a.BeginAdd? || a.EndAdd?
  }

  /** The stopped processor admits nothing, and after the shutdown nobody operates on a queue. */
  predicate Allowed(m: Mode, a: S.Action) {
    (IsAdmission(a) ==> m.Serving?) && (a.Begin? ==> !m.Halted?)
  }

  function AfterCore(m: Mode, a: S.Action): Mode {
    if m.Listing? && a.DropFlow? then Listing(m.base - {a.key}) else m
  }

  ghost predicate Waited(s: S.State) {
    forall k :: k in s.queues ==> s.queues[k].lock.Free?
  }

  ghost function Next(s: State, a: Action): Option<State> {
    match a
    case Core(step) =>
      if !Allowed(s.mode, step) || S.Next(s.core, step).None? then None
      else Some(State(S.Next(s.core, step).value, AfterCore(s.mode, step)))
    case Stop =>
      if !s.mode.Serving? || !s.core.admission.Idle? then None else Some(s.(mode := Listing(s.core.queues.Keys)))
    case Snapshot(seen) =>
      if !s.mode.Listing? || !(s.mode.base <= seen) then None else Some(s.(mode := Evicting(seen)))
    case DrainQueue(k) =>
      if !s.mode.Evicting? || k !in s.mode.todo then None
      else if !S.Provisioned(s.core, k) then Some(s.(mode := Evicting(s.mode.todo - {k})))
      else if S.Next(s.core, S.Begin(k, Drain)).None? then None
      else Some(State(S.Next(s.core, S.Begin(k, Drain)).value, Evicting(s.mode.todo - {k})))
    case Finish =>
      if s.mode != Evicting({}) || !Waited(s.core) then None else Some(s.(mode := Halted))
  }

  ghost function Exec(s: State, run: seq<Action>): Option<State>
    decreases |run|
  {
    if run == [] then Some(s) else
    match Next(s, run[0])
    case None => None
    case Some(next) => Exec(next, run[1..])
  }

  // ---------------------------------------------------------------------------------------------
  // The invariant.

  ghost predicate Filled(s: S.State, within: set<FlowKey>) {
    forall k :: k in s.queues && s.queues[k].items != [] ==> k in within
  }

  /** Once the processor has stopped, a queue that is not empty is still to be drained. */
  ghost predicate ModeSound(s: State) {
    && (!s.mode.Serving? ==> s.core.admission.Idle?)
    && match s.mode {
         case Serving => true
         case Listing(base) => Filled(s.core, base)
         case Evicting(todo) => Filled(s.core, todo)
         case Halted => Filled(s.core, {}) && Waited(s.core)
       }
  }

  ghost predicate Inv(s: State) {
    S.Conserved(s.core) && ModeSound(s)
  }

  /** Without an admission no queue is filled, and without an operation none is locked. */
  lemma NothingFills(s: S.State, a: S.Action, n: S.State)
    requires S.Next(s, a) == Some(n) && !IsAdmission(a)
    ensures n.admission == s.admission
    ensures forall k :: k in n.queues && n.queues[k].items != [] ==> k in s.queues && s.queues[k].items != []
    ensures !a.Begin? && Waited(s) ==> Waited(n)
  {
    if a.Begin? {
      BeginEmpties(s.queues[a.key].items, a.op);
    } else if a.Tick? && s.queues[a.key].lock.done < 10 {
      S.TickShape(s, a.key);
    }
  }

  lemma BeginEmpties(items: seq<Item>, op: Operation)
    requires !op.Add?
    ensures ItemsAfter(items, op) != [] ==> items != []
  {
  }

  lemma CoreKeepsMode(s: State, step: S.Action, n: State)
    requires ModeSound(s) && Next(s, Core(step)) == Some(n)
    ensures ModeSound(n)
  {
    if !s.mode.Serving? {
      NothingFills(s.core, step, n.core);
    }
  }

  lemma DrainedIsEmpty(s: S.State, k: FlowKey, n: S.State)
    requires S.Next(s, S.Begin(k, Drain)) == Some(n)
    ensures k in n.queues && n.queues[k].items == []
  {
  }

  /** A worker empties its queue, or finds no band: then the queue was empty. */
  lemma DrainKeepsMode(s: State, k: FlowKey, n: State)
    requires ModeSound(s) && Next(s, DrainQueue(k)) == Some(n)
    requires k in s.core.queues && !S.Provisioned(s.core, k) ==> s.core.queues[k].items == []
    ensures ModeSound(n)
  {
    if S.Provisioned(s.core, k) {
      NothingFills(s.core, S.Begin(k, Drain), n.core);
      DrainedIsEmpty(s.core, k, n.core);
    }
  }

  lemma StepKeepsInv(s: State, a: Action, n: State)
    requires Inv(s) && Next(s, a) == Some(n) && (a.Core? ==> S.Harmless(s.core, a.step))
    ensures Inv(n)
  {
    match a
    case Core(step) =>
      S.StepKeepsConserved(s.core, step);
      CoreKeepsMode(s, step, n);
    case Stop =>
    case Snapshot(_) =>
    case DrainQueue(k) =>
      if S.Provisioned(s.core, k) {
        S.StepKeepsConserved(s.core, S.Begin(k, Drain));
      }
      assert k in s.core.queues && !S.Provisioned(s.core, k) ==> S.Vacant(s.core, k);
      DrainKeepsMode(s, k, n);
    case Finish =>
  }

  ghost predicate HarmlessRun(s: State, run: seq<Action>)
    decreases |run|
  {
    run == []
    || ((run[0].Core? ==> S.Harmless(s.core, run[0].step))
        && (Next(s, run[0]).Some? ==> HarmlessRun(Next(s, run[0]).value, run[1..])))
  }

  lemma {:induction false} RunKeepsInv(s: State, run: seq<Action>)
    requires Inv(s) && HarmlessRun(s, run) && Exec(s, run).Some?
    ensures Inv(Exec(s, run).value)
    decreases |run|
  {
    if run != [] {
      StepKeepsInv(s, run[0], Next(s, run[0]).value);
      RunKeepsInv(Next(s, run[0]).value, run[1..]);
    }
  }

  /**
   In every run, from the end of the shutdown on, every queue is empty and every counter of every level is zero,
   because only the stopped processor could have filled a queue again.
   */
  lemma ShutdownZeroesCounters(limit: S.Limit, run: seq<Action>)
    requires HarmlessRun(Init(limit), run) && Exec(Init(limit), run).Some?
    requires Exec(Init(limit), run).value.mode.Halted?
    ensures var s := Exec(Init(limit), run).value.core;
            && (forall k :: k in s.queues ==> s.queues[k].items == [] && s.queues[k].stats == S.ZERO)
            && (forall p :: p in s.bands ==> s.bands[p] == S.ZERO)
            && (forall p :: p in s.registryBands ==> s.registryBands[p] == S.ZERO)
            && s.shard == S.ZERO && s.registry == S.ZERO
  {
    S.InitIsConserved(limit);
    RunKeepsInv(Init(limit), run);
    S.DrainedCountersAreZero(Exec(Init(limit), run).value.core);
  }

  // ---------------------------------------------------------------------------------------------
  // The shutdown can always be carried to its end.

  lemma Prepend(s: State, a: Action, rest: seq<Action>)
    requires Next(s, a).Some?
    ensures Exec(s, [a] + rest) == Exec(Next(s, a).value, rest)
  {
    assert ([a] + rest)[1..] == rest;
  }

  lemma {:induction false} ExecAppend(s: State, first: seq<Action>, second: seq<Action>)
    requires Exec(s, first).Some?
    ensures Exec(s, first + second) == Exec(Exec(s, first).value, second)
    decreases |first|
  {
    if first == [] {
      assert first + second == second;
    } else {
      assert (first + second)[1..] == first[1..] + second;
      ExecAppend(Next(s, first[0]).value, first[1..], second);
    }
  }

  function TicksLeft(q: S.Queue): nat {
    if q.lock.Free? then 0 else if q.lock.done >= 10 then 1 else 11 - q.lock.done
  }

  /** Only queue `k` moves from `s` to `n`. */
  ghost predicate OnlyMoves(s: S.State, n: S.State, k: FlowKey) {
    && n.queues.Keys == s.queues.Keys && (forall j :: j in s.queues && j != k ==> n.queues[j] == s.queues[j])
    && n.admission == s.admission
  }

  lemma TickMoves(s: S.State, k: FlowKey)
    requires S.QueuesSound(s) && k in s.queues && s.queues[k].lock.Busy?
    ensures S.Next(s, S.Tick(k)).Some?
    ensures var n := S.Next(s, S.Tick(k)).value;
            OnlyMoves(s, n, k) && TicksLeft(n.queues[k]) < TicksLeft(s.queues[k])
  {
    S.BusyMoves(s, k);
    if s.queues[k].lock.done < 10 {
      S.TickShape(s, k);
    }
  }

  /** An operation under way on a queue can be finished. */
  lemma {:induction false} FinishesQueue(s: State, k: FlowKey) returns (run: seq<Action>)
    requires Inv(s) && k in s.core.queues
    ensures Exec(s, run).Some? && Inv(Exec(s, run).value) && Exec(s, run).value.mode == s.mode
    ensures var n := Exec(s, run).value.core; OnlyMoves(s.core, n, k) && n.queues[k].lock.Free?
    decreases TicksLeft(s.core.queues[k])
  {
    if s.core.queues[k].lock.Free? {
      run := [];
    } else {
      TickMoves(s.core, k);
      var a := Core(S.Tick(k));
      var n := Next(s, a).value;
      StepKeepsInv(s, a, n);
      var rest := FinishesQueue(n, k);
      Prepend(s, a, rest);
      run := [a] + rest;
    }
  }

  function BusyQueues(s: S.State): set<FlowKey> {
    set k | k in s.queues && s.queues[k].lock.Busy?
  }

  lemma NoneBusy(s: S.State)
    requires |BusyQueues(s)| == 0
    ensures Waited(s)
  {
    forall k | k in s.queues
      ensures s.queues[k].lock.Free?
    {
      assert k !in BusyQueues(s);
    }
  }

  lemma OneBusyLess(s: S.State, n: S.State, k: FlowKey)
    requires k in BusyQueues(s) && OnlyMoves(s, n, k) && n.queues[k].lock.Free?
    ensures |BusyQueues(n)| < |BusyQueues(s)|
  {
    assert forall j :: j in n.queues <==> j in n.queues.Keys;
    assert forall j :: j in s.queues <==> j in s.queues.Keys;
    assert BusyQueues(n) == BusyQueues(s) - {k};
  }

  lemma {:induction false} FinishesAll(s: State) returns (run: seq<Action>)
    requires Inv(s)
    ensures Exec(s, run).Some? && Inv(Exec(s, run).value) && Exec(s, run).value.mode == s.mode
    ensures Waited(Exec(s, run).value.core)
    decreases |BusyQueues(s.core)|
  {
    if |BusyQueues(s.core)| == 0 {
      NoneBusy(s.core);
      run := [];
    } else {
      var k :| k in BusyQueues(s.core);
      var first := FinishesQueue(s, k);
      var n := Exec(s, first).value;
      OneBusyLess(s.core, n.core, k);
      var rest := FinishesAll(n);
      ExecAppend(s, first, rest);
      run := first + rest;
    }
  }

  lemma DrainIsPossible(s: State, k: FlowKey)
    requires s.mode.Evicting? && k in s.mode.todo && (k in s.core.queues ==> s.core.queues[k].lock.Free?)
    ensures Next(s, DrainQueue(k)).Some? && Next(s, DrainQueue(k)).value.mode == Evicting(s.mode.todo - {k})
  {
  }

  lemma ReadyForDrain(s: State, k: FlowKey) returns (run: seq<Action>)
    requires Inv(s)
    ensures Exec(s, run).Some? && Inv(Exec(s, run).value) && Exec(s, run).value.mode == s.mode
    ensures var n := Exec(s, run).value.core; k in n.queues ==> n.queues[k].lock.Free?
  {
    if k in s.core.queues {
      run := FinishesQueue(s, k);
    } else {
      run := [];
    }
  }

  /** A worker can drain its queue, once what is under way there is finished. */
  lemma DrainsOne(s: State, k: FlowKey) returns (run: seq<Action>)
    requires Inv(s) && s.mode.Evicting? && k in s.mode.todo
    ensures Exec(s, run).Some? && Inv(Exec(s, run).value)
    ensures Exec(s, run).value.mode == Evicting(s.mode.todo - {k})
  {
    var first := ReadyForDrain(s, k);
    var n := Exec(s, first).value;
    DrainIsPossible(n, k);
    StepKeepsInv(n, DrainQueue(k), Next(n, DrainQueue(k)).value);
    Prepend(n, DrainQueue(k), []);
    ExecAppend(s, first, [DrainQueue(k)] + []);
    run := first + ([DrainQueue(k)] + []);
  }

  lemma {:induction false} DrainsAll(s: State) returns (run: seq<Action>)
    requires Inv(s) && s.mode.Evicting?
    ensures Exec(s, run).Some? && Inv(Exec(s, run).value) && Exec(s, run).value.mode == Evicting({})
    decreases if s.mode.Evicting? then |s.mode.todo| else 0
  {
    if s.mode.todo == {} {
      run := [];
    } else {
      var k :| k in s.mode.todo;
      var first := DrainsOne(s, k);
      var rest := DrainsAll(Exec(s, first).value);
      ExecAppend(s, first, rest);
      run := first + rest;
    }
  }

  /** From every state that a harmless run reaches between two admissions, the shutdown can be carried to its end. */
  lemma ShutdownCanEnd(limit: S.Limit, before: seq<Action>) returns (run: seq<Action>)
    requires HarmlessRun(Init(limit), before) && Exec(Init(limit), before).Some?
    requires var s := Exec(Init(limit), before).value; s.mode.Serving? && s.core.admission.Idle?
    ensures Exec(Exec(Init(limit), before).value, run).Some?
    ensures Exec(Exec(Init(limit), before).value, run).value.mode.Halted?
  {
    S.InitIsConserved(limit);
    RunKeepsInv(Init(limit), before);
    var s := Exec(Init(limit), before).value;
    var s1 := Next(s, Stop).value;
    StepKeepsInv(s, Stop, s1);
    var snapshot := Snapshot(s1.mode.base);
    var s2 := Next(s1, snapshot).value;
    StepKeepsInv(s1, snapshot, s2);
    var drains := DrainsAll(s2);
    var s3 := Exec(s2, drains).value;
    var waits := FinishesAll(s3);
    var s4 := Exec(s3, waits).value;
    Prepend(s4, Finish, []);
    ExecAppend(s3, waits, [Finish] + []);
    ExecAppend(s2, drains, waits + ([Finish] + []));
    Prepend(s1, snapshot, drains + (waits + ([Finish] + [])));
    Prepend(s, Stop, [snapshot] + (drains + (waits + ([Finish] + []))));
    run := [Stop] + ([snapshot] + (drains + (waits + ([Finish] + []))));
  }
}
