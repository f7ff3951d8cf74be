/**
 The registry's topology and its statistics together: connections and garbage collection create and remove the bands
 and queues on which the processor and the sweep work. A collection cycle drops bands without looking at their queues;
 this shows when the lease counts make that harmless.
 */
module RegistryRuns {
  import opened FlowKeys
  import opened Levels
  import opened ManagedQueues
  import opened Options
  import D = BandDrops
  import L = Leasing
  import S = StatsProtocol
  import T = Topology

  datatype State = State(topology: T.State, stats: S.State)

  datatype Action = Manage(step: T.Action) | Operate(op: S.Action)

  /** Nothing is in the queue, nobody works on it, and the processor has nothing for it. */
  predicate Unused(s: S.State, k: FlowKey) {
    k in s.queues ==> |s.queues[k].items| == 0 && s.queues[k].lock.Free? && !S.Handles(s.admission, k)
  }

  /** What a step of the registry does to the queues and bands that hold the statistics. */
  function Mirror(s: State, a: T.Action, limit: S.Limit): seq<S.Action> {
    match a
    case Provision(k) =>
      (if k.priority in s.stats.bands then [] else [S.NewBand(k.priority, limit)])
      + (if k in s.stats.queues then [] else [S.NewFlow(k)])
    case CleanFlow(k) => if k in s.topology.flows || k !in s.stats.queues then [] else [S.DropFlow(k)]
    case CleanBand(p) => if p in s.topology.bandLeases then [] else [S.DropBand(p)]
    case _ => []
  }

  /** A flow is collected when its leases have been idle for the timeout, long after its last item left. */
  predicate LongIdle(s: State, a: T.Action) {
    a.CollectFlow? && a.key in s.topology.flows && L.Expired(s.topology.flows[a.key], a.timeout, a.now) ==>
      Unused(s.stats, a.key)
  }

  /** The operations of the processor and the sweep; an item is checked while its request is connected. */
  predicate Operates(s: State, a: S.Action) {
    && !a.NewBand? && !a.DropBand? && !a.NewFlow? && !a.DropFlow?
    && (a.StartCheck? ==> a.key in s.topology.ready)
  }

  function Next(s: State, a: Action, limit: S.Limit): Option<State> {
    match a
    case Manage(step) =>
      var topology, stats := T.Next(s.topology, step), S.Exec(s.stats, Mirror(s, step, limit));
      if !LongIdle(s, step) || topology.None? || stats.None? then None
      else Some(State(topology.value, stats.value))
    case Operate(op) =>
      var stats := S.Next(s.stats, op);
      if !Operates(s, op) || stats.None? then None else Some(s.(stats := stats.value))
  }

  function Exec(s: State, run: seq<Action>, limit: S.Limit): Option<State>
    decreases |run|
  {
    if run == [] then Some(s) else
    match Next(s, run[0], limit)
    case None => None
    case Some(next) => Exec(next, run[1..], limit)
  }

  /** The configured bands, all with the same limit. */
  function Bands(levels: seq<int>, limit: S.Limit): seq<S.Action> {
    seq(|levels|, i requires 0 <= i < |levels| => S.NewBand(levels[i], limit))
  }

  // ---------------------------------------------------------------------------------------------
  // The invariant.

  /** Every queue is that of a provisioned flow, or is not in use. */
  ghost predicate QueuesInUse(s: State) {
    forall k :: k in s.stats.queues ==> k in s.topology.ready || Unused(s.stats, k)
  }

  ghost predicate Inv(s: State) {
    T.Inv(s.topology) && QueuesInUse(s)
  }

  lemma UnusedStays(s: S.State, a: S.Action, n: S.State, k: FlowKey)
    requires S.Next(s, a) == Some(n) && k in s.queues && Unused(s, k) && (a.StartCheck? ==> a.key != k)
    ensures Unused(n, k)
  {
    if a.Begin? && a.key == k {
      S.NothingToRemove(a.op);
    } else if a.Tick? && s.queues[a.key].lock.done < 10 {
      S.TickShape(s, a.key);
    }
  }

  lemma OperateKeepsKeys(s: S.State, a: S.Action, n: S.State)
    requires S.Next(s, a) == Some(n) && !a.NewBand? && !a.DropBand? && !a.NewFlow? && !a.DropFlow?
    ensures n.queues.Keys == s.queues.Keys
  {
    if a.Tick? && s.queues[a.key].lock.done < 10 {
      S.TickShape(s, a.key);
    }
  }

  lemma OperateKeepsInv(s: State, op: S.Action, n: State, limit: S.Limit)
    requires Inv(s) && Next(s, Operate(op), limit) == Some(n)
    ensures Inv(n)
  {
    OperateKeepsKeys(s.stats, op, n.stats);
    forall k | k in n.stats.queues
      ensures k in n.topology.ready || Unused(n.stats, k)
    {
      assert k in s.stats.queues.Keys;
      if k !in s.topology.ready {
        UnusedStays(s.stats, op, n.stats, k);
      }
    }
  }

  /** Which flows count as provisioned after a step of the registry. */
  lemma ReadyAfter(s: T.State, a: T.Action, n: T.State)
    requires T.Next(s, a) == Some(n)
    ensures a.Provision? ==> n.ready == s.ready + {a.key}
    ensures a.CollectFlow? && a.key in s.flows && L.Expired(s.flows[a.key], a.timeout, a.now) ==>
              n.ready == s.ready - {a.key}
    ensures !a.Provision?
            && !(a.CollectFlow? && a.key in s.flows && L.Expired(s.flows[a.key], a.timeout, a.now)) ==>
              n.ready == s.ready
  {
  }

  lemma ExecOne(s: S.State, a: S.Action)
    ensures S.Exec(s, [a]) == S.Next(s, a)
  {
    assert [a][1..] == [];
  }

  /** A step of the registry touches only the queue it provisions or cleans up, and the queues of a band it drops. */
  lemma MirrorTouches(s: State, a: T.Action, limit: S.Limit, n: S.State, k: FlowKey)
    requires S.Exec(s.stats, Mirror(s, a, limit)) == Some(n) && k in n.queues
    ensures n.admission == s.stats.admission
    ensures k !in s.stats.queues ==> a == T.Provision(k)
    ensures k in s.stats.queues ==>
              n.queues[k] == s.stats.queues[k] ||
              (a == T.CleanBand(k.priority) && a.priority !in s.topology.bandLeases
               && n.queues[k] == s.stats.queues[k].(lock := S.Orphaned(s.stats.queues[k].lock)))
  {
    match a
    case Provision(j) => ProvisionTouches(s, j, limit, n, k);
    case CleanFlow(j) =>
      if j !in s.topology.flows && j in s.stats.queues {
        ExecOne(s.stats, S.DropFlow(j));
      }
    case CleanBand(p) =>
      if p !in s.topology.bandLeases {
        ExecOne(s.stats, S.DropBand(p));
      }
    case _ =>
  }

  lemma ProvisionTouches(s: State, j: FlowKey, limit: S.Limit, n: S.State, k: FlowKey)
    requires S.Exec(s.stats, Mirror(s, T.Provision(j), limit)) == Some(n) && k in n.queues
    ensures n.admission == s.stats.admission
    ensures k !in s.stats.queues ==> j == k
    ensures k in s.stats.queues ==> n.queues[k] == s.stats.queues[k]
  {
    var p := j.priority;
    var banded := if p in s.stats.bands then s.stats else S.WithBand(s.stats, p, limit);
    var flow := if j in s.stats.queues then [] else [S.NewFlow(j)];
    if p !in s.stats.bands {
      D.ExecCons(s.stats, S.NewBand(p, limit), banded, flow);
    } else {
      assert [] + flow == flow;
    }
    assert S.Exec(banded, flow) == Some(n);
    if j !in s.stats.queues {
      ExecOne(banded, S.NewFlow(j));
    }
  }

  lemma ManageKeepsQueues(s: State, a: T.Action, n: State, limit: S.Limit, k: FlowKey)
    requires Inv(s) && T.Paced(s.topology, a) && Next(s, Manage(a), limit) == Some(n) && k in n.stats.queues
    ensures k in n.topology.ready || Unused(n.stats, k)
  {
    ReadyAfter(s.topology, a, n.topology);
    MirrorTouches(s, a, limit, n.stats, k);
    if k in s.stats.queues && a == T.CleanBand(k.priority) && a.priority !in s.topology.bandLeases {
      T.PacedBandHasNoLiveQueue(s.topology, k.priority, k);
    }
  }

  lemma StepKeepsInv(s: State, a: Action, n: State, limit: S.Limit)
    requires Inv(s) && Next(s, a, limit) == Some(n) && (a.Manage? ==> T.Paced(s.topology, a.step))
    ensures Inv(n)
  {
    match a
    case Manage(step) =>
      T.StepKeepsInv(s.topology, step);
      forall k | k in n.stats.queues
        ensures k in n.topology.ready || Unused(n.stats, k)
      {
        ManageKeepsQueues(s, step, n, limit, k);
      }
    case Operate(op) => OperateKeepsInv(s, op, n, limit);
  }

  /** At every point of the run, the next step of the registry is paced. */
  ghost predicate PacedRun(s: State, run: seq<Action>, limit: S.Limit)
    decreases |run|
  {
    run == []
    || ((run[0].Manage? ==> T.Paced(s.topology, run[0].step))
        && (Next(s, run[0], limit).Some? ==> PacedRun(Next(s, run[0], limit).value, run[1..], limit)))
  }

  // ---------------------------------------------------------------------------------------------
  // The statistics see a run whose drops are harmless.

  /** The steps of the statistics in a run. */
  function StatsSteps(s: State, a: Action, limit: S.Limit): seq<S.Action> {
    match a
    case Manage(step) => Mirror(s, step, limit)
    case Operate(op) => [op]
  }

  function StatsRun(s: State, run: seq<Action>, limit: S.Limit): seq<S.Action>
    decreases |run|
  {
    if run == [] || Next(s, run[0], limit).None? then []
    else StatsSteps(s, run[0], limit) + StatsRun(Next(s, run[0], limit).value, run[1..], limit)
  }

  /** A paced step of the registry drops a band only when all its queues are out of use. */
  lemma PacedDropIsHarmless(s: State, p: int)
    requires Inv(s) && T.Paced(s.topology, T.CleanBand(p)) && T.Next(s.topology, T.CleanBand(p)).Some?
    requires p !in s.topology.bandLeases
    ensures S.Droppable(s.stats, p)
  {
    forall k | k in s.stats.queues && k.priority == p
      ensures S.Spent(s.stats.queues[k], 7) && !S.ClearedFor(s.stats.admission, k)
    {
      T.PacedBandHasNoLiveQueue(s.topology, p, k);
      assert Unused(s.stats, k);
    }
  }

  lemma StepsAreHarmless(s: State, a: Action, limit: S.Limit)
    requires Inv(s) && Next(s, a, limit).Some? && (a.Manage? ==> T.Paced(s.topology, a.step))
    ensures S.HarmlessRun(s.stats, StatsSteps(s, a, limit))
    ensures S.Exec(s.stats, StatsSteps(s, a, limit)) == Some(Next(s, a, limit).value.stats)
  {
    var steps := StatsSteps(s, a, limit);
    match a
    case Operate(op) =>
      ExecOne(s.stats, op);
      D.QuietRunIsHarmless(s.stats, steps);
    case Manage(step) =>
      if step.CleanBand? && step.priority !in s.topology.bandLeases {
        PacedDropIsHarmless(s, step.priority);
        assert steps == [S.DropBand(step.priority)] && steps[1..] == [];
      } else {
        D.QuietRunIsHarmless(s.stats, steps);
      }
  }

  lemma {:induction false} HarmlessAppend(s: S.State, first: seq<S.Action>, second: seq<S.Action>)
    requires S.HarmlessRun(s, first) && S.Exec(s, first).Some? && S.HarmlessRun(S.Exec(s, first).value, second)
    ensures S.HarmlessRun(s, first + second)
    decreases |first|
  {
    if first == [] {
      assert first + second == second;
    } else {
      assert (first + second)[1..] == first[1..] + second;
      HarmlessAppend(S.Next(s, first[0]).value, first[1..], second);
    }
  }

  lemma {:induction false} RunIsHarmless(s: State, run: seq<Action>, limit: S.Limit)
    requires Inv(s) && PacedRun(s, run, limit) && Exec(s, run, limit).Some?
    ensures S.HarmlessRun(s.stats, StatsRun(s, run, limit))
    ensures S.Exec(s.stats, StatsRun(s, run, limit)) == Some(Exec(s, run, limit).value.stats)
    decreases |run|
  {
    if run != [] {
      var a, n := run[0], Next(s, run[0], limit).value;
      var steps, rest := StatsSteps(s, a, limit), StatsRun(n, run[1..], limit);
      StepsAreHarmless(s, a, limit);
      StepKeepsInv(s, a, n, limit);
      RunIsHarmless(n, run[1..], limit);
      HarmlessAppend(s.stats, steps, rest);
      D.ExecAppend(s.stats, steps, rest);
    }
  }

  lemma ProvisionIsPossible(s: State, k: FlowKey, limit: S.Limit)
    ensures S.Exec(s.stats, Mirror(s, T.Provision(k), limit)).Some?
  {
    var p := k.priority;
    var banded := if p in s.stats.bands then s.stats else S.WithBand(s.stats, p, limit);
    var flow := if k in s.stats.queues then [] else [S.NewFlow(k)];
    ExecOne(banded, S.NewFlow(k));
    if p !in s.stats.bands {
      D.ExecCons(s.stats, S.NewBand(p, limit), banded, flow);
    } else {
      assert [] + flow == flow;
    }
  }

  /**
   The statistics never stand in the registry's way, except that a drop waits for a snapshot in progress; in
   particular the queue of every collected flow is empty and unlocked when it is removed.
   */
  lemma RegistryOnlyWaitsForSnapshots(s: State, a: T.Action, limit: S.Limit)
    requires Inv(s) && T.Next(s.topology, a).Some?
    ensures S.Exec(s.stats, Mirror(s, a, limit)).None? <==>
              a.CleanBand? && a.priority !in s.topology.bandLeases && S.Snapshotting(s.stats.admission)
  {
    match a
    case Provision(k) => ProvisionIsPossible(s, k, limit);
    case CleanFlow(k) =>
      assert k in s.stats.queues && k !in s.topology.flows ==> Unused(s.stats, k);
      ExecOne(s.stats, S.DropFlow(k));
    case CleanBand(p) => ExecOne(s.stats, S.DropBand(p));
    case _ =>
  }

  // ---------------------------------------------------------------------------------------------
  // From the start.

  /** The configured bands exist, with nothing in them. */
  predicate Fresh(s: S.State, levels: seq<int>) {
    s.queues == map[] && s.admission.Idle? && s.bands.Keys == Elements(levels)
  }

  lemma {:induction false} BandsAreCreated(shard: S.Limit, levels: seq<int>, limit: S.Limit)
    requires Descending(levels)
    ensures var run := Bands(levels, limit);
            && S.HarmlessRun(S.Init(shard), run) && S.Exec(S.Init(shard), run).Some?
            && Fresh(S.Exec(S.Init(shard), run).value, levels)
    decreases |levels|
  {
    var run := Bands(levels, limit);
    if levels == [] {
      assert run == [];
    } else {
      var most, last := levels[..|levels| - 1], levels[|levels| - 1];
      BandsAreCreated(shard, most, limit);
      assert run == Bands(most, limit) + [S.NewBand(last, limit)];
      var s := S.Exec(S.Init(shard), Bands(most, limit)).value;
      assert levels == most + [last];
      assert last !in Elements(most);
      assert S.Next(s, S.NewBand(last, limit)) == Some(S.WithBand(s, last, limit)) by {
        assert last !in s.bands.Keys;
      }
      ExecOne(s, S.NewBand(last, limit));
      D.ExecAppend(S.Init(shard), Bands(most, limit), [S.NewBand(last, limit)]);
      D.QuietRunIsHarmless(S.Init(shard), run);
      assert Elements(levels) == Elements(most) + {last};
    }
  }

  function Init(shard: S.Limit, levels: seq<int>, limit: S.Limit): Option<State> {
    match S.Exec(S.Init(shard), Bands(levels, limit))
    case None => None
    case Some(stats) => Some(State(T.Init(levels), stats))
  }

  /**
   Over every run of connections, operations and collection cycles from the configured bands on, in which every step
   of the registry is paced, the statistics go through a run of their own whose drops are all harmless: no addition
   finds its band missing, and the counters are conserved.
   */
  lemma PacedRegistryNeverLosesABand(shard: S.Limit, levels: seq<int>, limit: S.Limit, run: seq<Action>, k: FlowKey)
    requires Descending(levels) && Init(shard, levels, limit).Some?
    requires PacedRun(Init(shard, levels, limit).value, run, limit)
    requires Exec(Init(shard, levels, limit).value, run, limit).Some?
    ensures var s := Exec(Init(shard, levels, limit).value, run, limit).value;
            !D.Stuck(s.stats, k) && S.Conserved(s.stats) && S.NonNegative(s.stats)
  {
    var bands, start := Bands(levels, limit), Init(shard, levels, limit).value;
    var rest, s := StatsRun(start, run, limit), Exec(start, run, limit).value;
    BandsAreCreated(shard, levels, limit);
    T.InitIsSound(levels);
    RunIsHarmless(start, run, limit);
    HarmlessAppend(S.Init(shard), bands, rest);
    D.ExecAppend(S.Init(shard), bands, rest);
    S.PropagationNeverFails(shard, bands + rest, k);
    S.InitIsConserved(shard);
    S.RunKeepsConserved(S.Init(shard), bands + rest);
    S.ConservedIsNonNegative(s.stats);
  }
}
