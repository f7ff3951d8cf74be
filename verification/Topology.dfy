/**
 The registry's topology over runs of connections and garbage collection. Each access to one of the lock-free
 maps and each section under the registry lock is one step.
 */
module Topology {
  import opened FlowKeys
  import opened Leasing
  import opened Levels
  import opened Options

  /** Where the collecting goroutine stands in its cycle, with what it has found so far. */
  datatype Cycle =
    | Rest
    | CollectingFlows(found: set<FlowKey>)
    | ReleasingBands(todo: set<FlowKey>, all: set<FlowKey>)
    | CleaningFlows(keys: set<FlowKey>)
    | CollectingBands(dead: set<int>)
    | CleaningBands(priorities: set<int>)

  /**
   `flows` and `bandLeases` are the two lease maps. `unpaid` holds the mapped flows whose creator has not yet
   pinned their band, `ready` those whose queue was provisioned. `config`, `stats`, `shardConfig`, `shardBands`
   and `levels` are the places where a band is known; `shardBands` also lists the queues of each band.
   */
  datatype State = State(
    flows: map<FlowKey, Lease>,
    bandLeases: map<int, Lease>,
    unpaid: set<FlowKey>,
    ready: set<FlowKey>,
    config: set<int>,
    stats: set<int>,
    shardConfig: set<int>,
    shardBands: map<int, set<string>>,
    levels: seq<int>,
    cycle: Cycle)

  datatype Action =
    | Store(key: FlowKey)
    | Pin(key: FlowKey)
    | PayBand(key: FlowKey)
    | Provision(key: FlowKey)
    | Disconnect(key: FlowKey, now: Time)
    | StartCycle
    | CollectFlow(key: FlowKey, timeout: int, now: Time)
    | EndCollectFlows
    | ReleaseBand(key: FlowKey, now: Time)
    | EndReleaseBands
    | CleanFlow(key: FlowKey)
    | EndCleanFlows
    | CollectBand(priority: int, timeout: int, now: Time)
    | EndCollectBands
    | CleanBand(priority: int)
    | EndCleanBands

  function Init(levels: seq<int>): State {
    var bands := Elements(levels);
    State(map[], map[], {}, {}, bands, bands, bands, map p | p in bands :: {}, levels, Rest)
  }

  // ---------------------------------------------------------------------------------------------
  // The request path.

  function LeaseOf(s: State, p: int): Lease {
    if p in s.bandLeases then s.bandLeases[p] else FRESH
  }

  function WithBand(s: State, p: int): State {
    if p in s.config then s
    else s.(config := s.config + {p}, stats := s.stats + {p}, shardConfig := s.shardConfig + {p},
            bandLeases := s.bandLeases[p := LeaseOf(s, p)],
            shardBands := if p in s.shardBands then s.shardBands else s.shardBands[p := {}],
            levels := if p in s.shardBands then s.levels else Insert(s.levels, p))
  }

  function WithQueue(s: State, k: FlowKey): State
    requires k.priority in s.shardBands
  {
    s.(shardBands := s.shardBands[k.priority := s.shardBands[k.priority] + {k.id}])
  }

  function RequestStep(s: State, a: Action): Option<State>
    requires a.Store? || a.Pin? || a.PayBand? || a.Provision? || a.Disconnect?
  {
    var k := a.key;
    match a
    case Store(_) =>
      if k in s.flows || k.id == "" then None
      else Some(s.(flows := s.flows[k := FRESH], unpaid := s.unpaid + {k}))
    case Pin(_) =>
      if k !in s.flows then None else Some(s.(flows := s.flows[k := AfterTryPin(s.flows[k])]))
    case PayBand(_) =>
      if k !in s.unpaid then None
      else Some(s.(unpaid := s.unpaid - {k},
                   bandLeases := s.bandLeases[k.priority := AfterTryPin(LeaseOf(s, k.priority))]))
    case Provision(_) =>
      if k !in s.flows || s.flows[k].count <= 0 || k in s.ready then None
      else
        var banded := WithBand(s, k.priority);
        if k.priority !in banded.shardBands then None
        else Some(WithQueue(banded, k).(ready := s.ready + {k}))
    case Disconnect(_, now) =>
      if k !in s.flows || s.flows[k].count <= 0 then None
      else Some(s.(flows := s.flows[k := AfterUnpin(s.flows[k], now)]))
  }

  // ---------------------------------------------------------------------------------------------
  // The collecting goroutine.

  function WithoutBand(s: State, p: int): State {
    s.(config := s.config - {p}, stats := s.stats - {p}, shardConfig := s.shardConfig - {p},
       shardBands := s.shardBands - {p}, levels := Without(s.levels, p))
  }

  /** Removes a collected flow's queue, unless the flow has been created again. */
  function FlowCleaned(s: State, k: FlowKey): State {
    if k in s.flows || k.priority !in s.shardBands then s
    else s.(shardBands := s.shardBands[k.priority := s.shardBands[k.priority] - {k.id}])
  }

  /** Removes a collected band everywhere, unless it has been leased again. */
  function BandCleaned(s: State, p: int): State {
    if p in s.bandLeases then s else WithoutBand(s, p)
  }

  function FlowCycleStep(s: State, a: Action): Option<State>
    requires a.CollectFlow? || a.EndCollectFlows? || a.ReleaseBand? || a.EndReleaseBands? || a.CleanFlow?
             || a.EndCleanFlows?
  {
    match (a, s.cycle)
    case (CollectFlow(k, timeout, now), CollectingFlows(found)) =>
      if k !in s.flows || k in found then None
      else if Expired(s.flows[k], timeout, now) then
        Some(s.(flows := s.flows - {k}, unpaid := s.unpaid - {k}, ready := s.ready - {k},
                cycle := CollectingFlows(found + {k})))
      else Some(s.(flows := s.flows[k := AfterScan(s.flows[k], timeout, now)]))
    case (EndCollectFlows, CollectingFlows(found)) => Some(s.(cycle := ReleasingBands(found, found)))
    case (ReleaseBand(k, now), ReleasingBands(todo, all)) =>
      if k !in todo then None
      else
        var released := s.(cycle := ReleasingBands(todo - {k}, all));
        if k.priority !in s.bandLeases then Some(released)
        else Some(released.(bandLeases :=
                    s.bandLeases[k.priority := AfterUnpin(s.bandLeases[k.priority], now)]))
    case (EndReleaseBands, ReleasingBands(todo, all)) =>
      if todo != {} then None else Some(s.(cycle := CleaningFlows(all)))
    case (CleanFlow(k), CleaningFlows(keys)) =>
      if k !in keys then None
      else
        Some(FlowCleaned(s, k).(cycle := CleaningFlows(keys - {k})))
    case (EndCleanFlows, CleaningFlows(keys)) =>
      if keys != {} then None else Some(s.(cycle := CollectingBands({})))
    case _ => None
  }

  function BandCycleStep(s: State, a: Action): Option<State>
    requires a.CollectBand? || a.EndCollectBands? || a.CleanBand? || a.EndCleanBands?
  {
    match (a, s.cycle)
    case (CollectBand(p, timeout, now), CollectingBands(dead)) =>
      if p !in s.bandLeases || p in dead then None
      else if Expired(s.bandLeases[p], timeout, now) then
        Some(s.(bandLeases := s.bandLeases - {p}, cycle := CollectingBands(dead + {p})))
      else Some(s.(bandLeases := s.bandLeases[p := AfterScan(s.bandLeases[p], timeout, now)]))
    case (EndCollectBands, CollectingBands(dead)) => Some(s.(cycle := CleaningBands(dead)))
    case (CleanBand(p), CleaningBands(priorities)) =>
      if p !in priorities then None
      else
        Some(BandCleaned(s, p).(cycle := CleaningBands(priorities - {p})))
    case (EndCleanBands, CleaningBands(priorities)) =>
      if priorities != {} then None else Some(s.(cycle := Rest))
    case _ => None
  }

  function Next(s: State, a: Action): Option<State> {
    if a.Store? || a.Pin? || a.PayBand? || a.Provision? || a.Disconnect? then RequestStep(s, a)
    else if a.StartCycle? then if s.cycle.Rest? then Some(s.(cycle := CollectingFlows({}))) else None
    else if a.CollectBand? || a.EndCollectBands? || a.CleanBand? || a.EndCleanBands? then BandCycleStep(s, a)
    else FlowCycleStep(s, a)
  }

  function Exec(s: State, run: seq<Action>): Option<State>
    decreases |run|
  {
    if run == [] then Some(s) else
    match Next(s, run[0])
    case None => None
    case Some(next) => Exec(next, run[1..])
  }

  // ---------------------------------------------------------------------------------------------
  // The invariant.

  function At(keys: set<FlowKey>, p: int): set<FlowKey> {
    set k | k in keys && k.priority == p
  }

  /** Flows taken out of the map whose band lease has not been released yet. */
  function Dying(c: Cycle): set<FlowKey> {
    match c
    case CollectingFlows(found) => found
    case ReleasingBands(todo, _) => todo
    case _ => {}
  }

  /** Flows taken out of the map whose queue may still be on the shard. */
  function Uncleaned(c: Cycle): set<FlowKey> {
    match c
    case CollectingFlows(found) => found
    case ReleasingBands(_, all) => all
    case CleaningFlows(keys) => keys
    case _ => {}
  }

  /** Every place that knows bands knows the same ones, and the levels list them in descending order. */
  ghost predicate KeysCoincide(s: State) {
    && s.config == s.stats == s.shardConfig == s.shardBands.Keys == Elements(s.levels)
    && Descending(s.levels)
  }

  /** A band has one lease for each paid flow at its priority and each dying one. */
  ghost predicate BandAccounted(s: State, p: int) {
    LeaseOf(s, p).count + |At(s.unpaid, p)| == |At(s.flows.Keys, p)| + |At(Dying(s.cycle), p)|
  }

  ghost predicate Accounted(s: State) {
    forall p :: BandAccounted(s, p)
  }

  ghost predicate QueuesPresent(s: State) {
    && (forall k :: k in s.ready ==> k.priority in s.shardBands && k.id in s.shardBands[k.priority])
    && (forall p, id :: p in s.shardBands && id in s.shardBands[p] ==>
          FlowKey(id, p) in s.flows || FlowKey(id, p) in Uncleaned(s.cycle))
  }

  ghost predicate LeasesSound(s: State) {
    && s.unpaid <= s.flows.Keys && s.ready <= s.flows.Keys
    && (forall k :: k in s.flows ==> s.flows[k].count >= 0 && !s.flows[k].marked)
    && (forall p :: p in s.bandLeases ==> !s.bandLeases[p].marked)
    && (s.cycle.ReleasingBands? ==> s.cycle.todo <= s.cycle.all)
  }

  ghost predicate Inv(s: State) {
    KeysCoincide(s) && Accounted(s) && QueuesPresent(s) && LeasesSound(s)
  }

  lemma AtAdd(keys: set<FlowKey>, k: FlowKey, p: int)
    ensures |At(keys + {k}, p)| == |At(keys, p)| + (if k.priority == p && k !in keys then 1 else 0)
  {
    if k in keys {
      assert keys + {k} == keys;
    } else if k.priority == p {
      assert At(keys + {k}, p) == At(keys, p) + {k};
    } else {
      assert At(keys + {k}, p) == At(keys, p);
    }
  }

  lemma AtRemove(keys: set<FlowKey>, k: FlowKey, p: int)
    ensures |At(keys - {k}, p)| == |At(keys, p)| - (if k.priority == p && k in keys then 1 else 0)
  {
    AtAdd(keys - {k}, k, p);
    if k in keys {
      assert keys - {k} + {k} == keys;
    } else {
      assert keys - {k} == keys;
    }
  }

  lemma BandStepsKeepKeys(s: State, p: int)
    requires KeysCoincide(s)
    ensures KeysCoincide(WithBand(s, p)) && p in WithBand(s, p).shardBands
    ensures KeysCoincide(WithoutBand(s, p))
  {
    if p !in s.config {
      assert p !in Elements(s.levels);
      InsertFacts(s.levels, p);
    }
    WithoutFacts(s.levels, p);
  }

  // ---------------------------------------------------------------------------------------------
  // Which steps keep it.

  /** A collection step meets no flow whose creator is still on its way to pinning the band. */
  ghost predicate Paced(s: State, a: Action) {
    match a
    case CollectFlow(k, timeout, now) => k in s.flows && Expired(s.flows[k], timeout, now) ==> k !in s.unpaid
    case CleanBand(p) => p !in s.bandLeases ==> forall k :: k in s.ready && k.priority == p ==> k !in s.unpaid
    case _ => true
  }

  lemma StoreKeepsInv(s: State, k: FlowKey)
    requires Inv(s) && RequestStep(s, Store(k)).Some?
    ensures Inv(RequestStep(s, Store(k)).value)
  {
    var s' := RequestStep(s, Store(k)).value;
    assert s'.flows.Keys == s.flows.Keys + {k};
    forall p
      ensures BandAccounted(s', p)
    {
      assert BandAccounted(s, p);
      AtAdd(s.flows.Keys, k, p);
      AtAdd(s.unpaid, k, p);
    }
  }

  lemma PayBandKeepsInv(s: State, k: FlowKey)
    requires Inv(s) && RequestStep(s, PayBand(k)).Some?
    ensures Inv(RequestStep(s, PayBand(k)).value)
  {
    var s' := RequestStep(s, PayBand(k)).value;
    forall p
      ensures BandAccounted(s', p)
    {
      assert BandAccounted(s, p);
      AtRemove(s.unpaid, k, p);
    }
  }

  lemma SameKeysKeepAccounts(s: State, s': State)
    requires Accounted(s) && s'.flows.Keys == s.flows.Keys && s'.unpaid == s.unpaid && Dying(s'.cycle) == Dying(s.cycle)
    requires forall p :: LeaseOf(s', p).count == LeaseOf(s, p).count
    ensures Accounted(s')
  {
    forall p
      ensures BandAccounted(s', p)
    {
      assert BandAccounted(s, p);
    }
  }

  lemma WithBandKeepsInv(s: State, p: int)
    requires Inv(s)
    ensures Inv(WithBand(s, p)) && p in WithBand(s, p).shardBands
  {
    BandStepsKeepKeys(s, p);
    SameKeysKeepAccounts(s, WithBand(s, p));
  }

  lemma WithQueueKeepsInv(s: State, k: FlowKey)
    requires Inv(s) && k in s.flows && k.priority in s.shardBands
    ensures Inv(WithQueue(s, k).(ready := s.ready + {k}))
  {
    SameKeysKeepAccounts(s, WithQueue(s, k).(ready := s.ready + {k}));
  }

  lemma ProvisionKeepsInv(s: State, k: FlowKey)
    requires Inv(s) && RequestStep(s, Provision(k)).Some?
    ensures Inv(RequestStep(s, Provision(k)).value)
  {
    WithBandKeepsInv(s, k.priority);
    WithQueueKeepsInv(WithBand(s, k.priority), k);
  }

  lemma PinOrDisconnectKeepsInv(s: State, a: Action)
    requires Inv(s) && (a.Pin? || a.Disconnect?) && RequestStep(s, a).Some?
    ensures Inv(RequestStep(s, a).value)
  {
    SameKeysKeepAccounts(s, RequestStep(s, a).value);
  }

  lemma CollectFlowAccounts(s: State, k: FlowKey, timeout: int, now: Time)
    requires Inv(s) && s.cycle.CollectingFlows? && k in s.flows && k !in s.cycle.found
    requires Expired(s.flows[k], timeout, now)
    ensures var s' := FlowCycleStep(s, CollectFlow(k, timeout, now)).value;
            forall p :: BandAccounted(s', p) <==> (p == k.priority ==> k !in s.unpaid)
  {
    var s' := FlowCycleStep(s, CollectFlow(k, timeout, now)).value;
    assert s'.flows.Keys == s.flows.Keys - {k};
    forall p
      ensures BandAccounted(s', p) <==> (p == k.priority ==> k !in s.unpaid)
    {
      assert BandAccounted(s, p);
      AtRemove(s.flows.Keys, k, p);
      AtRemove(s.unpaid, k, p);
      AtAdd(s.cycle.found, k, p);
    }
  }

  lemma CollectFlowKeepsInv(s: State, k: FlowKey, timeout: int, now: Time)
    requires Inv(s) && Paced(s, CollectFlow(k, timeout, now)) && FlowCycleStep(s, CollectFlow(k, timeout, now)).Some?
    ensures Inv(FlowCycleStep(s, CollectFlow(k, timeout, now)).value)
  {
    if Expired(s.flows[k], timeout, now) {
      CollectFlowAccounts(s, k, timeout, now);
    } else {
      SameKeysKeepAccounts(s, FlowCycleStep(s, CollectFlow(k, timeout, now)).value);
    }
  }

  lemma ReleaseBandKeepsInv(s: State, k: FlowKey, now: Time)
    requires Inv(s) && FlowCycleStep(s, ReleaseBand(k, now)).Some?
    ensures Inv(FlowCycleStep(s, ReleaseBand(k, now)).value)
  {
    var s' := FlowCycleStep(s, ReleaseBand(k, now)).value;
    forall p
      ensures BandAccounted(s', p)
    {
      assert BandAccounted(s, p);
      AtRemove(s.cycle.todo, k, p);
      if p == k.priority {
        assert At(s.unpaid, p) <= At(s.flows.Keys, p);
        SubsetSize(At(s.unpaid, p), At(s.flows.Keys, p));
        assert k in At(s.cycle.todo, p);
      }
    }
  }

  lemma SubsetSize(a: set<FlowKey>, b: set<FlowKey>)
    requires a <= b
    ensures |a| <= |b|
  {
    assert b == a + (b - a);
  }

  lemma CleanFlowKeepsInv(s: State, k: FlowKey)
    requires Inv(s) && FlowCycleStep(s, CleanFlow(k)).Some?
    ensures Inv(FlowCycleStep(s, CleanFlow(k)).value)
  {
    SameKeysKeepAccounts(s, FlowCycleStep(s, CleanFlow(k)).value);
  }

  lemma PhaseKeepsInv(s: State, a: Action)
    requires Inv(s) && Next(s, a).Some?
    requires a.StartCycle? || a.EndCollectFlows? || a.EndReleaseBands? || a.EndCleanFlows? || a.EndCollectBands?
             || a.EndCleanBands?
    ensures Inv(Next(s, a).value)
  {
    SameKeysKeepAccounts(s, Next(s, a).value);
  }

  lemma CollectBandKeepsInv(s: State, p: int, timeout: int, now: Time)
    requires Inv(s) && BandCycleStep(s, CollectBand(p, timeout, now)).Some?
    ensures Inv(BandCycleStep(s, CollectBand(p, timeout, now)).value)
  {
    assert BandAccounted(s, p);
    SubsetSize(At(s.unpaid, p), At(s.flows.Keys, p));
    SameKeysKeepAccounts(s, BandCycleStep(s, CollectBand(p, timeout, now)).value);
  }

  /** A band that has lost its lease has only unpaid flows left. */
  lemma UnleasedBandIsUnpaid(s: State, p: int)
    requires Inv(s) && s.cycle.CleaningBands? && p !in s.bandLeases
    ensures At(s.flows.Keys, p) == At(s.unpaid, p)
  {
    assert BandAccounted(s, p);
    var paid := At(s.flows.Keys, p) - At(s.unpaid, p);
    assert At(s.unpaid, p) <= At(s.flows.Keys, p);
    assert At(s.flows.Keys, p) == At(s.unpaid, p) + paid;
    assert |paid| == 0;
  }

  lemma CleanBandKeepsInv(s: State, p: int)
    requires Inv(s) && Paced(s, CleanBand(p)) && BandCycleStep(s, CleanBand(p)).Some?
    ensures Inv(BandCycleStep(s, CleanBand(p)).value)
  {
    var s' := BandCycleStep(s, CleanBand(p)).value;
    SameKeysKeepAccounts(s, s');
    if p !in s.bandLeases {
      BandStepsKeepKeys(s, p);
      UnleasedBandIsUnpaid(s, p);
      forall k | k in s'.ready
        ensures k.priority in s'.shardBands && k.id in s'.shardBands[k.priority]
      {
        assert k.priority == p ==> k in At(s.flows.Keys, p);
      }
    }
  }

  lemma StepKeepsInv(s: State, a: Action)
    requires Inv(s) && Paced(s, a) && Next(s, a).Some?
    ensures Inv(Next(s, a).value)
  {
    match a
    case Store(k) => StoreKeepsInv(s, k);
    case Pin(_) => PinOrDisconnectKeepsInv(s, a);
    case PayBand(k) => PayBandKeepsInv(s, k);
    case Provision(k) => ProvisionKeepsInv(s, k);
    case Disconnect(_, _) => PinOrDisconnectKeepsInv(s, a);
    case CollectFlow(k, timeout, now) => CollectFlowKeepsInv(s, k, timeout, now);
    case ReleaseBand(k, now) => ReleaseBandKeepsInv(s, k, now);
    case CleanFlow(k) => CleanFlowKeepsInv(s, k);
    case CollectBand(p, timeout, now) => CollectBandKeepsInv(s, p, timeout, now);
    case CleanBand(p) => CleanBandKeepsInv(s, p);
    case _ => PhaseKeepsInv(s, a);
  }

  // ---------------------------------------------------------------------------------------------
  // Every run.

  /** At every point of the run, the next step is paced. */
  ghost predicate PacedRun(s: State, run: seq<Action>)
    decreases |run|
  {
    run == [] || (Paced(s, run[0]) && (Next(s, run[0]).Some? ==> PacedRun(Next(s, run[0]).value, run[1..])))
  }

  lemma {:induction false} RunKeepsInv(s: State, run: seq<Action>)
    requires Inv(s) && PacedRun(s, run) && Exec(s, run).Some?
    ensures Inv(Exec(s, run).value)
    decreases |run|
  {
    if run != [] {
      StepKeepsInv(s, run[0]);
      RunKeepsInv(Next(s, run[0]).value, run[1..]);
    }
  }

  lemma InitIsSound(levels: seq<int>)
    requires Descending(levels)
    ensures Inv(Init(levels))
  {
    forall p
      ensures BandAccounted(Init(levels), p)
    {
      assert At({}, p) == {};
    }
  }

  /**
   The topology of every paced run: all places know the same bands, listed in strictly descending order; a band's
   lease count is the number of its paid flows, mapped or dying; every provisioned flow has its band and queue on the
   shard; and no queue outlives its flow beyond the cleanup that is under way.
   */
  lemma TopologyOfEveryRun(levels: seq<int>, run: seq<Action>)
    requires Descending(levels) && PacedRun(Init(levels), run) && Exec(Init(levels), run).Some?
    ensures var s := Exec(Init(levels), run).value;
            KeysCoincide(s) && Accounted(s) && QueuesPresent(s) && LeasesSound(s)
  {
    InitIsSound(levels);
    RunKeepsInv(Init(levels), run);
  }

  /** A lease that nobody holds, and that was stamped idle at least `timeout` ago. */
  predicate IdleLongEnough(l: Lease, timeout: int, now: Time) {
    l.count <= 0 && l.idleAt != ZERO_TIME && l.idleAt + timeout <= now
  }

  /** A collection step takes a flow or a band out exactly when its lease has been idle long enough. */
  lemma CollectionIsTimed(s: State, k: FlowKey, p: int, timeout: int, now: Time)
    ensures Next(s, CollectFlow(k, timeout, now)).Some? ==>
              && k in s.flows
              && (k !in Next(s, CollectFlow(k, timeout, now)).value.flows <==> IdleLongEnough(s.flows[k], timeout, now))
    ensures Next(s, CollectBand(p, timeout, now)).Some? ==>
              && p in s.bandLeases
              && (p !in Next(s, CollectBand(p, timeout, now)).value.bandLeases
                  <==> IdleLongEnough(s.bandLeases[p], timeout, now))
  {
  }

  lemma {:induction false} RunKeepsNames(s: State, run: seq<Action>)
    requires (forall k :: k in s.flows ==> k.id != "") && Exec(s, run).Some?
    ensures forall k :: k in Exec(s, run).value.flows ==> k.id != ""
    decreases |run|
  {
    if run != [] {
      RunKeepsNames(Next(s, run[0]).value, run[1..]);
    }
  }

  /** No run ever has a flow without an ID. */
  lemma FlowsHaveIDs(levels: seq<int>, run: seq<Action>)
    requires Exec(Init(levels), run).Some?
    ensures forall k :: k in Exec(Init(levels), run).value.flows ==> k.id != ""
  {
    RunKeepsNames(Init(levels), run);
  }

  /** Between collections, with no creator on its way, lease counts are exactly the numbers of mapped flows. */
  lemma LeasesCountFlows(levels: seq<int>, run: seq<Action>, p: int)
    requires Descending(levels) && PacedRun(Init(levels), run) && Exec(Init(levels), run).Some?
    requires var s := Exec(Init(levels), run).value; s.unpaid == {} && Dying(s.cycle) == {}
    ensures var s := Exec(Init(levels), run).value;
            && LeaseOf(s, p).count == |At(s.flows.Keys, p)|
            && (At(s.flows.Keys, p) != {} ==> p in s.bandLeases)
  {
    TopologyOfEveryRun(levels, run);
    var s := Exec(Init(levels), run).value;
    assert BandAccounted(s, p);
    assert At({}, p) == {};
  }

  // ---------------------------------------------------------------------------------------------
  // Connections whose creation is not interrupted by a collection step.

  /** The collection step may take flow `k`, or its band, away. */
  predicate Interrupts(a: Action, k: FlowKey) {
    (a.CollectFlow? && a.key == k) || (a.CleanBand? && a.priority == k.priority)
  }

  predicate PaidBetween(run: seq<Action>, k: FlowKey, i: int, j: int) {
    exists m :: 0 <= i < m < j <= |run| && run[m] == PayBand(k)
  }

  /** Between the creation of a flow and the pin of its band by the creator, neither of them is collected. */
  predicate Uninterrupted(run: seq<Action>) {
    forall i, j :: 0 <= i < j < |run| && run[i].Store? && Interrupts(run[j], run[i].key) ==>
      PaidBetween(run, run[i].key, i, j)
  }

  /** The creator of an unpaid flow is on record, and has not come to the pin of the band since. */
  ghost predicate UnpaidRecorded(s: State, done: seq<Action>) {
    forall k :: k in s.unpaid ==>
      exists i :: 0 <= i < |done| && done[i] == Store(k) && !PaidBetween(done, k, i, |done|)
  }

  lemma PaidPrefix(done: seq<Action>, more: seq<Action>, k: FlowKey, i: int)
    ensures PaidBetween(done + more, k, i, |done|) ==> PaidBetween(done, k, i, |done|)
  {
    if m :| 0 <= i < m < |done| && (done + more)[m] == PayBand(k) {
      assert done[m] == PayBand(k);
    }
  }

  lemma PaidSnoc(done: seq<Action>, a: Action, k: FlowKey, i: int)
    requires a != PayBand(k)
    ensures PaidBetween(done + [a], k, i, |done| + 1) ==> PaidBetween(done, k, i, |done|)
  {
    if m :| 0 <= i < m < |done| + 1 && (done + [a])[m] == PayBand(k) {
      assert done[m] == PayBand(k);
    }
  }

  lemma StepRecords(s: State, done: seq<Action>, a: Action)
    requires UnpaidRecorded(s, done) && Next(s, a).Some?
    ensures UnpaidRecorded(Next(s, a).value, done + [a])
  {
    var n, more := Next(s, a).value, done + [a];
    forall k | k in n.unpaid
      ensures exists i :: 0 <= i < |more| && more[i] == Store(k) && !PaidBetween(more, k, i, |more|)
    {
      if a == Store(k) {
        assert more[|done|] == Store(k) && !PaidBetween(more, k, |done|, |more|);
      } else {
        assert k in s.unpaid && a != PayBand(k);
        var i :| 0 <= i < |done| && done[i] == Store(k) && !PaidBetween(done, k, i, |done|);
        assert more[i] == Store(k);
        PaidSnoc(done, a, k, i);
      }
    }
  }

  lemma UninterruptedIsPaced(s: State, done: seq<Action>, run: seq<Action>)
    requires UnpaidRecorded(s, done) && run != [] && Uninterrupted(done + run)
    ensures Paced(s, run[0])
  {
    var all, j := done + run, |done|;
    forall k | k in s.unpaid
      ensures !Interrupts(run[0], k)
    {
      var i :| 0 <= i < |done| && done[i] == Store(k) && !PaidBetween(done, k, i, |done|);
      assert all[i] == Store(k) && all[j] == run[0];
      PaidPrefix(done, run, k, i);
    }
  }

  lemma {:induction false} UninterruptedFrom(s: State, done: seq<Action>, run: seq<Action>)
    requires UnpaidRecorded(s, done) && Uninterrupted(done + run)
    ensures PacedRun(s, run)
    decreases |run|
  {
    if run != [] {
      UninterruptedIsPaced(s, done, run);
      if Next(s, run[0]).Some? {
        StepRecords(s, done, run[0]);
        assert done + [run[0]] + run[1..] == done + run;
        UninterruptedFrom(Next(s, run[0]).value, done + [run[0]], run[1..]);
      }
    }
  }

  /**
   Every run is paced in which no flow and no band is collected between the creation of a flow there and the moment
   its creator has pinned the band, whatever else happens in between.
   */
  lemma UninterruptedConnectsArePaced(levels: seq<int>, run: seq<Action>)
    requires Uninterrupted(run)
    ensures PacedRun(Init(levels), run)
  {
    assert [] + run == run;
    UninterruptedFrom(Init(levels), [], run);
  }

  // ---------------------------------------------------------------------------------------------
  // What an unpaced step does.

  /** Collecting a flow keeps the lease counts right exactly when its creator has pinned the band. */
  lemma CollectFlowExact(s: State, k: FlowKey, timeout: int, now: Time)
    requires Inv(s) && FlowCycleStep(s, CollectFlow(k, timeout, now)).Some? && Expired(s.flows[k], timeout, now)
    ensures Accounted(FlowCycleStep(s, CollectFlow(k, timeout, now)).value) <==> k !in s.unpaid
  {
    CollectFlowAccounts(s, k, timeout, now);
    assert k in s.unpaid ==> !BandAccounted(FlowCycleStep(s, CollectFlow(k, timeout, now)).value, k.priority);
  }

  /** Removing an unleased band keeps every provisioned flow's queue exactly when the step is paced. */
  lemma CleanBandExact(s: State, p: int)
    requires Inv(s) && BandCycleStep(s, CleanBand(p)).Some?
    ensures QueuesPresent(BandCycleStep(s, CleanBand(p)).value) <==> Paced(s, CleanBand(p))
  {
    if Paced(s, CleanBand(p)) {
      CleanBandKeepsInv(s, p);
    } else {
      var k :| k in s.ready && k.priority == p && k in s.unpaid;
      var s' := BandCycleStep(s, CleanBand(p)).value;
      assert k in s'.ready && p !in s'.shardBands;
    }
  }

  /** The invariant holds at the start and after every step of the run. */
  ghost predicate SoundThroughout(s: State, run: seq<Action>)
    decreases |run|
  {
    && Inv(s)
    && (run != [] && Next(s, run[0]).Some? ==> SoundThroughout(Next(s, run[0]).value, run[1..]))
  }

  lemma SoundStepIsPaced(s: State, a: Action)
    requires Inv(s) && Next(s, a).Some? && Inv(Next(s, a).value)
    ensures Paced(s, a)
  {
    match a
    case CollectFlow(k, timeout, now) =>
      if Expired(s.flows[k], timeout, now) {
        CollectFlowExact(s, k, timeout, now);
      }
    case CleanBand(p) => CleanBandExact(s, p);
    case _ =>
  }

  lemma {:induction false} SoundExactlyWhenPaced(s: State, run: seq<Action>)
    requires Inv(s) && Exec(s, run).Some?
    ensures SoundThroughout(s, run) <==> PacedRun(s, run)
    decreases |run|
  {
    if run != [] {
      var a, n := run[0], Next(s, run[0]).value;
      if Paced(s, a) {
        StepKeepsInv(s, a);
        SoundExactlyWhenPaced(n, run[1..]);
      } else if Inv(n) {
        SoundStepIsPaced(s, a);
      }
    }
  }

  /** Over every run, the topology is sound at every point exactly when every step of the run is paced. */
  lemma TopologySoundExactlyWhenPaced(levels: seq<int>, run: seq<Action>)
    requires Descending(levels) && Exec(Init(levels), run).Some?
    ensures SoundThroughout(Init(levels), run) <==> PacedRun(Init(levels), run)
  {
    InitIsSound(levels);
    SoundExactlyWhenPaced(Init(levels), run);
  }

  /**
   When a paced step removes a band, no provisioned flow has a queue there: a queue that is left belongs to a flow
   that was collected and stored again, and that its creator has neither pinned the band for nor provisioned.
   */
  lemma PacedBandHasNoLiveQueue(s: State, p: int, k: FlowKey)
    requires Inv(s) && Paced(s, CleanBand(p)) && BandCycleStep(s, CleanBand(p)).Some? && p !in s.bandLeases
    requires k.priority == p
    ensures k !in s.ready
    ensures p in s.shardBands && k.id in s.shardBands[p] ==> k in s.unpaid
  {
    UnleasedBandIsUnpaid(s, p);
    assert k in s.flows <==> k in At(s.flows.Keys, p);
    assert k == FlowKey(k.id, p);
  }

  const OLD_FLOW := FlowKey("a", 5)
  const NEW_FLOW := FlowKey("b", 5)

  /** A flow connects and leaves. */
  const VISIT_RUN: seq<Action> :=
    [Store(OLD_FLOW), Pin(OLD_FLOW), PayBand(OLD_FLOW), Provision(OLD_FLOW), Disconnect(OLD_FLOW, 1)]

  /** The cycle collects that flow, releases its band and removes its queue. */
  const FLOW_CYCLE_RUN: seq<Action> :=
    [StartCycle, CollectFlow(OLD_FLOW, 10, 11), EndCollectFlows, ReleaseBand(OLD_FLOW, 12), EndReleaseBands,
     CleanFlow(OLD_FLOW), EndCleanFlows]

  /** The cycle collects the idle band; a creator stores a flow there and stalls; another request joins it. */
  const JOIN_RUN: seq<Action> :=
    [CollectBand(5, 10, 22), EndCollectBands, Store(NEW_FLOW), Pin(NEW_FLOW), Provision(NEW_FLOW), CleanBand(5)]

  const START := State(map[], map[], {}, {}, {5}, {5}, {5}, map[5 := {}], [5], Rest)
  const VISITED := START.(flows := map[OLD_FLOW := Lease(0, 1, false)], ready := {OLD_FLOW},
                          bandLeases := map[5 := Lease(1, ZERO_TIME, false)], shardBands := map[5 := {"a"}])
  const IDLE_BAND := START.(bandLeases := map[5 := Lease(0, 12, false)], cycle := CollectingBands({}))
  const JOINED := START.(flows := map[NEW_FLOW := Lease(1, ZERO_TIME, false)], unpaid := {NEW_FLOW},
                         ready := {NEW_FLOW}, shardBands := map[5 := {"b"}], cycle := CleaningBands({5}))

  lemma ExecCons(s: State, a: Action, s': State, rest: seq<Action>, end: State)
    requires Next(s, a) == Some(s') && Exec(s', rest) == Some(end)
    ensures Exec(s, [a] + rest) == Some(end)
  {
    assert ([a] + rest)[1..] == rest;
  }

  lemma AddOrTake<T>(x: T)
    ensures {} + {x} == {x} && {x} - {x} == {} && {} - {x} == {}
  {
  }

  lemma Overwrite<K, V>(k: K, v: V, w: V)
    ensures map[k := v][k := w] == map[k := w] && map[k := v] - {k} == map[]
  {
  }

  lemma VisitRunEnds()
    ensures Exec(START, VISIT_RUN) == Some(VISITED)
  {
    var k := OLD_FLOW;
    var s1 := START.(flows := map[k := FRESH], unpaid := {k});
    var s2 := s1.(flows := map[k := Lease(1, ZERO_TIME, false)]);
    var s3 := s2.(unpaid := {}, bandLeases := map[5 := Lease(1, ZERO_TIME, false)]);
    var s4 := s3.(ready := {k}, shardBands := map[5 := {"a"}]);
    Overwrite(k, Lease(1, ZERO_TIME, false), Lease(0, 1, false));
    assert Next(s4, Disconnect(k, 1)) == Some(VISITED);
    Overwrite(5, {}, {"a"});
    AddOrTake("a");
    AddOrTake(k);
    assert Next(s3, Provision(k)) == Some(s4);
    assert Next(s2, PayBand(k)) == Some(s3);
    Overwrite(k, FRESH, Lease(1, ZERO_TIME, false));
    assert Next(s1, Pin(k)) == Some(s2);
    assert Next(START, Store(k)) == Some(s1);
    ExecCons(s4, Disconnect(k, 1), VISITED, [], VISITED);
    ExecCons(s3, Provision(k), s4, VISIT_RUN[4..], VISITED);
    ExecCons(s2, PayBand(k), s3, VISIT_RUN[3..], VISITED);
    ExecCons(s1, Pin(k), s2, VISIT_RUN[2..], VISITED);
    ExecCons(START, Store(k), s1, VISIT_RUN[1..], VISITED);
  }

  lemma FlowCycleRunEnds()
    ensures Exec(VISITED, FLOW_CYCLE_RUN) == Some(IDLE_BAND)
  {
    var k, run := OLD_FLOW, FLOW_CYCLE_RUN;
    var s1 := VISITED.(cycle := CollectingFlows({}));
    var s2 := s1.(flows := map[], ready := {}, cycle := CollectingFlows({k}));
    var s3 := s2.(cycle := ReleasingBands({k}, {k}));
    var s4 := s3.(bandLeases := map[5 := Lease(0, 12, false)], cycle := ReleasingBands({}, {k}));
    var s5 := s4.(cycle := CleaningFlows({k}));
    var s6 := s5.(shardBands := map[5 := {}], cycle := CleaningFlows({}));
    Overwrite(k, Lease(0, 1, false), FRESH);
    Overwrite(5, Lease(1, ZERO_TIME, false), Lease(0, 12, false));
    Overwrite(5, {"a"}, {});
    AddOrTake("a");
    AddOrTake(k);
    assert Next(VISITED, run[0]) == Some(s1);
    assert Next(s1, run[1]) == Some(s2);
    assert Next(s2, run[2]) == Some(s3);
    assert Next(s3, run[3]) == Some(s4);
    assert Next(s4, run[4]) == Some(s5);
    assert Next(s5, run[5]) == Some(s6);
    assert Next(s6, run[6]) == Some(IDLE_BAND);
    ExecCons(s6, run[6], IDLE_BAND, [], IDLE_BAND);
    ExecCons(s5, run[5], s6, run[6..], IDLE_BAND);
    ExecCons(s4, run[4], s5, run[5..], IDLE_BAND);
    ExecCons(s3, run[3], s4, run[4..], IDLE_BAND);
    ExecCons(s2, run[2], s3, run[3..], IDLE_BAND);
    ExecCons(s1, run[1], s2, run[2..], IDLE_BAND);
    ExecCons(VISITED, run[0], s1, run[1..], IDLE_BAND);
  }

  lemma JoinRunEnds()
    ensures Exec(IDLE_BAND, JOIN_RUN) == Some(WithoutBand(JOINED, 5).(cycle := CleaningBands({})))
  {
    var k, run := NEW_FLOW, JOIN_RUN;
    var end := WithoutBand(JOINED, 5).(cycle := CleaningBands({}));
    var s1 := IDLE_BAND.(bandLeases := map[], cycle := CollectingBands({5}));
    var s2 := s1.(cycle := CleaningBands({5}));
    var s3 := s2.(flows := map[k := FRESH], unpaid := {k});
    var s4 := s3.(flows := map[k := Lease(1, ZERO_TIME, false)]);
    Overwrite(5, Lease(0, 12, false), FRESH);
    Overwrite(k, FRESH, Lease(1, ZERO_TIME, false));
    Overwrite(5, {}, {"b"});
    AddOrTake("b");
    AddOrTake(5);
    AddOrTake(k);
    assert Next(IDLE_BAND, run[0]) == Some(s1);
    assert Next(s1, run[1]) == Some(s2);
    assert Next(s2, run[2]) == Some(s3);
    assert Next(s3, run[3]) == Some(s4);
    assert Next(s4, run[4]) == Some(JOINED);
    assert Next(JOINED, run[5]) == Some(end);
    ExecCons(JOINED, run[5], end, [], end);
    ExecCons(s4, run[4], JOINED, run[5..], end);
    ExecCons(s3, run[3], s4, run[4..], end);
    ExecCons(s2, run[2], s3, run[3..], end);
    ExecCons(s1, run[1], s2, run[2..], end);
    ExecCons(IDLE_BAND, run[0], s1, run[1..], end);
  }

  /**
   The unpaced step does occur: while the collector is about to remove an idle band, a creator stores a new flow
   there and stalls before pinning the band, and a second request joins and provisions the flow. The cleanup then
   deletes the band, and the connected flow has lost its queue.
   */
  lemma StalledCreatorLosesQueue()
    ensures var end := Exec(Init([5]), VISIT_RUN + FLOW_CYCLE_RUN + JOIN_RUN);
            && end.Some? && NEW_FLOW in end.value.flows && end.value.flows[NEW_FLOW].count == 1
            && NEW_FLOW in end.value.ready && 5 !in end.value.shardBands
  {
    assert Init([5]) == START by {
      assert Elements([5]) == {5};
      assert Init([5]).shardBands == START.shardBands;
    }
    VisitRunEnds();
    FlowCycleRunEnds();
    JoinRunEnds();
    ExecAppend(START, VISIT_RUN, FLOW_CYCLE_RUN);
    ExecAppend(START, VISIT_RUN + FLOW_CYCLE_RUN, JOIN_RUN);
  }

  const STALLED := FlowKey("c", 5)

  /** A creator stores a flow and stalls; one cycle stamps the flow idle, the next one collects it. */
  const STALL_RUN: seq<Action> :=
    [Store(STALLED), StartCycle, CollectFlow(STALLED, 10, 1), EndCollectFlows, EndReleaseBands, EndCleanFlows,
     EndCollectBands, EndCleanBands, StartCycle, CollectFlow(STALLED, 10, 11)]

  const STAMPED := START.(flows := map[STALLED := Lease(0, 1, false)], unpaid := {STALLED})

  lemma StampRunEnds()
    ensures Exec(START, STALL_RUN[..3]) == Some(STAMPED.(cycle := CollectingFlows({})))
  {
    var k, run := STALLED, STALL_RUN[..3];
    var s1 := START.(flows := map[k := FRESH], unpaid := {k});
    var s2 := s1.(cycle := CollectingFlows({}));
    var s3 := STAMPED.(cycle := CollectingFlows({}));
    AddOrTake(k);
    Overwrite(k, FRESH, Lease(0, 1, false));
    assert Next(START, run[0]) == Some(s1);
    assert Next(s1, run[1]) == Some(s2);
    assert Next(s2, run[2]) == Some(s3);
    ExecCons(s2, run[2], s3, [], s3);
    ExecCons(s1, run[1], s2, run[2..], s3);
    ExecCons(START, run[0], s1, run[1..], s3);
  }

  lemma EmptyCycleEnds()
    ensures var s := STAMPED.(cycle := CollectingFlows({}));
            Exec(s, STALL_RUN[3..9]) == Some(s)
  {
    var run := STALL_RUN[3..9];
    var s0 := STAMPED.(cycle := CollectingFlows({}));
    var s1 := STAMPED.(cycle := ReleasingBands({}, {}));
    var s2 := STAMPED.(cycle := CleaningFlows({}));
    var s3 := STAMPED.(cycle := CollectingBands({}));
    var s4 := STAMPED.(cycle := CleaningBands({}));
    ExecCons(STAMPED, run[5], s0, [], s0);
    ExecCons(s4, run[4], STAMPED, run[5..], s0);
    ExecCons(s3, run[3], s4, run[4..], s0);
    ExecCons(s2, run[2], s3, run[3..], s0);
    ExecCons(s1, run[1], s2, run[2..], s0);
    ExecCons(s0, run[0], s1, run[1..], s0);
  }

  /**
   A creator that stalls before it pins anything may have its flow collected under it: the band then owes a lease
   that was never taken.
   */
  lemma StalledCreatorIsCollected()
    ensures var end := Exec(Init([5]), STALL_RUN);
            end.Some? && STALLED in Dying(end.value.cycle) && !BandAccounted(end.value, 5)
  {
    var run, k := STALL_RUN, STALLED;
    assert Init([5]) == START by {
      assert Elements([5]) == {5};
      assert Init([5]).shardBands == START.shardBands;
    }
    StampRunEnds();
    EmptyCycleEnds();
    var s := STAMPED.(cycle := CollectingFlows({}));
    var end := START.(cycle := CollectingFlows({k}));
    Overwrite(k, Lease(0, 1, false), FRESH);
    AddOrTake(k);
    assert Next(s, run[9]) == Some(end);
    ExecCons(s, run[9], end, [], end);
    ExecAppend(s, run[3..9], [run[9]] + []);
    ExecAppend(START, run[..3], run[3..9] + ([run[9]] + []));
    assert run == run[..3] + (run[3..9] + ([run[9]] + []));
    assert At({}, 5) == {} && At({k}, 5) == {k};
  }

  lemma {:induction false} ExecAppend(s: State, first: seq<Action>, second: seq<Action>)
    requires Exec(s, first).Some?
    ensures Exec(s, first + second) == Exec(Exec(s, first).value, second)
    decreases |first|
  {
    if first == [] {
      assert first + second == second;
    } else {
      assert (first + second)[1..] == first[1..] + second;
      ExecAppend(Next(s, first[0]).value, first[1..], second);
    }
  }
}
