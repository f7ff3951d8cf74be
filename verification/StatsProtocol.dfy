/**
 The statistics hierarchy under concurrency: every atomic addition to a counter is one step, so operations on
 different queues interleave between the counters of the queue, its band, the shard and the registry.
 The admission check of the processor loads those counters one at a time while other operations go on.
 */
module StatsProtocol {
  import opened FlowKeys
  import opened ManagedQueues
  import opened Options
  import opened Sums

  datatype Stats = Stats(len: int, bytes: int)

  const ZERO := Stats(0, 0)

  /** The mutex of a queue; a holder has a delta to propagate and has applied `done` of the ten additions. */
  datatype Lock = Free | Busy(delta: Delta, done: nat)

  datatype Queue = Queue(items: seq<Item>, stats: Stats, lock: Lock)

  /** A capacity; zero means unlimited. */
  datatype Limit = Limit(bytes: nat, requests: nat)

  /** Where the processor stands in admitting an item; `loads` are the counters loaded so far. */
  datatype Admission =
    | Idle
    | Checking(key: FlowKey, item: Item, loads: seq<int>)
    | Cleared(key: FlowKey, item: Item, loads: seq<int>)
    | Adding(key: FlowKey)

  datatype State = State(
    queues: map<FlowKey, Queue>,
    bands: map<int, Stats>,
    shard: Stats,
    registryBands: map<int, Stats>,
    registry: Stats,
    shardLimit: Limit,
    bandLimits: map<int, Limit>,
    admission: Admission)

  datatype Action =
    | Begin(key: FlowKey, op: Operation)
    | Tick(key: FlowKey)
    | StartCheck(key: FlowKey, item: Item)
    | ReadNext
    | Decide
    | BeginAdd
    | EndAdd
    | NewBand(priority: int, limit: Limit)
    | DropBand(priority: int)
    | NewFlow(key: FlowKey)
    | DropFlow(key: FlowKey)

  function Init(limit: Limit): State {
    State(map[], map[], ZERO, map[], ZERO, limit, map[], Idle)
  }

  // ---------------------------------------------------------------------------------------------
  // Counters. Slot 2l is the length and 2l+1 the byte size of level l: queue, shard band, shard,
  // registry band, registry. This is also the order in which a delta is propagated.

  predicate IsSlot(i: int) {
    0 <= i < 10
  }

  predicate OfBand(i: int) {
    i == 2 || i == 3 || i == 6 || i == 7
  }

  function Bump(s: Stats, i: nat, d: Delta): Stats {
    if i % 2 == 0 then s.(len := s.len + d.len) else s.(bytes := s.bytes + d.bytes)
  }

  /** The band that addition `i` goes to is there; the other additions need none. */
  predicate Reaches(s: State, k: FlowKey, i: nat) {
    OfBand(i) ==> k.priority in s.bands && k.priority in s.registryBands
  }

  /** The state after the `i`-th addition of the delta that the holder of queue `k` propagates. */
  function Bumped(s: State, k: FlowKey, i: nat, d: Delta): State
    requires k in s.queues && i < 10 && Reaches(s, k, i)
  {
    var p := k.priority;
    match i / 2
    case 0 => s.(queues := s.queues[k := s.queues[k].(stats := Bump(s.queues[k].stats, i, d))])
    case 1 => s.(bands := s.bands[p := Bump(s.bands[p], i, d)])
    case 2 => s.(shard := Bump(s.shard, i, d))
    case 3 => s.(registryBands := s.registryBands[p := Bump(s.registryBands[p], i, d)])
    case _ => s.(registry := Bump(s.registry, i, d))
  }

  function Pick(s: Stats, i: nat): int {
    if i % 2 == 0 then s.len else s.bytes
  }

  /** The value of counter `i`, in band `p` where it belongs to a band. */
  function Counter(s: State, p: int, i: nat): int
    requires p in s.bands && p in s.registryBands
  {
    match i / 2
    case 1 => Pick(s.bands[p], i)
    case 2 => Pick(s.shard, i)
    case 3 => Pick(s.registryBands[p], i)
    case _ => Pick(s.registry, i)
  }

  // ---------------------------------------------------------------------------------------------
  // Steps.

  function WithQueue(s: State, k: FlowKey, q: Queue): State {
    s.(queues := s.queues[k := q])
  }

  function Begun(q: Queue, op: Operation): Queue {
    Queue(ItemsAfter(q.items, op), q.stats, Busy(Reported(q.items, op), 0))
  }

  predicate Provisioned(s: State, k: FlowKey) {
    k in s.queues && k.priority in s.bands && k.priority in s.registryBands && k.priority in s.bandLimits
  }

  /** The order in which the snapshot loads the counters of the shard and of the item's band. */
  const READ_ORDER: seq<nat> := [5, 4, 3, 2]

  predicate Fits(limit: nat, read: int, more: int) {
    limit == 0 || read + more <= limit
  }

  predicate HasCapacity(s: State, p: int, byteSize: nat, loads: seq<int>)
    requires |loads| == 4 && p in s.bandLimits
  {
    && Fits(s.shardLimit.bytes, loads[0], byteSize)
    && Fits(s.shardLimit.requests, loads[1], 1)
    && Fits(s.bandLimits[p].bytes, loads[2], byteSize)
    && Fits(s.bandLimits[p].requests, loads[3], 1)
  }

  /**
   One step of the processor: it starts a check only on a queue it finds, rejects when the band is gone, and compares
   the loaded values, and the limits loaded with them, as soon as the last one is in.
   */
  function AdmissionStep(s: State, a: Action): Option<State>
    requires a.StartCheck? || a.ReadNext? || a.Decide? || a.BeginAdd? || a.EndAdd?
  {
    match (a, s.admission)
    case (StartCheck(k, item), Idle) =>
      if Provisioned(s, k) then Some(s.(admission := Checking(k, item, []))) else None
    case (ReadNext, Checking(k, item, loads)) =>
      if |loads| >= 3 then None
      else if !Provisioned(s, k) then Some(s.(admission := Idle))
      else Some(s.(admission := Checking(k, item, loads + [Counter(s, k.priority, READ_ORDER[|loads|])])))
    case (Decide, Checking(k, item, loads)) =>
      if |loads| != 3 then None
      else if !Provisioned(s, k) then Some(s.(admission := Idle))
      else
        var all := loads + [Counter(s, k.priority, READ_ORDER[3])];
        Some(s.(admission := if HasCapacity(s, k.priority, item.byteSize, all) then Cleared(k, item, all) else Idle))
    case (BeginAdd, Cleared(k, item, _)) =>
      if k !in s.queues || s.queues[k].lock.Busy? then None
      else Some(WithQueue(s, k, Begun(s.queues[k], Add(item))).(admission := Adding(k)))
    case (EndAdd, Adding(k)) =>
      if k in s.queues && s.queues[k].lock.Busy? then None else Some(s.(admission := Idle))
    case _ => None
  }

  predicate Handles(a: Admission, k: FlowKey) {
    !a.Idle? && a.key == k
  }

  function WithBand(s: State, p: int, limit: Limit): State {
    s.(bands := s.bands[p := ZERO], registryBands := s.registryBands[p := ZERO], bandLimits := s.bandLimits[p := limit])
  }

  /** An addition whose band object was already looked up goes to the dropped object: to no counter any more. */
  function Orphaned(l: Lock): Lock {
    if l.Busy? && (l.done == 3 || l.done == 7) then Busy(l.delta, l.done + 1) else l
  }

  /** The band disappears under whatever its queues are doing. */
  function WithoutBand(s: State, p: int): State {
    s.(bands := s.bands - {p}, registryBands := s.registryBands - {p}, bandLimits := s.bandLimits - {p},
       queues := map k | k in s.queues ::
                   if k.priority == p then s.queues[k].(lock := Orphaned(s.queues[k].lock)) else s.queues[k])
  }

  /** The snapshot holds the shard's lock from its first load to its last. */
  predicate Snapshotting(a: Admission) {
    a.Checking? && |a.loads| > 0
  }

  function WithoutQueue(s: State, k: FlowKey): State {
    s.(queues := s.queues - {k})
  }

  const EMPTY := Queue([], ZERO, Free)

  function TopologyStep(s: State, a: Action): Option<State>
    requires a.NewBand? || a.DropBand? || a.NewFlow? || a.DropFlow?
  {
    match a
    case NewBand(p, limit) =>
      if p in s.bands then None
      else Some(WithBand(s, p, limit))
    case DropBand(p) =>
      if Snapshotting(s.admission) then None else Some(WithoutBand(s, p))
    case NewFlow(k) =>
      if k in s.queues || k.priority !in s.bands then None
      else Some(WithQueue(s, k, EMPTY))
    case DropFlow(k) =>
      if k !in s.queues || s.queues[k].items != [] || s.queues[k].lock.Busy? || Handles(s.admission, k) then None
      else Some(WithoutQueue(s, k))
  }

  function Next(s: State, a: Action): Option<State> {
    match a
    case Begin(k, op) =>
      if k !in s.queues || s.queues[k].lock.Busy? || op.Add? then None
      else if Removed(s.queues[k].items, op) == [] then Some(s)
      else Some(WithQueue(s, k, Begun(s.queues[k], op)))
    case Tick(k) =>
      if k !in s.queues || s.queues[k].lock.Free? then None
      else
        var Busy(d, i) := s.queues[k].lock;
        if i >= 10 then Some(WithQueue(s, k, s.queues[k].(lock := Free)))
        else if !Reaches(s, k, i) then None
        else
          var bumped := Bumped(s, k, i, d);
          Some(WithQueue(bumped, k, bumped.queues[k].(lock := Busy(d, i + 1))))
    case NewBand(_, _) => TopologyStep(s, a)
    case DropBand(_) => TopologyStep(s, a)
    case NewFlow(_) => TopologyStep(s, a)
    case DropFlow(_) => TopologyStep(s, a)
    case _ => AdmissionStep(s, a)
  }

  function Exec(s: State, run: seq<Action>): Option<State>
    decreases |run|
  {
    if run == [] then Some(s) else
    match Next(s, run[0])
    case None => None
    case Some(next) => Exec(next, run[1..])
  }

  // ---------------------------------------------------------------------------------------------
  // What a counter owes to each queue.

  function Content(q: Queue, i: nat): int {
    if i % 2 == 0 then |q.items| else Bytes(q.items)
  }

  function Change(d: Delta, i: nat): int {
    if i % 2 == 0 then d.len else d.bytes
  }

  /** The part of counter `i` that stems from the queue: its content, unless the delta has not arrived there. */
  function Seen(q: Queue, i: nat): int {
    Content(q, i) - (if q.lock.Busy? && q.lock.done <= i then Change(q.lock.delta, i) else 0)
  }

  predicate Within(k: FlowKey, p: int, i: nat) {
    OfBand(i) ==> k.priority == p
  }

  ghost function SeenParts(queues: map<FlowKey, Queue>, p: int, i: nat): map<FlowKey, int> {
    map k | k in queues && Within(k, p, i) :: Seen(queues[k], i)
  }

  ghost function ContentParts(queues: map<FlowKey, Queue>, p: int, i: nat): map<FlowKey, int> {
    map k | k in queues && Within(k, p, i) :: Content(queues[k], i)
  }

  lemma PartsAfterUpdate(queues: map<FlowKey, Queue>, k: FlowKey, q: Queue, p: int, i: nat)
    ensures Within(k, p, i) ==> SeenParts(queues[k := q], p, i) == SeenParts(queues, p, i)[k := Seen(q, i)]
    ensures !Within(k, p, i) ==> SeenParts(queues[k := q], p, i) == SeenParts(queues, p, i)
  {
  }

  /** A queue replaced by one whose part of counter `i` differs by `d` moves the sum by `d`. */
  lemma SeenAfterUpdate(queues: map<FlowKey, Queue>, k: FlowKey, q: Queue, p: int, i: nat)
    requires k in queues
    ensures Total(SeenParts(queues[k := q], p, i)) ==
            Total(SeenParts(queues, p, i)) + (if Within(k, p, i) then Seen(q, i) - Seen(queues[k], i) else 0)
  {
    PartsAfterUpdate(queues, k, q, p, i);
    if Within(k, p, i) {
      TotalAfterUpdate(SeenParts(queues, p, i), k, Seen(q, i));
    }
  }

  // ---------------------------------------------------------------------------------------------
  // Conservation.

  /** A mutex holder has changed the contents by exactly the delta it propagates, in one direction. */
  predicate LockSound(q: Queue) {
    q.lock.Busy? ==>
      var d := q.lock.delta;
      && |q.items| - d.len >= 0 && Bytes(q.items) - d.bytes >= 0
      && (d.len > 0 ==> d.bytes >= 0) && (d.len <= 0 ==> d.bytes <= 0)
  }

  /** An empty queue whose operations, if any, have at most the additions from `from` on to make. */
  predicate Spent(q: Queue, from: nat) {
    |q.items| == 0 && (q.lock.Busy? ==> q.lock.done >= from)
  }

  predicate ClearedFor(a: Admission, k: FlowKey) {
    a.Cleared? && a.key == k
  }

  /** The queue has nothing more to report to a band, and nothing is about to be added to it. */
  predicate Vacant(s: State, k: FlowKey)
    requires k in s.queues
  {
    Spent(s.queues[k], 8) && !ClearedFor(s.admission, k)
  }

  ghost predicate QueuesSound(s: State) {
    forall k :: k in s.queues ==>
      && (Provisioned(s, k) || Vacant(s, k))
      && LockSound(s.queues[k])
      && s.queues[k].stats == Stats(Seen(s.queues[k], 0), Seen(s.queues[k], 1))
  }

  /** The sum of what the queues contribute to counter `i`, within band `p` where the counter belongs to one. */
  ghost function Owed(s: State, p: int, i: nat): int {
    Total(SeenParts(s.queues, p, i))
  }

  ghost predicate BandSound(s: State, p: int)
    requires p in s.bands && p in s.registryBands
  {
    && s.bands[p] == Stats(Owed(s, p, 2), Owed(s, p, 3))
    && s.registryBands[p] == Stats(Owed(s, p, 6), Owed(s, p, 7))
  }

  ghost predicate CountersSound(s: State) {
    && s.registryBands.Keys == s.bands.Keys == s.bandLimits.Keys
    && (forall p :: p in s.bands ==> BandSound(s, p))
    && s.shard == Stats(Owed(s, 0, 4), Owed(s, 0, 5))
    && s.registry == Stats(Owed(s, 0, 8), Owed(s, 0, 9))
  }

  ghost predicate Conserved(s: State) {
    QueuesSound(s) && CountersSound(s)
  }

  lemma BeginIsInvisible(q: Queue, op: Operation, i: nat)
    requires q.lock.Free?
    ensures Seen(Begun(q, op), i) == Seen(q, i)
    ensures LockSound(Begun(q, op))
  {
    ReportIsExact(q.items, op);
  }

  lemma BeginKeepsConserved(s: State, k: FlowKey, op: Operation)
    requires Conserved(s) && Provisioned(s, k) && s.queues[k].lock.Free?
    ensures Conserved(WithQueue(s, k, Begun(s.queues[k], op)))
  {
    forall i: nat
      ensures Seen(Begun(s.queues[k], op), i) == Seen(s.queues[k], i) && LockSound(Begun(s.queues[k], op))
    {
      BeginIsInvisible(s.queues[k], op, i);
    }
    SameSightKeepsCounters(s, k, Begun(s.queues[k], op));
    ReplacedKeepsQueues(s, k, Begun(s.queues[k], op));
  }

  /** An addition arrives at one counter and is then seen there, and nowhere else. */
  lemma TickIsSeenOnce(q: Queue, i: nat)
    requires q.lock.Busy? && q.lock.done < 10
    ensures var Busy(d, done) := q.lock;
            Seen(q.(lock := Busy(d, done + 1)), i) == Seen(q, i) + (if i == done then Change(d, i) else 0)
  {
  }

  predicate Ticks(s: State, k: FlowKey) {
    k in s.queues && s.queues[k].lock.Busy? && s.queues[k].lock.done < 10 && Reaches(s, k, s.queues[k].lock.done)
  }

  /** Which fields one addition touches. */
  lemma TickShape(s: State, k: FlowKey)
    requires Ticks(s, k)
    ensures Next(s, Tick(k)).Some?
    ensures var s' := Next(s, Tick(k)).value;
            var Busy(d, i) := s.queues[k].lock;
            var p, q := k.priority, s.queues[k];
            var stats' := if i / 2 == 0 then Bump(q.stats, i, d) else q.stats;
            && s'.queues == s.queues[k := Queue(q.items, stats', Busy(d, i + 1))]
            && s'.bands == (if i / 2 == 1 then s.bands[p := Bump(s.bands[p], i, d)] else s.bands)
            && s'.shard == (if i / 2 == 2 then Bump(s.shard, i, d) else s.shard)
            && s'.registryBands ==
               (if i / 2 == 3 then s.registryBands[p := Bump(s.registryBands[p], i, d)] else s.registryBands)
            && s'.registry == (if i / 2 == 4 then Bump(s.registry, i, d) else s.registry)
            && s'.bandLimits == s.bandLimits && s'.shardLimit == s.shardLimit && s'.admission == s.admission
  {
  }

  lemma OwedAfterTick(s: State, k: FlowKey, p: int, i: nat)
    requires Ticks(s, k) && Next(s, Tick(k)).Some?
    ensures var Busy(d, done) := s.queues[k].lock;
            Owed(Next(s, Tick(k)).value, p, i) ==
            Owed(s, p, i) + (if i == done && Within(k, p, i) then Change(d, i) else 0)
  {
    TickShape(s, k);
    var s' := Next(s, Tick(k)).value;
    SeenAfterUpdate(s.queues, k, s'.queues[k], p, i);
    TickIsSeenOnce(s.queues[k], i);
  }

  lemma TickKeepsQueues(s: State, k: FlowKey)
    requires QueuesSound(s) && k in s.queues && s.queues[k].lock.Busy? && s.queues[k].lock.done < 10
    ensures Next(s, Tick(k)).Some? && QueuesSound(Next(s, Tick(k)).value)
  {
    TickShape(s, k);
  }

  lemma TickKeepsBand(s: State, k: FlowKey, p: int)
    requires Ticks(s, k)
    requires p in s.bands && p in s.registryBands && BandSound(s, p) && Next(s, Tick(k)).Some?
    ensures var s' := Next(s, Tick(k)).value;
            p in s'.bands && p in s'.registryBands && BandSound(s', p)
  {
    TickShape(s, k);
    OwedAfterTick(s, k, p, 2);
    OwedAfterTick(s, k, p, 3);
    OwedAfterTick(s, k, p, 6);
    OwedAfterTick(s, k, p, 7);
  }

  lemma TickKeepsTotals(s: State, k: FlowKey)
    requires Ticks(s, k) && Next(s, Tick(k)).Some?
    requires s.shard == Stats(Owed(s, 0, 4), Owed(s, 0, 5)) && s.registry == Stats(Owed(s, 0, 8), Owed(s, 0, 9))
    ensures var s' := Next(s, Tick(k)).value;
            s'.shard == Stats(Owed(s', 0, 4), Owed(s', 0, 5)) && s'.registry == Stats(Owed(s', 0, 8), Owed(s', 0, 9))
  {
    TickShape(s, k);
    OwedAfterTick(s, k, 0, 4);
    OwedAfterTick(s, k, 0, 5);
    OwedAfterTick(s, k, 0, 8);
    OwedAfterTick(s, k, 0, 9);
  }

  lemma TickKeepsConserved(s: State, k: FlowKey)
    requires Conserved(s) && k in s.queues && s.queues[k].lock.Busy? && s.queues[k].lock.done < 10
    ensures Next(s, Tick(k)).Some? && Conserved(Next(s, Tick(k)).value)
  {
    TickShape(s, k);
    TickKeepsQueues(s, k);
    TickKeepsTotals(s, k);
    var s' := Next(s, Tick(k)).value;
    assert s'.registryBands.Keys == s'.bands.Keys == s'.bandLimits.Keys;
    forall p | p in s'.bands
      ensures BandSound(s', p)
    {
      assert BandSound(s, p);
      TickKeepsBand(s, k, p);
    }
  }

  /** Replacing a queue by one that every counter sees alike changes no sum. */
  lemma SameSightKeepsCounters(s: State, k: FlowKey, q: Queue)
    requires CountersSound(s) && k in s.queues
    requires forall i: nat :: i < 10 ==> Seen(q, i) == Seen(s.queues[k], i)
    ensures CountersSound(WithQueue(s, k, q))
    ensures forall p, i: nat :: i < 10 ==> Owed(WithQueue(s, k, q), p, i) == Owed(s, p, i)
  {
    var s' := WithQueue(s, k, q);
    forall p, i: nat | i < 10
      ensures Owed(s', p, i) == Owed(s, p, i)
    {
      SeenAfterUpdate(s.queues, k, q, p, i);
    }
    forall p | p in s'.bands
      ensures BandSound(s', p)
    {
      assert BandSound(s, p);
    }
  }

  lemma UnlockKeepsConserved(s: State, k: FlowKey)
    requires Conserved(s) && k in s.queues && s.queues[k].lock.Busy? && s.queues[k].lock.done >= 10
    ensures Next(s, Tick(k)).Some? && Conserved(Next(s, Tick(k)).value)
  {
    var q := s.queues[k].(lock := Free);
    UnlockStep(s, k);
    UnlockedSight(s.queues[k]);
    SameSightKeepsCounters(s, k, q);
    ReplacedKeepsQueues(s, k, q);
  }

  lemma UnlockStep(s: State, k: FlowKey)
    requires k in s.queues && s.queues[k].lock.Busy? && s.queues[k].lock.done >= 10
    ensures Next(s, Tick(k)) == Some(WithQueue(s, k, s.queues[k].(lock := Free)))
  {
  }

  lemma UnlockedSight(q: Queue)
    requires q.lock.Busy? && q.lock.done >= 10
    ensures forall i: nat :: i < 10 ==> Seen(q.(lock := Free), i) == Seen(q, i)
  {
  }

  lemma ReplacedKeepsQueues(s: State, k: FlowKey, q: Queue)
    requires QueuesSound(s) && k in s.queues && LockSound(q) && q.stats == Stats(Seen(q, 0), Seen(q, 1))
    requires Provisioned(s, k) || (Spent(q, 8) && !ClearedFor(s.admission, k))
    ensures QueuesSound(WithQueue(s, k, q))
  {
    var n := WithQueue(s, k, q);
    forall j | j in n.queues
      ensures (Provisioned(n, j) || Vacant(n, j)) && LockSound(n.queues[j])
      ensures n.queues[j].stats == Stats(Seen(n.queues[j], 0), Seen(n.queues[j], 1))
    {
      assert Provisioned(s, j) || Vacant(s, j);
    }
  }

  lemma SubsetKeepsQueues(s: State, s': State)
    requires QueuesSound(s)
    requires forall k :: k in s'.queues ==>
               k in s.queues && s'.queues[k] == s.queues[k] && (Provisioned(s', k) || Vacant(s', k))
    ensures QueuesSound(s')
  {
  }

  /** No queue of the band has anything to report to it. */
  ghost predicate BandSpent(s: State, p: int) {
    forall k :: k in s.queues && k.priority == p ==> Spent(s.queues[k], 8)
  }

  lemma SpentOwesNothing(s: State, p: int, i: nat)
    requires BandSpent(s, p) && OfBand(i)
    ensures Owed(s, p, i) == 0
  {
    TotalOfZeros(SeenParts(s.queues, p, i));
  }

  lemma NewBandIsSound(s: State, p: int, limit: Limit, r: int)
    requires BandSpent(s, p)
    requires r == p || (r in s.bands && r in s.registryBands && BandSound(s, r))
    ensures BandSound(WithBand(s, p, limit), r)
  {
    if r == p {
      SpentOwesNothing(s, p, 2);
      SpentOwesNothing(s, p, 3);
      SpentOwesNothing(s, p, 6);
      SpentOwesNothing(s, p, 7);
    }
  }

  lemma NewBandKeepsCounters(s: State, p: int, limit: Limit)
    requires CountersSound(s) && BandSpent(s, p)
    ensures CountersSound(WithBand(s, p, limit))
  {
    var s' := WithBand(s, p, limit);
    forall r | r in s'.bands
      ensures BandSound(s', r)
    {
      assert r != p ==> BandSound(s, r);
      NewBandIsSound(s, p, limit, r);
    }
  }

  /** Nothing is lost with the band: its queues are empty and have at most their last additions to make. */
  ghost predicate Droppable(s: State, p: int) {
    forall k :: k in s.queues && k.priority == p ==> Spent(s.queues[k], 7) && !ClearedFor(s.admission, k)
  }

  lemma DroppedOwes(s: State, p: int, r: int, i: nat)
    requires Droppable(s, p) && i < 10 && (OfBand(i) ==> r != p)
    ensures Owed(WithoutBand(s, p), r, i) == Owed(s, r, i)
  {
    assert SeenParts(WithoutBand(s, p).queues, r, i) == SeenParts(s.queues, r, i);
  }

  lemma DropBandKeepsBand(s: State, p: int, r: int)
    requires Droppable(s, p) && r != p && r in s.bands && r in s.registryBands && BandSound(s, r)
    ensures BandSound(WithoutBand(s, p), r)
  {
    DroppedOwes(s, p, r, 2);
    DroppedOwes(s, p, r, 3);
    DroppedOwes(s, p, r, 6);
    DroppedOwes(s, p, r, 7);
  }

  lemma DropBandKeepsCounters(s: State, p: int)
    requires CountersSound(s) && Droppable(s, p)
    ensures CountersSound(WithoutBand(s, p))
  {
    var s' := WithoutBand(s, p);
    forall r | r in s'.bands
      ensures BandSound(s', r)
    {
      assert BandSound(s, r);
      DropBandKeepsBand(s, p, r);
    }
    DroppedOwes(s, p, 0, 4);
    DroppedOwes(s, p, 0, 5);
    DroppedOwes(s, p, 0, 8);
    DroppedOwes(s, p, 0, 9);
  }

  lemma DropBandKeepsQueues(s: State, p: int)
    requires QueuesSound(s) && Droppable(s, p)
    ensures QueuesSound(WithoutBand(s, p))
  {
    var s' := WithoutBand(s, p);
    forall k | k in s'.queues
      ensures (Provisioned(s', k) || Vacant(s', k)) && LockSound(s'.queues[k])
      ensures s'.queues[k].stats == Stats(Seen(s'.queues[k], 0), Seen(s'.queues[k], 1))
    {
      assert Provisioned(s, k) || Vacant(s, k);
    }
  }

  lemma NewFlowOwesNothing(s: State, k: FlowKey, p: int, i: nat)
    requires k !in s.queues
    ensures Owed(WithQueue(s, k, EMPTY), p, i) == Owed(s, p, i)
  {
    PartsAfterUpdate(s.queues, k, EMPTY, p, i);
    if Within(k, p, i) {
      TotalAfterUpdate(SeenParts(s.queues, p, i), k, Seen(EMPTY, i));
    }
  }

  lemma DropFlowOwesNothing(s: State, k: FlowKey, p: int, i: nat)
    requires k in s.queues && s.queues[k].items == [] && s.queues[k].lock.Free?
    ensures Owed(WithoutQueue(s, k), p, i) == Owed(s, p, i)
  {
    var parts := SeenParts(s.queues, p, i);
    if Within(k, p, i) {
      assert SeenParts(s.queues - {k}, p, i) == parts - {k};
      TotalWithout(parts, k);
    } else {
      assert SeenParts(s.queues - {k}, p, i) == parts;
    }
  }

  /** Two states with the same counters whose queues owe the same sums are both sound or both not. */
  lemma SameDebtsKeepCounters(s: State, s': State)
    requires CountersSound(s)
    requires s' == s.(queues := s'.queues, admission := s'.admission)
    requires forall p, i: nat :: Owed(s', p, i) == Owed(s, p, i)
    ensures CountersSound(s')
  {
    forall p | p in s'.bands
      ensures BandSound(s', p)
    {
      assert BandSound(s, p);
    }
  }

  lemma NewFlowKeepsCounters(s: State, k: FlowKey)
    requires CountersSound(s) && k !in s.queues
    ensures CountersSound(WithQueue(s, k, EMPTY))
  {
    forall p, i: nat
      ensures Owed(WithQueue(s, k, EMPTY), p, i) == Owed(s, p, i)
    {
      NewFlowOwesNothing(s, k, p, i);
    }
    SameDebtsKeepCounters(s, WithQueue(s, k, EMPTY));
  }

  lemma DropFlowKeepsCounters(s: State, k: FlowKey)
    requires CountersSound(s) && k in s.queues && s.queues[k].items == [] && s.queues[k].lock.Free?
    ensures CountersSound(WithoutQueue(s, k))
  {
    forall p, i: nat
      ensures Owed(WithoutQueue(s, k), p, i) == Owed(s, p, i)
    {
      DropFlowOwesNothing(s, k, p, i);
    }
    SameDebtsKeepCounters(s, WithoutQueue(s, k));
  }

  /** Removing a queue that nobody works on keeps the counters right exactly when the queue is empty. */
  lemma DropFlowExact(s: State, k: FlowKey)
    requires CountersSound(s) && k in s.queues && s.queues[k].lock.Free?
    ensures CountersSound(WithoutQueue(s, k)) <==> s.queues[k].items == []
  {
    if s.queues[k].items == [] {
      DropFlowKeepsCounters(s, k);
    } else {
      var parts := SeenParts(s.queues, 0, 4);
      assert Within(k, 0, 4);
      assert SeenParts(s.queues - {k}, 0, 4) == parts - {k};
      TotalWithout(parts, k);
      assert Owed(WithoutQueue(s, k), 0, 4) == Owed(s, 0, 4) - |s.queues[k].items|;
    }
  }

  lemma TopologyStepKeepsQueues(s: State, a: Action)
    requires QueuesSound(s) && (a.NewBand? || a.NewFlow? || a.DropFlow?) && TopologyStep(s, a).Some?
    requires s.registryBands.Keys == s.bands.Keys == s.bandLimits.Keys
    ensures QueuesSound(TopologyStep(s, a).value)
  {
    var s' := TopologyStep(s, a).value;
    if a.NewFlow? {
      forall k | k in s'.queues
        ensures (Provisioned(s', k) || Vacant(s', k)) && LockSound(s'.queues[k])
        ensures s'.queues[k].stats == Stats(Seen(s'.queues[k], 0), Seen(s'.queues[k], 1))
      {
        assert k != a.key ==> k in s.queues && s'.queues[k] == s.queues[k];
      }
    } else {
      SubsetKeepsQueues(s, s');
    }
  }

  /** The step drops no band that its queues still need. */
  ghost predicate Harmless(s: State, a: Action) {
    a.DropBand? ==> Droppable(s, a.priority)
  }

  lemma TopologyStepKeepsConserved(s: State, a: Action)
    requires Conserved(s) && (a.NewBand? || a.DropBand? || a.NewFlow? || a.DropFlow?) && TopologyStep(s, a).Some?
    requires Harmless(s, a)
    ensures Conserved(TopologyStep(s, a).value)
  {
    match a
    case NewBand(p, limit) =>
      TopologyStepKeepsQueues(s, a);
      assert forall k :: k in s.queues && k.priority == p ==> !Provisioned(s, k) && Vacant(s, k);
      NewBandKeepsCounters(s, p, limit);
    case DropBand(p) =>
      DropBandKeepsQueues(s, p);
      DropBandKeepsCounters(s, p);
    case NewFlow(k) =>
      TopologyStepKeepsQueues(s, a);
      NewFlowKeepsCounters(s, k);
    case DropFlow(k) =>
      TopologyStepKeepsQueues(s, a);
      DropFlowKeepsCounters(s, k);
  }

  lemma AdmissionStepKeepsConserved(s: State, a: Action)
    requires Conserved(s) && (a.StartCheck? || a.ReadNext? || a.Decide? || a.BeginAdd? || a.EndAdd?)
    requires AdmissionStep(s, a).Some?
    ensures Conserved(AdmissionStep(s, a).value)
  {
    var s' := AdmissionStep(s, a).value;
    if a.BeginAdd? {
      AddKeepsConserved(s, a);
    } else {
      assert s' == s.(admission := s'.admission);
      SameQueuesKeepConserved(s, s');
    }
  }

  lemma AddKeepsConserved(s: State, a: Action)
    requires Conserved(s) && a.BeginAdd? && AdmissionStep(s, a).Some?
    ensures Conserved(AdmissionStep(s, a).value)
  {
    var s' := AdmissionStep(s, a).value;
    BeginKeepsConserved(s, s.admission.key, Add(s.admission.item));
    var mid := WithQueue(s, s.admission.key, Begun(s.queues[s.admission.key], Add(s.admission.item)));
    assert s' == mid.(admission := s'.admission);
    SameQueuesKeepConserved(mid, s');
  }

  lemma SameQueuesKeepConserved(s: State, s': State)
    requires Conserved(s) && s' == s.(admission := s'.admission)
    requires s'.admission.Cleared? ==> Provisioned(s, s'.admission.key)
    ensures Conserved(s')
  {
    SubsetKeepsQueues(s, s');
    SameDebtsKeepCounters(s, s');
  }

  lemma NothingToRemove(op: Operation)
    requires !op.Add?
    ensures Removed([], op) == []
  {
  }

  lemma StepKeepsConserved(s: State, a: Action)
    requires Conserved(s) && Harmless(s, a) && Next(s, a).Some?
    ensures Conserved(Next(s, a).value)
  {
    match a
    case Begin(k, op) =>
      if Removed(s.queues[k].items, op) != [] {
        assert Provisioned(s, k) || Vacant(s, k);
        NothingToRemove(op);
        BeginKeepsConserved(s, k, op);
      }
    case Tick(k) =>
      if s.queues[k].lock.done < 10 {
        TickKeepsConserved(s, k);
      } else {
        UnlockKeepsConserved(s, k);
      }
    case NewBand(_, _) => TopologyStepKeepsConserved(s, a);
    case DropBand(_) => TopologyStepKeepsConserved(s, a);
    case NewFlow(_) => TopologyStepKeepsConserved(s, a);
    case DropFlow(_) => TopologyStepKeepsConserved(s, a);
    case _ => AdmissionStepKeepsConserved(s, a);
  }

  // ---------------------------------------------------------------------------------------------
  // Every run.

  /** Every band dropped in the run is one that its queues no longer need. */
  ghost predicate HarmlessRun(s: State, run: seq<Action>)
    decreases |run|
  {
    run == [] || (Harmless(s, run[0]) && (Next(s, run[0]).Some? ==> HarmlessRun(Next(s, run[0]).value, run[1..])))
  }

  lemma {:induction false} RunKeepsConserved(s: State, run: seq<Action>)
    requires Conserved(s) && HarmlessRun(s, run) && Exec(s, run).Some?
    ensures Conserved(Exec(s, run).value)
    decreases |run|
  {
    if run != [] {
      StepKeepsConserved(s, run[0]);
      RunKeepsConserved(Next(s, run[0]).value, run[1..]);
    }
  }

  lemma InitIsConserved(limit: Limit)
    ensures Conserved(Init(limit))
  {
    var none: map<FlowKey, Queue> := map[];
    assert SeenParts(none, 0, 4) == map[] && SeenParts(none, 0, 5) == map[];
    assert SeenParts(none, 0, 8) == map[] && SeenParts(none, 0, 9) == map[];
  }

  lemma OwedIsNonNegative(s: State, p: int, i: nat)
    requires QueuesSound(s)
    ensures Owed(s, p, i) >= 0
  {
    var parts := SeenParts(s.queues, p, i);
    forall k | k in parts
      ensures parts[k] >= 0
    {
      assert LockSound(s.queues[k]);
    }
    TotalIsNonNegative(parts);
  }

  ghost predicate NonNegative(s: State) {
    && (forall k :: k in s.queues ==> s.queues[k].stats.len >= 0 && s.queues[k].stats.bytes >= 0)
    && (forall p :: p in s.bands ==> s.bands[p].len >= 0 && s.bands[p].bytes >= 0)
    && (forall p :: p in s.registryBands ==> s.registryBands[p].len >= 0 && s.registryBands[p].bytes >= 0)
    && s.shard.len >= 0 && s.shard.bytes >= 0 && s.registry.len >= 0 && s.registry.bytes >= 0
  }

  lemma ConservedIsNonNegative(s: State)
    requires Conserved(s)
    ensures NonNegative(s)
  {
    forall p, i: nat
      ensures Owed(s, p, i) >= 0
    {
      OwedIsNonNegative(s, p, i);
    }
    forall p | p in s.bands
      ensures s.bands[p].len >= 0 && s.bands[p].bytes >= 0
      ensures s.registryBands[p].len >= 0 && s.registryBands[p].bytes >= 0
    {
      assert BandSound(s, p);
    }
    forall k | k in s.queues
      ensures s.queues[k].stats.len >= 0 && s.queues[k].stats.bytes >= 0
    {
      assert LockSound(s.queues[k]);
    }
  }

  /** No queue of the counter's scope is in the middle of an operation. */
  ghost predicate Quiet(s: State, p: int, i: nat) {
    forall k :: k in s.queues && Within(k, p, i) ==> s.queues[k].lock.Free?
  }

  ghost function Held(s: State, p: int, i: nat): int {
    Total(ContentParts(s.queues, p, i))
  }

  /** Once a scope is quiet, every counter of that scope and kind sees the same contents. */
  lemma QuietSeesContents(s: State, p: int, q: nat, i: nat, j: nat)
    requires Quiet(s, p, q) && OfBand(q) == OfBand(i) == OfBand(j) && i % 2 == j % 2
    ensures Owed(s, p, j) == Held(s, p, i)
  {
    var seen, held := SeenParts(s.queues, p, j), ContentParts(s.queues, p, i);
    assert forall k :: k in seen <==> k in held;
    assert forall k :: k in seen ==> seen[k] == held[k];
    assert seen == held;
  }

  /**
   Counter conservation over every run: no counter at any level is ever negative, not even between two atomic
   additions of one delta, and whenever the operations in its scope have finished, a counter equals the sum over
   the items actually queued there.
   */
  lemma CounterConservation(limit: Limit, run: seq<Action>, p: int)
    requires HarmlessRun(Init(limit), run) && Exec(Init(limit), run).Some?
    ensures var s := Exec(Init(limit), run).value;
            && NonNegative(s)
            && s.registryBands.Keys == s.bands.Keys
            && (forall k :: k in s.queues && s.queues[k].lock.Free? ==>
                  s.queues[k].stats == Stats(|s.queues[k].items|, Bytes(s.queues[k].items)))
            && (p in s.bands && Quiet(s, p, 2) ==>
                  && s.bands[p] == Stats(Held(s, p, 2), Held(s, p, 3))
                  && s.registryBands[p] == Stats(Held(s, p, 2), Held(s, p, 3)))
            && (Quiet(s, 0, 4) ==>
                  && s.shard == Stats(Held(s, 0, 4), Held(s, 0, 5))
                  && s.registry == Stats(Held(s, 0, 4), Held(s, 0, 5)))
  {
    InitIsConserved(limit);
    RunKeepsConserved(Init(limit), run);
    var s := Exec(Init(limit), run).value;
    ConservedIsNonNegative(s);
    if p in s.bands && Quiet(s, p, 2) {
      BandReadsContents(s, p);
    }
    if Quiet(s, 0, 4) {
      TotalsReadContents(s);
    }
  }

  lemma NothingHeld(s: State, p: int, i: nat)
    requires forall k :: k in s.queues ==> s.queues[k].items == []
    ensures Held(s, p, i) == 0
  {
    TotalOfZeros(ContentParts(s.queues, p, i));
  }

  /** When every queue has been drained and no operation is under way, every counter of every level is zero. */
  lemma DrainedCountersAreZero(s: State)
    requires Conserved(s)
    requires forall k :: k in s.queues ==> s.queues[k].items == [] && s.queues[k].lock.Free?
    ensures s.shard == ZERO && s.registry == ZERO
    ensures forall p :: p in s.bands ==> s.bands[p] == ZERO
    ensures forall p :: p in s.registryBands ==> s.registryBands[p] == ZERO
    ensures forall k :: k in s.queues ==> s.queues[k].stats == ZERO
  {
    TotalsReadContents(s);
    NothingHeld(s, 0, 4);
    NothingHeld(s, 0, 5);
    forall p | p in s.bands
      ensures s.bands[p] == ZERO && s.registryBands[p] == ZERO
    {
      BandReadsContents(s, p);
      NothingHeld(s, p, 2);
      NothingHeld(s, p, 3);
    }
  }

  lemma BandReadsContents(s: State, p: int)
    requires CountersSound(s) && p in s.bands && Quiet(s, p, 2)
    ensures s.bands[p] == Stats(Held(s, p, 2), Held(s, p, 3)) == s.registryBands[p]
  {
    assert BandSound(s, p);
    QuietSeesContents(s, p, 2, 2, 2);
    QuietSeesContents(s, p, 2, 3, 3);
    QuietSeesContents(s, p, 2, 2, 6);
    QuietSeesContents(s, p, 2, 3, 7);
  }

  lemma TotalsReadContents(s: State)
    requires CountersSound(s) && Quiet(s, 0, 4)
    ensures s.shard == Stats(Held(s, 0, 4), Held(s, 0, 5)) == s.registry
  {
    QuietSeesContents(s, 0, 4, 4, 4);
    QuietSeesContents(s, 0, 4, 5, 5);
    QuietSeesContents(s, 0, 4, 4, 8);
    QuietSeesContents(s, 0, 4, 5, 9);
  }

  /** The propagation never meets a missing band: every queue's next addition is possible. */
  lemma PropagationNeverFails(limit: Limit, run: seq<Action>, k: FlowKey)
    requires HarmlessRun(Init(limit), run) && Exec(Init(limit), run).Some?
    ensures var s := Exec(Init(limit), run).value;
            k in s.queues && s.queues[k].lock.Busy? ==> Next(s, Tick(k)).Some?
  {
    InitIsConserved(limit);
    RunKeepsConserved(Init(limit), run);
    BusyMoves(Exec(Init(limit), run).value, k);
  }

  lemma BusyMoves(s: State, k: FlowKey)
    requires QueuesSound(s)
    ensures k in s.queues && s.queues[k].lock.Busy? ==> Next(s, Tick(k)).Some?
  {
  }
}
