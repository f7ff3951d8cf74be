/**
 Capacity under concurrency. The admission check loads four counters one after the other and adds the item
 later, while sweeps and removals go on; the limits hold in every state of every run all the same.
 */
module Capacity {
  import opened FlowKeys
  import opened ManagedQueues
  import opened Options
  import opened StatsProtocol
  import opened Sums

  /** The larger of what counter `i` sees of the queue now and what it will see once an addition has arrived. */
  function Ceiling(q: Queue, i: nat): int {
    if q.lock.Busy? && q.lock.delta.len > 0 then Content(q, i) else Seen(q, i)
  }

  ghost function CeilingParts(queues: map<FlowKey, Queue>, p: int, i: nat): map<FlowKey, int> {
    map k | k in queues && Within(k, p, i) :: Ceiling(queues[k], i)
  }

  /** What counter `i` can still reach without a further admission. */
  ghost function High(s: State, p: int, i: nat): int {
    Total(CeilingParts(s.queues, p, i))
  }

  lemma HighAfterUpdate(s: State, k: FlowKey, q: Queue, p: int, i: nat)
    ensures High(WithQueue(s, k, q), p, i) ==
            High(s, p, i)
            + (if Within(k, p, i) then Ceiling(q, i) - (if k in s.queues then Ceiling(s.queues[k], i) else 0) else 0)
  {
    var parts := CeilingParts(s.queues, p, i);
    if Within(k, p, i) {
      assert CeilingParts(s.queues[k := q], p, i) == parts[k := Ceiling(q, i)];
      TotalAfterUpdate(parts, k, Ceiling(q, i));
    } else {
      assert CeilingParts(s.queues[k := q], p, i) == parts;
    }
  }

  /** Both the counter and the true contents stay below the ceiling. */
  lemma HighBoundsAll(s: State, p: int, i: nat)
    requires QueuesSound(s)
    ensures Owed(s, p, i) <= High(s, p, i) && Held(s, p, i) <= High(s, p, i)
  {
    var seen, high := SeenParts(s.queues, p, i), CeilingParts(s.queues, p, i);
    var held := ContentParts(s.queues, p, i);
    assert seen.Keys == high.Keys == held.Keys;
    forall k | k in seen
      ensures seen[k] <= high[k] && held[k] <= high[k]
    {
      assert LockSound(s.queues[k]);
    }
    TotalIsMonotone(seen, high);
    TotalIsMonotone(held, high);
  }

  // ---------------------------------------------------------------------------------------------
  // The invariant.

  predicate Below(limit: nat, value: int) {
    limit == 0 || value <= limit
  }

  ghost predicate BandBounded(s: State, p: int)
    requires p in s.bandLimits
  {
    Below(s.bandLimits[p].requests, High(s, p, 2)) && Below(s.bandLimits[p].bytes, High(s, p, 3))
  }

  ghost predicate Bounded(s: State) {
    && Below(s.shardLimit.requests, High(s, 0, 4)) && Below(s.shardLimit.bytes, High(s, 0, 5))
    && forall p :: p in s.bandLimits ==> BandBounded(s, p)
  }

  /** Only the processor adds, and only while it is in the middle of an admission. */
  ghost predicate SingleAdder(s: State) {
    forall k :: k in s.queues && s.queues[k].lock.Busy? && s.queues[k].lock.delta.len > 0 ==> s.admission == Adding(k)
  }

  ghost predicate LoadsBound(s: State, p: int, loads: seq<int>)
    requires |loads| <= 4
  {
    forall j :: 0 <= j < |loads| ==> High(s, p, READ_ORDER[j]) <= loads[j]
  }

  lemma LoadOneMore(s: State, p: int, loads: seq<int>, read: int)
    requires |loads| < 4 && LoadsBound(s, p, loads) && read == High(s, p, READ_ORDER[|loads|])
    ensures LoadsBound(s, p, loads + [read])
  {
  }

  /** Every counter the check has loaded can since only have fallen. */
  ghost predicate LoadsAreUpperBounds(s: State) {
    s.admission.Checking? || s.admission.Cleared? ==>
      && |s.admission.loads| <= 4
      && LoadsBound(s, s.admission.key.priority, s.admission.loads)
      && (s.admission.Checking? ==> |s.admission.loads| <= 3)
      && (s.admission.Cleared? ==>
            && |s.admission.loads| == 4 && Provisioned(s, s.admission.key)
            && HasCapacity(s, s.admission.key.priority, s.admission.item.byteSize, s.admission.loads))
  }

  ghost predicate Inv(s: State) {
    Conserved(s) && Bounded(s) && SingleAdder(s) && LoadsAreUpperBounds(s)
  }

  /** A step that lowers no limit, raises no ceiling and leaves the processor alone keeps the bounds. */
  lemma FallingKeepsBounds(s: State, s': State)
    requires Bounded(s) && LoadsAreUpperBounds(s)
    requires s'.shardLimit == s.shardLimit && s'.bandLimits == s.bandLimits && s'.admission == s.admission
    requires forall p, i: nat :: i < 10 ==> High(s', p, i) <= High(s, p, i)
    requires forall k :: Provisioned(s, k) && Handles(s.admission, k) ==> Provisioned(s', k)
    ensures Bounded(s') && LoadsAreUpperBounds(s')
  {
    FallingKeepsBounded(s, s');
    FallingKeepsLoads(s, s');
  }

  lemma FallingKeepsBounded(s: State, s': State)
    requires Bounded(s) && s'.shardLimit == s.shardLimit && s'.bandLimits == s.bandLimits
    requires forall p, i: nat :: i < 10 ==> High(s', p, i) <= High(s, p, i)
    ensures Bounded(s')
  {
    forall p | p in s'.bandLimits
      ensures BandBounded(s', p)
    {
      assert BandBounded(s, p);
    }
  }

  lemma FallingKeepsLoads(s: State, s': State)
    requires LoadsAreUpperBounds(s)
    requires s'.shardLimit == s.shardLimit && s'.bandLimits == s.bandLimits && s'.admission == s.admission
    requires forall p, i: nat :: i < 10 ==> High(s', p, i) <= High(s, p, i)
    requires forall k :: Provisioned(s, k) && Handles(s.admission, k) ==> Provisioned(s', k)
    ensures LoadsAreUpperBounds(s')
  {
    var a := s.admission;
    if a.Checking? || a.Cleared? {
      assert Handles(a, a.key);
      forall j | 0 <= j < |a.loads|
        ensures High(s', a.key.priority, READ_ORDER[j]) <= a.loads[j]
      {
        assert High(s, a.key.priority, READ_ORDER[j]) <= a.loads[j];
      }
    }
  }

  lemma CeilingFalls(s: State, k: FlowKey, q: Queue)
    requires k in s.queues
    requires forall i: nat :: i < 10 ==> Ceiling(q, i) <= Ceiling(s.queues[k], i)
    ensures forall p, i: nat :: i < 10 ==> High(WithQueue(s, k, q), p, i) <= High(s, p, i)
  {
    forall p, i: nat | i < 10
      ensures High(WithQueue(s, k, q), p, i) <= High(s, p, i)
    {
      HighAfterUpdate(s, k, q, p, i);
    }
  }

  lemma RemovalKeepsBounds(s: State, k: FlowKey, op: Operation)
    requires Inv(s) && k in s.queues && s.queues[k].lock.Free? && !op.Add?
    ensures var s' := WithQueue(s, k, Begun(s.queues[k], op));
            Bounded(s') && SingleAdder(s') && LoadsAreUpperBounds(s')
  {
    var q := Begun(s.queues[k], op);
    forall i: nat
      ensures Ceiling(q, i) <= Ceiling(s.queues[k], i)
    {
      BeginIsInvisible(s.queues[k], op, i);
    }
    CeilingFalls(s, k, q);
    FallingKeepsBounds(s, WithQueue(s, k, q));
  }

  lemma TickedCeilingFalls(q: Queue, q': Queue, i: nat)
    requires LockSound(q) && q.lock.Busy? && q'.items == q.items && i < 10
    requires if q.lock.done < 10 then q'.lock == Busy(q.lock.delta, q.lock.done + 1) else q'.lock == Free
    ensures Ceiling(q', i) <= Ceiling(q, i)
  {
  }

  /** What one step of the propagation leaves alone. */
  lemma TickFrame(s: State, k: FlowKey)
    requires Next(s, Tick(k)).Some?
    ensures var s' := Next(s, Tick(k)).value;
            && k in s.queues && s.queues[k].lock.Busy? && k in s'.queues
            && s'.queues == s.queues[k := s'.queues[k]]
            && s'.queues[k].items == s.queues[k].items
            && s'.queues[k].lock ==
               (if s.queues[k].lock.done < 10 then Busy(s.queues[k].lock.delta, s.queues[k].lock.done + 1) else Free)
            && s'.shardLimit == s.shardLimit && s'.bandLimits == s.bandLimits && s'.admission == s.admission
            && s'.bands.Keys == s.bands.Keys && s'.registryBands.Keys == s.registryBands.Keys
  {
    if s.queues[k].lock.done < 10 {
      TickShape(s, k);
    }
  }

  lemma TickKeepsAdder(s: State, k: FlowKey)
    requires SingleAdder(s) && Next(s, Tick(k)).Some?
    ensures SingleAdder(Next(s, Tick(k)).value)
  {
    TickFrame(s, k);
  }

  lemma TickedQueueFalls(s: State, k: FlowKey)
    requires Next(s, Tick(k)).Some? && k in s.queues && LockSound(s.queues[k])
    ensures forall p, i: nat :: i < 10 ==> High(Next(s, Tick(k)).value, p, i) <= High(s, p, i)
  {
    TickFrame(s, k);
    var s' := Next(s, Tick(k)).value;
    var q, q' := s.queues[k], s'.queues[k];
    forall i: nat | i < 10
      ensures Ceiling(q', i) <= Ceiling(q, i)
    {
      TickedCeilingFalls(q, q', i);
    }
    CeilingFalls(s, k, q');
    TickLowers(s, s', k, q');
  }

  lemma TickKeepsBounds(s: State, k: FlowKey)
    requires Inv(s) && Next(s, Tick(k)).Some?
    ensures var s' := Next(s, Tick(k)).value;
            Bounded(s') && SingleAdder(s') && LoadsAreUpperBounds(s')
  {
    TickKeepsAdder(s, k);
    TickFrame(s, k);
    TickedQueueFalls(s, k);
    FallingKeepsBounds(s, Next(s, Tick(k)).value);
  }

  lemma TickLowers(s: State, s': State, k: FlowKey, q: Queue)
    requires s'.queues == s.queues[k := q]
    requires forall p, i: nat :: i < 10 ==> High(WithQueue(s, k, q), p, i) <= High(s, p, i)
    ensures forall p, i: nat :: i < 10 ==> High(s', p, i) <= High(s, p, i)
  {
    forall p, i: nat | i < 10
      ensures High(s', p, i) <= High(s, p, i)
    {
      assert High(s', p, i) == High(WithQueue(s, k, q), p, i);
    }
  }

  // ---------------------------------------------------------------------------------------------
  // Admission.

  lemma ShardOwedIsShared(s: State, p: int, i: nat)
    requires !OfBand(i)
    ensures Owed(s, p, i) == Owed(s, 0, i)
  {
    assert SeenParts(s.queues, p, i) == SeenParts(s.queues, 0, i);
  }

  lemma CounterIsOwed(s: State, p: int, i: nat)
    requires CountersSound(s) && p in s.bands && 2 <= i < 6
    ensures Counter(s, p, i) == Owed(s, p, i)
  {
    if i < 4 {
      BandCounterIsOwed(s, p, i);
    } else {
      ShardOwedIsShared(s, p, i);
      assert i == 4 || i == 5;
    }
  }

  lemma BandCounterIsOwed(s: State, p: int, i: nat)
    requires p in s.bands && p in s.registryBands && BandSound(s, p) && (i == 2 || i == 3)
    ensures Counter(s, p, i) == Owed(s, p, i)
  {
  }

  /** While nothing is being added, what a counter sees is all it can reach. */
  lemma NoAdditionNoSlack(s: State, p: int, i: nat)
    requires SingleAdder(s) && !s.admission.Adding?
    ensures Owed(s, p, i) == High(s, p, i)
  {
    assert SeenParts(s.queues, p, i) == CeilingParts(s.queues, p, i);
  }

  lemma CheckKeepsInv(s: State, a: Action)
    requires Inv(s) && (a.StartCheck? || a.ReadNext? || a.Decide? || a.EndAdd?) && AdmissionStep(s, a).Some?
    ensures var s' := AdmissionStep(s, a).value;
            Bounded(s') && SingleAdder(s') && LoadsAreUpperBounds(s')
  {
    var s' := AdmissionStep(s, a).value;
    CheckKeepsQueues(s, a);
    SameQueuesKeepBounded(s, s');
    if a.ReadNext? || a.Decide? {
      ReadKeepsLoads(s, a);
    }
  }

  lemma CheckKeepsQueues(s: State, a: Action)
    requires SingleAdder(s) && (a.StartCheck? || a.ReadNext? || a.Decide? || a.EndAdd?) && AdmissionStep(s, a).Some?
    ensures var s' := AdmissionStep(s, a).value;
            s'.queues == s.queues && s'.shardLimit == s.shardLimit && s'.bandLimits == s.bandLimits && SingleAdder(s')
  {
  }

  lemma SameQueuesKeepBounded(s: State, s': State)
    requires Bounded(s) && s'.queues == s.queues && s'.shardLimit == s.shardLimit && s'.bandLimits == s.bandLimits
    ensures Bounded(s')
  {
    forall p | p in s'.bandLimits
      ensures BandBounded(s', p)
    {
      assert BandBounded(s, p);
    }
  }

  lemma ReadKeepsLoads(s: State, a: Action)
    requires CountersSound(s) && SingleAdder(s) && LoadsAreUpperBounds(s)
    requires (a.ReadNext? || a.Decide?) && AdmissionStep(s, a).Some?
    ensures LoadsAreUpperBounds(AdmissionStep(s, a).value)
  {
    var s' := AdmissionStep(s, a).value;
    if Provisioned(s, s.admission.key) {
      var p, loads := s.admission.key.priority, s.admission.loads;
      var read := READ_ORDER[|loads|];
      CounterIsOwed(s, p, read);
      NoAdditionNoSlack(s, p, read);
      LoadOneMore(s, p, loads, Counter(s, p, read));
      assert LoadsBound(s', p, loads + [Counter(s, p, read)]);
    }
  }

  function Raise(k: FlowKey, item: Item, p: int, i: nat): int {
    if !Within(k, p, i) then 0 else if i % 2 == 0 then 1 else item.byteSize
  }

  function Admitted(s: State, k: FlowKey, item: Item): State
    requires k in s.queues
  {
    WithQueue(s, k, Begun(s.queues[k], Add(item))).(admission := Adding(k))
  }

  /** Admitting an item raises each ceiling by exactly its size. */
  lemma AddRaisesBySize(s: State, k: FlowKey, item: Item, p: int, i: nat)
    requires k in s.queues && s.queues[k].lock.Free?
    ensures High(Admitted(s, k, item), p, i) == High(s, p, i) + Raise(k, item, p, i)
  {
    var q := s.queues[k];
    HighAfterUpdate(s, k, Begun(q, Add(item)), p, i);
    ReportIsExact(q.items, Add(item));
    assert High(Admitted(s, k, item), p, i) == High(WithQueue(s, k, Begun(q, Add(item))), p, i);
  }

  lemma AddKeepsBand(s: State, k: FlowKey, item: Item, p: int)
    requires k in s.queues && s.queues[k].lock.Free? && p in s.bandLimits && BandBounded(s, p)
    requires p == k.priority ==>
               && Fits(s.bandLimits[p].bytes, High(s, p, 3), item.byteSize)
               && Fits(s.bandLimits[p].requests, High(s, p, 2), 1)
    ensures BandBounded(Admitted(s, k, item), p)
  {
    AddRaisesBySize(s, k, item, p, 2);
    AddRaisesBySize(s, k, item, p, 3);
  }

  lemma AddKeepsShard(s: State, k: FlowKey, item: Item)
    requires k in s.queues && s.queues[k].lock.Free?
    requires Fits(s.shardLimit.bytes, High(s, 0, 5), item.byteSize) && Fits(s.shardLimit.requests, High(s, 0, 4), 1)
    ensures var s' := Admitted(s, k, item);
            Below(s'.shardLimit.requests, High(s', 0, 4)) && Below(s'.shardLimit.bytes, High(s', 0, 5))
  {
    AddRaisesBySize(s, k, item, 0, 4);
    AddRaisesBySize(s, k, item, 0, 5);
  }

  lemma ShardHighIsShared(s: State, p: int)
    ensures High(s, p, 4) == High(s, 0, 4) && High(s, p, 5) == High(s, 0, 5)
  {
    assert CeilingParts(s.queues, p, 4) == CeilingParts(s.queues, 0, 4);
    assert CeilingParts(s.queues, p, 5) == CeilingParts(s.queues, 0, 5);
  }

  /** What the four comparisons established on the loaded values still holds of the ceilings. */
  lemma ClearedStillFits(s: State)
    requires LoadsAreUpperBounds(s) && s.admission.Cleared?
    ensures var Cleared(k, item, _) := s.admission;
            && k.priority in s.bandLimits
            && Fits(s.shardLimit.bytes, High(s, 0, 5), item.byteSize)
            && Fits(s.shardLimit.requests, High(s, 0, 4), 1)
            && Fits(s.bandLimits[k.priority].bytes, High(s, k.priority, 3), item.byteSize)
            && Fits(s.bandLimits[k.priority].requests, High(s, k.priority, 2), 1)
  {
    var Cleared(k, item, loads) := s.admission;
    ShardHighIsShared(s, k.priority);
    assert High(s, k.priority, READ_ORDER[0]) <= loads[0];
    assert High(s, k.priority, READ_ORDER[1]) <= loads[1];
    assert High(s, k.priority, READ_ORDER[2]) <= loads[2];
    assert High(s, k.priority, READ_ORDER[3]) <= loads[3];
  }

  lemma AddKeepsBounds(s: State)
    requires Bounded(s) && LoadsAreUpperBounds(s) && s.admission.Cleared?
    requires s.admission.key in s.queues && s.queues[s.admission.key].lock.Free?
    ensures Bounded(Admitted(s, s.admission.key, s.admission.item))
  {
    var Cleared(k, item, loads) := s.admission;
    var s' := Admitted(s, k, item);
    ClearedStillFits(s);
    AddKeepsShard(s, k, item);
    forall p | p in s'.bandLimits
      ensures BandBounded(s', p)
    {
      assert BandBounded(s, p);
      AddKeepsBand(s, k, item, p);
    }
  }

  /** A dropped band leaves the ceilings of the shard's counters and of the bands' as they were. */
  lemma DropKeepsHigh(s: State, p: int, r: int, i: nat)
    requires Droppable(s, p) && i < 6
    ensures High(WithoutBand(s, p), r, i) == High(s, r, i)
  {
    assert CeilingParts(WithoutBand(s, p).queues, r, i) == CeilingParts(s.queues, r, i);
  }

  lemma TopologyKeepsHigh(s: State, a: Action, p: int, i: nat)
    requires (a.NewBand? || a.DropBand? || a.NewFlow? || a.DropFlow?) && TopologyStep(s, a).Some?
    requires Harmless(s, a) && i < 6
    ensures High(TopologyStep(s, a).value, p, i) == High(s, p, i)
  {
    var s' := TopologyStep(s, a).value;
    if a.NewFlow? {
      HighAfterUpdate(s, a.key, EMPTY, p, i);
    } else if a.DropFlow? {
      var parts := CeilingParts(s.queues, p, i);
      if Within(a.key, p, i) {
        assert CeilingParts(s.queues - {a.key}, p, i) == parts - {a.key};
        TotalWithout(parts, a.key);
      } else {
        assert CeilingParts(s.queues - {a.key}, p, i) == parts;
      }
    } else if a.DropBand? {
      DropKeepsHigh(s, a.priority, p, i);
    } else {
      assert s'.queues == s.queues;
    }
  }

  lemma NewBandStartsEmpty(s: State, p: int)
    requires QueuesSound(s) && BandSpent(s, p)
    ensures High(s, p, 2) == 0 && High(s, p, 3) == 0
  {
    forall k | k in s.queues && k.priority == p
      ensures Ceiling(s.queues[k], 2) == 0 && Ceiling(s.queues[k], 3) == 0
    {
      assert LockSound(s.queues[k]) && Spent(s.queues[k], 8);
    }
    TotalOfZeros(CeilingParts(s.queues, p, 2));
    TotalOfZeros(CeilingParts(s.queues, p, 3));
  }

  lemma TopologyKeepsBounded(s: State, a: Action)
    requires (a.NewBand? || a.DropBand? || a.NewFlow? || a.DropFlow?) && TopologyStep(s, a).Some?
    requires Harmless(s, a) && QueuesSound(s) && Bounded(s) && s.bandLimits.Keys == s.bands.Keys
    ensures Bounded(TopologyStep(s, a).value)
  {
    var s' := TopologyStep(s, a).value;
    forall p, i: nat | i < 6
      ensures High(s', p, i) == High(s, p, i)
    {
      TopologyKeepsHigh(s, a, p, i);
    }
    forall p | p in s'.bandLimits
      ensures BandBounded(s', p)
    {
      if a.NewBand? && p == a.priority {
        assert forall k :: k in s.queues && k.priority == p ==> !Provisioned(s, k) && Vacant(s, k);
        NewBandStartsEmpty(s, p);
      } else {
        assert BandBounded(s, p);
      }
    }
  }

  lemma TopologyKeepsLoads(s: State, a: Action)
    requires (a.NewBand? || a.DropBand? || a.NewFlow? || a.DropFlow?) && TopologyStep(s, a).Some?
    requires Harmless(s, a) && LoadsAreUpperBounds(s) && s.bandLimits.Keys == s.bands.Keys
    ensures LoadsAreUpperBounds(TopologyStep(s, a).value)
  {
    var s' := TopologyStep(s, a).value;
    assert s'.admission == s.admission && s'.shardLimit == s.shardLimit;
    if s.admission.Checking? || s.admission.Cleared? {
      var k, loads := s.admission.key, s.admission.loads;
      assert s.admission.Cleared? ==> ClearedFor(s.admission, k);
      assert s.admission.Cleared? ==> Provisioned(s', k) && s'.bandLimits[k.priority] == s.bandLimits[k.priority];
      forall j | 0 <= j < |loads|
        ensures High(s', k.priority, READ_ORDER[j]) <= loads[j]
      {
        TopologyKeepsHigh(s, a, k.priority, READ_ORDER[j]);
        assert High(s, k.priority, READ_ORDER[j]) <= loads[j];
      }
    }
  }

  lemma TopologyKeepsAdder(s: State, a: Action)
    requires (a.NewBand? || a.DropBand? || a.NewFlow? || a.DropFlow?) && TopologyStep(s, a).Some?
    requires SingleAdder(s)
    ensures SingleAdder(TopologyStep(s, a).value)
  {
    var s' := TopologyStep(s, a).value;
    assert forall k :: k in s'.queues && s'.queues[k].lock.Busy? ==>
             k in s.queues && s.queues[k].lock.Busy? && s'.queues[k].lock.delta == s.queues[k].lock.delta;
  }

  lemma AddKeepsAdder(s: State, k: FlowKey, item: Item)
    requires SingleAdder(s) && !s.admission.Adding? && k in s.queues
    ensures SingleAdder(Admitted(s, k, item))
  {
  }

  lemma AddStepKeepsInv(s: State)
    requires Inv(s) && AdmissionStep(s, BeginAdd).Some?
    ensures var s' := AdmissionStep(s, BeginAdd).value;
            Bounded(s') && SingleAdder(s') && LoadsAreUpperBounds(s')
  {
    AddKeepsBounds(s);
    AddKeepsAdder(s, s.admission.key, s.admission.item);
    assert AdmissionStep(s, BeginAdd).value == Admitted(s, s.admission.key, s.admission.item);
  }

  lemma StepKeepsInv(s: State, a: Action)
    requires Inv(s) && Harmless(s, a) && Next(s, a).Some?
    ensures Inv(Next(s, a).value)
  {
    StepKeepsConserved(s, a);
    if a.Begin? {
      RemovalKeepsBounds(s, a.key, a.op);
    } else if a.Tick? {
      TickKeepsBounds(s, a.key);
    } else if a.NewBand? || a.DropBand? || a.NewFlow? || a.DropFlow? {
      TopologyKeepsBounded(s, a);
      TopologyKeepsLoads(s, a);
      TopologyKeepsAdder(s, a);
    } else if a.BeginAdd? {
      AddStepKeepsInv(s);
    } else {
      CheckKeepsInv(s, a);
    }
  }

  lemma {:induction false} RunKeepsInv(s: State, run: seq<Action>)
    requires Inv(s) && HarmlessRun(s, run) && Exec(s, run).Some?
    ensures Inv(Exec(s, run).value)
    decreases |run|
  {
    if run != [] {
      StepKeepsInv(s, run[0]);
      RunKeepsInv(Next(s, run[0]).value, run[1..]);
    }
  }

  /** Both what is queued and what the counters say respect a limit. */
  ghost predicate Respects(limit: Limit, s: State, p: int, len: nat, bytes: nat) {
    && Below(limit.requests, Held(s, p, len)) && Below(limit.bytes, Held(s, p, bytes))
    && Below(limit.requests, Owed(s, p, len)) && Below(limit.bytes, Owed(s, p, bytes))
  }

  lemma BoundedRespects(s: State)
    requires QueuesSound(s) && Bounded(s)
    ensures Respects(s.shardLimit, s, 0, 4, 5)
    ensures forall p :: p in s.bandLimits ==> Respects(s.bandLimits[p], s, p, 2, 3)
  {
    HighBoundsAll(s, 0, 4);
    HighBoundsAll(s, 0, 5);
    forall p | p in s.bandLimits
      ensures Respects(s.bandLimits[p], s, p, 2, 3)
    {
      assert BandBounded(s, p);
      HighBoundsAll(s, p, 2);
      HighBoundsAll(s, p, 3);
    }
  }

  /**
   Capacity is never exceeded: in every state of every run each nonzero limit of the shard and of every band
   bounds the requests and bytes queued there, and the counters with them.
   */
  lemma CapacityIsNeverExceeded(limit: Limit, run: seq<Action>)
    requires HarmlessRun(Init(limit), run) && Exec(Init(limit), run).Some?
    ensures var s := Exec(Init(limit), run).value;
            && Respects(limit, s, 0, 4, 5)
            && forall p :: p in s.bandLimits ==> Respects(s.bandLimits[p], s, p, 2, 3)
  {
    InitIsConserved(limit);
    var none: map<FlowKey, Queue> := map[];
    assert CeilingParts(none, 0, 4) == map[] && CeilingParts(none, 0, 5) == map[];
    RunKeepsInv(Init(limit), run);
    RunKeepsLimit(Init(limit), run);
    BoundedRespects(Exec(Init(limit), run).value);
  }

  // ---------------------------------------------------------------------------------------------
  // When exactly an item is cleared.

  /** Adding `more` to `value` is within the limit, where there is one. */
  predicate Room(limit: nat, value: int, more: nat) {
    limit > 0 ==> value + more <= limit
  }

  /** The last load decides: the item is cleared exactly when all four loaded values leave room for it. */
  lemma DecideExact(s: State)
    requires s.admission.Checking? && Provisioned(s, s.admission.key) && Next(s, Decide).Some?
    ensures var Checking(k, item, loads) := s.admission;
            var p, n := k.priority, Next(s, Decide).value;
            && |loads| == 3 && n == s.(admission := n.admission)
            && (n.admission.Cleared? <==>
                && Room(s.shardLimit.bytes, loads[0], item.byteSize) && Room(s.shardLimit.requests, loads[1], 1)
                && Room(s.bandLimits[p].bytes, loads[2], item.byteSize)
                && Room(s.bandLimits[p].requests, s.bands[p].len, 1))
            && (n.admission.Cleared? ==> n.admission.key == k && n.admission.item == item)
            && (!n.admission.Cleared? ==> n.admission == Idle)
  {
  }

  /** The loads are those of the shard's bytes and length and of the band's bytes, one after the other. */
  lemma ReadNextLoads(s: State)
    requires s.admission.Checking? && Provisioned(s, s.admission.key) && Next(s, ReadNext).Some?
    ensures var Checking(k, item, loads) := s.admission;
            && |loads| < 3
            && var read := if |loads| == 0 then s.shard.bytes else if |loads| == 1 then s.shard.len
                           else s.bands[k.priority].bytes;
               Next(s, ReadNext) == Some(s.(admission := Checking(k, item, loads + [read])))
  {
  }

  function CheckRun(k: FlowKey, item: Item): seq<Action> {
    [StartCheck(k, item), ReadNext, ReadNext, ReadNext, Decide]
  }

  lemma CheckLoads(s: State, k: FlowKey, item: Item) returns (last: State)
    requires s.admission.Idle? && Provisioned(s, k)
    ensures last == s.(admission := Checking(k, item, [s.shard.bytes, s.shard.len, s.bands[k.priority].bytes]))
    ensures Exec(s, CheckRun(k, item)) == Next(last, Decide)
  {
    var run := CheckRun(k, item);
    var s1 := s.(admission := Checking(k, item, []));
    var s2 := s.(admission := Checking(k, item, [s.shard.bytes]));
    var s3 := s.(admission := Checking(k, item, [s.shard.bytes, s.shard.len]));
    last := s.(admission := Checking(k, item, [s.shard.bytes, s.shard.len, s.bands[k.priority].bytes]));
    assert Next(s, run[0]) == Some(s1);
    ReadNextLoads(s1);
    ReadNextLoads(s2);
    ReadNextLoads(s3);
    assert [] + [s.shard.bytes] == [s.shard.bytes];
    assert s2.admission.loads + [s.shard.len] == s3.admission.loads;
    assert s3.admission.loads + [s.bands[k.priority].bytes] == last.admission.loads;
    assert run[1..][1..][1..][1..] == [Decide] && [Decide][1..] == [];
    assert Exec(last, [Decide]) == Next(last, Decide);
    assert Exec(s3, run[1..][1..][1..]) == Exec(last, [Decide]);
    assert Exec(s2, run[1..][1..]) == Exec(s3, run[1..][1..][1..]);
    assert Exec(s1, run[1..]) == Exec(s2, run[1..][1..]);
  }

  /** With the item, the contents of the shard and of its band still respect every limit. */
  ghost predicate WouldFit(s: State, k: FlowKey, item: Item)
    requires k.priority in s.bandLimits
  {
    var p := k.priority;
    && Room(s.shardLimit.requests, Held(s, 0, 4), 1) && Room(s.shardLimit.bytes, Held(s, 0, 5), item.byteSize)
    && Room(s.bandLimits[p].requests, Held(s, p, 2), 1) && Room(s.bandLimits[p].bytes, Held(s, p, 3), item.byteSize)
  }

  /**
   After any run with harmless drops, an item checked while no operation is under way is cleared exactly when the
   contents of the shard and of its band would still respect every limit with it; otherwise it is rejected.
   */
  lemma QuietCheckExact(limit: Limit, run: seq<Action>, k: FlowKey, item: Item)
    requires HarmlessRun(Init(limit), run) && Exec(Init(limit), run).Some?
    requires var s := Exec(Init(limit), run).value;
             && s.admission.Idle? && Provisioned(s, k) && forall j :: j in s.queues ==> s.queues[j].lock.Free?
    ensures var s := Exec(Init(limit), run).value;
            && Exec(s, CheckRun(k, item)).Some?
            && var a := Exec(s, CheckRun(k, item)).value.admission;
               && (a.Cleared? <==> WouldFit(s, k, item)) && (!a.Cleared? ==> a == Idle)
               && (a.Cleared? ==> a.key == k && a.item == item)
  {
    InitIsConserved(limit);
    RunKeepsConserved(Init(limit), run);
    QuietCheckDecides(Exec(Init(limit), run).value, k, item);
  }

  lemma QuietCountersAreContents(s: State, p: int)
    requires CountersSound(s) && p in s.bands && forall j :: j in s.queues ==> s.queues[j].lock.Free?
    ensures s.shard == Stats(Held(s, 0, 4), Held(s, 0, 5)) && s.bands[p] == Stats(Held(s, p, 2), Held(s, p, 3))
  {
    TotalsReadContents(s);
    BandReadsContents(s, p);
  }

  lemma QuietCheckDecides(s: State, k: FlowKey, item: Item)
    requires CountersSound(s) && s.admission.Idle? && Provisioned(s, k)
    requires forall j :: j in s.queues ==> s.queues[j].lock.Free?
    ensures Exec(s, CheckRun(k, item)).Some?
    ensures var a := Exec(s, CheckRun(k, item)).value.admission;
            && (a.Cleared? <==> WouldFit(s, k, item)) && (!a.Cleared? ==> a == Idle)
            && (a.Cleared? ==> a.key == k && a.item == item)
  {
    QuietCountersAreContents(s, k.priority);
    var last := CheckLoads(s, k, item);
    assert Next(last, Decide).Some?;
    DecideExact(last);
  }

  lemma {:induction false} RunKeepsLimit(s: State, run: seq<Action>)
    requires Exec(s, run).Some?
    ensures Exec(s, run).value.shardLimit == s.shardLimit
    decreases |run|
  {
    if run != [] {
      RunKeepsLimit(Next(s, run[0]).value, run[1..]);
    }
  }
}
