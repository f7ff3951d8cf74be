/** One dispatch cycle of the shard processor: strict priority with head-of-line blocking. */
module Dispatch {
  import opened Levels
  import opened ManagedQueues
  import opened Options

  /** What the fairness policy of a band answers: a failure, no eligible flow, or the flow to serve. */
  datatype Pick = Failed | Nothing | Flow(id: string)

  /**
   What the removal of a selected item meets: the item, an item that a concurrent sweep has already taken, or no
   queue at all, because the flow or its band has been removed since the selection.
   */
  datatype Removal = Found | Swept | Gone

  /** One level of a cycle: its priority, its usage ceiling, the policy's answer and the fate of the removal. */
  datatype Level = Level(priority: int, ceiling: real, pick: Pick, removal: Removal)

  /** The queues of a band by flow, each in the order of its ordering policy. */
  type Band = map<string, seq<Item>>

  datatype Dispatched = Dispatched(priority: int, flow: string, item: Item)

  predicate HasItem(bands: map<int, Band>, p: int) {
    p in bands && exists id :: id in bands[p] && bands[p][id] != []
  }

  /** The policy's answer leads to an item: the head of the chosen queue. */
  predicate Selects(bands: map<int, Band>, l: Level) {
    && l.priority in bands && l.pick.Flow? && l.pick.id in bands[l.priority]
    && bands[l.priority][l.pick.id] != []
  }

  predicate HighestFirst(levels: seq<Level>) {
    forall i, j :: 0 <= i < j < |levels| ==> levels[i].priority > levels[j].priority
  }

  /** A work-conserving policy finds an item whenever its band holds one. */
  ghost predicate WorkConserving(bands: map<int, Band>, levels: seq<Level>) {
    forall i :: 0 <= i < |levels| && HasItem(bands, levels[i].priority) ==> Selects(bands, levels[i])
  }

  function WithoutHead(bands: map<int, Band>, p: int, id: string): map<int, Band>
    requires p in bands && id in bands[p] && bands[p][id] != []
  {
    bands[p := bands[p][id := bands[p][id][1..]]]
  }

  /** The cycle goes past a level that offers no item, or whose item's queue is gone. */
  predicate GoesPast(bands: map<int, Band>, l: Level) {
    !Selects(bands, l) || l.removal.Gone?
  }

  /** The cycle comes to level `i`: everything before was unsaturated and gone past. */
  ghost predicate Reached(bands: map<int, Band>, levels: seq<Level>, saturation: real, i: int) {
    forall j :: 0 <= j < i && j < |levels| ==> saturation < levels[j].ceiling && GoesPast(bands, levels[j])
  }

  ghost predicate EndsAt(bands: map<int, Band>, levels: seq<Level>, saturation: real, i: int) {
    && 0 <= i < |levels| && Reached(bands, levels, saturation, i)
    && saturation < levels[i].ceiling && !GoesPast(bands, levels[i])
  }

  // ---------------------------------------------------------------------------------------------
  // What a dispatch from priority `p` says about the other levels.

  /** Every level at or above `p` was below its ceiling: a saturated level blocks everything beneath it. */
  ghost predicate Unblocked(levels: seq<Level>, saturation: real, p: int) {
    forall j :: 0 <= j < |levels| && levels[j].priority >= p ==> saturation < levels[j].ceiling
  }

  /** No band of a higher level holds an item. */
  ghost predicate NoneAbove(bands: map<int, Band>, levels: seq<Level>, p: int) {
    forall j :: 0 <= j < |levels| && levels[j].priority > p ==> !HasItem(bands, levels[j].priority)
  }

  /** At no higher level was the queue of the selected item gone. */
  ghost predicate NoneLost(bands: map<int, Band>, levels: seq<Level>, p: int) {
    forall j :: 0 <= j < |levels| && levels[j].priority > p ==> !(Selects(bands, levels[j]) && levels[j].removal.Gone?)
  }

  /** With a work-conserving policy, strict priority is kept exactly when no higher selection lost its queue. */
  lemma StrictPriorityExact(bands: map<int, Band>, levels: seq<Level>, saturation: real, i: int)
    requires HighestFirst(levels) && EndsAt(bands, levels, saturation, i)
    ensures Unblocked(levels, saturation, levels[i].priority)
    ensures WorkConserving(bands, levels) ==>
              (NoneAbove(bands, levels, levels[i].priority) <==> NoneLost(bands, levels, levels[i].priority))
  {
    var p := levels[i].priority;
    forall j | 0 <= j < |levels| && levels[j].priority >= p
      ensures saturation < levels[j].ceiling && (j != i ==> GoesPast(bands, levels[j]))
    {
      assert j <= i;
    }
    forall j | 0 <= j < |levels| && Selects(bands, levels[j])
      ensures HasItem(bands, levels[j].priority)
    {
    }
  }

  /** Priority is inverted when the queue of the higher selection goes away before the removal. */
  lemma LostQueueInvertsPriority(high: Item, low: Item)
    ensures var bands := map[2 := map["a" := [high]], 1 := map["b" := [low]]];
            var levels := [Level(2, 1.0, Flow("a"), Gone), Level(1, 1.0, Flow("b"), Found)];
            && HighestFirst(levels) && WorkConserving(bands, levels)
            && EndsAt(bands, levels, 0.5, 1) && HasItem(bands, 2) && !NoneAbove(bands, levels, 1)
  {
    var bands := map[2 := map["a" := [high]], 1 := map["b" := [low]]];
    var levels := [Level(2, 1.0, Flow("a"), Gone), Level(1, 1.0, Flow("b"), Found)];
    assert "a" in bands[2] && bands[2]["a"] != [];
    assert levels[0].priority > 1;
  }

  /** A level with an item that nothing above it blocks is served, or one above it is. */
  ghost predicate Servable(bands: map<int, Band>, levels: seq<Level>, saturation: real, i: int) {
    && 0 <= i < |levels| && HasItem(bands, levels[i].priority)
    && forall j :: 0 <= j <= i ==> saturation < levels[j].ceiling && levels[j].removal.Found?
  }

  lemma {:induction false} SomeLevelEnds(bands: map<int, Band>, levels: seq<Level>, saturation: real, i: int)
    returns (k: int)
    requires WorkConserving(bands, levels) && Servable(bands, levels, saturation, i)
    ensures k <= i && EndsAt(bands, levels, saturation, k) && levels[k].removal.Found?
    decreases i
  {
    if j :| 0 <= j < i && Selects(bands, levels[j]) {
      assert Servable(bands, levels, saturation, j) by {
        assert levels[j].pick.id in bands[levels[j].priority];
      }
      k := SomeLevelEnds(bands, levels, saturation, j);
    } else {
      k := i;
    }
  }

  /** A cycle ends at one level only. */
  lemma EndsOnce(bands: map<int, Band>, levels: seq<Level>, saturation: real, i: int, k: int)
    requires EndsAt(bands, levels, saturation, i) && EndsAt(bands, levels, saturation, k)
    ensures i == k
  {
  }

  class ShardProcessor {
    var bands: map<int, Band>

    /**
     Tries to dispatch one item, from the highest level down. A dispatched item is the head of the queue that the
     fairness policy picked at the level where the cycle ends; saturation
     was below the ceiling of its level and of every higher one; and with a work-conserving policy no higher band held
     an item, exactly unless a higher selection lost its queue before the removal, which the cycle passes over.
     */
    method DispatchCycle(levels: seq<Level>, saturation: real) returns (progress: bool, dispatched: Option<Dispatched>)
      modifies this
      ensures progress <==> exists i :: EndsAt(old(bands), levels, saturation, i)
      ensures dispatched.Some? <==> exists i :: EndsAt(old(bands), levels, saturation, i) && levels[i].removal.Found?
      ensures dispatched.None? ==> bands == old(bands)
      ensures dispatched.Some? ==>
                var Dispatched(p, flow, item) := dispatched.value;
                && p in old(bands) && flow in old(bands)[p] && old(bands)[p][flow] != []
                && item == old(bands)[p][flow][0] && bands == WithoutHead(old(bands), p, flow)
                && (exists i :: EndsAt(old(bands), levels, saturation, i)
                      && p == levels[i].priority && levels[i].pick == Flow(flow))
                && (HighestFirst(levels) ==> Unblocked(levels, saturation, p))
                && (HighestFirst(levels) && WorkConserving(old(bands), levels) ==>
                      (NoneAbove(old(bands), levels, p) <==> NoneLost(old(bands), levels, p)))
      ensures HighestFirst(levels) && WorkConserving(old(bands), levels) ==>
                forall i :: Servable(old(bands), levels, saturation, i) ==>
                  dispatched.Some? && dispatched.value.priority >= levels[i].priority
    {
      var i := 0;
      while i < |levels|
        invariant 0 <= i <= |levels|
        invariant bands == old(bands)
        invariant Reached(bands, levels, saturation, i)
      {
        var l := levels[i];
        if saturation >= l.ceiling {
          NoEndBelow(bands, levels, saturation, i);
          NothingServable(bands, levels, saturation);
          return false, None;
        }
        if l.priority in bands {
          var item := SelectItem(bands[l.priority], l.pick);
          if item.Some? && !l.removal.Gone? {
            assert EndsAt(bands, levels, saturation, i);
            if HighestFirst(levels) {
              StrictPriorityExact(bands, levels, saturation, i);
            }
            ServedAtLeast(bands, levels, saturation, i);
            if l.removal.Swept? {
              return true, None;
            }
            bands := WithoutHead(bands, l.priority, l.pick.id);
            return true, Some(Dispatched(l.priority, l.pick.id, item.value));
          }
        }
        i := i + 1;
      }
      NoEndBelow(bands, levels, saturation, i);
      NothingServable(bands, levels, saturation);
      return false, None;
    }

    static method SelectItem(band: Band, pick: Pick) returns (item: Option<Item>)
      ensures item.Some? <==> pick.Flow? && pick.id in band && band[pick.id] != []
      ensures item.Some? ==> item.value == band[pick.id][0]
    {
      if pick.Failed? || pick.Nothing? || pick.id !in band {
        return None;
      }
      var queue := band[pick.id];
      return if queue == [] then None else Some(queue[0]);
    }
  }

  /** A cycle that is blocked, or through, at level `i` ends nowhere. */
  lemma NoEndBelow(bands: map<int, Band>, levels: seq<Level>, saturation: real, i: int)
    requires 0 <= i <= |levels| && Reached(bands, levels, saturation, i)
    requires i < |levels| ==> saturation >= levels[i].ceiling
    ensures forall k :: !EndsAt(bands, levels, saturation, k)
  {
  }

  lemma NothingServable(bands: map<int, Band>, levels: seq<Level>, saturation: real)
    requires forall k :: !EndsAt(bands, levels, saturation, k)
    ensures WorkConserving(bands, levels) ==> forall i :: !Servable(bands, levels, saturation, i)
  {
    if WorkConserving(bands, levels) {
      forall i
        ensures !Servable(bands, levels, saturation, i)
      {
        if Servable(bands, levels, saturation, i) {
          var k := SomeLevelEnds(bands, levels, saturation, i);
        }
      }
    }
  }

  /** Whatever is servable is at or below the level where the cycle ends, which then is served. */
  lemma ServedAtLeast(bands: map<int, Band>, levels: seq<Level>, saturation: real, k: int)
    requires EndsAt(bands, levels, saturation, k)
    ensures HighestFirst(levels) && WorkConserving(bands, levels) ==>
              forall i :: Servable(bands, levels, saturation, i) ==>
                levels[k].removal.Found? && levels[k].priority >= levels[i].priority
    ensures forall i :: EndsAt(bands, levels, saturation, i) ==> i == k
  {
    forall i | EndsAt(bands, levels, saturation, i)
      ensures i == k
    {
      EndsOnce(bands, levels, saturation, i, k);
    }
    if HighestFirst(levels) && WorkConserving(bands, levels) {
      forall i | Servable(bands, levels, saturation, i)
        ensures levels[k].removal.Found? && levels[k].priority >= levels[i].priority
      {
        var m := SomeLevelEnds(bands, levels, saturation, i);
        EndsOnce(bands, levels, saturation, m, k);
      }
    }
  }
}
