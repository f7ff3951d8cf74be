/** A flow's queue and the statistics deltas its operations report. */
module ManagedQueues {
  import opened Options

  /** A queued request; `handle` identifies its place in the queue that holds it. */
  datatype Item = Item(handle: nat, byteSize: nat)

  datatype Delta = Delta(len: int, bytes: int)

  function Bytes(items: seq<Item>): nat {
    if items == [] then 0 else Bytes(items[..|items| - 1]) + items[|items| - 1].byteSize
  }

  /** The items that a selection keeps (`want == false`) or takes out (`want == true`), in order. */
  function Select(items: seq<Item>, dead: set<nat>, want: bool): seq<Item> {
    if items == [] then []
    else
      var last := items[|items| - 1];
      var rest := Select(items[..|items| - 1], dead, want);
      if (last.handle in dead) == want then rest + [last] else rest
  }

  function Size(items: seq<Item>): Delta {
    Delta(|items|, Bytes(items))
  }

  lemma {:induction false} SelectSplits(items: seq<Item>, dead: set<nat>)
    ensures |Select(items, dead, true)| + |Select(items, dead, false)| == |items|
    ensures Bytes(Select(items, dead, true)) + Bytes(Select(items, dead, false)) == Bytes(items)
    ensures multiset(Select(items, dead, true)) + multiset(Select(items, dead, false)) == multiset(items)
  {
    if items != [] {
      var init, last := items[..|items| - 1], items[|items| - 1];
      SelectSplits(init, dead);
      assert items == init + [last];
      var taken, kept := Select(init, dead, true), Select(init, dead, false);
      assert (taken + [last])[..|taken|] == taken && (kept + [last])[..|kept|] == kept;
    }
  }

  /** What a selection takes or keeps stays in order: the positions it comes from increase. */
  lemma {:induction false} SelectKeepsOrder(items: seq<Item>, dead: set<nat>, want: bool) returns (from: seq<nat>)
    ensures |from| == |Select(items, dead, want)|
    ensures forall k :: 0 <= k < |from| ==> from[k] < |items| && Select(items, dead, want)[k] == items[from[k]]
    ensures forall j, k :: 0 <= j < k < |from| ==> from[j] < from[k]
    ensures forall i :: 0 <= i < |items| && ((items[i].handle in dead) == want) ==> i in from
  {
    if items == [] {
      from := [];
    } else {
      var last := |items| - 1;
      from := SelectKeepsOrder(items[..last], dead, want);
      if (items[last].handle in dead) == want {
        from := from + [last];
      }
    }
  }

  lemma {:induction false} SelectMembers(items: seq<Item>, dead: set<nat>, want: bool, x: Item)
    ensures x in Select(items, dead, want) <==> x in items && ((x.handle in dead) == want)
  {
    if items != [] {
      SelectMembers(items[..|items| - 1], dead, want, x);
      assert items == items[..|items| - 1] + [items[|items| - 1]];
    }
  }

  // ---------------------------------------------------------------------------------------------
  // The operations, as they change the queue and as they move the statistics.

  datatype Operation = Add(item: Item) | Remove(handle: nat) | Cleanup(dead: set<nat>) | Drain

  function ItemsAfter(items: seq<Item>, op: Operation): seq<Item> {
    match op
    case Add(item) => items + [item]
    case Remove(handle) => Select(items, {handle}, false)
    case Cleanup(dead) => Select(items, dead, false)
    case Drain => []
  }

  function Removed(items: seq<Item>, op: Operation): seq<Item> {
    match op
    case Add(_) => []
    case Remove(handle) => Select(items, {handle}, true)
    case Cleanup(dead) => Select(items, dead, true)
    case Drain => items
  }

  /** An addition goes to the back of the queue and moves nothing else. */
  lemma AdditionGoesToTheBack(items: seq<Item>, item: Item, i: nat)
    requires i < |ItemsAfter(items, Add(item))|
    ensures |ItemsAfter(items, Add(item))| == |items| + 1
    ensures ItemsAfter(items, Add(item))[i] == if i < |items| then items[i] else item
  {
  }

  /** A cleanup takes out exactly the items it is asked to, and a removal exactly that of its handle. */
  lemma RemovalsTakeExactly(items: seq<Item>, dead: set<nat>, handle: nat, x: Item)
    requires x in items
    ensures x in Removed(items, Cleanup(dead)) <==> x.handle in dead
    ensures x in ItemsAfter(items, Cleanup(dead)) <==> x.handle !in dead
    ensures x in Removed(items, Remove(handle)) <==> x.handle == handle
    ensures x in ItemsAfter(items, Remove(handle)) <==> x.handle != handle
  {
    SelectMembers(items, dead, true, x);
    SelectMembers(items, dead, false, x);
    SelectMembers(items, {handle}, true, x);
    SelectMembers(items, {handle}, false, x);
  }

  /** The delta an operation reports: plus one for an addition, minus what was taken out otherwise. */
  function Reported(items: seq<Item>, op: Operation): Delta {
    match op
    case Add(item) => Delta(1, item.byteSize)
    case _ => var out := Removed(items, op); Delta(-|out|, 0 - Bytes(out))
  }

  /** Every operation reports exactly the change of the queue's size. */
  lemma ReportIsExact(items: seq<Item>, op: Operation)
    ensures var after := ItemsAfter(items, op);
            Reported(items, op) == Delta(|after| - |items|, Bytes(after) - Bytes(items))
  {
    match op
    case Add(item) => assert (items + [item])[..|items|] == items;
    case Remove(handle) => SelectSplits(items, {handle});
    case Cleanup(dead) => SelectSplits(items, dead);
    case Drain =>
  }

  predicate UniqueHandles(items: seq<Item>) {
    forall i, j :: 0 <= i < j < |items| ==> items[i].handle != items[j].handle
  }

  lemma {:induction false} SelectNothing(items: seq<Item>, handle: nat)
    requires forall x :: x in items ==> x.handle != handle
    ensures Select(items, {handle}, true) == []
  {
    if items != [] {
      SelectNothing(items[..|items| - 1], handle);
    }
  }

  /** A handle designates at most one item. */
  lemma {:induction false} SelectOne(items: seq<Item>, i: nat)
    requires UniqueHandles(items) && i < |items|
    ensures Select(items, {items[i].handle}, true) == [items[i]]
  {
    var n := |items| - 1;
    if i == n {
      SelectNothing(items[..n], items[n].handle);
    } else {
      SelectOne(items[..n], i);
    }
  }

  lemma {:induction false} SelectKeepsUnique(items: seq<Item>, dead: set<nat>, want: bool)
    requires UniqueHandles(items)
    ensures UniqueHandles(Select(items, dead, want))
  {
    if items != [] {
      var init := items[..|items| - 1];
      SelectKeepsUnique(init, dead, want);
      forall x | x in Select(init, dead, want)
        ensures x.handle != items[|items| - 1].handle
      {
        SelectMembers(init, dead, want, x);
      }
    }
  }

  lemma SelectFacts(items: seq<Item>, dead: set<nat>)
    requires UniqueHandles(items)
    ensures UniqueHandles(Select(items, dead, false))
    ensures forall x :: x in Select(items, dead, false) ==> x in items
    ensures |Select(items, dead, true)| + |Select(items, dead, false)| == |items|
    ensures Bytes(Select(items, dead, true)) + Bytes(Select(items, dead, false)) == Bytes(items)
  {
    SelectSplits(items, dead);
    SelectKeepsUnique(items, dead, false);
    forall x ensures x in Select(items, dead, false) ==> x in items {
      SelectMembers(items, dead, false, x);
    }
  }

  lemma RemovePresent(items: seq<Item>, handle: nat, i: nat)
    requires UniqueHandles(items) && i < |items| && items[i].handle == handle
    ensures var after := Select(items, {handle}, false);
            && UniqueHandles(after) && |after| == |items| - 1 && Bytes(after) == Bytes(items) - items[i].byteSize
    ensures forall x :: x in Select(items, {handle}, false) ==> x in items
    ensures Reported(items, Operation.Remove(handle)) == Delta(-1, 0 - items[i].byteSize)
  {
    var taken := Select(items, {handle}, true);
    SelectFacts(items, {handle});
    SelectOne(items, i);
    assert Removed(items, Operation.Remove(handle)) == taken == [items[i]];
    BytesOfOne(items[i]);
  }

  lemma BytesOfOne(item: Item)
    ensures Bytes([item]) == item.byteSize
  {
    assert [item][..0] == [];
  }

  lemma RemoveAbsent(items: seq<Item>, handle: nat)
    requires forall x :: x in items ==> x.handle != handle
    ensures Select(items, {handle}, false) == items && Reported(items, Operation.Remove(handle)) == Delta(0, 0)
  {
    SelectNothing(items, handle);
    SelectAllKept(items, {handle});
  }

  /** A length and a byte counter, each updated atomically. */
  class Statistics {
    var len: int
    var byteSize: int

    constructor ()
      ensures len == 0 && byteSize == 0
    {
      len, byteSize := 0, 0;
    }

    twostate predicate Moved(d: Delta)
      reads this
    {
      len == old(len) + d.len && byteSize == old(byteSize) + d.bytes
    }
  }

  predicate Distinct(a: Statistics, b: Statistics, c: Statistics, d: Statistics) {
    a != b && a != c && a != d && b != c && b != d && c != d
  }

  /**
   The decorator of a flow's queue. Its statistics and those of its ancestors (the band and the total of its
   shard, the band and the total of the registry) move together with the contents.
   */
  class ManagedQueue {
    const own: Statistics
    const band: Statistics
    const shard: Statistics
    const registryBand: Statistics
    const registry: Statistics
    var queue: seq<Item>
    var nextHandle: nat

    ghost predicate Valid()
      reads this, own
    {
      && own !in Ancestors() && Distinct(band, shard, registryBand, registry)
      && own.len == |queue| && own.byteSize == Bytes(queue)
      && UniqueHandles(queue)
      && forall x :: x in queue ==> x.handle < nextHandle
    }

    ghost function Ancestors(): set<Statistics> {
      {band, shard, registryBand, registry}
    }

    constructor (band: Statistics, shard: Statistics, registryBand: Statistics, registry: Statistics)
      requires Distinct(band, shard, registryBand, registry)
      ensures Valid() && queue == [] && fresh(own)
      ensures this.band == band && this.shard == shard
      ensures this.registryBand == registryBand && this.registry == registry
    {
      own := new Statistics();
      this.band, this.shard, this.registryBand, this.registry := band, shard, registryBand, registry;
      queue, nextHandle := [], 0;
    }

    /** Adds the delta to the queue's statistics and to every ancestor's; the length never turns negative. */
    method PropagateStatsDelta(d: Delta)
      requires own !in Ancestors() && Distinct(band, shard, registryBand, registry)
      requires own.len + d.len >= 0
      modifies own, Ancestors()
      ensures own.Moved(d) && band.Moved(d) && shard.Moved(d) && registryBand.Moved(d) && registry.Moved(d)
    {
      own.len := own.len + d.len;
      assert own.len >= 0;
      own.byteSize := own.byteSize + d.bytes;
      band.len := band.len + d.len;
      band.byteSize := band.byteSize + d.bytes;
      shard.len := shard.len + d.len;
      shard.byteSize := shard.byteSize + d.bytes;
      registryBand.len := registryBand.len + d.len;
      registryBand.byteSize := registryBand.byteSize + d.bytes;
      registry.len := registry.len + d.len;
      registry.byteSize := registry.byteSize + d.bytes;
    }

    /** The total delta of a batch of removed items. */
    static method DeltaOfRemoved(items: seq<Item>) returns (d: Delta)
      ensures d == Delta(-|items|, 0 - Bytes(items))
    {
      var lenDelta, byteSizeDelta := 0, 0;
      for i := 0 to |items|
        invariant lenDelta == -i && byteSizeDelta == 0 - Bytes(items[..i])
      {
        lenDelta := lenDelta - 1;
        byteSizeDelta := byteSizeDelta - items[i].byteSize;
        assert items[..i + 1][..i] == items[..i];
      }
      assert items[..|items|] == items;
      d := Delta(lenDelta, byteSizeDelta);
    }

    method Add(byteSize: nat, draining: bool) returns (handle: Option<nat>)
      requires Valid()
      modifies this, own, Ancestors()
      ensures Valid()
      ensures draining ==> handle == None && queue == old(queue)
      ensures !draining ==>
                && handle == Some(old(nextHandle))
                && queue == ItemsAfter(old(queue), Operation.Add(Item(handle.value, byteSize)))
      ensures var d := if draining then Delta(0, 0) else Delta(1, byteSize);
              band.Moved(d) && shard.Moved(d) && registryBand.Moved(d) && registry.Moved(d)
    {
      if draining {
        return None;
      }
      var item := Item(nextHandle, byteSize);
      queue := queue + [item];
      assert queue[..|queue| - 1] == old(queue);
      nextHandle := nextHandle + 1;
      PropagateStatsDelta(Delta(1, byteSize));
      return Some(item.handle);
    }

    method Remove(handle: nat) returns (removed: Option<Item>)
      requires Valid()
      modifies this`queue, own, Ancestors()
      ensures Valid()
      ensures removed.Some? <==> exists x :: x in old(queue) && x.handle == handle
      ensures removed.Some? ==> removed.value in old(queue) && removed.value.handle == handle
      ensures queue == ItemsAfter(old(queue), Operation.Remove(handle))
      ensures var d := Reported(old(queue), Operation.Remove(handle));
              band.Moved(d) && shard.Moved(d) && registryBand.Moved(d) && registry.Moved(d)
    {
      if i :| 0 <= i < |queue| && queue[i].handle == handle {
        RemovePresent(queue, handle, i);
        var item := queue[i];
        removed := Some(item);
        queue := Select(queue, {handle}, false);
        PropagateStatsDelta(Delta(-1, 0 - item.byteSize));
      } else {
        RemoveAbsent(queue, handle);
        removed := None;
      }
    }

    method Cleanup(dead: set<nat>) returns (cleaned: seq<Item>)
      requires Valid()
      modifies this`queue, own, Ancestors()
      ensures Valid()
      ensures cleaned == Removed(old(queue), Operation.Cleanup(dead))
      ensures queue == ItemsAfter(old(queue), Operation.Cleanup(dead))
      ensures var d := Reported(old(queue), Operation.Cleanup(dead));
              band.Moved(d) && shard.Moved(d) && registryBand.Moved(d) && registry.Moved(d)
    {
      cleaned := Select(queue, dead, true);
      if |cleaned| == 0 {
        SelectAllKept(queue, dead);
        return;
      }
      SelectFacts(queue, dead);
      TakeOut(Select(queue, dead, false), cleaned);
    }

    /** Keeps part of the queue and reports the rest as removed. */
    method TakeOut(kept: seq<Item>, taken: seq<Item>)
      requires Valid() && UniqueHandles(kept) && (forall x :: x in kept ==> x in queue)
      requires |kept| + |taken| == |queue| && Bytes(kept) + Bytes(taken) == Bytes(queue)
      modifies this`queue, own, Ancestors()
      ensures Valid() && queue == kept
      ensures var d := Delta(-|taken|, 0 - Bytes(taken));
              band.Moved(d) && shard.Moved(d) && registryBand.Moved(d) && registry.Moved(d)
    {
      queue := kept;
      var d := DeltaOfRemoved(taken);
      PropagateStatsDelta(d);
    }

    method Drain() returns (drained: seq<Item>)
      requires Valid()
      modifies this`queue, own, Ancestors()
      ensures Valid() && queue == [] && drained == old(queue)
      ensures var d := Reported(old(queue), Operation.Drain);
              band.Moved(d) && shard.Moved(d) && registryBand.Moved(d) && registry.Moved(d)
    {
      drained := queue;
      queue := [];
      if |drained| == 0 {
        return;
      }
      var d := DeltaOfRemoved(drained);
      PropagateStatsDelta(d);
    }
  }

  lemma {:induction false} SelectAllKept(items: seq<Item>, dead: set<nat>)
    requires Select(items, dead, true) == []
    ensures Select(items, dead, false) == items
  {
    if items != [] {
      SelectAllKept(items[..|items| - 1], dead);
    }
  }
}
