/** The eviction queue: an indexed heap of the evictable requests beside the map of all requests in flight. */
module EvictionQueues {
  import H = EvictionHeap
  import opened Options

  /** A dispatched request; `channel` is its eviction channel. */
  datatype EvictionItem = EvictionItem(requestID: string, priority: int, dispatchTime: int, channel: Option<nat>)

  class HeapEntry {
    const item: EvictionItem
    var index: int

    constructor (item: EvictionItem)
      ensures this.item == item
    {
      this.item := item;
      index := 0;
    }
  }

  function ItemsOf(entries: seq<HeapEntry>): (items: seq<EvictionItem>)
    ensures |items| == |entries|
  {
    seq(|entries|, i requires 0 <= i < |entries| => entries[i].item)
  }

  lemma ItemsOfSwap(entries: seq<HeapEntry>, i: nat, j: nat)
    requires i < |entries| && j < |entries|
    ensures ItemsOf(H.Swap(entries, i, j)) == H.Swap(ItemsOf(entries), i, j)
  {
  }

  predicate HasHandle(handles: map<string, HeapEntry>, e: HeapEntry) {
    e.item.requestID in handles && handles[e.item.requestID] == e
  }

  predicate LeadsTo(entries: seq<HeapEntry>, handles: map<string, HeapEntry>, id: string)
    requires id in handles
  {
    handles[id] in entries && handles[id].item.requestID == id
  }

  /** The handles lead from the request IDs in the heap to their entries, and from no other ID. */
  ghost predicate HandlesAgree(entries: seq<HeapEntry>, handles: map<string, HeapEntry>) {
    && (forall e {:trigger HasHandle(handles, e)} :: e in entries ==> HasHandle(handles, e))
    && (forall id {:trigger LeadsTo(entries, handles, id)} :: id in handles ==> LeadsTo(entries, handles, id))
  }

  predicate Agreed(handles: map<string, HeapEntry>, inFlight: map<string, EvictionItem>, accept: EvictionItem -> bool,
                   id: string) {
    && (id in handles <==> id in inFlight && accept(inFlight[id]))
    && (id in handles ==> handles[id].item == inFlight[id])
    && (id in inFlight ==> inFlight[id].requestID == id)
  }

  /** The heap holds exactly the tracked requests that the filter accepts. */
  ghost predicate HoldsAccepted(handles: map<string, HeapEntry>, inFlight: map<string, EvictionItem>,
                                accept: EvictionItem -> bool) {
    forall id {:trigger Agreed(handles, inFlight, accept, id)} :: Agreed(handles, inFlight, accept, id)
  }

  /** Tracking `item` anew, with its entry if the filter accepts it. */
  lemma AcceptedReplaced(handles: map<string, HeapEntry>, inFlight: map<string, EvictionItem>,
                         accept: EvictionItem -> bool, next: map<string, HeapEntry>, item: EvictionItem)
    requires HoldsAccepted(handles, inFlight, accept)
    requires next.Keys == if accept(item) then handles.Keys + {item.requestID} else handles.Keys - {item.requestID}
    requires forall id :: id in next && id != item.requestID ==> next[id] == handles[id]
    requires accept(item) ==> next[item.requestID].item == item
    ensures HoldsAccepted(next, inFlight[item.requestID := item], accept)
  {
    var tracked := inFlight[item.requestID := item];
    forall id
      ensures Agreed(next, tracked, accept, id)
    {
      assert Agreed(handles, inFlight, accept, id);
    }
  }

  lemma AcceptedWithout(handles: map<string, HeapEntry>, inFlight: map<string, EvictionItem>,
                        accept: EvictionItem -> bool, gone: string)
    requires HoldsAccepted(handles, inFlight, accept)
    ensures HoldsAccepted(handles - {gone}, inFlight - {gone}, accept)
  {
    var left, still := handles - {gone}, inFlight - {gone};
    forall id
      ensures Agreed(left, still, accept, id)
    {
      assert Agreed(handles, inFlight, accept, id);
    }
  }

  ghost predicate HeapOrdered(less: (EvictionItem, EvictionItem) -> bool, items: seq<EvictionItem>) {
    H.StrictWeak(less) ==> H.Ordered(less, items, |items|)
  }

  lemma RemoveKeepsOrder(less: (EvictionItem, EvictionItem) -> bool, items: seq<EvictionItem>, i: nat)
    requires HeapOrdered(less, items) && i < |items|
    ensures HeapOrdered(less, H.Remove(less, items, i))
  {
    if H.StrictWeak(less) {
      H.RemoveOrders(less, items, i);
    }
  }

  lemma PushKeepsOrder(less: (EvictionItem, EvictionItem) -> bool, items: seq<EvictionItem>, x: EvictionItem)
    requires HeapOrdered(less, items)
    ensures HeapOrdered(less, H.Push(less, items, x))
  {
    if H.StrictWeak(less) {
      H.PushOrders(less, items, x);
    }
  }

  /** `out` is sorted and comes before the rest. */
  ghost predicate AreFirst(less: (EvictionItem, EvictionItem) -> bool, out: seq<EvictionItem>,
                           rest: seq<EvictionItem>) {
    H.StrictWeak(less) ==> H.SortedBy(less, out) && H.NoneBeats(less, rest, out)
  }

  lemma PopsAreFirst(less: (EvictionItem, EvictionItem) -> bool, items: seq<EvictionItem>, n: nat)
    requires HeapOrdered(less, items)
    ensures AreFirst(less, H.Popped(less, items, n), H.Rest(less, items, n))
    ensures |H.Popped(less, items, n)| == if n <= |items| then n else |items|
  {
    H.PopsCount(less, items, n);
    if H.StrictWeak(less) {
      H.PopsAreSorted(less, items, n);
    }
  }

  /** `after` has the elements of `before` but for `e`. */
  ghost predicate Lacks(before: seq<HeapEntry>, after: seq<HeapEntry>, e: HeapEntry) {
    && (forall x :: x in after ==> x in before && x != e)
    && (forall x :: x in before && x != e ==> x in after)
  }

  lemma LacksOfPermuted(before: seq<HeapEntry>, permuted: seq<HeapEntry>, after: seq<HeapEntry>, e: HeapEntry)
    requires multiset(before) == multiset(permuted) && Lacks(permuted, after, e)
    ensures Lacks(before, after, e)
  {
    SameElements(before, permuted);
  }

  lemma AgreeWithout(before: seq<HeapEntry>, after: seq<HeapEntry>, handles: map<string, HeapEntry>, e: HeapEntry)
    requires HandlesAgree(before, handles) && e in before && Lacks(before, after, e)
    ensures HandlesAgree(after, handles - {e.item.requestID})
  {
    var next := handles - {e.item.requestID};
    assert HasHandle(handles, e);
    forall x | x in after
      ensures HasHandle(next, x)
    {
      assert HasHandle(handles, x);
    }
    forall id | id in next
      ensures LeadsTo(after, next, id)
    {
      assert LeadsTo(before, handles, id);
    }
  }

  lemma AgreeWith(before: seq<HeapEntry>, after: seq<HeapEntry>, handles: map<string, HeapEntry>, e: HeapEntry)
    requires HandlesAgree(before, handles) && e.item.requestID !in handles
    requires forall x :: x in after <==> x in before || x == e
    ensures HandlesAgree(after, handles[e.item.requestID := e])
  {
    var next := handles[e.item.requestID := e];
    forall x | x in after
      ensures HasHandle(next, x)
    {
      assert x != e ==> HasHandle(handles, x);
    }
    forall id | id in next
      ensures LeadsTo(after, next, id)
    {
      assert id in handles ==> LeadsTo(before, handles, id);
    }
  }

  class EvictionQueue {
    const less: (EvictionItem, EvictionItem) -> bool
    const accept: EvictionItem -> bool
    var entries: seq<HeapEntry>
    var handles: map<string, HeapEntry>
    var allInFlight: map<string, EvictionItem>
    ghost var repr: set<HeapEntry>

    ghost function Items(): seq<EvictionItem>
      reads this
    {
      ItemsOf(entries)
    }

    /** Every entry occurs once and knows its position. */
    ghost predicate Indexed()
      reads this, repr
    {
      forall i :: 0 <= i < |entries| ==> entries[i] in repr && entries[i].index == i
    }

    /** The queue's own consistency, without its relation to the map of all requests in flight. */
    ghost predicate Consistent()
      reads this, repr
    {
      Indexed() && HandlesAgree(entries, handles) && HeapOrdered(less, Items())
    }

    ghost predicate Valid()
      reads this, repr
    {
      Consistent() && HoldsAccepted(handles, allInFlight, accept)
    }

    constructor (less: (EvictionItem, EvictionItem) -> bool, accept: EvictionItem -> bool)
      ensures Valid() && entries == [] && allInFlight == map[] && repr == {}
      ensures this.less == less && this.accept == accept
    {
      this.less, this.accept := less, accept;
      entries, handles, allInFlight, repr := [], map[], map[], {};
    }

    // -------------------------------------------------------------------------------------------
    // The heap operations, on entries that carry their index.

    method SwapEntries(i: nat, j: nat)
      requires i < |entries| && j < |entries| && Indexed()
      modifies this`entries, repr`index
      ensures entries == H.Swap(old(entries), i, j) && Indexed()
    {
      ghost var before := entries;
      entries := H.Swap(entries, i, j);
      entries[i].index := i;
      entries[j].index := j;
      forall k | 0 <= k < |entries|
        ensures entries[k].index == k
      {
        assert k != i && k != j ==> entries[k] == before[k];
      }
    }

    /** A swap below position `n`, and what it means for the contents. */
    method Exchange(i: nat, j: nat, ghost n: nat)
      requires i < n <= |entries| && j < n && Indexed()
      modifies this`entries, repr`index
      ensures Indexed() && multiset(entries) == multiset(old(entries))
      ensures |entries| == |old(entries)| && entries[n..] == old(entries)[n..]
      ensures Items() == H.Swap(old(Items()), i, j)
    {
      ItemsOfSwap(entries, i, j);
      H.SwapPermutes(entries, i, j);
      SwapEntries(i, j);
    }

    method Up(j0: nat)
      requires j0 < |entries| && Indexed()
      modifies this`entries, repr`index
      ensures Indexed() && multiset(entries) == multiset(old(entries))
      ensures |entries| == |old(entries)| && entries[j0 + 1..] == old(entries)[j0 + 1..]
      ensures Items() == H.Up(less, old(Items()), j0)
    {
      var j := j0;
      while j != 0 && less(entries[j].item, entries[H.Parent(j)].item)
        invariant 0 <= j <= j0 < |entries| == |old(entries)|
        invariant entries[j0 + 1..] == old(entries)[j0 + 1..]
        invariant Indexed() && multiset(entries) == multiset(old(entries))
        invariant H.Up(less, Items(), j) == H.Up(less, old(Items()), j0)
        decreases j
      {
        var i := H.Parent(j);
        Exchange(i, j, j0 + 1);
        j := i;
      }
    }

    method Down(i0: nat, n: nat) returns (moved: bool)
      requires i0 <= n <= |entries| && Indexed()
      modifies this`entries, repr`index
      ensures Indexed() && multiset(entries) == multiset(old(entries))
      ensures |entries| == |old(entries)| && entries[n..] == old(entries)[n..]
      ensures Items() == H.Down(less, old(Items()), i0, n)
      ensures moved == H.Sinks(less, old(Items()), i0, n)
      ensures !moved ==> entries == old(entries)
    {
      var i := i0;
      while H.Sinks(less, ItemsOf(entries), i, n)
        invariant i0 <= i <= n <= |entries| == |old(entries)|
        invariant Indexed() && multiset(entries) == multiset(old(entries))
        invariant entries[n..] == old(entries)[n..]
        invariant H.Down(less, Items(), i, n) == H.Down(less, old(Items()), i0, n)
        invariant if i == i0 then entries == old(entries) else H.Sinks(less, old(Items()), i0, n)
        decreases n - i
      {
        var j := H.Child(less, ItemsOf(entries), i, n);
        Exchange(i, j, n);
        i := j;
      }
      moved := i > i0;
    }

    method HeapPush(e: HeapEntry)
      requires Indexed() && e !in entries
      modifies this`entries, this`repr, repr`index, e`index
      ensures repr == old(repr) + {e}
      ensures Indexed() && multiset(entries) == multiset(old(entries)) + multiset{e}
      ensures Items() == H.Push(less, old(Items()), e.item)
    {
      e.index := |entries|;
      repr := repr + {e};
      entries := entries + [e];
      assert Items() == old(Items()) + [e.item];
      Up(|entries| - 1);
    }

    /** Swaps position `i` with the last one and restores the order of all but the last. */
    method SiftOut(i: nat)
      requires i < |entries| - 1 && Indexed()
      modifies this`entries, repr`index
      ensures Indexed() && multiset(entries) == multiset(old(entries))
      ensures |entries| == |old(entries)| && entries[|entries| - 1] == old(entries)[i]
      ensures Items() == H.Sift(less, H.Swap(old(Items()), i, |entries| - 1), i, |entries| - 1)
    {
      var n := |entries| - 1;
      ItemsOfSwap(entries, i, n);
      H.SwapPermutes(entries, i, n);
      SwapEntries(i, n);
      ghost var swapped := entries;
      var moved := Down(i, n);
      assert entries[n] == entries[n..][0] == swapped[n..][0] == swapped[n];
      if !moved {
        Up(i);
        assert entries[n] == entries[i + 1..][n - i - 1] == swapped[i + 1..][n - i - 1];
      }
    }

    method RemoveLast() returns (e: HeapEntry)
      requires entries != [] && Indexed()
      modifies this`entries, repr`index
      ensures entries == old(entries)[..|old(entries)| - 1] && Items() == old(Items())[..|old(entries)| - 1]
      ensures e == old(entries)[|old(entries)| - 1] && e.index == -1
      ensures Indexed() && Lacks(old(entries), entries, e)
    {
      var n := |entries| - 1;
      e := entries[n];
      assert ItemsOf(entries[..n]) == ItemsOf(entries)[..n];
      entries := entries[..n];
      e.index := -1;
    }

    /** Takes the entry at position `i` out of the heap. */
    method HeapRemove(i: nat) returns (e: HeapEntry)
      requires i < |entries| && Indexed()
      modifies this`entries, repr`index
      ensures e == old(entries)[i] && e.index == -1
      ensures Indexed() && Lacks(old(entries), entries, e)
      ensures Items() == H.Remove(less, old(Items()), i)
    {
      var n := |entries| - 1;
      if n != i {
        SiftOut(i);
      }
      ghost var sifted := entries;
      e := RemoveLast();
      LacksOfPermuted(old(entries), sifted, entries, e);
    }

    method HeapPop() returns (e: HeapEntry)
      requires entries != [] && Indexed()
      modifies this`entries, repr`index
      ensures e == old(entries)[0] && e.index == -1
      ensures Indexed() && Lacks(old(entries), entries, e)
      ensures Items() == H.Pop(less, old(Items()))
    {
      var n := |entries| - 1;
      ItemsOfSwap(entries, 0, n);
      H.SwapPermutes(entries, 0, n);
      SwapEntries(0, n);
      ghost var swapped := entries;
      var _ := Down(0, n);
      assert entries[n..][0] == swapped[n..][0] == swapped[n];
      ghost var sifted := entries;
      e := RemoveLast();
      LacksOfPermuted(old(entries), sifted, entries, e);
    }

    // -------------------------------------------------------------------------------------------
    // Tracking.

    /** The heap once the request `id` is taken out of it, if it is there. */
    ghost function ItemsWithout(id: string): seq<EvictionItem>
      requires Consistent()
      reads this, repr
    {
      if id in handles then
        assert LeadsTo(entries, handles, id);
        H.Remove(less, Items(), handles[id].index)
      else Items()
    }

    /** Takes the request `id` out of the heap and the handles. */
    method Drop(id: string)
      requires Consistent() && id in handles
      modifies this`entries, this`handles, repr`index
      ensures Consistent() && handles == old(handles) - {id} && Items() == old(ItemsWithout(id))
    {
      var e := handles[id];
      assert LeadsTo(entries, handles, id);
      RemoveKeepsOrder(less, Items(), e.index);
      var removed := HeapRemove(e.index);
      AgreeWithout(old(entries), entries, handles, e);
      handles := handles - {id};
    }

    /** Registers a request, in place of one with the same ID. */
    method Track(item: EvictionItem)
      requires Valid()
      modifies this, repr`index
      ensures Valid()
      ensures allInFlight == old(allInFlight)[item.requestID := item]
      ensures Items() == if accept(item) then H.Push(less, old(ItemsWithout(item.requestID)), item)
                         else old(ItemsWithout(item.requestID))
      ensures fresh(repr - old(repr))
    {
      if item.requestID in handles {
        Drop(item.requestID);
      }
      allInFlight := allInFlight[item.requestID := item];
      if accept(item) {
        var e := new HeapEntry(item);
        Enter(e);
      }
      AcceptedReplaced(old(handles), old(allInFlight), accept, handles, item);
    }

    /** Puts a new entry into the heap and the handles. */
    method Enter(e: HeapEntry)
      requires Consistent() && e !in entries && e.item.requestID !in handles
      modifies this`entries, this`handles, this`repr, repr`index, e`index
      ensures Consistent() && handles == old(handles)[e.item.requestID := e]
      ensures repr == old(repr) + {e} && Items() == H.Push(less, old(Items()), e.item)
    {
      PushKeepsOrder(less, Items(), e.item);
      HeapPush(e);
      AddedOnly(old(entries), entries, e);
      AgreeWith(old(entries), entries, handles, e);
      handles := handles[e.item.requestID := e];
    }

    method Untrack(requestID: string)
      requires Valid()
      modifies this, repr`index
      ensures Valid()
      ensures allInFlight == old(allInFlight) - {requestID} && Items() == old(ItemsWithout(requestID))
      ensures repr == old(repr)
    {
      AcceptedWithout(handles, allInFlight, accept, requestID);
      if requestID in handles {
        Drop(requestID);
      }
      assert handles == old(handles) - {requestID};
      allInFlight := allInFlight - {requestID};
    }

    method PopOne() returns (item: EvictionItem)
      requires Valid() && entries != []
      modifies this, repr`index
      ensures Valid() && item == old(Items())[0] && Items() == H.Pop(less, old(Items()))
      ensures item.requestID in old(allInFlight) && old(allInFlight)[item.requestID] == item && accept(item)
      ensures allInFlight == old(allInFlight) - {item.requestID}
      ensures repr == old(repr)
    {
      H.PopIsRemoveFirst(less, Items());
      RemoveKeepsOrder(less, Items(), 0);
      assert HasHandle(handles, entries[0]) && Agreed(handles, allInFlight, accept, entries[0].item.requestID);
      AcceptedWithout(handles, allInFlight, accept, entries[0].item.requestID);
      var e := HeapPop();
      AgreeWithout(old(entries), entries, handles, e);
      item := e.item;
      handles := handles - {item.requestID};
      allInFlight := allInFlight - {item.requestID};
    }

    /** `result` are the first `i` requests of the heap `items`, and they have left `before`. */
    ghost predicate Popping(items: seq<EvictionItem>, before: map<string, EvictionItem>, result: seq<EvictionItem>,
                            i: nat)
      reads this, repr
    {
      && Valid()
      && result == H.Popped(less, items, i) && Items() == H.Rest(less, items, i)
      && TakenInTurn(result, before, allInFlight, accept)
    }

    method PopNext(ghost items: seq<EvictionItem>, ghost before: map<string, EvictionItem>,
                   result: seq<EvictionItem>, ghost i: nat)
      returns (next: seq<EvictionItem>)
      requires Popping(items, before, result, i) && entries != []
      modifies this, repr`index
      ensures Popping(items, before, next, i + 1) && repr == old(repr)
    {
      H.PopOneMore(less, items, i);
      var item := PopOne();
      TakeOne(result, before, old(allInFlight), accept, item);
      next := result + [item];
    }

    /**
     * Removes the `n` first requests of the heap order. They come out sorted, none that stays comes before one
     * that goes, and exactly they leave the tracking.
     */
    method PopN(n: nat) returns (result: seq<EvictionItem>)
      requires Valid()
      modifies this, repr`index
      ensures Valid() && |result| == if n <= |old(entries)| then n else |old(entries)|
      ensures result == H.Popped(less, old(Items()), n) && Items() == H.Rest(less, old(Items()), n)
      ensures AreFirst(less, result, Items())
      ensures Taken(result, old(allInFlight), allInFlight, accept)
      ensures repr == old(repr)
    {
      result := [];
      var i := 0;
      ghost var items := Items();
      while i < n && entries != []
        invariant 0 <= i <= n && Popping(items, old(allInFlight), result, i)
        invariant repr == old(repr)
      {
        result := PopNext(items, old(allInFlight), result, i);
        i := i + 1;
      }
      H.PopNoMore(less, items, i, n);
      PopsAreFirst(less, items, n);
      TurnsTake(result, old(allInFlight), allInFlight, accept);
    }

    method Peek() returns (item: Option<EvictionItem>)
      requires Valid()
      ensures item.None? <==> forall id :: id in allInFlight ==> !accept(allInFlight[id])
      ensures item.Some? ==>
                && item.value.requestID in allInFlight && allInFlight[item.value.requestID] == item.value
                && accept(item.value)
      ensures item.Some? && H.StrictWeak(less) ==>
                forall id :: id in allInFlight && accept(allInFlight[id]) ==> !less(allInFlight[id], item.value)
    {
      if entries == [] {
        forall id | id in allInFlight
          ensures !accept(allInFlight[id])
        {
          assert Agreed(handles, allInFlight, accept, id);
          assert id in handles ==> LeadsTo(entries, handles, id);
        }
        return None;
      }
      item := Some(entries[0].item);
      assert HasHandle(handles, entries[0]) && Agreed(handles, allInFlight, accept, item.value.requestID);
      if H.StrictWeak(less) {
        forall id | id in allInFlight && accept(allInFlight[id])
          ensures !less(allInFlight[id], item.value)
        {
          assert Agreed(handles, allInFlight, accept, id) && LeadsTo(entries, handles, id);
          var k :| 0 <= k < |entries| && entries[k] == handles[id];
          H.FirstIsMinimal(less, Items(), k);
        }
      }
    }
  }

  function IDs(items: seq<EvictionItem>): (ids: seq<string>)
    ensures |ids| == |items|
  {
    seq(|items|, i requires 0 <= i < |items| => items[i].requestID)
  }

  ghost predicate AreDistinct<T>(s: seq<T>) {
    forall i, j :: 0 <= i < j < |s| ==> s[i] != s[j]
  }

  ghost function SetOf<T>(s: seq<T>): set<T> {
    set x | x in s
  }

  /** `items` are distinct accepted requests of `before`, and `after` is `before` without them. */
  ghost predicate Taken(items: seq<EvictionItem>, before: map<string, EvictionItem>,
                        after: map<string, EvictionItem>, accept: EvictionItem -> bool) {
    && AreDistinct(IDs(items))
    && (forall x :: x in items ==> x.requestID in before && before[x.requestID] == x && accept(x))
    && after == before - SetOf(IDs(items))
  }

  /** `items` were taken out of `before` one after the other. */
  ghost predicate TakenInTurn(items: seq<EvictionItem>, before: map<string, EvictionItem>,
                              after: map<string, EvictionItem>, accept: EvictionItem -> bool)
    decreases |items|
  {
    if items == [] then after == before
    else
      var x := items[0];
      && x.requestID in before && before[x.requestID] == x && accept(x)
      && TakenInTurn(items[1..], before - {x.requestID}, after, accept)
  }

  lemma {:induction false} TakeOne(items: seq<EvictionItem>, before: map<string, EvictionItem>,
                                   after: map<string, EvictionItem>, accept: EvictionItem -> bool, item: EvictionItem)
    requires TakenInTurn(items, before, after, accept)
    requires item.requestID in after && after[item.requestID] == item && accept(item)
    ensures TakenInTurn(items + [item], before, after - {item.requestID}, accept)
    decreases |items|
  {
    if items != [] {
      TakeOne(items[1..], before - {items[0].requestID}, after, accept, item);
      assert (items + [item])[1..] == items[1..] + [item];
    }
  }

  lemma {:induction false} TurnsTake(items: seq<EvictionItem>, before: map<string, EvictionItem>,
                                     after: map<string, EvictionItem>, accept: EvictionItem -> bool)
    requires TakenInTurn(items, before, after, accept)
    ensures Taken(items, before, after, accept)
    decreases |items|
  {
    if items != [] {
      var id := items[0].requestID;
      TurnsTake(items[1..], before - {id}, after, accept);
      assert IDs(items) == [id] + IDs(items[1..]);
      assert SetOf(IDs(items)) == {id} + SetOf(IDs(items[1..]));
      forall x | x in items[1..]
        ensures x.requestID != id
      {
        assert x.requestID in before - {id};
      }
    }
  }

  // ---------------------------------------------------------------------------------------------
  // The policies that come with the program.

  predicate PriorityThenTime(a: EvictionItem, b: EvictionItem) {
    if a.priority != b.priority then a.priority < b.priority else a.dispatchTime > b.dispatchTime
  }

  predicate Sheddable(item: EvictionItem) {
    item.priority < 0
  }

  lemma PriorityThenTimeIsStrictWeak()
    ensures H.StrictWeak(PriorityThenTime)
  {
  }

  /** `x` is to be evicted no later than `y`: it is less important, or as important and dispatched no earlier. */
  predicate NoLater(x: EvictionItem, y: EvictionItem) {
    x.priority < y.priority || (x.priority == y.priority && x.dispatchTime >= y.dispatchTime)
  }

  /** With the shipped policy the least important requests are popped first, and of those the youngest. */
  lemma LeastImportantFirst(items: seq<EvictionItem>, n: nat)
    requires H.Ordered(PriorityThenTime, items, |items|)
    ensures var out, rest := H.Popped(PriorityThenTime, items, n), H.Rest(PriorityThenTime, items, n);
            && (forall i, j :: 0 <= i < j < |out| ==> NoLater(out[i], out[j]))
            && (forall x, y :: x in out && y in rest ==> NoLater(x, y))
  {
    PriorityThenTimeIsStrictWeak();
    H.PopsAreSorted(PriorityThenTime, items, n);
  }

  // ---------------------------------------------------------------------------------------------
  // Elements of permuted sequences.

  lemma AddedOnly(before: seq<HeapEntry>, after: seq<HeapEntry>, e: HeapEntry)
    requires multiset(after) == multiset(before) + multiset{e}
    ensures forall x :: x in after <==> x in before || x == e
  {
    forall x: HeapEntry
      ensures x in after <==> x in before || x == e
    {
      assert x in after <==> x in multiset(after);
      assert x in before <==> x in multiset(before);
    }
  }

  lemma SameElements<T>(a: seq<T>, b: seq<T>)
    requires multiset(a) == multiset(b)
    ensures forall x :: x in a <==> x in b
  {
    assert forall x :: x in a <==> x in multiset(a);
    assert forall x :: x in b <==> x in multiset(b);
  }
}
