/** Eviction of requests in flight: popping them from the queue and closing their eviction channels. */
module Evictors {
  import H = EvictionHeap
  import opened EvictionQueues
  import opened Options

  /** Evicts by closing the eviction channel; `fired` holds the request IDs whose once-guard has been used. */
  class ImmediateResponseEvictor {
    var fired: set<string>
    var closed: seq<nat>

    constructor ()
      ensures fired == {} && closed == []
    {
      fired, closed := {}, [];
    }

    method Evict(item: EvictionItem) returns (ok: bool)
      modifies this
      ensures ok <==> item.channel.Some?
      ensures fired == if ok then old(fired) + {item.requestID} else old(fired)
      ensures closed == if ok && item.requestID !in old(fired) then old(closed) + [item.channel.value] else old(closed)
    {
      if item.channel.None? {
        return false;
      }
      if item.requestID !in fired {
        fired := fired + {item.requestID};
        closed := closed + [item.channel.value];
      }
      return true;
    }

    method Cleanup(requestID: string)
      modifies this
      ensures fired == old(fired) - {requestID} && closed == old(closed)
    {
      fired := fired - {requestID};
    }
  }

  /**
   * What an eviction works on: the heap, the requests in flight, the used guards, the closed channels and the requests
   * evicted so far.
   */
  datatype Tracking = Tracking(heap: seq<EvictionItem>, inFlight: map<string, EvictionItem>, fired: set<string>,
                               closed: seq<nat>, evicted: seq<EvictionItem>)

  type Order = (EvictionItem, EvictionItem) -> bool

  /** One round: the first request is popped and evicted; one without a channel is tracked again. */
  function AfterRound(less: Order, t: Tracking): Tracking {
    if t.heap == [] then t
    else
      var x := t.heap[0];
      if x.channel.None? then t.(heap := H.Push(less, H.Pop(less, t.heap), x))
      else
        Tracking(H.Pop(less, t.heap), t.inFlight - {x.requestID}, t.fired + {x.requestID},
                 t.closed + (if x.requestID in t.fired then [] else [x.channel.value]), t.evicted + [x])
  }

  function AfterRounds(less: Order, t: Tracking, n: nat): Tracking {
    if n == 0 then t else AfterRound(less, AfterRounds(less, t, n - 1))
  }

  ghost function Iterate<S>(f: S -> S, s: S, n: nat): S {
    if n == 0 then s else f(Iterate(f, s, n - 1))
  }

  /** `round` is one round, under another name. */
  ghost predicate IsRound(less: Order, round: Tracking -> Tracking) {
    forall t {:trigger AfterRound(less, t)} :: round(t) == AfterRound(less, t)
  }

  ghost function RoundOf(less: Order): Tracking -> Tracking {
    t => AfterRound(less, t)
  }

  lemma RoundOfIsRound(less: Order)
    ensures IsRound(less, RoundOf(less))
  {
  }

  lemma {:induction false} IterateIsRounds(less: Order, round: Tracking -> Tracking, t: Tracking, n: nat)
    requires IsRound(less, round)
    ensures Iterate(round, t, n) == AfterRounds(less, t, n)
  {
    if n > 0 {
      IterateIsRounds(less, round, t, n - 1);
    }
  }

  lemma {:induction false} NoRoundsLeft(less: Order, t: Tracking, m: nat, n: nat)
    requires m <= n && AfterRounds(less, t, m).heap == []
    ensures AfterRounds(less, t, n) == AfterRounds(less, t, m)
    decreases n
  {
    if m < n {
      NoRoundsLeft(less, t, m, n - 1);
    }
  }

  /** When every evictable request has a channel, the rounds evict what as many pops give. */
  lemma {:induction false} RoundsArePops(less: Order, t: Tracking, n: nat)
    requires t.evicted == [] && forall x :: x in t.heap ==> x.channel.Some?
    ensures AfterRounds(less, t, n).evicted == H.Popped(less, t.heap, n)
    ensures AfterRounds(less, t, n).heap == H.Rest(less, t.heap, n)
  {
    if n > 0 {
      RoundsArePops(less, t, n - 1);
      if H.Rest(less, t.heap, n - 1) == [] {
        H.PopNoMore(less, t.heap, n - 1, n);
      } else {
        H.PopOneMore(less, t.heap, n - 1);
        RestIsPart(less, t.heap, n - 1);
      }
    }
  }

  lemma RestIsPart(less: Order, s: seq<EvictionItem>, n: nat)
    requires H.Rest(less, s, n) != []
    ensures H.Rest(less, s, n)[0] in s
  {
    var rest := H.Rest(less, s, n);
    H.PopsPermute(less, s, n);
    assert rest[0] in multiset(rest) && rest[0] in multiset(s);
  }

  /** A request without a channel that comes before all others keeps every other request from being evicted. */
  lemma {:induction false} BareHeadBlocks(less: Order, t: Tracking, n: nat)
    requires H.StrictWeak(less) && H.Ordered(less, t.heap, |t.heap|) && t.heap != [] && t.heap[0].channel.None?
    requires forall x :: x in t.heap[1..] ==> less(t.heap[0], x)
    ensures AfterRounds(less, t, n).evicted == t.evicted
    ensures var s := AfterRounds(less, t, n).heap;
            && H.Ordered(less, s, |s|) && s != [] && s[0] == t.heap[0] && multiset(s[1..]) == multiset(t.heap[1..])
  {
    if n > 0 {
      BareHeadBlocks(less, t, n - 1);
      var s := AfterRounds(less, t, n - 1).heap;
      SameElements(s[1..], t.heap[1..]);
      PushedBackFirst(less, s);
    }
  }

  /** A first element that beats all others is first again after it has been popped and pushed back. */
  lemma PushedBackFirst(less: Order, s: seq<EvictionItem>)
    requires H.StrictWeak(less) && H.Ordered(less, s, |s|) && s != []
    requires forall x :: x in s[1..] ==> less(s[0], x)
    ensures var t := H.Push(less, H.Pop(less, s), s[0]);
            && H.Ordered(less, t, |t|) && t != [] && t[0] == s[0] && multiset(t[1..]) == multiset(s[1..])
  {
    var popped := H.Pop(less, s);
    var t := H.Push(less, popped, s[0]);
    H.PopIsRemoveFirst(less, s);
    H.RemovePermutes(less, s, 0);
    H.RemoveOrders(less, s, 0);
    H.PushPermutes(less, popped, s[0]);
    H.PushOrders(less, popped, s[0]);
    FirstUnbeaten(less, s, t);
  }

  lemma FirstUnbeaten(less: Order, s: seq<EvictionItem>, t: seq<EvictionItem>)
    requires H.StrictWeak(less) && s != [] && forall x :: x in s[1..] ==> less(s[0], x)
    requires multiset(t) == multiset(s) && H.Ordered(less, t, |t|)
    ensures t != [] && t[0] == s[0] && multiset(t[1..]) == multiset(s[1..])
  {
    assert s == [s[0]] + s[1..];
    assert s[0] in multiset(t);
    var k :| 0 <= k < |t| && t[k] == s[0];
    H.FirstIsMinimal(less, t, k);
    assert t[0] in multiset(s);
    assert t == [t[0]] + t[1..];
    assert multiset(t[1..]) == multiset(t) - multiset{t[0]};
    assert multiset(s[1..]) == multiset(s) - multiset{s[0]};
  }

  // ---------------------------------------------------------------------------------------------
  // What the rounds take out of the tracking.

  /** The heap holds tracked, accepted requests, each once. */
  ghost predicate Sound(t: Tracking, accept: EvictionItem -> bool) {
    && (forall x :: x in t.heap ==> IsTracked(t.inFlight, accept, x))
    && (forall x :: multiset(t.heap)[x] <= 1)
  }

  predicate IsTracked(inFlight: map<string, EvictionItem>, accept: EvictionItem -> bool, x: EvictionItem) {
    x.requestID in inFlight && inFlight[x.requestID] == x && accept(x)
  }

  lemma PoppedLeaves(heap: seq<EvictionItem>, rest: seq<EvictionItem>, x: EvictionItem)
    requires multiset(heap) == multiset(rest) + multiset{x} && forall y :: multiset(heap)[y] <= 1
    ensures x !in rest && forall y :: y in rest ==> y in heap
    ensures forall y :: multiset(rest)[y] <= 1
  {
    assert multiset(heap)[x] == multiset(rest)[x] + 1;
    forall y
      ensures multiset(rest)[y] <= multiset(heap)[y]
      ensures y in rest ==> y in heap
    {
      assert y in rest <==> y in multiset(rest);
      assert y in heap <==> y in multiset(heap);
    }
  }

  lemma RoundKeepsSound(less: Order, t: Tracking, accept: EvictionItem -> bool)
    requires Sound(t, accept)
    ensures Sound(AfterRound(less, t), accept)
  {
    if t.heap != [] {
      var x, rest := t.heap[0], H.Pop(less, t.heap);
      H.PopIsRemoveFirst(less, t.heap);
      H.RemovePermutes(less, t.heap, 0);
      if x.channel.None? {
        H.PushPermutes(less, rest, x);
        PermutedIsSound(t, H.Push(less, rest, x), accept);
      } else {
        PoppedLeaves(t.heap, rest, x);
        PoppedIsSound(t, rest, accept);
      }
    }
  }

  lemma PermutedIsSound(t: Tracking, heap: seq<EvictionItem>, accept: EvictionItem -> bool)
    requires Sound(t, accept) && multiset(heap) == multiset(t.heap)
    ensures Sound(t.(heap := heap), accept)
  {
    SameElements(heap, t.heap);
  }

  lemma PoppedIsSound(t: Tracking, rest: seq<EvictionItem>, accept: EvictionItem -> bool)
    requires t.heap != [] && t.heap[0] !in rest && Sound(t, accept)
    requires (forall y :: y in rest ==> y in t.heap) && forall y :: multiset(rest)[y] <= 1
    ensures forall u: Tracking ::
              u.heap == rest && u.inFlight == t.inFlight - {t.heap[0].requestID} ==> Sound(u, accept)
  {
    assert IsTracked(t.inFlight, accept, t.heap[0]);
    forall y | y in rest
      ensures IsTracked(t.inFlight - {t.heap[0].requestID}, accept, y)
    {
      assert IsTracked(t.inFlight, accept, y);
    }
  }

  /** The requests evicted over the rounds are taken, in turn, out of the tracking. */
  lemma {:induction false} RoundsTake(less: Order, t: Tracking, accept: EvictionItem -> bool, n: nat)
    requires Sound(t, accept) && t.evicted == []
    ensures var u := AfterRounds(less, t, n);
            Sound(u, accept) && TakenInTurn(u.evicted, t.inFlight, u.inFlight, accept) && |u.evicted| <= n
  {
    if n > 0 {
      RoundsTake(less, t, accept, n - 1);
      RoundTakes(less, t.inFlight, AfterRounds(less, t, n - 1), accept);
    }
  }

  lemma RoundTakes(less: Order, before: map<string, EvictionItem>, u: Tracking, accept: EvictionItem -> bool)
    requires Sound(u, accept) && TakenInTurn(u.evicted, before, u.inFlight, accept)
    ensures var v := AfterRound(less, u);
            Sound(v, accept) && TakenInTurn(v.evicted, before, v.inFlight, accept) && |v.evicted| <= |u.evicted| + 1
  {
    RoundKeepsSound(less, u, accept);
    if u.heap != [] && u.heap[0].channel.Some? {
      assert IsTracked(u.inFlight, accept, u.heap[0]);
      TakeOne(u.evicted, before, u.inFlight, accept, u.heap[0]);
    }
  }

  // ---------------------------------------------------------------------------------------------
  // The channels that the rounds close.

  ghost predicate HaveChannels(items: seq<EvictionItem>) {
    forall x :: x in items ==> x.channel.Some?
  }

  /** The channels of `items` but for those whose guard had been used. */
  function Channels(items: seq<EvictionItem>, used: set<string>): seq<nat>
    requires HaveChannels(items)
  {
    if items == [] then []
    else
      var last := items[|items| - 1];
      Channels(items[..|items| - 1], used) + if last.requestID in used then [] else [last.channel.value]
  }

  /** `now` has closed the channels of what it evicted, starting with the guards `used` and the channels `closed`. */
  ghost predicate HasClosed(now: Tracking, used: set<string>, closed: seq<nat>) {
    && HaveChannels(now.evicted)
    && now.closed == closed + Channels(now.evicted, used)
    && now.fired == used + SetOf(IDs(now.evicted))
  }

  lemma RoundCloses(less: Order, now: Tracking, used: set<string>, closed: seq<nat>)
    requires HasClosed(now, used, closed) && AreDistinct(IDs(AfterRound(less, now).evicted))
    ensures HasClosed(AfterRound(less, now), used, closed)
  {
    if now.heap != [] && now.heap[0].channel.Some? {
      CloseOne(now.evicted, now.heap[0], used);
    }
  }

  /** The rounds close, in turn, the channels of the requests they evict, unless the guard of the ID was used. */
  lemma {:induction false} RoundsClose(less: Order, t: Tracking, n: nat)
    requires t.evicted == [] && AreDistinct(IDs(AfterRounds(less, t, n).evicted))
    ensures HasClosed(AfterRounds(less, t, n), t.fired, t.closed)
  {
    if n > 0 {
      var now := AfterRounds(less, t, n - 1);
      RoundGrows(less, now);
      RoundsClose(less, t, n - 1);
      RoundCloses(less, now, t.fired, t.closed);
    }
  }

  lemma RoundGrows(less: Order, t: Tracking)
    ensures AreDistinct(IDs(AfterRound(less, t).evicted)) ==> AreDistinct(IDs(t.evicted))
  {
    var after := AfterRound(less, t).evicted;
    assert IDs(t.evicted) == IDs(after)[..|t.evicted|];
  }

  lemma CloseOne(before: seq<EvictionItem>, x: EvictionItem, used: set<string>)
    requires HaveChannels(before) && x.channel.Some? && AreDistinct(IDs(before + [x]))
    ensures HaveChannels(before + [x])
    ensures Channels(before + [x], used) ==
            Channels(before, used) + if x.requestID in used + SetOf(IDs(before)) then [] else [x.channel.value]
    ensures SetOf(IDs(before + [x])) == SetOf(IDs(before)) + {x.requestID}
  {
    var items := before + [x];
    assert items[..|items| - 1] == before;
    assert IDs(items) == IDs(before) + [x.requestID];
    forall i | 0 <= i < |before|
      ensures IDs(before)[i] != x.requestID
    {
      assert IDs(items)[i] != IDs(items)[|before|];
    }
  }

  class RequestEvictor {
    const queue: EvictionQueue
    const evictor: ImmediateResponseEvictor

    ghost predicate Valid()
      reads queue, queue.repr
    {
      queue.Valid()
    }

    ghost function Abs(evicted: seq<EvictionItem>): Tracking
      reads queue, evictor
    {
      Tracking(queue.Items(), queue.allInFlight, evictor.fired, evictor.closed, evicted)
    }

    constructor (less: Order, accept: EvictionItem -> bool)
      ensures Valid() && Abs([]) == Tracking([], map[], {}, [], []) && fresh(queue) && fresh(evictor)
      ensures queue.less == less && queue.accept == accept
    {
      queue := new EvictionQueue(less, accept);
      evictor := new ImmediateResponseEvictor();
    }

    lemma QueueIsSound()
      requires Valid()
      ensures Sound(Abs([]), queue.accept)
    {
      var items := queue.Items();
      forall i, j | 0 <= i < j < |items|
        ensures items[i] != items[j]
      {
        assert queue.entries[i].index != queue.entries[j].index;
        assert HasHandle(queue.handles, queue.entries[i]) && HasHandle(queue.handles, queue.entries[j]);
      }
      forall x
        ensures multiset(items)[x] <= 1
      {
        AtMostOnce(items, x);
      }
      forall x | x in items
        ensures IsTracked(queue.allInFlight, queue.accept, x)
      {
        var i :| 0 <= i < |items| && items[i] == x;
        assert HasHandle(queue.handles, queue.entries[i]);
        assert Agreed(queue.handles, queue.allInFlight, queue.accept, x.requestID);
      }
    }

    method PopFirst() returns (x: EvictionItem)
      requires Valid() && queue.entries != []
      modifies queue, queue.repr`index
      ensures Valid() && queue.repr == old(queue.repr)
      ensures x == old(queue.Items())[0] && queue.Items() == H.Pop(queue.less, old(queue.Items()))
      ensures IsTracked(old(queue.allInFlight), queue.accept, x)
      ensures queue.allInFlight == old(queue.allInFlight) - {x.requestID}
    {
      ghost var s := queue.Items();
      var items := queue.PopN(1);
      OneTaken(queue.less, s, items, old(queue.allInFlight), queue.allInFlight, queue.accept);
      x := items[0];
    }

    /** Tracks a request again that has just been popped. */
    method Retrack(x: EvictionItem)
      requires Valid() && x.requestID !in queue.allInFlight && queue.accept(x)
      modifies queue, queue.repr`index
      ensures Valid() && fresh(queue.repr - old(queue.repr))
      ensures queue.Items() == H.Push(queue.less, old(queue.Items()), x)
      ensures queue.allInFlight == old(queue.allInFlight)[x.requestID := x]
    {
      assert Agreed(queue.handles, queue.allInFlight, queue.accept, x.requestID);
      queue.Track(x);
    }

    /** One round of `EvictN`. */
    method EvictOne(ghost round: Tracking -> Tracking, done: seq<EvictionItem>) returns (next: seq<EvictionItem>)
      requires Valid() && queue.entries != [] && IsRound(queue.less, round)
      modifies queue, queue.repr`index, evictor
      ensures Valid() && fresh(queue.repr - old(queue.repr))
      ensures Abs(next) == round(old(Abs(done)))
    {
      assert round(Abs(done)) == AfterRound(queue.less, Abs(done));
      var x := PopFirst();
      var ok := evictor.Evict(x);
      if !ok {
        Retrack(x);
        assert queue.allInFlight == old(queue.allInFlight);
        return done;
      }
      return done + [x];
    }

    /**
     * Evicts up to `n` requests. The evicted ones are distinct and were tracked, exactly they leave the tracking, and
     * their channels are closed in turn, each unless the guard of its request ID had been used before.
     */
    method EvictN(n: nat) returns (evicted: seq<string>)
      requires Valid()
      modifies queue, queue.repr`index, evictor
      ensures Valid()
      ensures var now := AfterRounds(queue.less, old(Abs([])), n);
              && Abs(now.evicted) == now && evicted == IDs(now.evicted) && |evicted| <= n
              && Taken(now.evicted, old(queue.allInFlight), queue.allInFlight, queue.accept)
              && HasClosed(now, old(evictor.fired), old(evictor.closed))
    {
      QueueIsSound();
      ghost var round := RoundOf(queue.less);
      RoundOfIsRound(queue.less);
      var done, i := EvictRounds(round, Abs([]), n);
      evicted := IDs(done);
      EvictingEnds(queue.less, round, old(Abs([])), i, n, queue.accept);
    }

    method EvictRounds(ghost round: Tracking -> Tracking, ghost t: Tracking, n: nat)
      returns (done: seq<EvictionItem>, i: nat)
      requires Valid() && t == Abs([]) && IsRound(queue.less, round)
      modifies queue, queue.repr`index, evictor
      ensures Valid() && i <= n && Abs(done) == Iterate(round, t, i) && (i < n ==> |queue.entries| == 0)
    {
      done, i := [], 0;
      while i < n && |queue.entries| != 0
        invariant i <= n && Valid() && fresh(queue.repr - old(queue.repr))
        invariant Abs(done) == Iterate(round, t, i)
      {
        done := EvictOne(round, done);
        i := i + 1;
      }
    }
  }

  lemma {:induction false} AtMostOnce<T>(s: seq<T>, x: T)
    requires AreDistinct(s)
    ensures multiset(s)[x] <= 1
  {
    if s != [] {
      var t := s[..|s| - 1];
      assert s == t + [s[|s| - 1]];
      AtMostOnce(t, x);
      assert s[|s| - 1] == x ==> x !in t;
    }
  }

  lemma EvictingEnds(less: Order, round: Tracking -> Tracking, t: Tracking, i: nat, n: nat,
                     accept: EvictionItem -> bool)
    requires Sound(t, accept) && t.evicted == [] && IsRound(less, round)
    requires i <= n && (i < n ==> Iterate(round, t, i).heap == [])
    ensures var now := AfterRounds(less, t, n);
            && now == Iterate(round, t, i) && |now.evicted| <= n
            && Taken(now.evicted, t.inFlight, now.inFlight, accept) && HasClosed(now, t.fired, t.closed)
  {
    IterateIsRounds(less, round, t, i);
    if i < n {
      NoRoundsLeft(less, t, i, n);
    }
    var now := AfterRounds(less, t, n);
    RoundsTake(less, t, accept, n);
    TurnsTake(now.evicted, t.inFlight, now.inFlight, accept);
    RoundsClose(less, t, n);
  }

  lemma OneTaken(less: Order, s: seq<EvictionItem>, items: seq<EvictionItem>, before: map<string, EvictionItem>,
                 after: map<string, EvictionItem>, accept: EvictionItem -> bool)
    requires s != [] && items == H.Popped(less, s, 1) && Taken(items, before, after, accept)
    ensures items == [s[0]] && IsTracked(before, accept, s[0]) && after == before - {s[0].requestID}
    ensures H.Rest(less, s, 1) == H.Pop(less, s)
  {
    assert IDs(items) == [s[0].requestID];
    assert SetOf(IDs(items)) == {s[0].requestID};
  }
}
