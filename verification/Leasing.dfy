/** Reference-counted leases: one leased resource and the calls made on it. */
module Leasing {

  /** A point in time; `ZERO_TIME` is the zero value, meaning "not set". */
  type Time = int
  const ZERO_TIME: Time := 0

  /** The lifecycle fields of one leased resource. */
  datatype Lease = Lease(count: int, idleAt: Time, marked: bool)

  const FRESH := Lease(0, ZERO_TIME, false)

  function AfterTryPin(l: Lease): Lease {
    if l.marked then l else Lease(l.count + 1, ZERO_TIME, false)
  }

  function AfterUnpin(l: Lease, now: Time): Lease {
    Lease(l.count - 1, if l.count == 1 then now else l.idleAt, l.marked)
  }

  /** The scan's verdict: idle, with an idle stamp that is at least `timeout` old. */
  predicate Expired(l: Lease, timeout: int, now: Time) {
    l.count <= 0 && l.idleAt != ZERO_TIME && now - l.idleAt >= timeout
  }

  function AfterScan(l: Lease, timeout: int, now: Time): Lease {
    if l.count > 0 then l.(idleAt := ZERO_TIME)
    else if l.idleAt == ZERO_TIME then l.(idleAt := now)
    else if Expired(l, timeout, now) then l.(marked := true)
    else l
  }

  class LeasedState {
    var leaseCount: int
    var becameIdleAt: Time
    var markedForDeletion: bool

    constructor ()
      ensures Abs() == FRESH
    {
      leaseCount, becameIdleAt, markedForDeletion := 0, ZERO_TIME, false;
    }

    ghost function Abs(): Lease
      reads this
    {
      Lease(leaseCount, becameIdleAt, markedForDeletion)
    }

    method TryPin() returns (ok: bool)
      modifies this
      ensures ok == !old(Abs()).marked
      ensures Abs() == AfterTryPin(old(Abs()))
    {
      if markedForDeletion {
        return false;
      }
      leaseCount := leaseCount + 1;
      becameIdleAt := ZERO_TIME;
      return true;
    }

    method Unpin(now: Time)
      modifies this
      ensures Abs() == AfterUnpin(old(Abs()), now)
    {
      leaseCount := leaseCount - 1;
      if leaseCount == 0 {
        becameIdleAt := now;
      }
    }

    method IsActive() returns (active: bool)
      ensures active <==> Abs().count > 0
    {
      active := leaseCount > 0;
    }

    method CheckAndMarkForDeletion(timeout: int, now: Time) returns (marked: bool)
      modifies this
      ensures marked == Expired(old(Abs()), timeout, now)
      ensures Abs() == AfterScan(old(Abs()), timeout, now)
    {
      var active := leaseCount > 0;
      if active {
        if becameIdleAt != ZERO_TIME {
          becameIdleAt := ZERO_TIME;
        }
        return false;
      }
      if becameIdleAt == ZERO_TIME {
        becameIdleAt := now;
        return false;
      }
      if now - becameIdleAt < timeout {
        return false;
      }
      markedForDeletion := true;
      return true;
    }
  }

  // ---------------------------------------------------------------------------------------------
  // What a whole history of calls on one resource means.

  datatype Call = TryPin | Unpin(now: Time) | Scan(timeout: int, at: Time)

  function Apply(l: Lease, c: Call): Lease {
    match c
    case TryPin => AfterTryPin(l)
    case Unpin(now) => AfterUnpin(l, now)
    case Scan(timeout, at) => AfterScan(l, timeout, at)
  }

  function After(calls: seq<Call>): Lease {
    if calls == [] then FRESH else Apply(After(calls[..|calls| - 1]), calls[|calls| - 1])
  }

  /** Callers release only what they hold: no prefix unpins a resource that has no lease. */
  predicate Balanced(calls: seq<Call>) {
    forall i :: 0 <= i < |calls| && calls[i].Unpin? ==> After(calls[..i]).count > 0
  }

  /** Call `j` left the resource without leases, or found it so, and carried the time `t`. */
  predicate BecameIdle(calls: seq<Call>, j: nat, t: Time)
    requires j < |calls|
  {
    match calls[j]
    case TryPin => false
    case Unpin(now) => t == now && After(calls[..j]).count == 1
    case Scan(_, at) => t == at && After(calls[..j]).count == 0
  }

  /** Nobody pinned the resource after call `j`. */
  predicate QuietSince(calls: seq<Call>, j: nat)
    requires j < |calls|
  {
    forall k :: j < k < |calls| ==> !calls[k].TryPin?
  }

  predicate IdleMark(calls: seq<Call>, j: nat, t: Time)
    requires j < |calls|
  {
    t != ZERO_TIME && BecameIdle(calls, j, t) && QuietSince(calls, j)
  }

  /** Call `j` is the first one that dates the idleness the resource is in now. */
  ghost predicate IdleFrom(calls: seq<Call>, j: nat, t: Time)
    requires j < |calls|
  {
    && IdleMark(calls, j, t)
    && forall i: nat, u :: i < j ==> !IdleMark(calls, i, u)
  }

  lemma {:induction false} CountStaysNonNegative(calls: seq<Call>)
    requires Balanced(calls)
    ensures After(calls).count >= 0
  {
    if calls != [] {
      PrefixIsBalanced(calls);
      CountStaysNonNegative(calls[..|calls| - 1]);
    }
  }

  lemma PrefixIsBalanced(calls: seq<Call>)
    requires calls != [] && Balanced(calls)
    ensures Balanced(calls[..|calls| - 1])
  {
    var init := calls[..|calls| - 1];
    assert forall i :: 0 <= i < |init| ==> init[..i] == calls[..i];
  }

  lemma MarkOfPrefix(calls: seq<Call>, j: nat, t: Time)
    requires j < |calls| - 1
    ensures IdleMark(calls, j, t) <==> IdleMark(calls[..|calls| - 1], j, t) && !calls[|calls| - 1].TryPin?
  {
    var init := calls[..|calls| - 1];
    assert init[..j] == calls[..j];
    if IdleMark(init, j, t) && !calls[|calls| - 1].TryPin? {
      assert forall k :: j < k < |calls| - 1 ==> init[k] == calls[k];
    }
    if IdleMark(calls, j, t) {
      assert forall k :: j < k < |init| ==> init[k] == calls[k];
      assert !calls[|calls| - 1].TryPin?;
    }
  }

  ghost predicate NoIdleMark(calls: seq<Call>) {
    forall j: nat, u :: j < |calls| ==> !IdleMark(calls, j, u)
  }

  lemma {:induction false} StampFollowsCalls(calls: seq<Call>)
    requires Balanced(calls) && !After(calls).marked
    ensures After(calls).count > 0 || After(calls).idleAt == ZERO_TIME ==> NoIdleMark(calls)
    ensures After(calls).count == 0 && After(calls).idleAt != ZERO_TIME ==>
              exists j: nat :: j < |calls| && IdleFrom(calls, j, After(calls).idleAt)
  {
    if calls != [] {
      var n := |calls| - 1;
      var init := calls[..n];
      PrefixIsBalanced(calls);
      CountStaysNonNegative(init);
      StampFollowsCalls(init);
      forall j: nat, u | j < n
        ensures IdleMark(calls, j, u) <==> IdleMark(init, j, u) && !calls[n].TryPin?
      {
        MarkOfPrefix(calls, j, u);
      }
      var before, now := After(init), After(calls);
      if now.count == 0 && now.idleAt != ZERO_TIME {
        if before.count == 0 && before.idleAt != ZERO_TIME {
          var j: nat :| j < n && IdleFrom(init, j, before.idleAt);
          assert IdleFrom(calls, j, now.idleAt);
        } else {
          assert IdleFrom(calls, n, now.idleAt);
        }
      }
    }
  }

  /** The stamp of an unmarked resource tells exactly since which call it has been idle. */
  lemma StampDatesIdleness(calls: seq<Call>, t: Time)
    requires Balanced(calls) && !After(calls).marked && t != ZERO_TIME
    ensures (After(calls).count == 0 && After(calls).idleAt == t)
            <==> exists j: nat :: j < |calls| && IdleFrom(calls, j, t)
  {
    CountStaysNonNegative(calls);
    StampFollowsCalls(calls);
    if j: nat :| j < |calls| && IdleFrom(calls, j, t) {
      var i: nat :| i < |calls| && IdleFrom(calls, i, After(calls).idleAt);
      assert i == j;
    }
  }

  /** A scan condemns a resource exactly when the idleness it is in was dated at least `timeout` ago. */
  lemma ScanMarksExactlyTheExpired(calls: seq<Call>, timeout: int, at: Time)
    requires Balanced(calls) && !After(calls).marked
    ensures After(calls + [Scan(timeout, at)]).marked
            <==> exists j: nat, t :: j < |calls| && IdleFrom(calls, j, t) && at - t >= timeout
  {
    assert (calls + [Scan(timeout, at)])[..|calls|] == calls;
    CountStaysNonNegative(calls);
    var stamp := After(calls).idleAt;
    if stamp != ZERO_TIME {
      StampDatesIdleness(calls, stamp);
    }
    if j: nat, t :| j < |calls| && IdleFrom(calls, j, t) && at - t >= timeout {
      StampDatesIdleness(calls, t);
    }
  }
}
