/** Distributing a capacity over shards. */
module Partitions {

  /** The share of one partition; the first partitions take the remainder, one each. */
  function Partition(total: nat, index: nat, parts: nat): nat
    requires parts > 0
  {
    if total == 0 then 0
    else if index < total % parts then total / parts + 1
    else total / parts
  }

  function SumOfFirst(total: nat, parts: nat, k: nat): nat
    requires parts > 0
  {
    if k == 0 then 0 else SumOfFirst(total, parts, k - 1) + Partition(total, k - 1, parts)
  }

  lemma {:induction false} SumOfFirstIs(total: nat, parts: nat, k: nat)
    requires parts > 0 && k <= parts
    ensures SumOfFirst(total, parts, k) == (total / parts) * k + if k < total % parts then k else total % parts
  {
    if k > 0 {
      SumOfFirstIs(total, parts, k - 1);
      assert (total / parts) * k == (total / parts) * (k - 1) + total / parts;
    }
  }

  /** The shares add up to the total. */
  lemma SharesAddUp(total: nat, parts: nat)
    requires parts > 0
    ensures SumOfFirst(total, parts, parts) == total
  {
    SumOfFirstIs(total, parts, parts);
    assert (total / parts) * parts + total % parts == total;
  }

  /** The shares are as even as they can be, and earlier partitions get no less than later ones. */
  lemma SharesAreEven(total: nat, parts: nat, i: nat, j: nat)
    requires i <= j < parts
    ensures Partition(total, j, parts) <= Partition(total, i, parts) <= Partition(total, j, parts) + 1
  {
  }

  /** A limited capacity limits every shard exactly when it is at least one per shard: a share of 0 means no limit. */
  lemma SharesAreLimits(total: nat, parts: nat)
    requires parts > 0 && total > 0
    ensures (forall i :: 0 <= i < parts ==> Partition(total, i, parts) > 0) <==> total >= parts
  {
    var base, rest := total / parts, total % parts;
    assert total == base * parts + rest;
    if total >= parts {
      assert base >= 1;
    } else {
      assert base == 0 && rest == total;
      assert Partition(total, parts - 1, parts) == 0;
    }
  }
}
