/** The registry and its shard as objects whose methods update the topology in place. */
module FlowRegistries {
  import opened FlowKeys
  import opened Leasing
  import opened Levels
  import T = Topology

  predicate NonIncreasing(s: seq<int>) {
    forall i, j :: 0 <= i < j < |s| ==> s[i] >= s[j]
  }

  /** Sorting the listing of a set with one new element appended gives the ordered insertion. */
  lemma SortedIsInsert(levels: seq<int>, p: int, sorted: seq<int>)
    requires Descending(levels) && p !in levels
    requires multiset(sorted) == multiset(levels + [p]) && NonIncreasing(sorted)
    ensures sorted == Insert(levels, p)
  {
    DistinctSortedIsDescending(sorted, levels + [p]);
    InsertFacts(levels, p);
    assert forall x :: x in sorted <==> x in multiset(sorted);
    assert forall x :: x in levels + [p] <==> x in multiset(levels + [p]);
    assert Elements(sorted) == Elements(levels) + {p};
    ListingIsUnique(sorted, Insert(levels, p));
  }

  lemma DistinctSortedIsDescending(sorted: seq<int>, s: seq<int>)
    requires multiset(sorted) == multiset(s) && NonIncreasing(sorted)
    requires forall i, j :: 0 <= i < j < |s| ==> s[i] != s[j]
    ensures Descending(sorted)
  {
    forall x
      ensures multiset(s)[x] <= 1
    {
      CountOfDistinct(s, x);
    }
    forall i, j | 0 <= i < j < |sorted|
      ensures sorted[i] > sorted[j]
    {
      EqualPairCounts(sorted, i, j);
    }
  }

  lemma EqualPairCounts(s: seq<int>, i: nat, j: nat)
    requires i < j < |s|
    ensures s[i] == s[j] ==> multiset(s)[s[i]] >= 2
  {
    var front, back := s[..i + 1], s[i + 1..];
    assert s == front + back;
    assert front[i] in front && back[j - i - 1] in back;
    assert multiset(s) == multiset(front) + multiset(back);
  }

  lemma {:induction false} CountOfDistinct(s: seq<int>, x: int)
    requires forall i, j :: 0 <= i < j < |s| ==> s[i] != s[j]
    ensures multiset(s)[x] <= 1
  {
    if s != [] {
      var n := |s| - 1;
      assert s == s[..n] + [s[n]];
      CountOfDistinct(s[..n], x);
      if x == s[n] {
        assert x !in s[..n];
      }
    }
  }

  class RegistryShard {
    var priorityBands: map<int, set<string>>
    var configBands: set<int>
    var orderedPriorityLevels: seq<int>

    ghost predicate Valid()
      reads this
    {
      priorityBands.Keys == Elements(orderedPriorityLevels) && Descending(orderedPriorityLevels)
    }

    constructor ()
      ensures Valid() && priorityBands == map[] && configBands == {} && orderedPriorityLevels == []
    {
      priorityBands, configBands, orderedPriorityLevels := map[], {}, [];
    }

    /** Registers a band and sorts the levels; the sort may order the slice in any way that is non-increasing. */
    method InitPriorityBand(p: int)
      requires Valid() && p !in priorityBands
      modifies this
      ensures Valid() && configBands == old(configBands)
      ensures priorityBands == old(priorityBands)[p := {}]
      ensures orderedPriorityLevels == Insert(old(orderedPriorityLevels), p)
    {
      priorityBands := priorityBands[p := {}];
      ghost var before := orderedPriorityLevels;
      assert p !in before by {
        assert p !in Elements(before);
      }
      var appended := orderedPriorityLevels + [p];
      SomeSortExists(before, p);
      var sorted :| multiset(sorted) == multiset(appended) && NonIncreasing(sorted);
      orderedPriorityLevels := sorted;
      SortedIsInsert(before, p, sorted);
      InsertFacts(before, p);
    }

    method AddPriorityBand(p: int)
      requires Valid()
      modifies this
      ensures Valid() && configBands == old(configBands)
      ensures p in old(priorityBands) ==>
                priorityBands == old(priorityBands) && orderedPriorityLevels == old(orderedPriorityLevels)
      ensures p !in old(priorityBands) ==>
                && priorityBands == old(priorityBands)[p := {}]
                && orderedPriorityLevels == Insert(old(orderedPriorityLevels), p)
    {
      if p in priorityBands {
        return;
      }
      InitPriorityBand(p);
    }

    /** Cuts the first occurrence of a level out of the listing. */
    static method CutLevel(levels: seq<int>, p: int) returns (rest: seq<int>)
      ensures rest == Without(levels, p)
    {
      for i := 0 to |levels|
        invariant p !in levels[..i]
      {
        if levels[i] == p {
          WithoutAt(levels, i);
          return levels[..i] + levels[i + 1..];
        }
      }
      assert levels[..|levels|] == levels;
      WithoutAbsent(levels, p);
      return levels;
    }

    method DeletePriorityBand(p: int)
      requires Valid()
      modifies this
      ensures Valid() && configBands == old(configBands) - {p}
      ensures priorityBands == old(priorityBands) - {p}
      ensures orderedPriorityLevels == Without(old(orderedPriorityLevels), p)
    {
      WithoutFacts(orderedPriorityLevels, p);
      priorityBands := priorityBands - {p};
      configBands := configBands - {p};
      orderedPriorityLevels := CutLevel(orderedPriorityLevels, p);
    }

    method SynchronizeFlow(k: FlowKey)
      requires Valid() && k.priority in priorityBands
      modifies this`priorityBands
      ensures Valid()
      ensures priorityBands == old(priorityBands)[k.priority := old(priorityBands)[k.priority] + {k.id}]
    {
      if k.id in priorityBands[k.priority] {
        assert priorityBands[k.priority] + {k.id} == priorityBands[k.priority];
        return;
      }
      priorityBands := priorityBands[k.priority := priorityBands[k.priority] + {k.id}];
    }

    method DeleteFlow(k: FlowKey)
      requires Valid()
      modifies this`priorityBands
      ensures Valid()
      ensures priorityBands ==
              if k.priority in old(priorityBands)
              then old(priorityBands)[k.priority := old(priorityBands)[k.priority] - {k.id}]
              else old(priorityBands)
    {
      if k.priority in priorityBands {
        priorityBands := priorityBands[k.priority := priorityBands[k.priority] - {k.id}];
      }
    }
  }

  lemma SomeSortExists(levels: seq<int>, p: int)
    requires Descending(levels) && p !in levels
    ensures exists sorted: seq<int> :: multiset(sorted) == multiset(levels + [p]) && NonIncreasing(sorted)
  {
    InsertFacts(levels, p);
    InsertPermutes(levels, p);
    assert NonIncreasing(Insert(levels, p));
  }

  lemma {:induction false} InsertPermutes(s: seq<int>, p: int)
    ensures multiset(Insert(s, p)) == multiset(s + [p])
  {
    if s == [] || p > s[0] {
      assert multiset([p] + s) == multiset(s + [p]);
    } else {
      InsertPermutes(s[1..], p);
      assert s == [s[0]] + s[1..];
      assert s + [p] == [s[0]] + (s[1..] + [p]);
    }
  }

  lemma {:induction false} WithoutAt(s: seq<int>, i: nat)
    requires i < |s| && s[i] !in s[..i]
    ensures Without(s, s[i]) == s[..i] + s[i + 1..]
  {
    if i > 0 {
      assert s[0] in s[..i];
      assert s[1..][..i - 1] == s[..i][1..];
      WithoutAt(s[1..], i - 1);
    }
  }

  lemma {:induction false} WithoutAbsent(s: seq<int>, p: int)
    requires p !in s
    ensures Without(s, p) == s
  {
    if s != [] {
      WithoutAbsent(s[1..], p);
    }
  }

  // ---------------------------------------------------------------------------------------------
  // The registry. Its abstract value is a state of the topology; the ghost fields carry the parts of that state
  // which belong to running goroutines.

  class FlowRegistry {
    const shard: RegistryShard
    var flowStates: map<FlowKey, Lease>
    var priorityBandStates: map<int, Lease>
    var configBands: set<int>
    var perPriorityBandStats: set<int>
    ghost var unpaid: set<FlowKey>
    ghost var ready: set<FlowKey>
    ghost var cycle: T.Cycle

    ghost function Abs(): T.State
      reads this, shard
    {
      T.State(flowStates, priorityBandStates, unpaid, ready, configBands, perPriorityBandStats, shard.configBands,
              shard.priorityBands, shard.orderedPriorityLevels, cycle)
    }

    ghost predicate Valid()
      reads this, shard
    {
      T.KeysCoincide(Abs())
    }

    constructor ()
      ensures Valid() && fresh(shard) && Abs() == T.Init([])
    {
      shard := new RegistryShard();
      flowStates, priorityBandStates, configBands, perPriorityBandStats := map[], map[], {}, {};
      unpaid, ready, cycle := {}, {}, T.Rest;
      new;
      assert Elements([]) == {};
      assert T.Init([]).shardBands == map[];
    }

    method EnsurePriorityBand(p: int)
      requires Valid()
      modifies this`configBands, this`perPriorityBandStats, this`priorityBandStates, shard
      ensures Valid() && Abs() == T.WithBand(old(Abs()), p) && p in shard.priorityBands
    {
      T.BandStepsKeepKeys(Abs(), p);
      if p in configBands {
        return;
      }
      configBands := configBands + {p};
      perPriorityBandStats := perPriorityBandStats + {p};
      if p !in priorityBandStates {
        priorityBandStates := priorityBandStates[p := FRESH];
      }
      shard.configBands := configBands;
      shard.AddPriorityBand(p);
    }

    /** Makes sure the flow's band exists and that its queue is on the shard. */
    method EnsureFlowInfrastructure(k: FlowKey)
      requires Valid()
      modifies this`configBands, this`perPriorityBandStats, this`priorityBandStates, shard
      ensures Valid()
      ensures k.priority in T.WithBand(old(Abs()), k.priority).shardBands
      ensures Abs() == T.WithQueue(T.WithBand(old(Abs()), k.priority), k)
    {
      EnsurePriorityBand(k.priority);
      shard.SynchronizeFlow(k);
    }

    method CleanupFlowResources(keys: seq<FlowKey>)
      requires Valid()
      modifies shard`priorityBands
      ensures Valid() && Abs() == FlowsCleaned(old(Abs()), keys)
    {
      for i := 0 to |keys|
        invariant Valid()
        invariant Abs() == FlowsCleaned(old(Abs()), keys[..i])
      {
        assert keys[..i + 1][..i] == keys[..i];
        if keys[i] !in flowStates {
          shard.DeleteFlow(keys[i]);
        }
      }
      assert keys[..|keys|] == keys;
    }

    method CleanupPriorityBandResources(priorities: seq<int>)
      requires Valid()
      modifies this`configBands, this`perPriorityBandStats, shard
      ensures Valid() && Abs() == BandsCleaned(old(Abs()), priorities)
    {
      for i := 0 to |priorities|
        invariant Valid()
        invariant Abs() == BandsCleaned(old(Abs()), priorities[..i])
      {
        var p := priorities[i];
        assert priorities[..i + 1][..i] == priorities[..i];
        T.BandStepsKeepKeys(Abs(), p);
        if p !in priorityBandStates {
          configBands := configBands - {p};
          perPriorityBandStats := perPriorityBandStats - {p};
          shard.DeletePriorityBand(p);
        }
      }
      assert priorities[..|priorities|] == priorities;
    }
  }

  ghost function FlowsCleaned(s: T.State, keys: seq<FlowKey>): T.State {
    if keys == [] then s else T.FlowCleaned(FlowsCleaned(s, keys[..|keys| - 1]), keys[|keys| - 1])
  }

  ghost function BandsCleaned(s: T.State, priorities: seq<int>): T.State {
    if priorities == [] then s
    else T.BandCleaned(BandsCleaned(s, priorities[..|priorities| - 1]), priorities[|priorities| - 1])
  }
}
