/** Kahn's algorithm over the dependency graph of data plugins. */
module TopologicalSorts {
  import opened Graphs
  import opened Options

  /** A missing entry counts as zero. */
  function Degree<V(==)>(inDegree: map<V, int>, v: V): int {
    if v in inDegree then inDegree[v] else 0
  }

  ghost predicate DegreesFrom<V(!new)>(graph: Graph<V>, from: set<V>, inDegree: map<V, int>) {
    forall v: V :: Degree(inDegree, v) == Incoming(graph, from, v)
  }

  /** The nodes that the rows of `seen` mention. */
  ghost function NodesOf<V>(graph: Graph<V>, seen: set<V>): set<V>
    requires seen <= graph.Keys
  {
    seen + (set u, v | u in seen && v in graph[u] :: v)
  }

  // ---------------------------------------------------------------------------------------------
  // Counting the in-degrees.

  method CountRow<V(==, !new)>(neighbors: seq<V>, u: V, inDegree: map<V, int>) returns (next: map<V, int>)
    ensures next.Keys == inDegree.Keys + {u} + Elements(neighbors)
    ensures forall v: V :: Degree(next, v) == Degree(inDegree, v) + Occurrences(neighbors, v)
  {
    next := if u in inDegree then inDegree else inDegree[u := 0];
    for i := 0 to |neighbors|
      invariant next.Keys == inDegree.Keys + {u} + Elements(neighbors[..i])
      invariant forall v: V :: Degree(next, v) == Degree(inDegree, v) + Occurrences(neighbors[..i], v)
    {
      var w := neighbors[i];
      assert neighbors[..i + 1] == neighbors[..i] + [w];
      next := next[w := Degree(next, w) + 1];
    }
    assert neighbors[..|neighbors|] == neighbors;
  }

  method CountDegrees<V(==, !new)>(graph: Graph<V>) returns (inDegree: map<V, int>)
    ensures inDegree.Keys == Nodes(graph) && DegreesFrom(graph, graph.Keys, inDegree)
  {
    inDegree := map[];
    var rest := graph.Keys;
    ghost var seen: set<V> := {};
    NothingIncoming(graph);
    while rest != {}
      invariant rest <= graph.Keys && seen == graph.Keys - rest
      invariant inDegree.Keys == NodesOf(graph, seen) && DegreesFrom(graph, seen, inDegree)
    {
      var u :| u in rest;
      var before := inDegree;
      inDegree := CountRow(graph[u], u, inDegree);
      forall v: V
        ensures Degree(inDegree, v) == Incoming(graph, seen + {u}, v)
      {
        IncomingFromOneMore(graph, seen, u, v);
      }
      rest := rest - {u};
      seen := seen + {u};
    }
    assert seen == graph.Keys;
  }

  lemma NothingIncoming<V(!new)>(graph: Graph<V>)
    ensures DegreesFrom(graph, {}, map[])
  {
    forall v: V
      ensures Incoming(graph, {}, v) == 0
    {
      IncomingBounds(graph, {}, v);
    }
  }

  // ---------------------------------------------------------------------------------------------
  // Processing the queue.

  /** The queue lists, once each, the nodes that are not done and have no open edge to them. */
  ghost predicate QueueExact<V>(inDegree: map<V, int>, done: set<V>, queue: seq<V>) {
    && Distinct(queue)
    && (forall v :: v in queue ==> v in inDegree && v !in done && inDegree[v] == 0)
    && (forall v :: v in inDegree && v !in done && inDegree[v] == 0 ==> v in queue)
  }

  /** All that depends on a node is done before it. */
  ghost predicate Preceded<V(!new)>(graph: Graph<V>, result: seq<V>) {
    forall k: nat, u: V :: k < |result| && Edge(graph, u, result[k]) ==> u in result[..k]
  }

  ghost predicate Kahn<V(!new)>(graph: Graph<V>, result: seq<V>, inDegree: map<V, int>, queue: seq<V>) {
    && inDegree.Keys == Nodes(graph) && DegreesFrom(graph, graph.Keys - Elements(result), inDegree)
    && QueueExact(inDegree, Elements(result), queue)
    && Distinct(result) && Elements(result) <= Nodes(graph)
    && Preceded(graph, result)
  }

  method FirstQueue<V(==, !new)>(inDegree: map<V, int>) returns (queue: seq<V>)
    ensures QueueExact(inDegree, {}, queue)
  {
    queue := [];
    var rest := inDegree.Keys;
    while rest != {}
      invariant rest <= inDegree.Keys && Distinct(queue)
      invariant forall v :: v in queue ==> v in inDegree && v !in rest && inDegree[v] == 0
      invariant forall v :: v in inDegree && v !in rest && inDegree[v] == 0 ==> v in queue
    {
      var node :| node in rest;
      rest := rest - {node};
      if inDegree[node] == 0 {
        queue := queue + [node];
      }
    }
  }

  /** Takes the edges of a node that has become done off the in-degrees. */
  method Release<V(==, !new)>(neighbors: seq<V>, inDegree: map<V, int>, queue: seq<V>, ghost done: set<V>)
    returns (next: map<V, int>, ready: seq<V>)
    requires QueueExact(inDegree, done, queue)
    requires forall v :: v in neighbors ==> v in inDegree && v !in done
    requires forall v :: v in inDegree ==> inDegree[v] >= Occurrences(neighbors, v)
    ensures next.Keys == inDegree.Keys && QueueExact(next, done, ready)
    ensures forall v :: v in inDegree ==> next[v] == inDegree[v] - Occurrences(neighbors, v)
  {
    next, ready := inDegree, queue;
    for i := 0 to |neighbors|
      invariant next.Keys == inDegree.Keys && QueueExact(next, done, ready)
      invariant forall v :: v in inDegree ==> next[v] == inDegree[v] - Occurrences(neighbors[..i], v)
    {
      var v := neighbors[i];
      PrefixOccurrences(neighbors, i);
      next, ready := ReleaseOne(v, next, ready, done);
    }
    assert neighbors[..|neighbors|] == neighbors;
  }

  method ReleaseOne<V(==, !new)>(v: V, inDegree: map<V, int>, queue: seq<V>, ghost done: set<V>)
    returns (next: map<V, int>, ready: seq<V>)
    requires QueueExact(inDegree, done, queue) && v in inDegree && v !in done && inDegree[v] >= 1
    ensures next == inDegree[v := inDegree[v] - 1] && QueueExact(next, done, ready)
  {
    next := inDegree[v := inDegree[v] - 1];
    ready := if next[v] == 0 then queue + [v] else queue;
  }

  lemma PrefixOccurrences<V(!new)>(s: seq<V>, i: nat)
    requires i < |s|
    ensures forall v: V :: Occurrences(s[..i + 1], v) == Occurrences(s[..i], v) + if v == s[i] then 1 else 0
    ensures forall v: V :: Occurrences(s[..i + 1], v) <= Occurrences(s, v)
  {
    assert s[..i + 1] == s[..i] + [s[i]];
    assert s == s[..i + 1] + s[i + 1..];
  }

  /** One turn of the queue: `u` becomes done. */
  method Process<V(==, !new)>(graph: Graph<V>, result: seq<V>, inDegree: map<V, int>, queue: seq<V>)
    returns (done: seq<V>, next: map<V, int>, ready: seq<V>)
    requires Kahn(graph, result, inDegree, queue) && queue != []
    ensures done == result + [queue[0]] && Kahn(graph, done, next, ready)
  {
    var u := queue[0];
    done := result + [u];
    var neighbors := if u in graph then graph[u] else [];
    TurnIsAllowed(graph, result, inDegree, queue);
    next, ready := Release(neighbors, inDegree, queue[1..], Elements(done));
    TurnKeepsDegrees(graph, result, u, inDegree, next);
    TurnKeepsOrder(graph, result, u, inDegree);
  }

  ghost function Row<V>(graph: Graph<V>, u: V): seq<V> {
    if u in graph then graph[u] else []
  }

  lemma TurnIsAllowed<V(!new)>(graph: Graph<V>, result: seq<V>, inDegree: map<V, int>, queue: seq<V>)
    requires Kahn(graph, result, inDegree, queue) && queue != []
    ensures QueueExact(inDegree, Elements(result + [queue[0]]), queue[1..])
    ensures forall v :: v in Row(graph, queue[0]) ==> v in inDegree && v !in result + [queue[0]]
    ensures forall v :: v in inDegree ==> inDegree[v] >= Occurrences(Row(graph, queue[0]), v)
  {
    var u := queue[0];
    assert u in queue && Degree(inDegree, u) == 0;
    var from := graph.Keys - Elements(result);
    IncomingBounds(graph, from, u);
    forall v | v in Row(graph, u)
      ensures v in inDegree && v !in result + [u]
    {
      assert Edge(graph, u, v);
    }
    forall v | v in inDegree
      ensures inDegree[v] >= Occurrences(Row(graph, u), v)
    {
      assert Degree(inDegree, v) == Incoming(graph, from, v);
      IncomingBounds(graph, from - {u}, v);
      if u in graph {
        assert from == (from - {u}) + {u};
        IncomingFromOneMore(graph, from - {u}, u, v);
      } else {
        assert from == from - {u};
      }
    }
    assert queue == [u] + queue[1..];
    forall v | v in queue[1..]
      ensures v in queue && v !in Elements(result + [u])
    {
      var k :| 0 <= k < |queue[1..]| && queue[1..][k] == v;
      assert queue[k + 1] == v;
    }
  }

  lemma TurnKeepsDegrees<V(!new)>(graph: Graph<V>, result: seq<V>, u: V, inDegree: map<V, int>, next: map<V, int>)
    requires DegreesFrom(graph, graph.Keys - Elements(result), inDegree) && u !in result
    requires next.Keys == inDegree.Keys == Nodes(graph)
    requires forall v :: v in inDegree ==> next[v] == inDegree[v] - Occurrences(Row(graph, u), v)
    ensures DegreesFrom(graph, graph.Keys - Elements(result + [u]), next)
  {
    var from := graph.Keys - Elements(result + [u]);
    assert Elements(result + [u]) == Elements(result) + {u};
    forall v: V
      ensures Degree(next, v) == Incoming(graph, from, v)
    {
      if u in graph {
        assert from + {u} == graph.Keys - Elements(result);
        IncomingFromOneMore(graph, from, u, v);
      } else {
        assert from == graph.Keys - Elements(result);
      }
      if v !in Nodes(graph) {
        IncomingBounds(graph, from, v);
      }
    }
  }

  lemma TurnKeepsOrder<V(!new)>(graph: Graph<V>, result: seq<V>, u: V, inDegree: map<V, int>)
    requires DegreesFrom(graph, graph.Keys - Elements(result), inDegree) && Preceded(graph, result)
    requires u in inDegree && inDegree[u] == 0
    ensures Preceded(graph, result + [u])
  {
    var done := result + [u];
    IncomingBounds(graph, graph.Keys - Elements(result), u);
    assert Degree(inDegree, u) == 0;
    forall k: nat, w: V | k < |done| && Edge(graph, w, done[k])
      ensures w in done[..k]
    {
      if k < |result| {
        assert done[..k] == result[..k];
      } else {
        assert done[..k] == result;
      }
    }
  }

  // ---------------------------------------------------------------------------------------------
  // The sort.

  function Reverse<V>(s: seq<V>): (r: seq<V>)
    ensures |r| == |s| && forall i :: 0 <= i < |s| ==> r[i] == s[|s| - 1 - i]
  {
    seq(|s|, i requires 0 <= i < |s| => s[|s| - 1 - i])
  }

  /** Succeeds exactly on the acyclic graphs, and then orders every node after those it depends on. */
  method TopologicalSort<V(==, !new)>(graph: Graph<V>) returns (order: Option<seq<V>>)
    ensures order.Some? <==> Acyclic(graph)
    ensures order.Some? ==> TopologicalOrder(graph, order.value)
  {
    var inDegree := CountDegrees(graph);
    var queue := FirstQueue(inDegree);
    var result: seq<V> := [];
    assert graph.Keys - Elements(result) == graph.Keys;
    while queue != []
      invariant Kahn(graph, result, inDegree, queue)
      decreases |Nodes(graph)| - |result|
    {
      DoneCount(graph, result);
      result, inDegree, queue := Process(graph, result, inDegree, queue);
      DoneCount(graph, result);
    }
    DoneCount(graph, result);
    assert |inDegree| == |inDegree.Keys|;
    if |result| != |inDegree| {
      ghost var cycle := Stuck(graph, result, inDegree);
      return None;
    }
    AllDone(graph, result);
    OrderedIsAcyclic(graph, Reverse(result));
    order := Some(Reverse(result));
  }

  lemma {:induction false} DistinctCount<V>(s: seq<V>)
    requires Distinct(s)
    ensures |Elements(s)| == |s|
  {
    if s != [] {
      var t := s[..|s| - 1];
      DistinctCount(t);
      assert s == t + [s[|s| - 1]];
      assert Elements(s) == Elements(t) + {s[|s| - 1]};
    }
  }

  lemma DoneCount<V>(graph: Graph<V>, result: seq<V>)
    requires Distinct(result) && Elements(result) <= Nodes(graph)
    ensures |result| <= |Nodes(graph)|
    ensures |result| == |Nodes(graph)| <==> Elements(result) == Nodes(graph)
  {
    DistinctCount(result);
    SubsetCount(Elements(result), Nodes(graph));
  }

  lemma SubsetCount<V>(a: set<V>, b: set<V>)
    requires a <= b
    ensures |a| <= |b| && (|a| == |b| ==> a == b)
  {
    assert b == a + (b - a);
    assert |b| == |a| + |b - a|;
  }

  /** Once no node is ready, the nodes that are left contain a cycle. */
  lemma Stuck<V(!new)>(graph: Graph<V>, result: seq<V>, inDegree: map<V, int>) returns (cycle: seq<V>)
    requires Kahn(graph, result, inDegree, []) && Elements(result) != Nodes(graph)
    ensures Cycle(graph, cycle) && Elements(cycle) <= Nodes(graph) - Elements(result)
  {
    var left := Nodes(graph) - Elements(result);
    forall v | v in left
      ensures HasPredecessor(graph, left, v)
    {
      assert Degree(inDegree, v) != 0;
      IncomingBounds(graph, graph.Keys - Elements(result), v);
    }
    assert left + Elements(result) == Nodes(graph);
    cycle := LeftoverHasCycle(graph, left);
  }

  lemma AllDone<V(!new)>(graph: Graph<V>, result: seq<V>)
    requires Distinct(result) && Elements(result) == Nodes(graph) && Preceded(graph, result)
    ensures TopologicalOrder(graph, Reverse(result))
  {
    var order := Reverse(result);
    forall x
      ensures x in order <==> x in result
    {
      if x in result {
        var k :| 0 <= k < |result| && result[k] == x;
        assert order[|result| - 1 - k] == x;
      }
    }
    forall i, j | 0 <= i < |order| && 0 <= j < |order| && Edge(graph, order[i], order[j])
      ensures j < i
    {
      var k: nat := |result| - 1 - j;
      assert order[i] in result[..k];
    }
  }
}
