/** Directed graphs as adjacency lists: their nodes, edges, in-degrees, cycles and topological orders. */
module Graphs {
  import opened Sums

  /** Node `u` depends on every node of `graph[u]`; a repeated entry is a repeated edge. */
  type Graph<!V(==)> = map<V, seq<V>>

  function Nodes<V>(graph: Graph<V>): set<V> {
    graph.Keys + (set u, v | u in graph && v in graph[u] :: v)
  }

  predicate Edge<V(==)>(graph: Graph<V>, u: V, v: V) {
    u in graph && v in graph[u]
  }

  ghost predicate Distinct<V>(s: seq<V>) {
    forall i, j :: 0 <= i < j < |s| ==> s[i] != s[j]
  }

  ghost function Elements<V>(s: seq<V>): set<V> {
    set x | x in s
  }

  /** Every node once, and every node after those it depends on. */
  ghost predicate TopologicalOrder<V>(graph: Graph<V>, order: seq<V>) {
    && Distinct(order) && Elements(order) == Nodes(graph)
    && (forall i, j :: 0 <= i < |order| && 0 <= j < |order| && Edge(graph, order[i], order[j]) ==> j < i)
  }

  ghost predicate Path<V>(graph: Graph<V>, p: seq<V>) {
    forall i :: 0 <= i < |p| - 1 ==> Edge(graph, p[i], p[i + 1])
  }

  ghost predicate Cycle<V>(graph: Graph<V>, p: seq<V>) {
    |p| >= 2 && p[0] == p[|p| - 1] && Path(graph, p)
  }

  ghost predicate Acyclic<V(!new)>(graph: Graph<V>) {
    forall p: seq<V> :: !Cycle(graph, p)
  }

  // ---------------------------------------------------------------------------------------------
  // A graph with a topological order has no cycle.

  lemma {:induction false} PathDescends<V>(graph: Graph<V>, order: seq<V>, p: seq<V>, first: nat, last: nat)
    requires TopologicalOrder(graph, order) && Path(graph, p) && |p| >= 2
    requires first < |order| && last < |order| && order[first] == p[0] && order[last] == p[|p| - 1]
    ensures last < first
    decreases |p|
  {
    assert Edge(graph, p[0], p[1]);
    assert p[1] in Elements(order);
    var next :| 0 <= next < |order| && order[next] == p[1];
    if |p| > 2 {
      var rest := p[1..];
      forall i | 0 <= i < |rest| - 1
        ensures Edge(graph, rest[i], rest[i + 1])
      {
        assert rest[i] == p[i + 1] && rest[i + 1] == p[(i + 1) + 1];
      }
      PathDescends(graph, order, rest, next, last);
    }
  }

  lemma OrderedIsAcyclic<V(!new)>(graph: Graph<V>, order: seq<V>)
    requires TopologicalOrder(graph, order)
    ensures Acyclic(graph)
  {
    forall p: seq<V> | Cycle(graph, p)
      ensures false
    {
      assert Edge(graph, p[0], p[1]);
      assert p[0] in Elements(order);
      var k :| 0 <= k < |order| && order[k] == p[0];
      PathDescends(graph, order, p, k, k);
    }
  }

  // ---------------------------------------------------------------------------------------------
  // A non-empty set of nodes in which every node has a predecessor contains a cycle.

  ghost predicate HasPredecessor<V>(graph: Graph<V>, left: set<V>, v: V) {
    exists u :: u in left && Edge(graph, u, v)
  }

  ghost predicate HavePredecessors<V>(graph: Graph<V>, left: set<V>) {
    forall v {:trigger HasPredecessor(graph, left, v)} :: v in left ==> HasPredecessor(graph, left, v)
  }

  lemma ExtendPath<V>(graph: Graph<V>, u: V, p: seq<V>)
    requires Path(graph, p) && p != [] && Edge(graph, u, p[0])
    ensures Path(graph, [u] + p)
  {
    var q := [u] + p;
    forall i | 0 <= i < |q| - 1
      ensures Edge(graph, q[i], q[i + 1])
    {
      assert i > 0 ==> q[i] == p[i - 1] && q[i + 1] == p[(i - 1) + 1];
    }
  }

  lemma {:induction false} WalkBack<V>(graph: Graph<V>, left: set<V>, p: seq<V>) returns (cycle: seq<V>)
    requires HavePredecessors(graph, left) && p != [] && Path(graph, p) && Elements(p) <= left
    ensures Cycle(graph, cycle) && Elements(cycle) <= left
    decreases left - Elements(p)
  {
    assert p[0] in left && HasPredecessor(graph, left, p[0]);
    var u :| u in left && Edge(graph, u, p[0]);
    if u in p {
      var k :| 0 <= k < |p| && p[k] == u;
      assert Path(graph, p[..k + 1]);
      ExtendPath(graph, u, p[..k + 1]);
      cycle := [u] + p[..k + 1];
    } else {
      ExtendPath(graph, u, p);
      assert Elements([u] + p) == Elements(p) + {u};
      assert u in left - Elements(p);
      cycle := WalkBack(graph, left, [u] + p);
    }
  }

  lemma LeftoverHasCycle<V>(graph: Graph<V>, left: set<V>) returns (cycle: seq<V>)
    requires HavePredecessors(graph, left) && left != {}
    ensures Cycle(graph, cycle) && Elements(cycle) <= left
  {
    var v :| v in left;
    cycle := WalkBack(graph, left, [v]);
  }

  // ---------------------------------------------------------------------------------------------
  // In-degrees.

  function Occurrences<V(==)>(s: seq<V>, v: V): nat {
    multiset(s)[v]
  }

  ghost function EdgeCounts<V>(graph: Graph<V>, from: set<V>, v: V): map<V, int> {
    map u | u in from && u in graph :: Occurrences(graph[u], v)
  }

  /** The number of edges to `v` from the nodes of `from`. */
  ghost function Incoming<V>(graph: Graph<V>, from: set<V>, v: V): int {
    Total(EdgeCounts(graph, from, v))
  }

  lemma IncomingFromOneMore<V>(graph: Graph<V>, from: set<V>, u: V, v: V)
    requires u in graph && u !in from
    ensures Incoming(graph, from + {u}, v) == Incoming(graph, from, v) + Occurrences(graph[u], v)
  {
    TotalAfterUpdate(EdgeCounts(graph, from, v), u, Occurrences(graph[u], v));
    assert EdgeCounts(graph, from + {u}, v) == EdgeCounts(graph, from, v)[u := Occurrences(graph[u], v)];
  }

  lemma IncomingBounds<V>(graph: Graph<V>, from: set<V>, v: V)
    ensures Incoming(graph, from, v) >= 0
    ensures Incoming(graph, from, v) == 0 <==> forall u :: u in from ==> !Edge(graph, u, v)
  {
    var counts := EdgeCounts(graph, from, v);
    TotalIsNonNegative(counts);
    forall u | u in from
      ensures Edge(graph, u, v) ==> counts[u] > 0
      ensures u in graph && !Edge(graph, u, v) ==> counts[u] == 0
    {
    }
    if forall u :: u in from ==> !Edge(graph, u, v) {
      TotalOfZeros(counts);
    }
  }
}
