/** Data dependencies between plugins: the graph, its errors, the execution order and the reordered data producers. */
module DataGraphs {
  import opened Graphs
  import opened Options
  import opened TopologicalSorts

  /**
   * A plugin: whether it is a producer and a consumer of data, the types of what it produces and consumes, by key,
   * and its place in the layer order.
   */
  datatype Plugin = Plugin(name: string, isProducer: bool, isConsumer: bool,
                           produces: map<string, nat>, consumes: map<string, nat>, layer: int)

  datatype Error =
    | TypeMismatch(key: string)
    | LayerOrder(producer: string, consumer: string)
    | CycleDetected

  datatype Result<T> = Ok(value: T) | Err(error: Error)

  // ---------------------------------------------------------------------------------------------
  // One producer and one consumer. The produced keys come in any order.

  /** `keys` is an order in which the entries of a map with these keys may be visited. */
  ghost predicate Lists(keys: seq<string>, all: set<string>) {
    Distinct(keys) && Elements(keys) == all
  }

  predicate Linked(p: Plugin, c: Plugin) {
    exists k :: k in p.produces && k in c.consumes
  }

  predicate LayerAllows(p: Plugin, c: Plugin) {
    p.layer <= c.layer
  }

  predicate Matches(p: Plugin, c: Plugin, k: string) {
    k in p.produces && k in c.consumes && p.produces[k] == c.consumes[k]
  }

  /** The first of `keys` that `c` consumes. */
  function FirstCommon(keys: seq<string>, c: Plugin): (k: Option<string>)
    ensures k.Some? ==> k.value in keys && k.value in c.consumes
    ensures k.None? ==> forall x :: x in keys ==> x !in c.consumes
  {
    if keys == [] then None
    else if keys[0] in c.consumes then Some(keys[0])
    else FirstCommon(keys[1..], c)
  }

  /** Only the first common key is looked at. */
  predicate Passes(keys: seq<string>, p: Plugin, c: Plugin) {
    match FirstCommon(keys, c)
    case None => true
    case Some(k) => Matches(p, c, k) && LayerAllows(p, c)
  }

  method LinkPair(keys: seq<string>, p: Plugin, c: Plugin) returns (linked: Result<bool>)
    requires Lists(keys, p.produces.Keys)
    ensures linked.Ok? <==> Passes(keys, p, c)
    ensures linked.Ok? ==> linked.value == Linked(p, c)
    ensures linked.Err? ==> IsFault(linked.error, p, c)
  {
    for i := 0 to |keys|
      invariant FirstCommon(keys, c) == FirstCommon(keys[i..], c)
      invariant forall k :: k in keys[..i] ==> k !in c.consumes
    {
      var k := keys[i];
      assert k in Elements(keys);
      assert keys[i..][1..] == keys[i + 1..];
      if k in c.consumes {
        if p.produces[k] != c.consumes[k] {
          return Err(TypeMismatch(k));
        }
        if p.layer > c.layer {
          return Err(LayerOrder(p.name, c.name));
        }
        return Ok(true);
      }
      assert keys[..i + 1] == keys[..i] + [k];
    }
    assert keys[..|keys|] == keys;
    forall k | k in p.produces
      ensures k !in c.consumes
    {
      assert k in Elements(keys);
    }
    return Ok(false);
  }

  /** The error names something that is wrong between the two plugins. */
  predicate IsFault(e: Error, p: Plugin, c: Plugin) {
    match e
    case TypeMismatch(k) => k in p.produces && k in c.consumes && p.produces[k] != c.consumes[k]
    case LayerOrder(pn, cn) => pn == p.name && cn == c.name && Linked(p, c) && p.layer > c.layer
    case CycleDetected => false
  }

  /** The pair passes in every order exactly when all common keys agree on their type and the layers allow the edge. */
  lemma PassesAlways(p: Plugin, c: Plugin)
    ensures (forall keys :: Lists(keys, p.produces.Keys) ==> Passes(keys, p, c)) <==>
            (Linked(p, c) ==>
               p.layer <= c.layer && forall k :: k in p.produces && k in c.consumes ==> p.produces[k] == c.consumes[k])
  {
    forall k | k in p.produces && k in c.consumes
      ensures exists keys :: Lists(keys, p.produces.Keys) && FirstCommon(keys, c) == Some(k)
    {
      var rest := Listing(p.produces.Keys - {k});
      FirstIsListed(k, rest, p.produces.Keys);
      assert FirstCommon([k] + rest, c) == Some(k);
    }
    forall keys | Lists(keys, p.produces.Keys) && FirstCommon(keys, c).Some?
      ensures FirstCommon(keys, c).value in p.produces
    {
      assert FirstCommon(keys, c).value in Elements(keys);
    }
  }

  /** The pair passes in some order exactly when one common key agrees on its type and the layers allow the edge. */
  lemma PassesSometimes(p: Plugin, c: Plugin)
    ensures (exists keys :: Lists(keys, p.produces.Keys) && Passes(keys, p, c)) <==>
            (Linked(p, c) ==>
               p.layer <= c.layer && exists k :: k in p.produces && k in c.consumes && p.produces[k] == c.consumes[k])
  {
    if k :| k in p.produces && k in c.consumes && p.produces[k] == c.consumes[k] {
      var rest := Listing(p.produces.Keys - {k});
      FirstIsListed(k, rest, p.produces.Keys);
      assert FirstCommon([k] + rest, c) == Some(k);
    }
    var any := Listing(p.produces.Keys);
    forall keys | Lists(keys, p.produces.Keys)
      ensures FirstCommon(keys, c).Some? <==> Linked(p, c)
    {
      CommonIsFound(keys, p, c);
    }
  }

  const PRODUCER := Plugin("p", true, false, map["a" := 1, "b" := 2], map[], 0)
  const CONSUMER := Plugin("c", false, true, map[], map["a" := 1, "b" := 3], 0)

  /** The gap is real: this pair agrees on one common key and not on the other, and the order decides. */
  lemma OrderDecides()
    ensures Lists(["a", "b"], PRODUCER.produces.Keys) && Lists(["b", "a"], PRODUCER.produces.Keys)
    ensures Passes(["a", "b"], PRODUCER, CONSUMER) && !Passes(["b", "a"], PRODUCER, CONSUMER)
  {
    assert Elements(["a", "b"]) == {"a", "b"} == Elements(["b", "a"]);
    assert PRODUCER.produces.Keys == {"a", "b"};
  }

  lemma CommonIsFound(keys: seq<string>, p: Plugin, c: Plugin)
    requires Lists(keys, p.produces.Keys)
    ensures FirstCommon(keys, c).Some? <==> Linked(p, c)
  {
    if FirstCommon(keys, c).Some? {
      assert FirstCommon(keys, c).value in Elements(keys);
    }
    if k :| k in p.produces && k in c.consumes {
      assert k in Elements(keys);
    }
  }

  lemma FirstIsListed(k: string, rest: seq<string>, all: set<string>)
    requires k in all && Lists(rest, all - {k})
    ensures Lists([k] + rest, all)
  {
    var keys := [k] + rest;
    forall i, j | 0 <= i < j < |keys|
      ensures keys[i] != keys[j]
    {
      assert keys[j] == rest[j - 1] && keys[j] in Elements(rest);
    }
    assert Elements(keys) == {k} + Elements(rest);
  }

  ghost function Listing(all: set<string>): (keys: seq<string>)
    ensures Lists(keys, all)
  {
    if all == {} then []
    else
      var k :| k in all;
      var rest := Listing(all - {k});
      FirstIsListed(k, rest, all);
      [k] + rest
  }

  // ---------------------------------------------------------------------------------------------
  // The whole graph.

  type Plugins = map<string, Plugin>

  /** The orders in which the produced keys are visited, for each producer and consumer. */
  type KeyOrder = (string, string) -> seq<string>

  ghost predicate Orders(order: KeyOrder, producers: Plugins, consumers: Plugins) {
    forall p, c :: p in producers && c in consumers ==> Lists(order(p, c), producers[p].produces.Keys)
  }

  predicate NamedByKey(m: Plugins) {
    forall n :: n in m ==> m[n].name == n
  }

  predicate DependsOn(producers: Plugins, consumers: Plugins, c: string, p: string) {
    p in producers && c in consumers && p != c && Linked(producers[p], consumers[c])
  }

  /** The edge from a consumer to the producer it depends on, if there is one. */
  function NewEdge(producers: Plugins, consumers: Plugins, c: string, p: string): seq<string> {
    if DependsOn(producers, consumers, c, p) then [p] else []
  }

  ghost predicate PassesFor(order: KeyOrder, producers: Plugins, consumers: Plugins, p: string, c: string) {
    p in producers && c in consumers && p != c ==> Passes(order(p, c), producers[p], consumers[c])
  }

  /** The error names something that is wrong between two of the plugins. */
  ghost predicate FaultBetween(e: Error, producers: Plugins, consumers: Plugins) {
    exists p, c :: p in producers && c in consumers && p != c && IsFault(e, producers[p], consumers[c])
  }

  method LinkProducer(dag: Graph<string>, p: string, producers: Plugins, consumers: Plugins, order: KeyOrder)
    returns (r: Result<Graph<string>>)
    requires p in producers && consumers.Keys <= dag.Keys && Orders(order, producers, consumers)
    ensures r.Ok? <==> forall c :: PassesFor(order, producers, consumers, p, c)
    ensures r.Ok? ==> r.value.Keys == dag.Keys
    ensures r.Ok? ==> forall c :: c in dag ==> r.value[c] == dag[c] + NewEdge(producers, consumers, c, p)
    ensures r.Err? ==> FaultBetween(r.error, producers, consumers)
  {
    var next := dag;
    var rest := consumers.Keys;
    while rest != {}
      invariant rest <= consumers.Keys && next.Keys == dag.Keys
      invariant forall c :: c !in rest ==> PassesFor(order, producers, consumers, p, c)
      invariant forall c :: c in dag ==>
                  next[c] == if c in rest then dag[c] else dag[c] + NewEdge(producers, consumers, c, p)
    {
      var c :| c in rest;
      rest := rest - {c};
      if p != c {
        var linked := LinkPair(order(p, c), producers[p], consumers[c]);
        if linked.Err? {
          assert !PassesFor(order, producers, consumers, p, c);
          return Err(linked.error);
        }
        if linked.value {
          next := next[c := next[c] + [p]];
        }
      }
    }
    return Ok(next);
  }

  /** `g` has the edges to the producers of `seen`, each once. */
  ghost predicate HasEdges(g: Graph<string>, producers: Plugins, consumers: Plugins, seen: set<string>) {
    && g.Keys == producers.Keys + consumers.Keys
    && (forall c :: c in g ==> Distinct(g[c]))
    && (forall c, p :: c in g ==> (p in g[c] <==> p in seen && DependsOn(producers, consumers, c, p)))
  }

  /** Builds the graph, or reports a fault; which pairs fail depends on the order of the keys alone. */
  method BuildDAG(producers: Plugins, consumers: Plugins, order: KeyOrder) returns (r: Result<Graph<string>>)
    requires NamedByKey(producers) && NamedByKey(consumers) && Orders(order, producers, consumers)
    ensures r.Ok? <==> forall p, c :: PassesFor(order, producers, consumers, p, c)
    ensures r.Ok? ==> HasEdges(r.value, producers, consumers, producers.Keys)
    ensures r.Err? ==> FaultBetween(r.error, producers, consumers)
  {
    var dag: Graph<string> := map n | n in producers.Keys + consumers.Keys :: [];
    var rest := producers.Keys;
    while rest != {}
      invariant rest <= producers.Keys
      invariant HasEdges(dag, producers, consumers, producers.Keys - rest)
      invariant forall p, c :: p !in rest ==> PassesFor(order, producers, consumers, p, c)
    {
      var p :| p in rest;
      var linked := LinkProducer(dag, p, producers, consumers, order);
      if linked.Err? {
        return linked;
      }
      EdgesGrow(dag, linked.value, producers, consumers, producers.Keys - rest, p);
      dag := linked.value;
      assert producers.Keys - (rest - {p}) == producers.Keys - rest + {p};
      rest := rest - {p};
    }
    assert producers.Keys - rest == producers.Keys;
    return Ok(dag);
  }

  lemma EdgesGrow(g: Graph<string>, h: Graph<string>, producers: Plugins, consumers: Plugins, seen: set<string>,
                  p: string)
    requires HasEdges(g, producers, consumers, seen) && p !in seen && h.Keys == g.Keys
    requires forall c :: c in g ==> h[c] == g[c] + NewEdge(producers, consumers, c, p)
    ensures HasEdges(h, producers, consumers, seen + {p})
  {
  }

  // ---------------------------------------------------------------------------------------------
  // Validation and ordering.

  /** The last plugin of each name. */
  function ByName(plugins: seq<Plugin>): (m: Plugins)
    ensures NamedByKey(m)
    ensures forall x :: x in plugins ==> x.name in m
    ensures forall n :: n in m ==> m[n] in plugins
  {
    if plugins == [] then map[]
    else
      var last := plugins[|plugins| - 1];
      ByName(plugins[..|plugins| - 1])[last.name := last]
  }

  method IndexByName(plugins: seq<Plugin>) returns (m: Plugins)
    ensures m == ByName(plugins)
  {
    m := map[];
    for i := 0 to |plugins|
      invariant m == ByName(plugins[..i])
    {
      m := m[plugins[i].name := plugins[i]];
      assert plugins[..i + 1][..i] == plugins[..i];
    }
    assert plugins[..|plugins|] == plugins;
  }

  function Producers(m: Plugins): Plugins {
    map n | n in m && m[n].isProducer :: m[n]
  }

  function Consumers(m: Plugins): Plugins {
    map n | n in m && m[n].isConsumer :: m[n]
  }

  /** The dependencies as a graph. */
  ghost function Dependencies(producers: Plugins, consumers: Plugins): Graph<string> {
    map c | c in producers.Keys + consumers.Keys ::
      Listing(set p | p in producers && DependsOn(producers, consumers, c, p))
  }

  lemma DependenciesHaveEdges(producers: Plugins, consumers: Plugins)
    ensures HasEdges(Dependencies(producers, consumers), producers, consumers, producers.Keys)
  {
    var g := Dependencies(producers, consumers);
    forall c, p | c in g
      ensures p in g[c] <==> p in producers && DependsOn(producers, consumers, c, p)
    {
      assert p in g[c] <==> p in Elements(g[c]);
    }
  }

  /** A plugin that consumes what it produces itself does not depend on itself. */
  lemma NoPluginDependsOnItself(producers: Plugins, consumers: Plugins, c: string)
    requires c in producers.Keys + consumers.Keys
    ensures c !in Dependencies(producers, consumers)[c]
  {
    var all := set p | p in producers && DependsOn(producers, consumers, c, p);
    assert c in Listing(all) <==> c in Elements(Listing(all));
  }

  /** Two graphs with the same edges have the same cycles and orders. */
  lemma SameEdges(g: Graph<string>, h: Graph<string>, producers: Plugins, consumers: Plugins)
    requires HasEdges(g, producers, consumers, producers.Keys) && HasEdges(h, producers, consumers, producers.Keys)
    ensures Acyclic(g) <==> Acyclic(h)
    ensures forall order :: TopologicalOrder(g, order) ==> TopologicalOrder(h, order)
  {
    forall u, v
      ensures Edge(g, u, v) <==> Edge(h, u, v)
    {
      if u in g {
        assert v in g[u] <==> v in producers.Keys && DependsOn(producers, consumers, u, v);
        assert v in h[u] <==> v in producers.Keys && DependsOn(producers, consumers, u, v);
      }
    }
    assert Nodes(g) == g.Keys && Nodes(h) == h.Keys;
    forall p: seq<string>
      ensures Cycle(g, p) <==> Cycle(h, p)
    {
    }
  }

  method ValidateAndOrder(plugins: seq<Plugin>, order: KeyOrder) returns (names: Result<seq<string>>)
    requires var m := ByName(plugins); Orders(order, Producers(m), Consumers(m))
    ensures var m := ByName(plugins);
            var (producers, consumers) := (Producers(m), Consumers(m));
            var g := Dependencies(producers, consumers);
            && (names.Ok? <==> Acyclic(g) && forall p, c :: PassesFor(order, producers, consumers, p, c))
            && (names.Ok? ==> TopologicalOrder(g, names.value))
            && (names.Err? ==> if names.error == CycleDetected then !Acyclic(g)
                               else FaultBetween(names.error, producers, consumers))
  {
    var m := IndexByName(plugins);
    var producers, consumers := Producers(m), Consumers(m);
    var dag := BuildDAG(producers, consumers, order);
    if dag.Err? {
      NoCycleFault(dag.error, producers, consumers);
      return Err(dag.error);
    }
    var sorted := TopologicalSort(dag.value);
    DependenciesHaveEdges(producers, consumers);
    SameEdges(dag.value, Dependencies(producers, consumers), producers, consumers);
    names := if sorted.Some? then Ok(sorted.value) else Err(CycleDetected);
  }

  lemma NoCycleFault(e: Error, producers: Plugins, consumers: Plugins)
    requires FaultBetween(e, producers, consumers)
    ensures e != CycleDetected
  {
  }

  /** The configured data producers, run in list order. */
  class Config {
    var prepareDataPlugins: seq<Plugin>

    constructor (plugins: seq<Plugin>)
      ensures prepareDataPlugins == plugins
    {
      prepareDataPlugins := plugins;
    }

    method OrderPrepareDataPlugins(sortedPluginNames: seq<string>)
      modifies this
      ensures prepareDataPlugins == Selected(ByName(old(prepareDataPlugins)), sortedPluginNames)
    {
      var nameToPlugin := IndexByName(prepareDataPlugins);
      var sortedPlugins: seq<Plugin> := [];
      for i := 0 to |sortedPluginNames|
        invariant sortedPlugins == Selected(nameToPlugin, sortedPluginNames[..i])
      {
        var name := sortedPluginNames[i];
        if name in nameToPlugin {
          sortedPlugins := sortedPlugins + [nameToPlugin[name]];
        }
        assert sortedPluginNames[..i + 1][..i] == sortedPluginNames[..i];
      }
      assert sortedPluginNames[..|sortedPluginNames|] == sortedPluginNames;
      prepareDataPlugins := sortedPlugins;
    }
  }

  /** The plugins that `names` lists, in its order. */
  function Selected(m: Plugins, names: seq<string>): seq<Plugin> {
    if names == [] then []
    else
      var last := names[|names| - 1];
      Selected(m, names[..|names| - 1]) + if last in m then [m[last]] else []
  }

  ghost predicate Precedes(names: seq<string>, x: string, y: string) {
    exists a, b :: 0 <= a < b < |names| && names[a] == x && names[b] == y
  }

  /** `ps` lists plugins by ascending position of their name in `names`. */
  ghost predicate FollowsNames(ps: seq<Plugin>, names: seq<string>) {
    forall i, j :: 0 <= i < j < |ps| ==> Precedes(names, ps[i].name, ps[j].name)
  }

  lemma {:induction false} SelectedAreNamed(m: Plugins, names: seq<string>)
    requires NamedByKey(m)
    ensures forall x :: x in Selected(m, names) <==> x.name in names && x.name in m && m[x.name] == x
  {
    if names != [] {
      SelectedAreNamed(m, names[..|names| - 1]);
      assert names == names[..|names| - 1] + [names[|names| - 1]];
    }
  }

  lemma {:induction false} SelectedFollow(m: Plugins, names: seq<string>)
    requires NamedByKey(m)
    ensures FollowsNames(Selected(m, names), names)
  {
    if names != [] {
      var k := |names| - 1;
      var front, ps := Selected(m, names[..k]), Selected(m, names);
      SelectedFollow(m, names[..k]);
      SelectedAreNamed(m, names[..k]);
      forall i, j | 0 <= i < j < |ps|
        ensures Precedes(names, ps[i].name, ps[j].name)
      {
        if j < |front| {
          assert Precedes(names[..k], front[i].name, front[j].name);
          PrecedesInPrefix(names, k, front[i].name, front[j].name);
        } else {
          assert front[i] in front;
          PrecedesLast(names, front[i].name);
        }
      }
    }
  }

  lemma PrecedesInPrefix(names: seq<string>, k: nat, x: string, y: string)
    requires k <= |names| && Precedes(names[..k], x, y)
    ensures Precedes(names, x, y)
  {
    var a, b :| 0 <= a < b < |names[..k]| && names[..k][a] == x && names[..k][b] == y;
    assert names[a] == x && names[b] == y;
  }

  lemma PrecedesLast(names: seq<string>, x: string)
    requires names != [] && x in names[..|names| - 1]
    ensures Precedes(names, x, names[|names| - 1])
  {
    var a :| 0 <= a < |names| - 1 && names[..|names| - 1][a] == x;
    assert names[a] == x && names[|names| - 1] == names[|names| - 1];
  }

  lemma PositionsFollow(ps: seq<Plugin>, names: seq<string>, i: nat, j: nat, a: nat, b: nat)
    requires FollowsNames(ps, names) && Distinct(names) && i < |ps| && j < |ps|
    requires a < |names| && b < |names| && names[a] == ps[i].name && names[b] == ps[j].name
    ensures i < j ==> a < b
    ensures i == j ==> a == b
  {
    if i < j {
      assert Precedes(names, ps[i].name, ps[j].name);
    }
  }

  /** The reordered data producers keep every producer before its consumers, and none that is ordered is lost. */
  lemma ReorderedKeepsDependencies(g: Graph<string>, order: seq<string>, plugins: seq<Plugin>)
    requires TopologicalOrder(g, order)
    ensures var m := ByName(plugins);
            var ps := Selected(m, order);
            && (forall i, j :: 0 <= i < |ps| && 0 <= j < |ps| && Edge(g, ps[i].name, ps[j].name) ==> j < i)
            && (forall x :: x in ps <==> x.name in Nodes(g) && x.name in m && m[x.name] == x)
  {
    var m := ByName(plugins);
    var ps := Selected(m, order);
    SelectedFollow(m, order);
    SelectedAreNamed(m, order);
    forall i, j | 0 <= i < |ps| && 0 <= j < |ps| && Edge(g, ps[i].name, ps[j].name)
      ensures j < i
    {
      assert ps[i].name in Elements(order) && ps[j].name in Elements(order);
      var a: nat :| a < |order| && order[a] == ps[i].name;
      var b: nat :| b < |order| && order[b] == ps[j].name;
      assert Edge(g, order[a], order[b]);
      PositionsFollow(ps, order, i, j, a, b);
    }
    forall x
      ensures x in ps <==> x.name in Nodes(g) && x.name in m && m[x.name] == x
    {
      assert x.name in order <==> x.name in Elements(order);
    }
  }
}
