/** The store of model rewrite rules: an index by exact model name and a list of generic rules, oldest first. */
module RewriteStores {
  import opened Options

  /** A rule: the models it names (a match may name none) and what it rewrites to. */
  datatype Rule = Rule(matches: seq<Option<string>>, targets: seq<string>)

  datatype Rewrite = Rewrite(name: string, created: int, rules: seq<Rule>)

  datatype DatedRule = DatedRule(rule: Rule, created: int, parent: string)

  type Index = map<string, seq<DatedRule>>

  predicate IsGeneric(r: Rule) {
    |r.matches| == 0
  }

  function ExactModels(r: Rule): set<string> {
    set m | m in r.matches && m.Some? :: m.value
  }

  // ---------------------------------------------------------------------------------------------
  // The reference: a scan of the stored rewrites.

  /** `r` is a rule of a stored rewrite. */
  predicate Stored(all: map<string, Rewrite>, r: DatedRule) {
    r.parent in all && r.created == all[r.parent].created && r.rule in all[r.parent].rules
  }

  predicate Exact(all: map<string, Rewrite>, model: string, r: DatedRule) {
    Stored(all, r) && model in ExactModels(r.rule)
  }

  predicate Generic(all: map<string, Rewrite>, r: DatedRule) {
    Stored(all, r) && IsGeneric(r.rule)
  }

  /** An oldest rule that names the model, or else an oldest generic rule, or else none. */
  ghost predicate IsBest(all: map<string, Rewrite>, model: string, best: Option<DatedRule>) {
    if exists r :: Exact(all, model, r) then
      && best.Some? && Exact(all, model, best.value)
      && forall r :: Exact(all, model, r) ==> best.value.created <= r.created
    else if exists r :: Generic(all, r) then
      best.Some? && Generic(all, best.value) && forall r :: Generic(all, r) ==> best.value.created <= r.created
    else best == None
  }

  // ---------------------------------------------------------------------------------------------
  // Lists of rules.

  predicate OldestFirst(rules: seq<DatedRule>) {
    forall i, j :: 0 <= i < j < |rules| ==> rules[i].created <= rules[j].created
  }

  function Rules(index: Index, model: string): seq<DatedRule> {
    if model in index then index[model] else []
  }

  function Without(rules: seq<DatedRule>, parent: string): seq<DatedRule> {
    if rules == [] then []
    else
      var last := rules[|rules| - 1];
      Without(rules[..|rules| - 1], parent) + if last.parent != parent then [last] else []
  }

  lemma {:induction false} WithoutFacts(rules: seq<DatedRule>, parent: string)
    ensures forall r :: r in Without(rules, parent) <==> r in rules && r.parent != parent
    ensures OldestFirst(rules) ==> OldestFirst(Without(rules, parent))
  {
    if rules != [] {
      var front := rules[..|rules| - 1];
      WithoutFacts(front, parent);
      assert rules == front + [rules[|rules| - 1]];
      assert forall r :: OldestFirst(rules) && r in front ==> r.created <= rules[|rules| - 1].created;
    }
  }

  /** Puts the rules in order; rules of the same age may end up in any order. */
  method SortByAge(rules: seq<DatedRule>) returns (sorted: seq<DatedRule>)
    ensures OldestFirst(sorted) && multiset(sorted) == multiset(rules)
  {
    sorted := [];
    for i := 0 to |rules|
      invariant OldestFirst(sorted) && multiset(sorted) == multiset(rules[..i])
    {
      sorted := InsertByAge(sorted, rules[i]);
      assert rules[..i + 1] == rules[..i] + [rules[i]];
    }
    assert rules[..|rules|] == rules;
  }

  method InsertByAge(rules: seq<DatedRule>, r: DatedRule) returns (next: seq<DatedRule>)
    requires OldestFirst(rules)
    ensures OldestFirst(next) && multiset(next) == multiset(rules) + multiset{r}
  {
    var k := |rules|;
    while k > 0 && r.created < rules[k - 1].created
      invariant 0 <= k <= |rules| && forall j :: k <= j < |rules| ==> r.created < rules[j].created
    {
      k := k - 1;
    }
    next := rules[..k] + [r] + rules[k..];
    Splice(rules, k, r);
  }

  lemma SpliceAt(rules: seq<DatedRule>, k: nat, r: DatedRule, i: nat)
    requires k <= |rules| && i <= |rules|
    ensures (rules[..k] + [r] + rules[k..])[i] == if i < k then rules[i] else if i == k then r else rules[i - 1]
  {
  }

  lemma Splice(rules: seq<DatedRule>, k: nat, r: DatedRule)
    requires OldestFirst(rules) && k <= |rules|
    requires k > 0 ==> rules[k - 1].created <= r.created
    requires k < |rules| ==> r.created <= rules[k].created
    ensures OldestFirst(rules[..k] + [r] + rules[k..])
    ensures multiset(rules[..k] + [r] + rules[k..]) == multiset(rules) + multiset{r}
  {
    var next := rules[..k] + [r] + rules[k..];
    forall i, j | 0 <= i < j < |next|
      ensures next[i].created <= next[j].created
    {
      SpliceAt(rules, k, r, i);
      SpliceAt(rules, k, r, j);
      SplicedOrder(rules, k, r, i, j);
    }
    SplicedRules(rules, k, r);
  }

  lemma SplicedRules(rules: seq<DatedRule>, k: nat, r: DatedRule)
    requires k <= |rules|
    ensures multiset(rules[..k] + [r] + rules[k..]) == multiset(rules) + multiset{r}
  {
    assert rules == rules[..k] + rules[k..];
  }

  lemma SplicedOrder(rules: seq<DatedRule>, k: nat, r: DatedRule, i: nat, j: nat)
    requires OldestFirst(rules) && k <= |rules| && i < j <= |rules|
    requires k > 0 ==> rules[k - 1].created <= r.created
    requires k < |rules| ==> r.created <= rules[k].created
    ensures (if i < k then rules[i] else if i == k then r else rules[i - 1]).created <=
            (if j < k then rules[j] else if j == k then r else rules[j - 1]).created
  {
  }

  lemma SameRules(a: seq<DatedRule>, b: seq<DatedRule>)
    requires multiset(a) == multiset(b)
    ensures forall r :: r in a <==> r in b
  {
    assert forall r :: r in a <==> r in multiset(a);
    assert forall r :: r in b <==> r in multiset(b);
  }

  // ---------------------------------------------------------------------------------------------
  // The store.

  /** The index and the generic list hold exactly the rules of the stored rewrites. */
  ghost predicate Holds(exact: Index, generic: seq<DatedRule>, all: map<string, Rewrite>) {
    && (forall r :: r in generic <==> Generic(all, r))
    && (forall m, r :: r in Rules(exact, m) <==> Exact(all, m, r))
  }

  ghost predicate Sorted(exact: Index, generic: seq<DatedRule>) {
    OldestFirst(generic) && forall m :: m in exact ==> OldestFirst(exact[m])
  }

  class ModelRewriteStore {
    var genericRules: seq<DatedRule>
    var rulesByExactModelMatch: Index
    var allRewrites: map<string, Rewrite>

    ghost predicate Valid()
      reads this
    {
      Holds(rulesByExactModelMatch, genericRules, allRewrites) && Sorted(rulesByExactModelMatch, genericRules)
    }

    constructor ()
      ensures Valid() && allRewrites == map[]
    {
      genericRules, rulesByExactModelMatch, allRewrites := [], map[], map[];
    }

    method GetRule(model: string) returns (best: Option<DatedRule>)
      requires Valid()
      ensures IsBest(allRewrites, model, best)
    {
      if model in rulesByExactModelMatch && |rulesByExactModelMatch[model]| > 0 {
        var rules := rulesByExactModelMatch[model];
        assert rules[0] in Rules(rulesByExactModelMatch, model);
        forall r | Exact(allRewrites, model, r)
          ensures rules[0].created <= r.created
        {
          assert r in Rules(rulesByExactModelMatch, model);
        }
        return Some(rules[0]);
      }
      assert Rules(rulesByExactModelMatch, model) == [];
      assert forall r :: !Exact(allRewrites, model, r);
      if |genericRules| > 0 {
        assert genericRules[0] in genericRules;
        return Some(genericRules[0]);
      }
      return None;
    }

    /** Stores a rewrite in place of one with the same name. */
    method Set(rw: Rewrite)
      requires Valid()
      modifies this
      ensures Valid() && allRewrites == old(allRewrites)[rw.name := rw]
    {
      if rw.name in allRewrites {
        DeleteInternal(rw.name);
      }
      ghost var base := allRewrites;
      allRewrites := allRewrites[rw.name := rw];
      AddNone(rulesByExactModelMatch, genericRules, base, rw);
      for i := 0 to |rw.rules|
        invariant Holds(rulesByExactModelMatch, genericRules, base[rw.name := FirstRules(rw, i)])
        invariant allRewrites == base[rw.name := rw]
      {
        var r := DatedRule(rw.rules[i], rw.created, rw.name);
        ghost var exact, generic := rulesByExactModelMatch, genericRules;
        if IsGeneric(r.rule) {
          genericRules := genericRules + [r];
        } else {
          rulesByExactModelMatch := AddExact(rulesByExactModelMatch, ExactModels(r.rule), r);
        }
        AddOne(exact, generic, rulesByExactModelMatch, genericRules, base, rw, i);
      }
      assert FirstRules(rw, |rw.rules|) == rw;
      ghost var exact, generic := rulesByExactModelMatch, genericRules;
      genericRules := SortByAge(genericRules);
      rulesByExactModelMatch := SortAll(rulesByExactModelMatch);
      SortKeeps(exact, generic, rulesByExactModelMatch, genericRules, allRewrites);
    }

    method Delete(name: string)
      requires Valid()
      modifies this
      ensures Valid() && allRewrites == old(allRewrites) - {name}
    {
      DeleteInternal(name);
    }

    method DeleteInternal(n: string)
      requires Valid()
      modifies this
      ensures Valid() && allRewrites == old(allRewrites) - {n}
    {
      if n !in allRewrites {
        return;
      }
      allRewrites := allRewrites - {n};
      genericRules := Keep(genericRules, n);
      rulesByExactModelMatch := KeepAll(rulesByExactModelMatch, n);
      DeleteKeeps(old(rulesByExactModelMatch), rulesByExactModelMatch, old(genericRules), old(allRewrites), n);
    }
  }

  lemma DeleteKeeps(exact: Index, kept: Index, generic: seq<DatedRule>, all: map<string, Rewrite>, n: string)
    requires Holds(exact, generic, all) && Sorted(exact, generic)
    requires forall m :: Rules(kept, m) == Without(Rules(exact, m), n)
    ensures Holds(kept, Without(generic, n), all - {n}) && Sorted(kept, Without(generic, n))
  {
    WithoutFacts(generic, n);
    forall m
      ensures forall r :: r in Rules(kept, m) <==> r in Rules(exact, m) && r.parent != n
      ensures OldestFirst(Rules(kept, m))
    {
      WithoutFacts(Rules(exact, m), n);
    }
    forall r
      ensures Stored(all - {n}, r) <==> Stored(all, r) && r.parent != n
    {
    }
    forall m | m in kept
      ensures OldestFirst(kept[m])
    {
      assert Rules(kept, m) == kept[m];
    }
  }

  method Keep(rules: seq<DatedRule>, n: string) returns (kept: seq<DatedRule>)
    ensures kept == Without(rules, n)
  {
    kept := [];
    for i := 0 to |rules|
      invariant kept == Without(rules[..i], n)
    {
      if rules[i].parent != n {
        kept := kept + [rules[i]];
      }
      assert rules[..i + 1][..i] == rules[..i];
    }
    assert rules[..|rules|] == rules;
  }

  /** Takes the rules of `n` out of every list and drops the lists that become empty. */
  method KeepAll(index: Index, n: string) returns (kept: Index)
    ensures forall m :: Rules(kept, m) == Without(Rules(index, m), n)
  {
    kept := index;
    var rest := index.Keys;
    while rest != {}
      invariant rest <= index.Keys
      invariant forall m :: m in rest ==> m in kept && kept[m] == index[m]
      invariant forall m :: m !in rest ==> Rules(kept, m) == Without(Rules(index, m), n)
    {
      var m :| m in rest;
      rest := rest - {m};
      var rules := Keep(index[m], n);
      kept := if |rules| == 0 then kept - {m} else kept[m := rules];
    }
  }

  function FirstRules(rw: Rewrite, i: nat): Rewrite
    requires i <= |rw.rules|
  {
    rw.(rules := rw.rules[..i])
  }

  lemma AddNone(exact: Index, generic: seq<DatedRule>, base: map<string, Rewrite>, rw: Rewrite)
    requires Holds(exact, generic, base) && rw.name !in base
    ensures Holds(exact, generic, base[rw.name := FirstRules(rw, 0)])
  {
    forall r
      ensures Stored(base[rw.name := FirstRules(rw, 0)], r) <==> Stored(base, r)
    {
    }
  }

  lemma StoredOneMore(base: map<string, Rewrite>, rw: Rewrite, i: nat, r: DatedRule)
    requires i < |rw.rules|
    ensures Stored(base[rw.name := FirstRules(rw, i + 1)], r) <==>
            Stored(base[rw.name := FirstRules(rw, i)], r) || r == DatedRule(rw.rules[i], rw.created, rw.name)
  {
    assert rw.rules[..i + 1] == rw.rules[..i] + [rw.rules[i]];
  }

  /** The lists `exact2` and `generic2` hold one rule more than `exact` and `generic`. */
  lemma AddOne(exact: Index, generic: seq<DatedRule>, exact2: Index, generic2: seq<DatedRule>,
               base: map<string, Rewrite>, rw: Rewrite, i: nat)
    requires i < |rw.rules| && Holds(exact, generic, base[rw.name := FirstRules(rw, i)])
    requires var r := DatedRule(rw.rules[i], rw.created, rw.name);
             && generic2 == generic + (if IsGeneric(r.rule) then [r] else [])
             && forall m :: Rules(exact2, m) == Rules(exact, m) + if m in ExactModels(r.rule) then [r] else []
    ensures Holds(exact2, generic2, base[rw.name := FirstRules(rw, i + 1)])
  {
    var before, after := base[rw.name := FirstRules(rw, i)], base[rw.name := FirstRules(rw, i + 1)];
    forall r
      ensures Stored(after, r) <==> Stored(before, r) || r == DatedRule(rw.rules[i], rw.created, rw.name)
    {
      StoredOneMore(base, rw, i, r);
    }
  }

  method AddExact(index: Index, models: set<string>, r: DatedRule) returns (next: Index)
    ensures forall m :: Rules(next, m) == Rules(index, m) + if m in models then [r] else []
  {
    next := index;
    var rest := models;
    while rest != {}
      invariant rest <= models
      invariant forall m :: Rules(next, m) == Rules(index, m) + if m in models - rest then [r] else []
    {
      var m :| m in rest;
      rest := rest - {m};
      next := next[m := Rules(next, m) + [r]];
    }
  }

  method SortAll(index: Index) returns (sorted: Index)
    ensures sorted.Keys == index.Keys
    ensures forall m :: m in index ==> OldestFirst(sorted[m]) && multiset(sorted[m]) == multiset(index[m])
  {
    sorted := index;
    var rest := index.Keys;
    while rest != {}
      invariant rest <= index.Keys && sorted.Keys == index.Keys
      invariant forall m :: m in rest ==> sorted[m] == index[m]
      invariant forall m :: m in index && m !in rest ==>
                  OldestFirst(sorted[m]) && multiset(sorted[m]) == multiset(index[m])
    {
      var m :| m in rest;
      rest := rest - {m};
      var rules := SortByAge(index[m]);
      sorted := sorted[m := rules];
    }
  }

  lemma SortKeeps(exact: Index, generic: seq<DatedRule>, exact2: Index, generic2: seq<DatedRule>,
                  all: map<string, Rewrite>)
    requires Holds(exact, generic, all)
    requires multiset(generic2) == multiset(generic) && exact2.Keys == exact.Keys
    requires forall m :: m in exact ==> multiset(exact2[m]) == multiset(exact[m])
    ensures Holds(exact2, generic2, all)
  {
    SameRules(generic2, generic);
    forall m
      ensures forall r :: r in Rules(exact2, m) <==> r in Rules(exact, m)
    {
      if m in exact {
        SameRules(exact2[m], exact[m]);
      }
    }
  }
}
