/** The datastore's endpoints: one per pod and active rank, kept up to date pod by pod and by a full resync. */
module Datastores {
  import opened EndpointNames
  import opened Options

  /** A pod; `annotated` are the numbers read from its active-ports annotation, when it has one. */
  datatype Pod = Pod(namespace: string, name: string, ip: string, ready: bool, annotated: Option<seq<int>>)

  /** An endpoint object: its identity, and the metadata that updates overwrite. */
  datatype Endpoint = Endpoint(id: nat, podName: string, address: string, port: int)

  type Endpoints = map<NamespacedName, Endpoint>

  // ---------------------------------------------------------------------------------------------
  // The endpoints a pod should have.

  function Name(pod: Pod, rank: nat): NamespacedName {
    EndpointName(pod.namespace, pod.name, rank)
  }

  /** Without the annotation every target port is active; with it, those it lists. */
  predicate IsActive(pod: Pod, ports: seq<int>, port: int) {
    port in ports && (pod.annotated.None? || (port > 0 && port in pod.annotated.value))
  }

  method ExtractActivePorts(pod: Pod, ports: seq<int>) returns (active: set<int>)
    ensures forall p :: p in active <==>
              p in ports && (pod.annotated.None? || (p > 0 && p in pod.annotated.value))
    ensures forall p :: p in active <==> IsActive(pod, ports, p)
  {
    if pod.annotated.None? {
      return set p | p in ports;
    }
    active := {};
    var numbers := pod.annotated.value;
    for i := 0 to |numbers|
      invariant forall p :: p in active <==> p in ports && p > 0 && p in numbers[..i]
    {
      if numbers[i] > 0 && numbers[i] in ports {
        active := active + {numbers[i]};
      }
      assert numbers[..i + 1] == numbers[..i] + [numbers[i]];
    }
    assert numbers[..|numbers|] == numbers;
  }

  /** The names of the first `n` ranks whose port is, or is not, active. */
  ghost function Ranked(pod: Pod, ports: seq<int>, n: nat, active: bool): set<NamespacedName>
    requires n <= |ports|
  {
    set i | 0 <= i < n && IsActive(pod, ports, ports[i]) == active :: Name(pod, i)
  }

  lemma RankedNext(pod: Pod, ports: seq<int>, n: nat, active: bool)
    requires n < |ports|
    ensures Ranked(pod, ports, n + 1, active) ==
            Ranked(pod, ports, n, active) + if IsActive(pod, ports, ports[n]) == active then {Name(pod, n)} else {}
    ensures Name(pod, n) !in Ranked(pod, ports, n, true)
    ensures Name(pod, n) !in Ranked(pod, ports, |ports|, !IsActive(pod, ports, ports[n]))
  {
    forall i | 0 <= i < |ports| && Name(pod, i) == Name(pod, n)
      ensures i == n
    {
      EndpointNameIsInjective(pod.namespace, pod.name, i, pod.namespace, pod.name, n);
    }
    var all := Ranked(pod, ports, n + 1, active);
    forall x
      ensures x in all <==> x in Ranked(pod, ports, n, active) ||
                            (x == Name(pod, n) && IsActive(pod, ports, ports[n]) == active)
    {
      if x == Name(pod, n) && IsActive(pod, ports, ports[n]) == active {
        assert Name(pod, n) in all;
      }
      if x in Ranked(pod, ports, n, active) {
        var i :| 0 <= i < n && IsActive(pod, ports, ports[i]) == active && x == Name(pod, i);
        assert x in all;
      }
    }
  }

  // ---------------------------------------------------------------------------------------------
  // Released endpoints.

  ghost predicate Distinct(s: seq<nat>) {
    forall i, j :: 0 <= i < j < |s| ==> s[i] != s[j]
  }

  ghost function IdsOf(m: Endpoints, names: set<NamespacedName>): set<nat> {
    set n | n in names && n in m :: m[n].id
  }

  /** Every endpoint object is under one name or released, and released once. */
  ghost predicate Accounted(m: Endpoints, released: seq<nat>, next: nat) {
    && (forall a, b :: a in m && b in m && m[a].id == m[b].id ==> a == b)
    && (forall a :: a in m ==> m[a].id < next && m[a].id !in released)
    && (forall i :: i in released ==> i < next)
    && Distinct(released)
  }

  /** `released` has grown by exactly the objects of the names that are gone. */
  ghost predicate ReleasedExactly(m: Endpoints, n: Endpoints, before: seq<nat>, released: seq<nat>) {
    before <= released && (set i | i in released[|before|..]) == IdsOf(m, m.Keys - n.Keys)
  }

  /** Surviving names keep their object. */
  ghost predicate KeepsIdentity(m: Endpoints, n: Endpoints) {
    forall a :: a in m && a in n ==> n[a].id == m[a].id
  }

  lemma ReleasesCompose(m: Endpoints, n: Endpoints, o: Endpoints, r0: seq<nat>, r1: seq<nat>, r2: seq<nat>)
    requires ReleasedExactly(m, n, r0, r1) && ReleasedExactly(n, o, r1, r2) && KeepsIdentity(m, n)
    requires n.Keys - o.Keys <= m.Keys && (m.Keys - n.Keys) !! o.Keys
    ensures ReleasedExactly(m, o, r0, r2)
  {
    assert r2[|r0|..] == r1[|r0|..] + r2[|r1|..];
    forall i
      ensures i in IdsOf(m, m.Keys - o.Keys) <==> i in IdsOf(m, m.Keys - n.Keys) || i in IdsOf(n, n.Keys - o.Keys)
    {
      if i in IdsOf(m, m.Keys - o.Keys) {
        var a :| a in m.Keys - o.Keys && m[a].id == i;
        assert a in n ==> a in n.Keys - o.Keys && n[a].id == i;
        assert a !in n ==> a in m.Keys - n.Keys;
      }
      if i in IdsOf(m, m.Keys - n.Keys) {
        var a :| a in m.Keys - n.Keys && m[a].id == i;
        assert a in m.Keys - o.Keys;
      }
      if i in IdsOf(n, n.Keys - o.Keys) {
        var a :| a in n.Keys - o.Keys && n[a].id == i;
        assert a in m.Keys - o.Keys && m[a].id == i;
      }
    }
    assert (set i | i in r2[|r0|..]) == (set i | i in r1[|r0|..]) + (set i | i in r2[|r1|..]);
  }

  lemma ReleasesNone(m: Endpoints, n: Endpoints, released: seq<nat>)
    requires m.Keys <= n.Keys
    ensures ReleasedExactly(m, n, released, released)
  {
    assert m.Keys - n.Keys == {};
    assert released[|released|..] == [];
  }

  class Datastore {
    /** Whether the factory gives an endpoint for a name; it gives none while an old collector still runs. */
    const creates: NamespacedName -> bool
    var pods: Endpoints
    var released: seq<nat>
    var created: nat

    ghost predicate Valid()
      reads this
    {
      Accounted(pods, released, created)
    }

    constructor (creates: NamespacedName -> bool)
      ensures Valid() && pods == map[] && released == [] && this.creates == creates
    {
      this.creates := creates;
      pods, released, created := map[], [], 0;
    }

    ghost function Creatable(names: set<NamespacedName>): set<NamespacedName> {
      set n | n in names && creates(n)
    }

    method Release(name: NamespacedName)
      requires Valid() && name in pods
      modifies this`pods, this`released
      ensures Valid() && pods == old(pods) - {name}
      ensures ReleasedExactly(old(pods), pods, old(released), released)
    {
      var id := pods[name].id;
      pods := pods - {name};
      released := released + [id];
      assert released[|old(released)|..] == [id];
      assert old(pods).Keys - pods.Keys == {name};
    }

    /** Releases one more of the endpoints of `m`. */
    method ReleaseFrom(name: NamespacedName, ghost m: Endpoints, ghost before: seq<nat>)
      requires Valid() && name in pods && name in m
      requires KeepsIdentity(m, pods) && ReleasedExactly(m, pods, before, released)
      modifies this`pods, this`released
      ensures Valid() && pods == old(pods) - {name}
      ensures KeepsIdentity(m, pods) && ReleasedExactly(m, pods, before, released)
    {
      Release(name);
      ReleasesCompose(m, old(pods), pods, before, old(released), released);
    }

    /** Creates the endpoint of one rank, if it is missing, and brings its metadata up to date. */
    method Ensure(pod: Pod, rank: nat, port: int) returns (existed: bool)
      requires Valid()
      modifies this`pods, this`created
      ensures Valid() && KeepsIdentity(old(pods), pods)
      ensures pods.Keys == old(pods).Keys + Creatable({Name(pod, rank)})
      ensures forall n :: n in old(pods) && n != Name(pod, rank) ==> pods[n] == old(pods)[n]
      ensures Name(pod, rank) in pods ==> UpToDate(pods, pod, rank, port)
      ensures existed <==> pods.Keys == old(pods).Keys
    {
      var name := Name(pod, rank);
      existed := true;
      if name !in pods {
        if !creates(name) {
          return;
        }
        pods := pods[name := Endpoint(created, "", "", 0)];
        created := created + 1;
        existed := false;
      }
      pods := pods[name := Endpoint(pods[name].id, pod.name, pod.ip, port)];
    }

    method EnsureActive(pod: Pod, ports: seq<int>, active: set<int>) returns (existed: bool)
      requires Valid() && forall p :: p in active <==> IsActive(pod, ports, p)
      modifies this`pods, this`created
      ensures Valid() && KeepsIdentity(old(pods), pods)
      ensures pods.Keys == old(pods).Keys + Creatable(Ranked(pod, ports, |ports|, true))
      ensures AllUpToDate(pods, pod, ports, |ports|) && SameElsewhere(old(pods), pods, AllNames(pod, ports))
      ensures existed <==> pods.Keys == old(pods).Keys
    {
      existed := true;
      for i := 0 to |ports|
        invariant Ensured(old(pods), pod, ports, i)
        invariant existed <==> pods.Keys == old(pods).Keys
      {
        if ports[i] in active {
          var found := EnsureNext(old(pods), pod, ports, i);
          existed := existed && found;
        } else {
          RankedNext(pod, ports, i, true);
        }
      }
    }

    /** The first `i` ranks of the pod have been dealt with, starting from `before`. */
    ghost predicate Ensured(before: Endpoints, pod: Pod, ports: seq<int>, i: nat)
      requires i <= |ports|
      reads this
    {
      && Valid() && KeepsIdentity(before, pods)
      && pods.Keys == before.Keys + Creatable(Ranked(pod, ports, i, true))
      && AllUpToDate(pods, pod, ports, i) && SameElsewhere(before, pods, AllNames(pod, ports))
    }

    method EnsureNext(ghost before: Endpoints, pod: Pod, ports: seq<int>, i: nat) returns (found: bool)
      requires i < |ports| && IsActive(pod, ports, ports[i]) && Ensured(before, pod, ports, i)
      modifies this`pods, this`created
      ensures Ensured(before, pod, ports, i + 1)
      ensures old(pods).Keys <= pods.Keys && (found <==> pods.Keys == old(pods).Keys)
    {
      RankedNext(pod, ports, i, true);
      found := Ensure(pod, i, ports[i]);
      EnsureKeeps(old(pods), pods, pod, ports, i);
      assert Creatable(Ranked(pod, ports, i + 1, true)) ==
             Creatable(Ranked(pod, ports, i, true)) + Creatable({Name(pod, i)});
    }

    method RemoveInactive(pod: Pod, ports: seq<int>, active: set<int>)
      requires Valid() && forall p :: p in active <==> IsActive(pod, ports, p)
      modifies this`pods, this`released
      ensures Valid() && pods == old(pods) - Ranked(pod, ports, |ports|, false)
      ensures ReleasedExactly(old(pods), pods, old(released), released)
    {
      ReleasesNone(pods, pods, released);
      for i := 0 to |ports|
        invariant Valid() && pods == old(pods) - Ranked(pod, ports, i, false)
        invariant ReleasedExactly(old(pods), pods, old(released), released)
      {
        RankedNext(pod, ports, i, false);
        if ports[i] !in active && Name(pod, i) in pods {
          ReleaseFrom(Name(pod, i), old(pods), old(released));
        }
      }
    }

    /** Brings the endpoints of one pod up to date; `existed` when no endpoint was created. */
    method PodUpdateOrAddIfNotExist(pod: Pod, pool: Option<seq<int>>) returns (existed: bool)
      requires Valid()
      modifies this
      ensures Valid()
      ensures pool.None? ==> existed && pods == old(pods) && released == old(released)
      ensures pool.Some? ==>
                Updated(old(pods), pods, pod, pool.value) && AllUpToDate(pods, pod, pool.value, |pool.value|)
      ensures ReleasedExactly(old(pods), pods, old(released), released) && KeepsIdentity(old(pods), pods)
      ensures existed <==> pods.Keys <= old(pods).Keys
    {
      ReleasesNone(pods, pods, released);
      if pool.None? {
        return true;
      }
      var ports := pool.value;
      var active := ExtractActivePorts(pod, ports);
      existed := EnsureActive(pod, ports, active);
      ghost var mid := pods;
      RemoveInactive(pod, ports, active);
      RankedApart(pod, ports);
      ReleasesNone(old(pods), mid, old(released));
      ReleasesCompose(old(pods), mid, pods, old(released), old(released), released);
    }

    /** The pod's ranks are now those active before or creatable; all other endpoints are as they were. */
    ghost predicate Updated(before: Endpoints, after: Endpoints, pod: Pod, ports: seq<int>) {
      && after.Keys == before.Keys + Creatable(Ranked(pod, ports, |ports|, true)) - Ranked(pod, ports, |ports|, false)
      && SameElsewhere(before, after, AllNames(pod, ports))
    }

    /** The endpoints after the first `j` pods of a resync that started from `before`. */
    ghost predicate Resynced(before: Endpoints, after: Endpoints, list: seq<Pod>, ports: seq<int>, j: nat)
      requires j <= |list|
    {
      forall n :: n in after <==>
        if n in Names(list, ports, j) then n in Wanted(list, ports, j) && (n in before || creates(n)) else n in before
    }

    /**
     * A resync with a successful listing leaves exactly the active ranks of the ready pods (those that existed or could
     * be created), all with the metadata of their pod; survivors keep their object and each removed endpoint is
     * released once. A failed listing changes nothing.
     */
    method PodResyncAll(listing: Option<seq<Pod>>, ports: seq<int>) returns (ok: bool)
      requires Valid() && (listing.Some? ==> DistinctPods(listing.value))
      modifies this
      ensures Valid() && ok == listing.Some?
      ensures !ok ==> pods == old(pods) && released == old(released)
      ensures ok ==> var wanted := Wanted(listing.value, ports, |listing.value|);
                     pods.Keys == wanted * (old(pods).Keys + Creatable(wanted))
      ensures ok ==> ListUpToDate(pods, listing.value, ports, |listing.value|)
      ensures KeepsIdentity(old(pods), pods)
      ensures ReleasedExactly(old(pods), pods, old(released), released)
    {
      ReleasesNone(pods, pods, released);
      if listing.None? {
        return false;
      }
      var list := listing.value;
      var activeEndpoints := UpdateListed(list, ports);
      ghost var swept := pods;
      Sweep(activeEndpoints, old(pods), old(released));
      FewerUpToDate(swept, pods, list, ports);
      WantedIsNamed(list, ports, |list|);
      assert forall n :: n in pods <==>
        n in Wanted(list, ports, |list|) && (n in old(pods) || n in Creatable(Wanted(list, ports, |list|)));
      return true;
    }

    /** Updates the ready pods of the list, and returns the names of all their ranks. */
    method UpdateListed(list: seq<Pod>, ports: seq<int>) returns (names: set<NamespacedName>)
      requires Valid() && DistinctPods(list)
      modifies this
      ensures Valid() && names == Names(list, ports, |list|)
      ensures Resynced(old(pods), pods, list, ports, |list|) && ListUpToDate(pods, list, ports, |list|)
      ensures KeepsIdentity(old(pods), pods) && ReleasedExactly(old(pods), pods, old(released), released)
      ensures pods.Keys - old(pods).Keys <= names
    {
      names := {};
      ReleasesNone(pods, pods, released);
      for j := 0 to |list|
        invariant Valid() && names == Names(list, ports, j) && Resynced(old(pods), pods, list, ports, j)
        invariant KeepsIdentity(old(pods), pods) && ReleasedExactly(old(pods), pods, old(released), released)
        invariant pods.Keys - old(pods).Keys <= names && ListUpToDate(pods, list, ports, j)
      {
        NamesNext(list, ports, j);
        if list[j].ready {
          names := names + AllNames(list[j], ports);
          ghost var before, gone := pods, released;
          var _ := PodUpdateOrAddIfNotExist(list[j], Some(ports));
          UpdateResyncs(old(pods), before, pods, list, ports, j);
          UpdateKeepsList(before, pods, list, ports, j);
          ReleasesCompose(old(pods), before, pods, old(released), gone, released);
        }
      }
    }

    /** Removes and releases every endpoint whose name is not among `names`. */
    method Sweep(names: set<NamespacedName>, ghost m: Endpoints, ghost before: seq<nat>)
      requires Valid() && KeepsIdentity(m, pods) && ReleasedExactly(m, pods, before, released)
      requires pods.Keys - m.Keys <= names
      modifies this`pods, this`released
      ensures Valid() && pods == old(pods) - (old(pods).Keys - names)
      ensures KeepsIdentity(m, pods) && ReleasedExactly(m, pods, before, released)
    {
      var rest := pods.Keys;
      ghost var gone: set<NamespacedName> := {};
      while rest != {}
        invariant rest <= pods.Keys && Valid()
        invariant pods == old(pods) - gone && gone == old(pods).Keys - rest - names
        invariant KeepsIdentity(m, pods) && ReleasedExactly(m, pods, before, released)
      {
        var n :| n in rest;
        rest := rest - {n};
        if n !in names {
          ReleaseFrom(n, m, before);
          MinusMore(old(pods), gone, n);
          gone := gone + {n};
        }
      }
    }

    lemma UpdateResyncs(before: Endpoints, mid: Endpoints, after: Endpoints, list: seq<Pod>, ports: seq<int>, j: nat)
      requires j < |list| && DistinctPods(list) && list[j].ready
      requires Resynced(before, mid, list, ports, j) && Updated(mid, after, list[j], ports)
      ensures Resynced(before, after, list, ports, j + 1)
      ensures mid.Keys - after.Keys <= before.Keys && (before.Keys - mid.Keys) !! after.Keys
    {
      NamesNext(list, ports, j);
      WantedNext(list, ports, j);
      NamesApart(list, ports, j);
      RankedApart(list[j], ports);
      WantedIsNamed(list, ports, j);
      var names, all := Names(list, ports, j), AllNames(list[j], ports);
      forall n
        ensures n in names + all ==> (n in after <==> n in Wanted(list, ports, j + 1) && (n in before || creates(n)))
        ensures n !in names + all ==> (n in after <==> n in before)
        ensures n in mid && n !in after ==> n in before
        ensures n in before && n !in mid ==> n !in after
      {
        assert n in mid <==>
          if n in names then n in Wanted(list, ports, j) && (n in before || creates(n)) else n in before;
      }
    }

    method PodDelete(podName: string)
      requires Valid()
      modifies this
      ensures Valid() && pods == old(pods) - Belonging(old(pods), podName)
      ensures ReleasedExactly(old(pods), pods, old(released), released)
    {
      ReleasesNone(pods, pods, released);
      var rest := pods.Keys;
      ghost var gone: set<NamespacedName> := {};
      while rest != {}
        invariant rest <= pods.Keys && Valid()
        invariant pods == old(pods) - gone && gone == Belonging(old(pods), podName) - rest
        invariant ReleasedExactly(old(pods), pods, old(released), released)
      {
        var n :| n in rest;
        rest := rest - {n};
        if pods[n].podName == podName {
          ReleaseFrom(n, old(pods), old(released));
          MinusMore(old(pods), gone, n);
          gone := gone + {n};
        }
      }
    }
  }

  /** The names of the endpoints whose metadata names the pod. */
  ghost function Belonging(m: Endpoints, podName: string): set<NamespacedName> {
    set n | n in m && m[n].podName == podName
  }

  lemma MinusMore(m: Endpoints, gone: set<NamespacedName>, n: NamespacedName)
    ensures (m - gone) - {n} == m - (gone + {n})
  {
  }

  ghost predicate DistinctPods(list: seq<Pod>) {
    forall i, j :: 0 <= i < j < |list| ==> (list[i].namespace, list[i].name) != (list[j].namespace, list[j].name)
  }

  function AllNames(pod: Pod, ports: seq<int>): set<NamespacedName> {
    set i | 0 <= i < |ports| :: Name(pod, i)
  }

  /** The names of all ranks of the ready ones among the first `j` pods. */
  ghost function Names(list: seq<Pod>, ports: seq<int>, j: nat): set<NamespacedName>
    requires j <= |list|
  {
    if j == 0 then {}
    else Names(list, ports, j - 1) + if list[j - 1].ready then AllNames(list[j - 1], ports) else {}
  }

  /** The names of the active ranks of the ready ones among the first `j` pods. */
  ghost function Wanted(list: seq<Pod>, ports: seq<int>, j: nat): set<NamespacedName>
    requires j <= |list|
  {
    if j == 0 then {}
    else Wanted(list, ports, j - 1) + if list[j - 1].ready then Ranked(list[j - 1], ports, |ports|, true) else {}
  }

  lemma NamesNext(list: seq<Pod>, ports: seq<int>, j: nat)
    requires j < |list|
    ensures Names(list, ports, j + 1) == Names(list, ports, j) + if list[j].ready then AllNames(list[j], ports) else {}
  {
  }

  lemma WantedNext(list: seq<Pod>, ports: seq<int>, j: nat)
    requires j < |list|
    ensures Wanted(list, ports, j + 1) ==
            Wanted(list, ports, j) + if list[j].ready then Ranked(list[j], ports, |ports|, true) else {}
    ensures AllNames(list[j], ports) == Ranked(list[j], ports, |ports|, true) + Ranked(list[j], ports, |ports|, false)
  {
  }

  lemma {:induction false} WantedIsNamed(list: seq<Pod>, ports: seq<int>, j: nat)
    requires j <= |list|
    ensures Wanted(list, ports, j) <= Names(list, ports, j)
  {
    if j > 0 {
      WantedIsNamed(list, ports, j - 1);
      WantedNext(list, ports, j - 1);
    }
  }

  lemma {:induction false} NameComesFrom(list: seq<Pod>, ports: seq<int>, j: nat, n: NamespacedName)
    requires j <= |list| && n in Names(list, ports, j)
    ensures exists k, i: nat :: 0 <= k < j && i < |ports| && n == Name(list[k], i)
  {
    if n in Names(list, ports, j - 1) {
      NameComesFrom(list, ports, j - 1, n);
    } else {
      assert n in AllNames(list[j - 1], ports);
      var i: nat :| i < |ports| && n == Name(list[j - 1], i);
    }
  }

  /** The names of a pod are not those of another pod. */
  lemma NamesApart(list: seq<Pod>, ports: seq<int>, j: nat)
    requires j < |list| && DistinctPods(list)
    ensures Names(list, ports, j) !! AllNames(list[j], ports)
  {
    forall n | n in Names(list, ports, j) && n in AllNames(list[j], ports)
      ensures false
    {
      NameComesFrom(list, ports, j, n);
      var k, i: nat :| 0 <= k < j && i < |ports| && n == Name(list[k], i);
      var l: nat :| l < |ports| && n == Name(list[j], l);
      EndpointNameIsInjective(list[k].namespace, list[k].name, i, list[j].namespace, list[j].name, l);
    }
  }

  lemma RankedApart(pod: Pod, ports: seq<int>)
    ensures Ranked(pod, ports, |ports|, true) !! Ranked(pod, ports, |ports|, false)
  {
    forall i, j | 0 <= i < |ports| && 0 <= j < |ports| && Name(pod, i) == Name(pod, j)
      ensures i == j
    {
      EndpointNameIsInjective(pod.namespace, pod.name, i, pod.namespace, pod.name, j);
    }
  }

  predicate UpToDate(m: Endpoints, pod: Pod, rank: nat, port: int)
    requires Name(pod, rank) in m
  {
    var e := m[Name(pod, rank)];
    e.podName == pod.name && e.address == pod.ip && e.port == port
  }

  /** The endpoints of the first `n` active ranks, where there are any, carry the pod's metadata. */
  ghost predicate AllUpToDate(m: Endpoints, pod: Pod, ports: seq<int>, n: nat)
    requires n <= |ports|
  {
    forall i :: 0 <= i < n && IsActive(pod, ports, ports[i]) && Name(pod, i) in m ==> UpToDate(m, pod, i, ports[i])
  }

  /** Endpoints of other names are the same in both. */
  ghost predicate SameElsewhere(before: Endpoints, after: Endpoints, names: set<NamespacedName>) {
    forall n :: n !in names ==> (n in before <==> n in after) && (n in before ==> after[n] == before[n])
  }

  /** Every endpoint of an active rank of a ready pod among the first `j` carries the metadata of its pod. */
  ghost predicate ListUpToDate(m: Endpoints, list: seq<Pod>, ports: seq<int>, j: nat)
    requires j <= |list|
  {
    forall i :: 0 <= i < j && list[i].ready ==> AllUpToDate(m, list[i], ports, |ports|)
  }

  lemma PodsApart(list: seq<Pod>, ports: seq<int>, i: nat, j: nat)
    requires i < j < |list| && DistinctPods(list)
    ensures AllNames(list[i], ports) !! AllNames(list[j], ports)
  {
    forall k: nat, l: nat | k < |ports| && l < |ports|
      ensures Name(list[i], k) != Name(list[j], l)
    {
      if Name(list[i], k) == Name(list[j], l) {
        EndpointNameIsInjective(list[i].namespace, list[i].name, k, list[j].namespace, list[j].name, l);
      }
    }
  }

  lemma ElsewhereStaysUpToDate(before: Endpoints, after: Endpoints, pod: Pod, ports: seq<int>,
                               names: set<NamespacedName>)
    requires SameElsewhere(before, after, names) && AllNames(pod, ports) !! names
    requires AllUpToDate(before, pod, ports, |ports|)
    ensures AllUpToDate(after, pod, ports, |ports|)
  {
    forall i | 0 <= i < |ports| && IsActive(pod, ports, ports[i]) && Name(pod, i) in after
      ensures UpToDate(after, pod, i, ports[i])
    {
      assert Name(pod, i) in AllNames(pod, ports);
    }
  }

  lemma UpdateKeepsList(before: Endpoints, after: Endpoints, list: seq<Pod>, ports: seq<int>, j: nat)
    requires j < |list| && DistinctPods(list) && ListUpToDate(before, list, ports, j)
    requires SameElsewhere(before, after, AllNames(list[j], ports)) && AllUpToDate(after, list[j], ports, |ports|)
    ensures ListUpToDate(after, list, ports, j + 1)
  {
    forall i | 0 <= i < j && list[i].ready
      ensures AllUpToDate(after, list[i], ports, |ports|)
    {
      PodsApart(list, ports, i, j);
      ElsewhereStaysUpToDate(before, after, list[i], ports, AllNames(list[j], ports));
    }
  }

  lemma FewerUpToDate(before: Endpoints, after: Endpoints, list: seq<Pod>, ports: seq<int>)
    requires ListUpToDate(before, list, ports, |list|)
    requires forall n :: n in after ==> n in before && after[n] == before[n]
    ensures ListUpToDate(after, list, ports, |list|)
  {
    forall i | 0 <= i < |list| && list[i].ready
      ensures AllUpToDate(after, list[i], ports, |ports|)
    {
      assert AllUpToDate(before, list[i], ports, |ports|);
    }
  }

  lemma EnsureKeeps(before: Endpoints, after: Endpoints, pod: Pod, ports: seq<int>, n: nat)
    requires n < |ports| && AllUpToDate(before, pod, ports, n)
    requires forall x :: x in before && x != Name(pod, n) ==> x in after && after[x] == before[x]
    requires forall x :: x in after && x != Name(pod, n) ==> x in before
    requires Name(pod, n) in after ==> UpToDate(after, pod, n, ports[n])
    ensures AllUpToDate(after, pod, ports, n + 1)
  {
    forall i | 0 <= i < n && IsActive(pod, ports, ports[i]) && Name(pod, i) in after
      ensures UpToDate(after, pod, i, ports[i])
    {
      if Name(pod, i) == Name(pod, n) {
        EndpointNameIsInjective(pod.namespace, pod.name, i, pod.namespace, pod.name, n);
      }
    }
  }
}
