/**
 The lease protocol between any number of pinning goroutines and the garbage collector.
 Every access to the shared map and every critical section of a resource is one atomic step,
 and a run is any interleaving of such steps.
 */
module LeaseProtocol {
  import opened Leasing
  import opened Options

  /** Where one call of the pinning loop stands. */
  datatype Pinner<K> =
    | AtLoad(key: K)
    | AtLoadOrStore(key: K)
    | AtTryPin(key: K, id: nat, isNew: bool)
    | AtRecheck(key: K, id: nat, isNew: bool)
    | AtBackOff(key: K, id: nat)
    | Holding(key: K, id: nat, isNew: bool)
    | Abandoning(key: K, id: nat)
    | Released(key: K)
  {
    predicate HasId() {
      AtTryPin? || AtRecheck? || AtBackOff? || Holding? || Abandoning?
    }

    /** The goroutine has incremented the count of resource `i` and not yet decremented it. */
    predicate Pins(i: nat) {
      (AtRecheck? || AtBackOff? || Holding? || Abandoning?) && id == i
    }

    /** The goroutine created resource `i` and has not yet been told so. */
    predicate Creator(i: nat) {
      (AtTryPin? || AtRecheck?) && isNew && id == i
    }
  }

  /** Where the collector stands within its range over the map. */
  datatype Collector<K> =
    | Between
    | Visiting(key: K, id: nat)
    | Deleting(key: K, id: nat)

  /**
   `leases` and `keys` describe every resource object ever created, by allocation number; `table` is the
   shared map. `told` lists the objects reported as new and `collected` those handed out for cleanup.
   */
  datatype State<K> = State(
    leases: seq<Lease>,
    keys: seq<K>,
    table: map<K, nat>,
    pinners: map<nat, Pinner<K>>,
    gc: Collector<K>,
    told: seq<nat>,
    collected: seq<nat>)

  datatype Action<K> =
    | Enter(t: nat, key: K)
    | Load(t: nat)
    | LoadOrStore(t: nat)
    | Pin(t: nat)
    | Recheck(t: nat)
    | BackOff(t: nat, now: Time)
    | Release(t: nat, now: Time)
    | Visit(key: K)
    | Check(timeout: int, now: Time)
    | Delete
    | DropKey(t: nat)

  function Init<K>(): State<K> {
    State([], [], map[], map[], Between, [], [])
  }

  function At<K>(s: State<K>, t: nat, p: Pinner<K>): State<K> {
    s.(pinners := s.pinners[t := p])
  }

  predicate InBounds<K>(s: State<K>) {
    && |s.keys| == |s.leases|
    && (forall t :: t in s.pinners && s.pinners[t].HasId() ==> s.pinners[t].id < |s.leases|)
    && (s.gc.Visiting? || s.gc.Deleting? ==> s.gc.id < |s.leases|)
  }

  /** Goroutine `t` stores a new resource under a key that was absent. */
  function Created<K>(s: State<K>, t: nat, k: K): State<K> {
    var id := |s.leases|;
    At(s, t, AtTryPin(k, id, true)).(
      leases := s.leases + [FRESH], keys := s.keys + [k], table := s.table[k := id])
  }

  /** One step of goroutine `t` through the pinning loop and its later release; `None` when it cannot move. */
  function PinnerStep<K>(s: State<K>, a: Action<K>): Option<State<K>>
    requires InBounds(s)
    requires a.Load? || a.LoadOrStore? || a.Pin? || a.Recheck? || a.BackOff? || a.Release?
  {
    if a.t !in s.pinners then None else
    match (a, s.pinners[a.t])
    case (Load(t), AtLoad(k)) =>
      Some(At(s, t, if k in s.table then AtTryPin(k, s.table[k], false) else AtLoadOrStore(k)))
    case (LoadOrStore(t), AtLoadOrStore(k)) =>
      if k in s.table then Some(At(s, t, AtTryPin(k, s.table[k], false)))
      else Some(Created(s, t, k))
    case (Pin(t), AtTryPin(k, id, isNew)) =>
      var pinned := s.(leases := s.leases[id := AfterTryPin(s.leases[id])]);
      Some(At(pinned, t, if s.leases[id].marked then AtLoad(k) else AtRecheck(k, id, isNew)))
    case (Recheck(t), AtRecheck(k, id, isNew)) =>
      if k in s.table && s.table[k] == id then
        Some(At(s, t, Holding(k, id, isNew)).(told := if isNew then s.told + [id] else s.told))
      else Some(At(s, t, AtBackOff(k, id)))
    case (BackOff(t, now), AtBackOff(k, id)) =>
      Some(At(s, t, AtLoad(k)).(leases := s.leases[id := AfterUnpin(s.leases[id], now)]))
    case (Release(t, now), Holding(k, id, _)) =>
      Some(At(s, t, Released(k)).(leases := s.leases[id := AfterUnpin(s.leases[id], now)]))
    case (Release(t, now), Abandoning(k, id)) =>
      Some(At(s, t, Released(k)).(leases := s.leases[id := AfterUnpin(s.leases[id], now)]))
    case _ => None
  }

  /**
   Goroutine `t`, whose provisioning failed, removes its key from the map, whatever the key maps to by then;
   it gives its own lease up and only has the deferred release left to do.
   */
  function Dropped<K>(s: State<K>, t: nat): State<K>
    requires t in s.pinners && s.pinners[t].Holding?
  {
    var p := s.pinners[t];
    At(s, t, Abandoning(p.key, p.id)).(table := s.table - {p.key})
  }

  /** One step of the collector. */
  function CollectorStep<K>(s: State<K>, a: Action<K>): Option<State<K>>
    requires InBounds(s)
    requires a.Visit? || a.Check? || a.Delete?
  {
    match (a, s.gc)
    case (Visit(k), Between) =>
      if k in s.table then Some(s.(gc := Visiting(k, s.table[k]))) else None
    case (Check(timeout, now), Visiting(k, id)) =>
      var expired := Expired(s.leases[id], timeout, now);
      Some(s.(leases := s.leases[id := AfterScan(s.leases[id], timeout, now)],
              gc := if expired then Deleting(k, id) else Between))
    case (Delete, Deleting(k, _)) =>
      Some(if k in s.table
           then s.(gc := Between, table := s.table - {k}, collected := s.collected + [s.table[k]])
           else s.(gc := Between))
    case _ => None
  }

  function Next<K>(s: State<K>, a: Action<K>): Option<State<K>> {
    if !InBounds(s) then None else
    match a
    case Enter(t, k) => if t in s.pinners then None else Some(At(s, t, AtLoad(k)))
    case DropKey(t) => if t in s.pinners && s.pinners[t].Holding? then Some(Dropped(s, t)) else None
    case Visit(_) => CollectorStep(s, a)
    case Check(_, _) => CollectorStep(s, a)
    case Delete => CollectorStep(s, a)
    case _ => PinnerStep(s, a)
  }

  /** The state after a run, `None` when some step was not possible. */
  function Exec<K>(s: State<K>, run: seq<Action<K>>): Option<State<K>>
    decreases |run|
  {
    if run == [] then Some(s) else
    match Next(s, run[0])
    case None => None
    case Some(next) => Exec(next, run[1..])
  }

  // ---------------------------------------------------------------------------------------------
  // The invariant.

  function PinsOf<K>(pinners: map<nat, Pinner<K>>, id: nat): set<nat> {
    set t | t in pinners && pinners[t].Pins(id)
  }

  ghost predicate TableSound<K>(s: State<K>)
    requires |s.keys| == |s.leases|
  {
    forall k :: k in s.table ==> s.table[k] < |s.leases| && s.keys[s.table[k]] == k
  }

  /** A resource leaves the map only after it was condemned, and a condemned one is about to leave it. */
  ghost predicate UnmarkedStays<K>(s: State<K>)
    requires |s.keys| == |s.leases|
  {
    && (forall i :: 0 <= i < |s.leases| && !s.leases[i].marked ==>
          s.keys[i] in s.table && s.table[s.keys[i]] == i)
    && (forall k :: k in s.table && s.table[k] < |s.leases| && s.leases[s.table[k]].marked ==>
          s.gc == Deleting(k, s.table[k]))
  }

  ghost predicate CountsHolders<K>(s: State<K>) {
    forall i :: 0 <= i < |s.leases| ==>
      s.leases[i].count == |PinsOf(s.pinners, i)| && (s.leases[i].marked ==> s.leases[i].count == 0)
  }

  ghost predicate PinnersSound<K>(s: State<K>)
    requires |s.keys| == |s.leases|
  {
    forall t :: t in s.pinners ==>
      !s.pinners[t].AtBackOff? && !s.pinners[t].Abandoning?
      && (s.pinners[t].HasId() ==>
            s.pinners[t].id < |s.leases| && s.keys[s.pinners[t].id] == s.pinners[t].key)
  }

  ghost predicate CollectorSound<K>(s: State<K>) {
    && (s.gc.Visiting? || s.gc.Deleting? ==>
          s.gc.key in s.table && s.table[s.gc.key] == s.gc.id && s.gc.id < |s.leases|)
    && (s.gc.Deleting? ==> s.leases[s.gc.id].marked)
    && (forall i :: 0 <= i < |s.collected| ==>
          s.collected[i] < |s.leases| && s.leases[s.collected[i]].marked
          && forall k :: k in s.table ==> s.table[k] != s.collected[i])
    && (forall i, j :: 0 <= i < j < |s.collected| ==> s.collected[i] != s.collected[j])
  }

  /** Every object that the map no longer has was handed out for cleanup. */
  ghost predicate GoneIsCollected<K>(s: State<K>)
    requires |s.keys| == |s.leases|
  {
    forall i :: 0 <= i < |s.leases| && !(s.keys[i] in s.table && s.table[s.keys[i]] == i) ==> i in s.collected
  }

  ghost predicate ToldOnce<K>(s: State<K>) {
    && (forall i :: 0 <= i < |s.told| ==> s.told[i] < |s.leases|)
    && (forall i, j :: 0 <= i < j < |s.told| ==> s.told[i] != s.told[j])
    && CreatorsUntold(s.pinners, s.told)
  }

  /** Each object has one goroutine that may still be told it is new, and whoever was told is on the list. */
  ghost predicate CreatorsUntold<K>(pinners: map<nat, Pinner<K>>, told: seq<nat>) {
    && (forall t, i: nat :: t in pinners && pinners[t].Creator(i) ==> i !in told)
    && (forall t, u, i: nat :: t in pinners && u in pinners && pinners[t].Creator(i) && pinners[u].Creator(i)
          ==> t == u)
    && (forall t :: t in pinners && pinners[t].Holding? && pinners[t].isNew ==> pinners[t].id in told)
  }

  ghost predicate Inv<K>(s: State<K>) {
    && |s.keys| == |s.leases|
    && TableSound(s)
    && UnmarkedStays(s)
    && CountsHolders(s)
    && PinnersSound(s)
    && CollectorSound(s)
    && GoneIsCollected(s)
    && ToldOnce(s)
  }

  lemma PinsAfterMove<K>(pinners: map<nat, Pinner<K>>, t: nat, p: Pinner<K>, id: nat)
    ensures var was := t in pinners && pinners[t].Pins(id);
            |PinsOf(pinners[t := p], id)| ==
            |PinsOf(pinners, id)| + (if p.Pins(id) then 1 else 0) - (if was then 1 else 0)
  {
    var others := PinsOf(pinners, id) - {t};
    if p.Pins(id) {
      assert PinsOf(pinners[t := p], id) == others + {t};
    } else {
      assert PinsOf(pinners[t := p], id) == others;
    }
    if t in pinners && pinners[t].Pins(id) {
      assert PinsOf(pinners, id) == others + {t};
    } else {
      assert PinsOf(pinners, id) == others;
    }
  }

  /** A goroutine that has pinned a resource keeps it unmarked and in the map. */
  lemma PinnedIsMapped<K>(s: State<K>, t: nat)
    requires Inv(s) && t in s.pinners && (s.pinners[t].AtRecheck? || s.pinners[t].Holding?)
    ensures var p := s.pinners[t];
            !s.leases[p.id].marked && s.leases[p.id].count > 0 && p.key in s.table && s.table[p.key] == p.id
  {
    var p := s.pinners[t];
    assert t in PinsOf(s.pinners, p.id);
  }

  lemma PinnerStepKeepsCounts<K>(s: State<K>, a: Action<K>)
    requires CountsHolders(s) && InBounds(s)
    requires a.Load? || a.LoadOrStore? || a.Pin? || a.Recheck? || a.BackOff? || a.Release?
    requires PinnerStep(s, a).Some?
    ensures CountsHolders(PinnerStep(s, a).value)
  {
    var s' := PinnerStep(s, a).value;
    var p' := s'.pinners[a.t];
    forall i | 0 <= i < |s'.leases|
      ensures s'.leases[i].count == |PinsOf(s'.pinners, i)| && (s'.leases[i].marked ==> s'.leases[i].count == 0)
    {
      PinsAfterMove(s.pinners, a.t, p', i);
      if i == |s.leases| {
        assert PinsOf(s.pinners, i) == {};
      }
    }
  }

  lemma CreatedKeepsTable<K>(s: State<K>, t: nat, k: K)
    requires |s.keys| == |s.leases| && TableSound(s) && UnmarkedStays(s) && CollectorSound(s) && k !in s.table
    ensures var s' := Created(s, t, k);
            |s'.keys| == |s'.leases| && TableSound(s') && UnmarkedStays(s') && CollectorSound(s')
  {
  }

  lemma SameMarksKeepTable<K>(s: State<K>, s': State<K>)
    requires |s.keys| == |s.leases| && TableSound(s) && UnmarkedStays(s) && CollectorSound(s)
    requires s'.keys == s.keys && s'.table == s.table && s'.gc == s.gc && s'.collected == s.collected
    requires |s'.leases| == |s.leases|
    requires forall i :: 0 <= i < |s.leases| ==> s'.leases[i].marked == s.leases[i].marked
    ensures TableSound(s') && UnmarkedStays(s') && CollectorSound(s')
  {
  }

  lemma PinnerStepKeepsTable<K>(s: State<K>, a: Action<K>)
    requires |s.keys| == |s.leases| && InBounds(s) && TableSound(s) && UnmarkedStays(s) && CollectorSound(s)
    requires a.Load? || a.LoadOrStore? || a.Pin? || a.Recheck? || a.BackOff? || a.Release?
    requires PinnerStep(s, a).Some?
    ensures var s' := PinnerStep(s, a).value;
            |s'.keys| == |s'.leases| && TableSound(s') && UnmarkedStays(s') && CollectorSound(s')
  {
    var p := s.pinners[a.t];
    if a.LoadOrStore? && p.key !in s.table {
      CreatedKeepsTable(s, a.t, p.key);
    } else {
      SameMarksKeepTable(s, PinnerStep(s, a).value);
    }
  }

  lemma PinnerStepKeepsPinners<K>(s: State<K>, a: Action<K>)
    requires Inv(s) && InBounds(s)
    requires a.Load? || a.LoadOrStore? || a.Pin? || a.Recheck? || a.BackOff? || a.Release?
    requires PinnerStep(s, a).Some?
    ensures var s' := PinnerStep(s, a).value;
            |s'.keys| == |s'.leases| && PinnersSound(s')
  {
    var p := s.pinners[a.t];
    if p.AtRecheck? {
      PinnedIsMapped(s, a.t);
    }
  }

  /** A move that creates nothing and reports nothing keeps the reports unique. */
  lemma SilentMoveKeepsTold<K>(s: State<K>, s': State<K>, t: nat, p: Pinner<K>)
    requires ToldOnce(s) && |s'.leases| == |s.leases| && s'.told == s.told && s'.pinners == s.pinners[t := p]
    requires forall i: nat :: p.Creator(i) ==> t in s.pinners && s.pinners[t].Creator(i)
    requires p.Holding? && p.isNew ==> p.id in s.told
    ensures ToldOnce(s')
  {
    assert forall u :: u in s'.pinners && u != t ==> u in s.pinners && s'.pinners[u] == s.pinners[u];
  }

  lemma CreatedKeepsTold<K>(s: State<K>, t: nat, k: K)
    requires InBounds(s) && ToldOnce(s)
    ensures ToldOnce(Created(s, t, k))
  {
    var s' := Created(s, t, k);
    assert forall u :: u in s'.pinners && u != t ==> u in s.pinners && s'.pinners[u] == s.pinners[u];
  }

  lemma ReportKeepsTold<K>(s: State<K>, t: nat, k: K, id: nat)
    requires InBounds(s) && ToldOnce(s) && t in s.pinners && s.pinners[t] == AtRecheck(k, id, true)
    ensures ToldOnce(At(s, t, Holding(k, id, true)).(told := s.told + [id]))
  {
    assert s.pinners[t].Creator(id);
    ReportKeepsCreators(s.pinners, s.told, t, k, id);
    forall i | 0 <= i < |s.told|
      ensures s.told[i] != id
    {
      assert s.told[i] in s.told;
    }
  }

  lemma ReportKeepsCreators<K>(pinners: map<nat, Pinner<K>>, told: seq<nat>, t: nat, k: K, id: nat)
    requires CreatorsUntold(pinners, told) && t in pinners && pinners[t] == AtRecheck(k, id, true)
    ensures CreatorsUntold(pinners[t := Holding(k, id, true)], told + [id])
  {
    assert pinners[t].Creator(id);
    var next := pinners[t := Holding(k, id, true)];
    forall u | u in next && u != t
      ensures u in pinners && next[u] == pinners[u] && !next[u].Creator(id)
    {
    }
  }

  lemma PinnerStepKeepsTold<K>(s: State<K>, a: Action<K>)
    requires InBounds(s) && ToldOnce(s)
    requires a.Load? || a.LoadOrStore? || a.Pin? || a.Recheck? || a.BackOff? || a.Release?
    requires PinnerStep(s, a).Some?
    ensures ToldOnce(PinnerStep(s, a).value)
  {
    var p, s' := s.pinners[a.t], PinnerStep(s, a).value;
    if a.LoadOrStore? && p.key !in s.table {
      CreatedKeepsTold(s, a.t, p.key);
    } else if a.Recheck? && p.isNew && s'.pinners[a.t].Holding? {
      ReportKeepsTold(s, a.t, p.key, p.id);
    } else {
      SilentMoveKeepsTold(s, s', a.t, s'.pinners[a.t]);
    }
  }

  lemma PinnerStepKeepsInv<K>(s: State<K>, a: Action<K>)
    requires Inv(s) && InBounds(s)
    requires a.Load? || a.LoadOrStore? || a.Pin? || a.Recheck? || a.BackOff? || a.Release?
    requires PinnerStep(s, a).Some?
    ensures Inv(PinnerStep(s, a).value)
  {
    PinnerStepKeepsTable(s, a);
    PinnerStepKeepsPinners(s, a);
    PinnerStepKeepsCounts(s, a);
    PinnerStepKeepsTold(s, a);
  }

  lemma CollectorStepKeepsInv<K>(s: State<K>, a: Action<K>)
    requires Inv(s) && InBounds(s)
    requires a.Visit? || a.Check? || a.Delete?
    requires CollectorStep(s, a).Some?
    ensures Inv(CollectorStep(s, a).value)
  {
    if a.Check? {
      CheckKeepsInv(s, a);
    }
  }

  lemma CheckKeepsInv<K>(s: State<K>, a: Action<K>)
    requires Inv(s) && InBounds(s) && a.Check? && CollectorStep(s, a).Some?
    ensures Inv(CollectorStep(s, a).value)
  {
  }

  lemma EnterKeepsInv<K>(s: State<K>, t: nat, k: K)
    requires Inv(s) && t !in s.pinners
    ensures Inv(At(s, t, AtLoad(k)))
  {
    forall i | 0 <= i < |s.leases|
      ensures |PinsOf(s.pinners[t := AtLoad(k)], i)| == |PinsOf(s.pinners, i)|
    {
      PinsAfterMove(s.pinners, t, AtLoad(k), i);
    }
  }

  lemma StepKeepsInv<K>(s: State<K>, a: Action<K>)
    requires Inv(s) && Next(s, a).Some? && !a.DropKey?
    ensures Inv(Next(s, a).value)
  {
    match a
    case Enter(t, k) => EnterKeepsInv(s, t, k);
    case Visit(_) => CollectorStepKeepsInv(s, a);
    case Check(_, _) => CollectorStepKeepsInv(s, a);
    case Delete => CollectorStepKeepsInv(s, a);
    case _ => PinnerStepKeepsInv(s, a);
  }

  // ---------------------------------------------------------------------------------------------
  // Every run.

  /** No goroutine removes a key from the map behind the collector's back. */
  predicate CollectorOwnsDeletion<K>(run: seq<Action<K>>) {
    forall i :: 0 <= i < |run| ==> !run[i].DropKey?
  }

  lemma {:induction false} RunKeepsInv<K>(s: State<K>, run: seq<Action<K>>)
    requires Inv(s) && CollectorOwnsDeletion(run) && Exec(s, run).Some?
    ensures Inv(Exec(s, run).value)
    decreases |run|
  {
    if run != [] {
      StepKeepsInv(s, run[0]);
      RunKeepsInv(Next(s, run[0]).value, run[1..]);
    }
  }

  /** A goroutine that has returned from the loop holds the live, unmarked resource of its key. */
  ghost predicate HoldersAreSafe<K>(s: State<K>) {
    forall t :: t in s.pinners && s.pinners[t].Holding? ==>
      var p := s.pinners[t];
      && p.key in s.table && s.table[p.key] == p.id
      && p.id < |s.leases| && !s.leases[p.id].marked
  }

  /**
   Lease safety of every run: holders are safe, counts are exact, a condemned resource has no lease, every
   resource is reported as new at most once and collected at most once, and no pin ever has to be undone.
   */
  lemma LeaseSafety<K>(run: seq<Action<K>>)
    requires CollectorOwnsDeletion(run) && Exec(Init(), run).Some?
    ensures var s := Exec(Init(), run).value;
            && HoldersAreSafe(s)
            && (forall i :: 0 <= i < |s.leases| ==> s.leases[i].count == |PinsOf(s.pinners, i)|)
            && (forall i :: 0 <= i < |s.leases| && s.leases[i].marked ==> s.leases[i].count == 0)
            && (forall i, j :: 0 <= i < j < |s.told| ==> s.told[i] != s.told[j])
            && (forall i, j :: 0 <= i < j < |s.collected| ==> s.collected[i] != s.collected[j])
            && |s.keys| == |s.leases|
            && (forall i :: 0 <= i < |s.leases| ==>
                  (i in s.collected <==> !(s.keys[i] in s.table && s.table[s.keys[i]] == i)))
            && (forall t :: t in s.pinners ==> !s.pinners[t].AtBackOff?)
  {
    var init: State<K> := Init();
    RunKeepsInv(init, run);
    var s := Exec(init, run).value;
    forall t | t in s.pinners && s.pinners[t].Holding?
      ensures var p := s.pinners[t];
              p.key in s.table && s.table[p.key] == p.id && p.id < |s.leases| && !s.leases[p.id].marked
    {
      PinnedIsMapped(s, t);
    }
  }

  lemma StepKeepsMarks<K>(s: State<K>, a: Action<K>, i: nat)
    requires InBounds(s) && Next(s, a).Some? && i < |s.leases| && s.leases[i].marked
    ensures var s' := Next(s, a).value; i < |s'.leases| && s'.leases[i].marked
  {
  }

  /** Condemnation is final: however the run goes on, the resource stays marked and without leases. */
  lemma {:induction false} MarkedForever<K>(s: State<K>, run: seq<Action<K>>, i: nat)
    requires Inv(s) && CollectorOwnsDeletion(run) && Exec(s, run).Some?
    requires i < |s.leases| && s.leases[i].marked
    ensures var s' := Exec(s, run).value; i < |s'.leases| && s'.leases[i].marked && s'.leases[i].count == 0
    decreases |run|
  {
    if run != [] {
      StepKeepsMarks(s, run[0], i);
      StepKeepsInv(s, run[0]);
      MarkedForever(Next(s, run[0]).value, run[1..], i);
    }
  }

  /** A pin is refused only while the collector is removing that very resource, or after it has. */
  lemma PinFailsOnlyOnCondemned<K>(s: State<K>, t: nat)
    requires Inv(s) && t in s.pinners && s.pinners[t].AtTryPin?
    requires s.leases[s.pinners[t].id].marked
    ensures var p := s.pinners[t];
            s.gc == Deleting(p.key, p.id) || p.key !in s.table || s.table[p.key] != p.id
  {
  }

  /** A collector that nobody disturbs hands an expired resource out for cleanup and takes it out of the map. */
  lemma UndisturbedCollection<K>(s: State<K>, k: K, timeout: int, now: Time)
    requires InBounds(s) && s.gc == Between && k in s.table && s.table[k] < |s.leases|
    requires s.leases[s.table[k]].count == 0 && s.leases[s.table[k]].idleAt != ZERO_TIME
    requires now - s.leases[s.table[k]].idleAt >= timeout
    ensures var id := s.table[k];
            Exec(s, [Visit(k), Check(timeout, now), Delete])
            == Some(s.(leases := s.leases[id := s.leases[id].(marked := true)], table := s.table - {k},
                       collected := s.collected + [id]))
  {
    var id := s.table[k];
    var visit, check: Action<K> := Visit(k), Check(timeout, now);
    var s1 := s.(gc := Visiting(k, id));
    var s2 := s.(gc := Deleting(k, id), leases := s.leases[id := s.leases[id].(marked := true)]);
    assert Next(s1, check) == Some(s2);
    ExecCons(s2, Delete, []);
    ExecCons(s1, check, [Delete] + []);
    ExecCons(s, visit, [check] + ([Delete] + []));
    assert [visit, check, Delete] == [visit] + ([check] + ([Delete] + []));
  }

  function CreateRun<K>(t: nat, k: K): seq<Action<K>> {
    [Enter(t, k), Load(t), LoadOrStore(t)]
  }

  function PinRun<K>(t: nat, k: K): seq<Action<K>> {
    CreateRun(t, k) + [Pin(t), Recheck(t)]
  }

  function CreatedAndHeld<K>(s: State<K>, t: nat, k: K): State<K> {
    var id := |s.leases|;
    At(s, t, Holding(k, id, true)).(
      leases := s.leases + [Lease(1, ZERO_TIME, false)], keys := s.keys + [k],
      table := s.table[k := id], told := s.told + [id])
  }

  lemma CreateRunCreates<K>(s: State<K>, t: nat, k: K)
    requires InBounds(s) && t !in s.pinners && k !in s.table
    ensures Exec(s, CreateRun(t, k)) == Some(Created(s, t, k))
  {
    var loading := At(s, t, AtLoad(k));
    var missed := At(s, t, AtLoadOrStore(k));
    assert Next(missed, LoadOrStore(t)) == Some(Created(s, t, k)) by {
      assert missed.pinners[t := AtTryPin(k, |s.leases|, true)] == Created(s, t, k).pinners;
    }
    assert Next(loading, Load(t)) == Some(missed) by {
      assert loading.pinners[t := AtLoadOrStore(k)] == missed.pinners;
    }
    ExecCons(missed, LoadOrStore(t), []);
    ExecCons(loading, Load(t), [LoadOrStore(t)]);
    ExecCons(s, Enter(t, k), [Load(t)] + [LoadOrStore(t)]);
    assert CreateRun(t, k) == [Enter(t, k)] + ([Load(t)] + ([LoadOrStore(t)] + []));
  }

  lemma HoldRunHolds<K>(s: State<K>, t: nat, k: K)
    requires InBounds(s) && k !in s.table
    ensures Exec(Created(s, t, k), [Pin(t), Recheck(t)]) == Some(CreatedAndHeld(s, t, k))
  {
    var id, created := |s.leases|, Created(s, t, k);
    var pinned := At(created, t, AtRecheck(k, id, true)).(leases := s.leases + [Lease(1, ZERO_TIME, false)]);
    assert pinned.leases == created.leases[id := AfterTryPin(FRESH)];
    assert Next(created, Pin(t)) == Some(pinned);
    assert pinned.pinners[t := Holding(k, id, true)] == s.pinners[t := Holding(k, id, true)];
    assert Next(pinned, Recheck(t)) == Some(CreatedAndHeld(s, t, k));
    ExecCons(pinned, Recheck(t), []);
    ExecCons(created, Pin(t), [Recheck(t)]);
    var pin, recheck: Action<K> := Pin(t), Recheck(t);
    assert [pin, recheck] == [pin] + ([recheck] + []);
  }

  /** A goroutine that pins an absent key undisturbed creates the resource, holds it and is told so. */
  lemma UndisturbedPinCreates<K>(s: State<K>, t: nat, k: K)
    requires InBounds(s) && t !in s.pinners && k !in s.table
    ensures Exec(s, PinRun(t, k)) == Some(CreatedAndHeld(s, t, k))
  {
    CreateRunCreates(s, t, k);
    HoldRunHolds(s, t, k);
    ExecAppend(s, CreateRun(t, k), [Pin(t), Recheck(t)]);
  }

  /** A holder can always give its lease back, and the last one to do so dates the idleness. */
  lemma HolderReleases<K>(run: seq<Action<K>>, t: nat, now: Time)
    requires CollectorOwnsDeletion(run) && Exec(Init(), run).Some?
    requires var s: State<K> := Exec(Init(), run).value; t in s.pinners && s.pinners[t].Holding?
    ensures var s: State<K> := Exec(Init(), run).value;
            var id := s.pinners[t].id;
            && Next(s, Release(t, now)).Some?
            && var n := Next(s, Release(t, now)).value;
               && id < |s.leases| && |n.leases| == |s.leases| && n.table == s.table
               && n.leases[id].count == s.leases[id].count - 1 == |PinsOf(s.pinners, id) - {t}|
               && (PinsOf(s.pinners, id) == {t} ==> n.leases[id].count == 0 && n.leases[id].idleAt == now)
  {
    var init: State<K> := Init();
    RunKeepsInv(init, run);
    var s := Exec(init, run).value;
    assert t in PinsOf(s.pinners, s.pinners[t].id);
  }

  /** A goroutine refused on a condemned object that has left the map starts over, and holds a new object. */
  lemma RefusedPinStartsOver<K>(s: State<K>, t: nat)
    requires InBounds(s) && t in s.pinners && s.pinners[t].AtTryPin?
    requires s.leases[s.pinners[t].id].marked && s.pinners[t].key !in s.table
    ensures Exec(s, [Pin(t), Load(t), LoadOrStore(t)] + [Pin(t), Recheck(t)])
            == Some(CreatedAndHeld(s, t, s.pinners[t].key))
  {
    var k := s.pinners[t].key;
    var pin, load, store: Action<K> := Pin(t), Load(t), LoadOrStore(t);
    var loading, missed := At(s, t, AtLoad(k)), At(s, t, AtLoadOrStore(k));
    assert Next(s, pin) == Some(loading) by {
      assert s.leases[s.pinners[t].id := s.leases[s.pinners[t].id]] == s.leases;
    }
    assert Next(loading, load) == Some(missed) by {
      assert loading.pinners[t := AtLoadOrStore(k)] == missed.pinners;
    }
    assert Next(missed, store) == Some(Created(s, t, k)) by {
      assert missed.pinners[t := AtTryPin(k, |s.leases|, true)] == Created(s, t, k).pinners;
    }
    ExecCons(missed, store, []);
    ExecCons(loading, load, [store] + []);
    ExecCons(s, pin, [load] + ([store] + []));
    assert [pin, load, store] == [pin] + ([load] + ([store] + []));
    HoldRunHolds(s, t, k);
    ExecAppend(s, [pin, load, store], [Pin(t), Recheck(t)]);
  }

  lemma ExecCons<K>(s: State<K>, a: Action<K>, rest: seq<Action<K>>)
    requires Next(s, a).Some?
    ensures Exec(s, [a] + rest) == Exec(Next(s, a).value, rest)
  {
    assert ([a] + rest)[1..] == rest;
  }

  lemma {:induction false} ExecAppend<K>(s: State<K>, first: seq<Action<K>>, second: seq<Action<K>>)
    requires Exec(s, first).Some?
    ensures Exec(s, first + second) == Exec(Exec(s, first).value, second)
    decreases |first|
  {
    if first == [] {
      assert first + second == second;
    } else {
      assert (first + second)[1..] == first[1..] + second;
      ExecAppend(Next(s, first[0]).value, first[1..], second);
    }
  }
}
