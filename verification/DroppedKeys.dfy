/**
 What happens to the leases of a key after a goroutine whose provisioning failed removed the key from the map
 by itself, behind the collector's back.
 */
module DroppedKeys {
  import opened Leasing
  import opened LeaseProtocol
  import opened Options

  // ---------------------------------------------------------------------------------------------
  // What a drop must leave in place for the holders to be safe from then on.

  ghost predicate CollectorTracks<K>(s: State<K>) {
    && (s.gc.Visiting? || s.gc.Deleting? ==>
          s.gc.key in s.table && s.table[s.gc.key] == s.gc.id && s.gc.id < |s.leases|)
    && (s.gc.Deleting? ==> s.leases[s.gc.id].marked)
  }

  ghost predicate Survives<K>(s: State<K>) {
    && InBounds(s)
    && (forall k :: k in s.table ==> s.table[k] < |s.leases|)
    && CountsHolders(s)
    && CollectorTracks(s)
    && HoldersAreSafe(s)
  }

  /** A resource some goroutine has pinned is not condemned. */
  lemma PinnedIsUnmarked<K>(s: State<K>, t: nat)
    requires Survives(s) && t in s.pinners && s.pinners[t].HasId() && s.pinners[t].Pins(s.pinners[t].id)
    ensures !s.leases[s.pinners[t].id].marked && s.leases[s.pinners[t].id].count > 0
  {
    assert t in PinsOf(s.pinners, s.pinners[t].id);
  }

  /** A goroutine's step marks nothing, unmaps nothing and leaves the other goroutines and the collector alone. */
  lemma PinnerStepIsLocal<K>(s: State<K>, a: Action<K>)
    requires Survives(s)
    requires a.Load? || a.LoadOrStore? || a.Pin? || a.Recheck? || a.BackOff? || a.Release?
    requires PinnerStep(s, a).Some?
    ensures var s' := PinnerStep(s, a).value;
            && |s.leases| <= |s'.leases| && s'.gc == s.gc
            && (forall i :: 0 <= i < |s.leases| ==> s'.leases[i].marked == s.leases[i].marked)
            && (forall k :: k in s.table ==> k in s'.table && s'.table[k] == s.table[k])
            && (forall u :: u in s'.pinners && u != a.t ==> u in s.pinners && s'.pinners[u] == s.pinners[u])
  {
  }

  lemma PinnerStepKeepsBounds<K>(s: State<K>, a: Action<K>)
    requires Survives(s)
    requires a.Load? || a.LoadOrStore? || a.Pin? || a.Recheck? || a.BackOff? || a.Release?
    requires PinnerStep(s, a).Some?
    ensures var s' := PinnerStep(s, a).value;
            InBounds(s') && forall k :: k in s'.table ==> s'.table[k] < |s'.leases|
  {
  }

  lemma PinnerStepKeepsHolders<K>(s: State<K>, a: Action<K>)
    requires Survives(s)
    requires a.Load? || a.LoadOrStore? || a.Pin? || a.Recheck? || a.BackOff? || a.Release?
    requires PinnerStep(s, a).Some?
    ensures HoldersAreSafe(PinnerStep(s, a).value)
  {
    PinnerStepIsLocal(s, a);
    if a.Recheck? {
      PinnedIsUnmarked(s, a.t);
    }
  }

  lemma PinnerStepSurvives<K>(s: State<K>, a: Action<K>)
    requires Survives(s)
    requires a.Load? || a.LoadOrStore? || a.Pin? || a.Recheck? || a.BackOff? || a.Release?
    requires PinnerStep(s, a).Some?
    ensures Survives(PinnerStep(s, a).value)
  {
    PinnerStepIsLocal(s, a);
    PinnerStepKeepsBounds(s, a);
    PinnerStepKeepsCounts(s, a);
    PinnerStepKeepsHolders(s, a);
  }

  lemma CollectorStepSurvives<K>(s: State<K>, a: Action<K>)
    requires Survives(s) && (a.Visit? || a.Check? || a.Delete?) && CollectorStep(s, a).Some?
    ensures Survives(CollectorStep(s, a).value)
  {
    var s' := CollectorStep(s, a).value;
    forall t | t in s.pinners && s.pinners[t].Holding?
      ensures var p := s.pinners[t];
              p.id < |s'.leases| && p.key in s'.table && s'.table[p.key] == p.id && !s'.leases[p.id].marked
    {
      PinnedIsUnmarked(s, t);
    }
  }

  lemma EnterSurvives<K>(s: State<K>, t: nat, k: K)
    requires Survives(s) && t !in s.pinners
    ensures Survives(At(s, t, AtLoad(k)))
  {
    forall i | 0 <= i < |s.leases|
      ensures |PinsOf(s.pinners[t := AtLoad(k)], i)| == |PinsOf(s.pinners, i)|
    {
      PinsAfterMove(s.pinners, t, AtLoad(k), i);
    }
  }

  lemma StepSurvives<K>(s: State<K>, a: Action<K>)
    requires Survives(s) && Next(s, a).Some? && !a.DropKey?
    ensures Survives(Next(s, a).value)
  {
    match a
    case Enter(t, k) => EnterSurvives(s, t, k);
    case Visit(_) => CollectorStepSurvives(s, a);
    case Check(_, _) => CollectorStepSurvives(s, a);
    case Delete => CollectorStepSurvives(s, a);
    case _ => PinnerStepSurvives(s, a);
  }

  lemma {:induction false} RunSurvives<K>(s: State<K>, run: seq<Action<K>>)
    requires Survives(s) && CollectorOwnsDeletion(run) && Exec(s, run).Some?
    ensures Survives(Exec(s, run).value)
    decreases |run|
  {
    if run != [] {
      StepSurvives(s, run[0]);
      RunSurvives(Next(s, run[0]).value, run[1..]);
    }
  }

  // ---------------------------------------------------------------------------------------------
  // Draining the pins of a dropped resource.

  /** The dropped resource `id` of key `k`: in no map, unmarked, and pinned only by goroutines on their way out. */
  ghost predicate Stranded<K>(s: State<K>, k: K, id: nat) {
    && InBounds(s) && CountsHolders(s) && id < |s.leases| && !s.leases[id].marked
    && k !in s.table && s.gc == Visiting(k, id)
    && forall t :: t in s.pinners && s.pinners[t].Pins(id) ==> s.pinners[t].key == k && !s.pinners[t].Holding?
  }

  function LeaveRun<K>(p: Pinner<K>, t: nat): seq<Action<K>> {
    if p.AtRecheck? then [Recheck(t), BackOff(t, 1)]
    else if p.AtBackOff? then [BackOff(t, 1)]
    else [Release(t, 1)]
  }

  /** The state after goroutine `t` took its pin off the stranded resource. */
  function Unpinned<K>(s: State<K>, t: nat): State<K>
    requires t in s.pinners && s.pinners[t].HasId() && s.pinners[t].id < |s.leases|
  {
    var p := s.pinners[t];
    At(s, t, if p.Abandoning? then Released(p.key) else AtLoad(p.key)).(
      leases := s.leases[p.id := AfterUnpin(s.leases[p.id], 1)])
  }

  /** A goroutine that finds its resource unmapped backs off and starts over. */
  lemma RecheckThenBackOff<K>(s: State<K>, k: K, id: nat, t: nat)
    requires Stranded(s, k, id) && t in s.pinners && s.pinners[t].Pins(id) && s.pinners[t].AtRecheck?
    ensures Exec(s, [Recheck(t), BackOff(t, 1)]) == Some(Unpinned(s, t))
  {
    var recheck, backOff: Action<K> := Recheck(t), BackOff(t, 1);
    var backing := At(s, t, AtBackOff(k, id));
    assert Next(s, recheck) == Some(backing);
    assert backing.pinners[t := AtLoad(k)] == s.pinners[t := AtLoad(k)];
    assert Next(backing, backOff) == Some(Unpinned(s, t));
    ExecCons(backing, backOff, []);
    ExecCons(s, recheck, [backOff] + []);
    assert [recheck, backOff] == [recheck] + ([backOff] + []);
  }

  lemma LeaveRunUnpins<K>(s: State<K>, k: K, id: nat, t: nat)
    requires Stranded(s, k, id) && t in s.pinners && s.pinners[t].Pins(id)
    ensures Exec(s, LeaveRun(s.pinners[t], t)) == Some(Unpinned(s, t))
    ensures CollectorOwnsDeletion(LeaveRun(s.pinners[t], t))
  {
    if s.pinners[t].AtRecheck? {
      RecheckThenBackOff(s, k, id, t);
    } else {
      var out: Action<K> := LeaveRun(s.pinners[t], t)[0];
      assert Next(s, out) == Some(Unpinned(s, t));
      ExecCons(s, out, []);
      assert LeaveRun(s.pinners[t], t) == [out] + [];
    }
  }

  lemma UnpinnedStaysStranded<K>(s: State<K>, k: K, id: nat, t: nat)
    requires Stranded(s, k, id) && t in s.pinners && s.pinners[t].Pins(id)
    ensures var s' := Unpinned(s, t);
            && Stranded(s', k, id) && |PinsOf(s'.pinners, id)| == |PinsOf(s.pinners, id)| - 1
            && (s'.leases[id].count == 0 ==> s'.leases[id].idleAt == 1)
  {
    var s' := Unpinned(s, t);
    assert t in PinsOf(s.pinners, id);
    forall i | 0 <= i < |s.leases|
      ensures s'.leases[i].count == |PinsOf(s'.pinners, i)| && (s'.leases[i].marked ==> s'.leases[i].count == 0)
    {
      PinsAfterMove(s.pinners, t, s'.pinners[t], i);
    }
    PinsAfterMove(s.pinners, t, s'.pinners[t], id);
  }

  /** The pins of a stranded resource can all be taken off, the last one at time 1. */
  lemma {:induction false} DrainPins<K>(s: State<K>, k: K, id: nat) returns (run: seq<Action<K>>)
    requires Stranded(s, k, id) && PinsOf(s.pinners, id) != {}
    ensures CollectorOwnsDeletion(run) && Exec(s, run).Some?
    ensures var end := Exec(s, run).value;
            Stranded(end, k, id) && end.leases[id].count == 0 && end.leases[id].idleAt == 1
    decreases |PinsOf(s.pinners, id)|
  {
    var t :| t in PinsOf(s.pinners, id);
    LeaveRunUnpins(s, k, id, t);
    UnpinnedStaysStranded(s, k, id, t);
    var s', first := Unpinned(s, t), LeaveRun(s.pinners[t], t);
    if PinsOf(s'.pinners, id) == {} {
      run := first;
    } else {
      var rest := DrainPins(s', k, id);
      ExecAppend(s, first, rest);
      run := first + rest;
    }
  }

  /** Some goroutine number is free. */
  lemma FreshGoroutine(used: set<nat>) returns (t: nat)
    ensures t !in used && forall u :: u in used ==> u < t
    decreases used
  {
    if used == {} {
      t := 0;
    } else {
      var u :| u in used;
      var t' := FreshGoroutine(used - {u});
      assert used == (used - {u}) + {u};
      t := if u < t' then t' else u + 1;
    }
  }

  /** The run in which the collector condemns the stranded resource and deletes the key under goroutine `t`. */
  function DeleteRun<K>(t: nat, k: K): seq<Action<K>> {
    [Check(0, 1)] + (PinRun(t, k) + ([Delete] + []))
  }

  lemma DeleteRunStrandsTheSuccessor<K>(s: State<K>, k: K, id: nat, t: nat)
    requires Stranded(s, k, id) && s.leases[id].count == 0 && s.leases[id].idleAt == 1 && t !in s.pinners
    ensures Exec(s, DeleteRun(t, k)).Some? && !HoldersAreSafe(Exec(s, DeleteRun(t, k)).value)
  {
    var condemned := s.(leases := s.leases[id := s.leases[id].(marked := true)], gc := Deleting(k, id));
    assert Next(s, Check(0, 1)) == Some(condemned);
    UndisturbedPinCreates(condemned, t, k);
    var held := CreatedAndHeld(condemned, t, k);
    var end := Next(held, Delete).value;
    assert t in end.pinners && end.pinners[t].Holding? && end.pinners[t].key == k && k !in end.table;
    ExecCons(held, Delete, []);
    ExecAppend(condemned, PinRun(t, k), [Delete] + []);
    ExecCons(s, Check(0, 1), PinRun(t, k) + ([Delete] + []));
  }

  /**
   A collector that was visiting the key when it was dropped can still condemn the stranded resource, and then
   removes whatever the key maps to: a resource created and held in between.
   */
  lemma VisitorDeletesTheSuccessor<K>(s: State<K>, k: K, id: nat) returns (run: seq<Action<K>>)
    requires Stranded(s, k, id) && PinsOf(s.pinners, id) != {}
    ensures CollectorOwnsDeletion(run) && Exec(s, run).Some? && !HoldersAreSafe(Exec(s, run).value)
  {
    var drain := DrainPins(s, k, id);
    var idle := Exec(s, drain).value;
    var t := FreshGoroutine(idle.pinners.Keys);
    DeleteRunStrandsTheSuccessor(idle, k, id, t);
    ExecAppend(s, drain, DeleteRun(t, k));
    run := drain + DeleteRun(t, k);
  }

  // ---------------------------------------------------------------------------------------------
  // The drop of a key, in every run that follows it.

  /** Every goroutine that returned from the pinning loop is safe at every point of every later run. */
  ghost predicate SafeForever<K(!new)>(s: State<K>) {
    forall run: seq<Action<K>> ::
      CollectorOwnsDeletion(run) && Exec(s, run).Some? ==> HoldersAreSafe(Exec(s, run).value)
  }

  /** Nobody but `t` holds its key, and the collector is not busy with it. */
  ghost predicate AloneOnKey<K>(s: State<K>, t: nat)
    requires t in s.pinners && s.pinners[t].Holding?
  {
    var k := s.pinners[t].key;
    && (forall u :: u in s.pinners && u != t && s.pinners[u].Holding? ==> s.pinners[u].key != k)
    && !((s.gc.Visiting? || s.gc.Deleting?) && s.gc.key == k)
  }

  lemma DroppedKeepsCounts<K>(s: State<K>, t: nat)
    requires CountsHolders(s) && t in s.pinners && s.pinners[t].Holding?
    ensures CountsHolders(Dropped(s, t))
  {
    var s' := Dropped(s, t);
    forall i | 0 <= i < |s.leases|
      ensures |PinsOf(s'.pinners, i)| == |PinsOf(s.pinners, i)|
    {
      PinsAfterMove(s.pinners, t, s'.pinners[t], i);
    }
  }

  lemma LoneDropSurvives<K>(s: State<K>, t: nat)
    requires Inv(s) && t in s.pinners && s.pinners[t].Holding? && AloneOnKey(s, t)
    ensures Survives(Dropped(s, t))
  {
    var s' := Dropped(s, t);
    DroppedKeepsCounts(s, t);
    forall u | u in s'.pinners && s'.pinners[u].Holding?
      ensures var p := s'.pinners[u];
              p.id < |s'.leases| && p.key in s'.table && s'.table[p.key] == p.id && !s'.leases[p.id].marked
    {
      PinnedIsMapped(s, u);
    }
  }

  lemma DropUnderVisitStrands<K>(s: State<K>, t: nat)
    requires Inv(s) && t in s.pinners && s.pinners[t].Holding? && !AloneOnKey(s, t)
    requires forall u :: u in s.pinners && u != t && s.pinners[u].Holding? ==> s.pinners[u].key != s.pinners[t].key
    ensures var s', p := Dropped(s, t), s.pinners[t];
            Stranded(s', p.key, p.id) && PinsOf(s'.pinners, p.id) != {}
  {
    var s', p := Dropped(s, t), s.pinners[t];
    PinnedIsMapped(s, t);
    DroppedKeepsCounts(s, t);
    assert t in PinsOf(s'.pinners, p.id);
    assert forall u :: u in s.pinners && s.pinners[u].Pins(p.id) ==> s.pinners[u].key == p.key;
  }

  /** A drop under another holder, or under the collector's visit, leads to an unsafe holder. */
  lemma CrowdedDropFails<K>(s: State<K>, t: nat) returns (run: seq<Action<K>>)
    requires Inv(s) && t in s.pinners && s.pinners[t].Holding? && !AloneOnKey(s, t)
    ensures CollectorOwnsDeletion(run) && Exec(Dropped(s, t), run).Some?
    ensures !HoldersAreSafe(Exec(Dropped(s, t), run).value)
  {
    var s', k, id := Dropped(s, t), s.pinners[t].key, s.pinners[t].id;
    if u :| u in s.pinners && u != t && s.pinners[u].Holding? && s.pinners[u].key == k {
      assert s'.pinners[u].Holding? && s'.pinners[u].key !in s'.table;
      run := [];
    } else {
      DropUnderVisitStrands(s, t);
      run := VisitorDeletesTheSuccessor(s', k, id);
    }
  }

  /**
   Dropping a key behind the collector's back leaves every holder safe in every later run exactly when the
   dropping goroutine is the key's only holder and the collector is neither visiting nor deleting it.
   */
  lemma DropKeySafeExactlyWhenAlone<K(!new)>(before: seq<Action<K>>, t: nat)
    requires CollectorOwnsDeletion(before) && Exec(Init(), before).Some?
    requires Next(Exec(Init(), before).value, DropKey(t)).Some?
    ensures var s: State<K> := Exec(Init(), before).value;
            SafeForever(Next(s, DropKey(t)).value) <==> AloneOnKey(s, t)
  {
    var s: State<K> := Exec(Init(), before).value;
    RunKeepsInv(Init(), before);
    var s' := Dropped(s, t);
    if AloneOnKey(s, t) {
      LoneDropSurvives(s, t);
      forall run: seq<Action<K>> | CollectorOwnsDeletion(run) && Exec(s', run).Some?
        ensures HoldersAreSafe(Exec(s', run).value)
      {
        RunSurvives(s', run);
      }
    } else {
      var run := CrowdedDropFails(s, t);
    }
  }

  // ---------------------------------------------------------------------------------------------
  // A run in which the failed provisioning of one connection splits the holders of a key.

  function JoinRun<K>(t: nat, k: K): seq<Action<K>> {
    [Enter(t, k), Load(t)] + [Pin(t), Recheck(t)]
  }

  function Joined<K>(s: State<K>, t: nat, k: K): State<K>
    requires k in s.table && s.table[k] < |s.leases|
  {
    var id := s.table[k];
    At(s, t, Holding(k, id, false)).(leases := s.leases[id := AfterTryPin(s.leases[id])])
  }

  /** A goroutine that pins a mapped, unmarked resource undisturbed shares it. */
  lemma UndisturbedPinJoins<K>(s: State<K>, t: nat, k: K)
    requires InBounds(s) && t !in s.pinners && k in s.table && s.table[k] < |s.leases|
    requires !s.leases[s.table[k]].marked
    ensures Exec(s, JoinRun(t, k)) == Some(Joined(s, t, k))
  {
    var id := s.table[k];
    var enter, load, pin, recheck: Action<K> := Enter(t, k), Load(t), Pin(t), Recheck(t);
    var loading, trying := At(s, t, AtLoad(k)), At(s, t, AtTryPin(k, id, false));
    var pinned := At(s, t, AtRecheck(k, id, false)).(leases := s.leases[id := AfterTryPin(s.leases[id])]);
    assert Next(loading, load) == Some(trying) by {
      assert loading.pinners[t := AtTryPin(k, id, false)] == trying.pinners;
    }
    assert Next(trying, pin) == Some(pinned) by {
      assert trying.pinners[t := AtRecheck(k, id, false)] == pinned.pinners;
    }
    assert Next(pinned, recheck) == Some(Joined(s, t, k)) by {
      assert pinned.pinners[t := Holding(k, id, false)] == Joined(s, t, k).pinners;
    }
    ExecCons(pinned, recheck, []);
    ExecCons(trying, pin, [recheck] + []);
    ExecCons(loading, load, [pin] + ([recheck] + []));
    ExecCons(s, enter, [load] + ([pin] + ([recheck] + [])));
    assert JoinRun(t, k) == [enter] + ([load] + ([pin] + ([recheck] + [])));
  }

  lemma SharedRun() returns (shared: State<int>)
    ensures Exec(Init(), PinRun(0, 7) + JoinRun(1, 7)) == Some(shared) && |shared.leases| == 1 && InBounds(shared)
    ensures shared.pinners == map[0 := Holding(7, 0, true), 1 := Holding(7, 0, false)]
  {
    var s: State<int> := Init();
    UndisturbedPinCreates(s, 0, 7);
    var held := CreatedAndHeld(s, 0, 7);
    UndisturbedPinJoins(held, 1, 7);
    ExecAppend(s, PinRun(0, 7), JoinRun(1, 7));
    shared := Joined(held, 1, 7);
    assert held.pinners == map[0 := Holding(7, 0, true)];
  }

  /** Goroutines 0 and 1 share resource 0 of key 7 when 0 drops the key. */
  lemma SharedThenDropped() returns (dropped: State<int>)
    ensures Exec(Init(), PinRun(0, 7) + JoinRun(1, 7) + [DropKey(0)]) == Some(dropped)
    ensures InBounds(dropped) && 7 !in dropped.table && 1 in dropped.pinners && 2 !in dropped.pinners
    ensures dropped.pinners[1] == Holding(7, 0, false) && |dropped.leases| == 1
  {
    var shared := SharedRun();
    dropped := Dropped(shared, 0);
    var drop: Action<int> := DropKey(0);
    ExecCons(shared, drop, []);
    ExecAppend(Init(), PinRun(0, 7) + JoinRun(1, 7), [drop] + []);
    assert [drop] + [] == [drop];
  }

  /**
   Goroutines 0 and 1 share a resource, 0 drops the key, and goroutine 2 then creates the key anew: 1 and 2 both
   hold key 7, on different resources.
   */
  lemma DropKeyBreaksSharing()
    ensures var end := Exec(Init(), PinRun(0, 7) + JoinRun(1, 7) + [DropKey(0)] + PinRun(2, 7));
            && end.Some? && 1 in end.value.pinners && 2 in end.value.pinners
            && end.value.pinners[1] == Holding(7, 0, false) && end.value.pinners[2] == Holding(7, 1, true)
            && !HoldersAreSafe(end.value)
  {
    var dropped := SharedThenDropped();
    UndisturbedPinCreates(dropped, 2, 7);
    ExecAppend(Init(), PinRun(0, 7) + JoinRun(1, 7) + [DropKey(0)], PinRun(2, 7));
    var end := CreatedAndHeld(dropped, 2, 7);
    assert end.pinners[1].Holding? && end.table[7] == 1;
  }
}
