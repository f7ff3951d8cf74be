/**
 What the statistics do when a priority band disappears under its queues. An addition to a band that is gone finds
 nothing to add to and cannot be made; this says exactly when a drop can lead there.
 */
module BandDrops {
  import opened FlowKeys
  import opened ManagedQueues
  import opened Options
  import opened StatsProtocol

  /** The holder of the queue's mutex cannot make its next addition. */
  predicate Stuck(s: State, k: FlowKey) {
    k in s.queues && s.queues[k].lock.Busy? && Next(s, Tick(k)).None?
  }

  ghost predicate NoneStuck(s: State) {
    forall k :: k in s.queues ==> !Stuck(s, k)
  }

  predicate DropsNothing(run: seq<Action>) {
    forall i :: 0 <= i < |run| ==> !run[i].DropBand?
  }

  /** However the run goes on without another drop, every addition can be made. */
  ghost predicate NeverStuck(s: State) {
    forall run: seq<Action> :: DropsNothing(run) && Exec(s, run).Some? ==> NoneStuck(Exec(s, run).value)
  }

  // ---------------------------------------------------------------------------------------------
  // A drop that its queues do not notice.

  lemma {:induction false} QuietRunIsHarmless(s: State, run: seq<Action>)
    requires DropsNothing(run)
    ensures HarmlessRun(s, run)
    decreases |run|
  {
    if run != [] && Next(s, run[0]).Some? {
      QuietRunIsHarmless(Next(s, run[0]).value, run[1..]);
    }
  }

  lemma HarmlessDropNeverSticks(s: State, p: int)
    requires Conserved(s) && Droppable(s, p)
    ensures NeverStuck(WithoutBand(s, p))
  {
    var s' := WithoutBand(s, p);
    DropBandKeepsQueues(s, p);
    DropBandKeepsCounters(s, p);
    forall run: seq<Action> | DropsNothing(run) && Exec(s', run).Some?
      ensures NoneStuck(Exec(s', run).value)
    {
      QuietRunIsHarmless(s', run);
      RunKeepsConserved(s', run);
      forall k | k in Exec(s', run).value.queues
        ensures !Stuck(Exec(s', run).value, k)
      {
        BusyMoves(Exec(s', run).value, k);
      }
    }
  }

  // ---------------------------------------------------------------------------------------------
  // A drop that some queue will notice.

  /** The band of `k` is gone, while `k` has something to report, or the processor is about to add to it. */
  predicate Doomed(s: State, k: FlowKey) {
    && k in s.queues && k.priority !in s.bands
    && (!Spent(s.queues[k], 8) || ClearedFor(s.admission, k))
    && (s.queues[k].lock.Busy? ==> s.queues[k].lock.done != 3 && s.queues[k].lock.done != 7)
  }

  lemma ExecCons(s: State, a: Action, s': State, rest: seq<Action>)
    requires Next(s, a) == Some(s')
    ensures Exec(s, [a] + rest) == Exec(s', rest)
  {
    assert ([a] + rest)[1..] == rest;
  }

  /** One addition below the missing band's level, or past it. */
  lemma TickMoves(s: State, k: FlowKey)
    requires k in s.queues && s.queues[k].lock.Busy? && !Stuck(s, k)
    ensures Next(s, Tick(k)).Some?
    ensures var s' := Next(s, Tick(k)).value;
            && k in s'.queues && s'.queues[k].items == s.queues[k].items
            && s'.queues[k].lock ==
               (if s.queues[k].lock.done < 10 then Busy(s.queues[k].lock.delta, s.queues[k].lock.done + 1) else Free)
            && s'.bands.Keys == s.bands.Keys && s'.admission == s.admission
  {
    if s.queues[k].lock.done < 10 {
      TickShape(s, k);
    }
  }

  /** An operation under way runs into the missing band, unless it is past the registry's band counters. */
  lemma {:induction false} TickOn(s: State, k: FlowKey) returns (run: seq<Action>)
    requires k in s.queues && s.queues[k].lock.Busy? && k.priority !in s.bands
    requires s.queues[k].lock.done != 3 && s.queues[k].lock.done != 7
    ensures DropsNothing(run) && Exec(s, run).Some?
    ensures var end := Exec(s, run).value;
            if s.queues[k].lock.done < 8 then Stuck(end, k)
            else && k in end.queues && end.queues[k].items == s.queues[k].items && end.queues[k].lock.Free?
                 && k.priority !in end.bands && end.admission == s.admission
    decreases 11 - s.queues[k].lock.done
  {
    if Stuck(s, k) {
      run := [];
      assert s.queues[k].lock.done < 8;
    } else {
      TickMoves(s, k);
      var s' := Next(s, Tick(k)).value;
      assert k.priority !in s'.bands.Keys;
      if s'.queues[k].lock.Free? {
        run := [Tick(k)];
        ExecCons(s, Tick(k), s', []);
        assert [Tick(k)] + [] == [Tick(k)];
      } else {
        var rest := TickOn(s', k);
        ExecCons(s, Tick(k), s', rest);
        run := [Tick(k)] + rest;
      }
    }
  }

  /** A fresh operation on a queue whose band is gone gets stuck. */
  lemma FreshOperationSticks(s: State, a: Action, s': State, k: FlowKey) returns (run: seq<Action>)
    requires Next(s, a) == Some(s') && !a.DropBand? && k in s'.queues && k.priority !in s'.bands
    requires s'.queues[k].lock.Busy? && s'.queues[k].lock.done == 0
    ensures DropsNothing(run) && Exec(s, run).Some? && Stuck(Exec(s, run).value, k)
  {
    var rest := TickOn(s', k);
    ExecCons(s, a, s', rest);
    run := [a] + rest;
  }

  lemma {:induction false} ExecAppend(s: State, first: seq<Action>, second: seq<Action>)
    requires Exec(s, first).Some?
    ensures Exec(s, first + second) == Exec(Exec(s, first).value, second)
    decreases |first|
  {
    if first == [] {
      assert first + second == second;
    } else {
      assert (first + second)[1..] == first[1..] + second;
      ExecAppend(Next(s, first[0]).value, first[1..], second);
    }
  }

  lemma IdleDoomedSticks(s: State, k: FlowKey) returns (run: seq<Action>)
    requires Doomed(s, k) && s.queues[k].lock.Free?
    ensures DropsNothing(run) && Exec(s, run).Some? && Stuck(Exec(s, run).value, k)
  {
    if ClearedFor(s.admission, k) {
      run := FreshOperationSticks(s, BeginAdd, Next(s, BeginAdd).value, k);
    } else {
      run := FreshOperationSticks(s, Begin(k, Drain), Next(s, Begin(k, Drain)).value, k);
    }
  }

  lemma DoomedSticks(s: State, k: FlowKey) returns (run: seq<Action>)
    requires Doomed(s, k)
    ensures DropsNothing(run) && Exec(s, run).Some? && Stuck(Exec(s, run).value, k)
  {
    if s.queues[k].lock.Free? {
      run := IdleDoomedSticks(s, k);
    } else {
      var first := TickOn(s, k);
      if s.queues[k].lock.done < 8 {
        run := first;
      } else {
        var rest := IdleDoomedSticks(Exec(s, first).value, k);
        ExecAppend(s, first, rest);
        run := first + rest;
      }
    }
  }

  lemma UndroppableDooms(s: State, p: int, k: FlowKey)
    requires k in s.queues && k.priority == p && (!Spent(s.queues[k], 7) || ClearedFor(s.admission, k))
    ensures Doomed(WithoutBand(s, p), k)
  {
  }

  // ---------------------------------------------------------------------------------------------
  // Exactly when.

  /**
   After any run whose drops were harmless, dropping one more band leaves every later propagation possible, in every
   continuation, exactly when all the band's queues are empty, none is in the middle of reporting to a band, and the
   processor is not about to add to one.
   */
  lemma DropSafeExactlyWhenUnneeded(limit: Limit, before: seq<Action>, p: int)
    requires HarmlessRun(Init(limit), before) && Exec(Init(limit), before).Some?
    requires Next(Exec(Init(limit), before).value, DropBand(p)).Some?
    ensures var s := Exec(Init(limit), before).value;
            NeverStuck(Next(s, DropBand(p)).value) <==> Droppable(s, p)
  {
    InitIsConserved(limit);
    RunKeepsConserved(Init(limit), before);
    var s := Exec(Init(limit), before).value;
    if Droppable(s, p) {
      HarmlessDropNeverSticks(s, p);
    } else {
      var k :| k in s.queues && k.priority == p && (!Spent(s.queues[k], 7) || ClearedFor(s.admission, k));
      UndroppableDooms(s, p, k);
      var run := DoomedSticks(WithoutBand(s, p), k);
      var end := Exec(WithoutBand(s, p), run).value;
      assert k in end.queues && Stuck(end, k);
    }
  }

  // A run in which the propagation of an addition finds no band.

  const KEY := FlowKey("a", 5)
  const ITEM := Item(0, 1)
  const NO_LIMIT := Limit(0, 0)

  /** The processor checks the capacity for an item and is cleared to add it. */
  const CLEARING: seq<Action> :=
    [NewBand(5, NO_LIMIT), NewFlow(KEY), StartCheck(KEY, ITEM), ReadNext, ReadNext, ReadNext, Decide]

  /** The band is dropped before the item is added. */
  const LOSING: seq<Action> := [DropBand(5), BeginAdd, Tick(KEY), Tick(KEY)]

  const PROVISIONED :=
    State(map[KEY := EMPTY], map[5 := ZERO], ZERO, map[5 := ZERO], ZERO, NO_LIMIT, map[5 := NO_LIMIT], Idle)
  const CLEARED := PROVISIONED.(admission := Cleared(KEY, ITEM, [0, 0, 0, 0]))

  lemma CheckReads(loads: seq<int>)
    requires |loads| < 3
    ensures Next(PROVISIONED.(admission := Checking(KEY, ITEM, loads)), ReadNext)
            == Some(PROVISIONED.(admission := Checking(KEY, ITEM, loads + [0])))
  {
  }

  lemma ProvisionEnds()
    ensures Exec(Init(NO_LIMIT), [NewBand(5, NO_LIMIT), NewFlow(KEY)]) == Some(PROVISIONED)
  {
    var s1 := WithBand(Init(NO_LIMIT), 5, NO_LIMIT);
    assert Next(s1, NewFlow(KEY)) == Some(PROVISIONED);
    ExecCons(s1, NewFlow(KEY), PROVISIONED, []);
    ExecCons(Init(NO_LIMIT), NewBand(5, NO_LIMIT), s1, [NewFlow(KEY)] + []);
    assert [NewBand(5, NO_LIMIT), NewFlow(KEY)] == [NewBand(5, NO_LIMIT)] + ([NewFlow(KEY)] + []);
  }

  lemma LastRead()
    ensures Next(PROVISIONED.(admission := Checking(KEY, ITEM, [0, 0, 0])), Decide) == Some(CLEARED)
  {
    assert [0, 0, 0] + [0] == [0, 0, 0, 0];
  }

  lemma CheckEnds()
    ensures Exec(PROVISIONED, CLEARING[2..]) == Some(CLEARED)
  {
    var run, s2 := CLEARING, PROVISIONED;
    var s3 := s2.(admission := Checking(KEY, ITEM, []));
    var s4 := s2.(admission := Checking(KEY, ITEM, [0]));
    var s5 := s2.(admission := Checking(KEY, ITEM, [0, 0]));
    var s6 := s2.(admission := Checking(KEY, ITEM, [0, 0, 0]));
    CheckReads([]);
    CheckReads([0]);
    CheckReads([0, 0]);
    LastRead();
    assert [] + [0] == [0] && [0] + [0] == [0, 0] && [0, 0] + [0] == [0, 0, 0];
    ExecCons(s6, run[6], CLEARED, []);
    ExecCons(s5, run[5], s6, [run[6]] + []);
    ExecCons(s4, run[4], s5, [run[5]] + ([run[6]] + []));
    ExecCons(s3, run[3], s4, [run[4]] + ([run[5]] + ([run[6]] + [])));
    ExecCons(s2, run[2], s3, [run[3]] + ([run[4]] + ([run[5]] + ([run[6]] + []))));
    assert run[2..] == [run[2]] + ([run[3]] + ([run[4]] + ([run[5]] + ([run[6]] + []))));
  }

  lemma ClearingEnds()
    ensures Exec(Init(NO_LIMIT), CLEARING) == Some(CLEARED)
  {
    ProvisionEnds();
    CheckEnds();
    ExecAppend(Init(NO_LIMIT), [NewBand(5, NO_LIMIT), NewFlow(KEY)], CLEARING[2..]);
    assert CLEARING == [NewBand(5, NO_LIMIT), NewFlow(KEY)] + CLEARING[2..];
  }

  lemma Overwrite(queues: map<FlowKey, Queue>, k: FlowKey, q: Queue, r: Queue)
    ensures queues[k := q][k := r] == queues[k := r]
  {
  }

  /** The two additions of the queue's own counters. */
  lemma OwnTick(s: State, q: Queue)
    requires q.lock.Busy? && q.lock.done < 2
    ensures var Busy(d, i) := q.lock;
            Next(WithQueue(s, KEY, q), Tick(KEY))
            == Some(WithQueue(s, KEY, Queue(q.items, Bump(q.stats, i, d), Busy(d, i + 1))))
  {
    var Busy(d, i) := q.lock;
    var bumped := q.(stats := Bump(q.stats, i, d));
    Overwrite(s.queues, KEY, q, bumped);
    Overwrite(s.queues, KEY, bumped, bumped.(lock := Busy(d, i + 1)));
    assert Bumped(WithQueue(s, KEY, q), KEY, i, d) == WithQueue(s, KEY, bumped);
  }

  lemma LosingSticks()
    ensures Exec(CLEARED, LOSING).Some? && Stuck(Exec(CLEARED, LOSING).value, KEY)
  {
    var run, d := LOSING, Delta(1, 1);
    var s1 := WithoutBand(CLEARED, 5);
    var adding := s1.(admission := Adding(KEY));
    var q2, q3 := Queue([ITEM], ZERO, Busy(d, 0)), Queue([ITEM], Stats(1, 0), Busy(d, 1));
    var s2, s3 := WithQueue(adding, KEY, q2), WithQueue(adding, KEY, q3);
    var s4 := WithQueue(adding, KEY, Queue([ITEM], Stats(1, 1), Busy(d, 2)));
    assert [] + [ITEM] == [ITEM];
    assert Next(s1, run[1]) == Some(s2);
    OwnTick(adding, q2);
    OwnTick(adding, q3);
    ExecCons(s3, run[3], s4, []);
    ExecCons(s2, run[2], s3, [run[3]] + []);
    ExecCons(s1, run[1], s2, [run[2]] + ([run[3]] + []));
    ExecCons(CLEARED, run[0], s1, [run[1]] + ([run[2]] + ([run[3]] + [])));
    assert run == [run[0]] + ([run[1]] + ([run[2]] + ([run[3]] + [])));
  }

  /** From the start, an item cleared for a queue whose band is then dropped is added and cannot be reported. */
  lemma AdditionMayFindNoBand()
    ensures var end := Exec(Init(NO_LIMIT), CLEARING + LOSING);
            end.Some? && Stuck(end.value, KEY)
  {
    ClearingEnds();
    LosingSticks();
    ExecAppend(Init(NO_LIMIT), CLEARING, LOSING);
  }
}
