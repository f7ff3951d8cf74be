/**
 Evictions under concurrency. Any number of goroutines run the eviction loop while requests arrive and are cleaned up.
 The locked queue operations, the load-or-store of a guard, the run of a guard and the deletion of a guard are one
 atomic step each, and a run is any interleaving of such steps.
 */
module EvictionProtocol {
  import opened Options

  /** A tracked request; `PreRequest` gives each one a channel of its own. */
  datatype Request<Id> = Request(id: Id, channel: Option<nat>)

  /** A goroutine that has popped a request, and then the guard it has loaded for it. */
  datatype Worker<Id> =
    | Popped(request: Request<Id>)
    | Guarded(request: Request<Id>, once: nat)

  /**
   `channels` and `onces` count the channels and guards created so far; `closed` lists the close events and
   `reported` the evictions reported as done.
   */
  datatype State<Id> = State(
    channels: nat,
    onces: nat,
    tracked: map<Id, Request<Id>>,
    guards: map<Id, nat>,
    fired: set<nat>,
    workers: map<nat, Worker<Id>>,
    closed: seq<nat>,
    reported: seq<Request<Id>>)

  datatype Action<Id> =
    | PreRequest(id: Id)
    | TrackBare(id: Id)
    | Untrack(id: Id)
    | DropGuard(id: Id)
    | Pop(w: nat, id: Id)
    | LoadOrStore(w: nat)
    | Fire(w: nat)
    | Fail(w: nat)

  function Init<Id>(): State<Id> {
    State(0, 0, map[], map[], {}, map[], [], [])
  }

  function Track<Id>(s: State<Id>, r: Request<Id>): State<Id> {
    s.(tracked := s.tracked[r.id := r])
  }

  function AfterPop<Id>(s: State<Id>, w: nat, id: Id): State<Id>
    requires id in s.tracked
  {
    s.(tracked := s.tracked - {id}, workers := s.workers[w := Popped(s.tracked[id])])
  }

  function AfterLoad<Id>(s: State<Id>, w: nat, r: Request<Id>): State<Id> {
    if r.id in s.guards then s.(workers := s.workers[w := Guarded(r, s.guards[r.id])])
    else s.(workers := s.workers[w := Guarded(r, s.onces)], guards := s.guards[r.id := s.onces], onces := s.onces + 1)
  }

  function AfterFire<Id>(s: State<Id>, w: nat, r: Request<Id>, once: nat): State<Id>
    requires r.channel.Some?
  {
    s.(workers := s.workers - {w}, reported := s.reported + [r], fired := s.fired + {once},
       closed := if once in s.fired then s.closed else s.closed + [r.channel.value])
  }

  function Next<Id>(s: State<Id>, a: Action<Id>): Option<State<Id>> {
    match a
    case PreRequest(id) => Some(Track(s, Request(id, Some(s.channels))).(channels := s.channels + 1))
    case TrackBare(id) => Some(Track(s, Request(id, None)))
    case Untrack(id) => Some(s.(tracked := s.tracked - {id}))
    case DropGuard(id) => Some(s.(guards := s.guards - {id}))
    case Pop(w, id) => if w !in s.workers && id in s.tracked then Some(AfterPop(s, w, id)) else None
    case LoadOrStore(w) =>
      if w in s.workers && s.workers[w].Popped? && s.workers[w].request.channel.Some?
      then Some(AfterLoad(s, w, s.workers[w].request)) else None
    case Fire(w) =>
      if w in s.workers && s.workers[w].Guarded? && s.workers[w].request.channel.Some?
      then Some(AfterFire(s, w, s.workers[w].request, s.workers[w].once)) else None
    case Fail(w) =>
      if w in s.workers && s.workers[w].Popped? && s.workers[w].request.channel.None?
      then Some(Track(s, s.workers[w].request).(workers := s.workers - {w})) else None
  }

  function Exec<Id>(s: State<Id>, run: seq<Action<Id>>): Option<State<Id>>
    decreases |run|
  {
    if run == [] then Some(s)
    else
      match Next(s, run[0])
      case None => None
      case Some(next) => Exec(next, run[1..])
  }

  // ---------------------------------------------------------------------------------------------
  // No channel is closed twice: a channel is in at most one place.

  predicate Tracks<Id>(s: State<Id>, c: nat, id: Id) {
    id in s.tracked && s.tracked[id].channel == Some(c)
  }

  predicate Handles<Id>(s: State<Id>, c: nat, w: nat) {
    w in s.workers && s.workers[w].request.channel == Some(c)
  }

  ghost predicate Created<Id(!new)>(s: State<Id>) {
    && (forall id: Id, c: nat :: Tracks(s, c, id) ==> c < s.channels)
    && (forall w: nat, c: nat :: Handles(s, c, w) ==> c < s.channels)
    && (forall c :: c in s.closed ==> c < s.channels)
  }

  ghost predicate OnePlace<Id(!new)>(s: State<Id>) {
    && (forall c: nat, i: Id, j: Id :: Tracks(s, c, i) && Tracks(s, c, j) ==> i == j)
    && (forall c: nat, v: nat, w: nat :: Handles(s, c, v) && Handles(s, c, w) ==> v == w)
    && (forall c: nat, i: Id, w: nat :: Tracks(s, c, i) ==> !Handles(s, c, w))
    && (forall c: nat, i: Id :: Tracks(s, c, i) ==> c !in s.closed)
    && (forall c: nat, w: nat :: Handles(s, c, w) ==> c !in s.closed)
  }

  ghost predicate Distinct<T>(q: seq<T>) {
    forall i, j :: 0 <= i < j < |q| ==> q[i] != q[j]
  }

  ghost predicate Inv<Id(!new)>(s: State<Id>) {
    Created(s) && OnePlace(s) && Distinct(s.closed)
  }

  /** Where the channels of the next state come from. */
  lemma ChannelsMove<Id(!new)>(s: State<Id>, a: Action<Id>, n: State<Id>)
    requires Next(s, a) == Some(n)
    ensures forall c: nat, i: Id :: Tracks(n, c, i) ==> Tracks(s, c, i) || (a == PreRequest(i) && c == s.channels)
    ensures forall c: nat, i: Id :: Tracks(n, c, i) && a.Pop? ==> i != a.id
    ensures forall c: nat, w: nat ::
              Handles(n, c, w) ==> Handles(s, c, w) || (a.Pop? && a.w == w && Tracks(s, c, a.id))
    ensures forall c: nat, w: nat :: Handles(n, c, w) && a.Fire? ==> w != a.w
    ensures a.Pop? ==> forall c: nat :: !Handles(s, c, a.w)
  {
  }

  lemma StepKeepsInv<Id(!new)>(s: State<Id>, a: Action<Id>, n: State<Id>)
    requires Inv(s) && Next(s, a) == Some(n)
    ensures Inv(n)
  {
    ChannelsMove(s, a, n);
    if a.Fire? {
      assert Handles(s, s.workers[a.w].request.channel.value, a.w);
    }
  }

  lemma {:induction false} RunKeepsInv<Id(!new)>(s: State<Id>, run: seq<Action<Id>>)
    requires Inv(s) && Exec(s, run).Some?
    ensures Inv(Exec(s, run).value)
    decreases |run|
  {
    if run != [] {
      StepKeepsInv(s, run[0], Next(s, run[0]).value);
      RunKeepsInv(Next(s, run[0]).value, run[1..]);
    }
  }

  /** Over every interleaving of arrivals, cleanups and evictions, no eviction channel is closed twice. */
  lemma NoChannelClosedTwice<Id(!new)>(run: seq<Action<Id>>)
    requires Exec(Init(), run).Some?
    ensures Distinct(Exec(Init<Id>(), run).value.closed)
  {
    RunKeepsInv(Init<Id>(), run);
  }

  // ---------------------------------------------------------------------------------------------
  // Every reported eviction closed its channel, as long as no request ID is used again.

  /** The eviction signals its request exactly when the guard it loaded has not run. */
  lemma GuardDecides<Id(!new)>(run: seq<Action<Id>>, w: nat)
    requires Exec(Init(), run).Some? && Next(Exec(Init(), run).value, Fire(w)).Some?
    ensures var s := Exec(Init<Id>(), run).value;
            var n := Next(s, Fire(w)).value;
            s.workers[w].request.channel.value in n.closed <==> s.workers[w].once !in s.fired
  {
    RunKeepsInv(Init<Id>(), run);
    var s := Exec(Init<Id>(), run).value;
    assert Handles(s, s.workers[w].request.channel.value, w);
  }

  predicate Arrives<Id>(a: Action<Id>) {
    a.PreRequest? || a.TrackBare?
  }

  /** No ID arrives twice, and none of `used` arrives. */
  ghost predicate FreshIDs<Id>(run: seq<Action<Id>>, used: set<Id>) {
    && (forall i :: 0 <= i < |run| && Arrives(run[i]) ==> run[i].id !in used)
    && (forall i, j :: 0 <= i < j < |run| && Arrives(run[i]) && Arrives(run[j]) ==> run[i].id != run[j].id)
  }

  function Used<Id>(used: set<Id>, a: Action<Id>): set<Id> {
    if Arrives(a) then used + {a.id} else used
  }

  predicate Carries<Id>(s: State<Id>, w: nat, id: Id) {
    w in s.workers && s.workers[w].request.id == id
  }

  predicate Holds<Id>(s: State<Id>, w: nat, once: nat) {
    w in s.workers && s.workers[w].Guarded? && s.workers[w].once == once
  }

  /** Every ID is tracked, or carried by one goroutine, or gone; a guard is stored only after its request was popped. */
  ghost predicate OneCarrier<Id(!new)>(s: State<Id>, used: set<Id>) {
    && (forall id :: id in s.tracked ==> id in used && id !in s.guards && s.tracked[id].id == id)
    && (forall id :: id in s.guards ==> id in used)
    && (forall w: nat, id: Id :: Carries(s, w, id) ==> id in used && id !in s.tracked)
    && (forall v: nat, w: nat, id: Id :: Carries(s, v, id) && Carries(s, w, id) ==> v == w)
    && (forall w :: w in s.workers && s.workers[w].Popped? ==> s.workers[w].request.id !in s.guards)
  }

  /** A loaded guard belongs to one goroutine and has not run. */
  ghost predicate OwnGuards<Id(!new)>(s: State<Id>) {
    && (forall w: nat, o: nat :: Holds(s, w, o) ==> o < s.onces && o !in s.fired)
    && (forall v: nat, w: nat, o: nat :: Holds(s, v, o) && Holds(s, w, o) ==> v == w)
    && (forall o :: o in s.fired ==> o < s.onces)
  }

  /** The channels of the reported evictions. */
  function Channels<Id>(q: seq<Request<Id>>): seq<Option<nat>> {
    seq(|q|, i requires 0 <= i < |q| => q[i].channel)
  }

  function Somes(q: seq<nat>): seq<Option<nat>> {
    seq(|q|, i requires 0 <= i < |q| => Some(q[i]))
  }

  ghost predicate Signalled<Id(!new)>(s: State<Id>) {
    Channels(s.reported) == Somes(s.closed)
  }

  lemma StepKeepsCarriers<Id(!new)>(s: State<Id>, a: Action<Id>, n: State<Id>, used: set<Id>)
    requires OneCarrier(s, used) && Next(s, a) == Some(n)
    requires Arrives(a) ==> a.id !in used
    ensures OneCarrier(n, Used(used, a))
  {
    forall w: nat, id: Id | Carries(n, w, id)
      ensures Carries(s, w, id) || (a.Pop? && a.w == w && a.id == id)
    {
    }
    forall w | w in s.workers
      ensures Carries(s, w, s.workers[w].request.id)
    {
    }
    forall w | w in n.workers
      ensures Carries(n, w, n.workers[w].request.id)
    {
    }
  }

  lemma StepKeepsGuards<Id(!new)>(s: State<Id>, a: Action<Id>, n: State<Id>, used: set<Id>)
    requires OneCarrier(s, used) && OwnGuards(s) && Signalled(s) && Next(s, a) == Some(n)
    ensures OwnGuards(n) && Signalled(n)
  {
    forall w: nat, o: nat | Holds(n, w, o)
      ensures Holds(s, w, o) || (a == LoadOrStore(w) && o == s.onces)
    {
    }
    if a.Fire? {
      assert Holds(s, a.w, s.workers[a.w].once);
      assert Channels(n.reported) == Channels(s.reported) + [s.workers[a.w].request.channel];
      assert Somes(n.closed) == Somes(s.closed) + [s.workers[a.w].request.channel];
    }
  }

  lemma {:induction false} RunSignals<Id(!new)>(s: State<Id>, run: seq<Action<Id>>, used: set<Id>)
    requires OneCarrier(s, used) && OwnGuards(s) && Signalled(s)
    requires FreshIDs(run, used) && Exec(s, run).Some?
    ensures Signalled(Exec(s, run).value)
    decreases |run|
  {
    if run != [] {
      var n := Next(s, run[0]).value;
      StepKeepsCarriers(s, run[0], n, used);
      StepKeepsGuards(s, run[0], n, used);
      RunSignals(n, run[1..], Used(used, run[0]));
    }
  }

  /** When no request ID arrives twice, the evictions reported are exactly the channels closed, in order. */
  lemma DistinctRequestsAreSignalled<Id(!new)>(run: seq<Action<Id>>)
    requires Exec(Init(), run).Some? && FreshIDs(run, {})
    ensures var s := Exec(Init<Id>(), run).value; Channels(s.reported) == Somes(s.closed)
  {
    RunSignals(Init<Id>(), run, {});
  }

  // ---------------------------------------------------------------------------------------------
  // No request is lost.

  /** The IDs that have arrived and not been untracked since. */
  function Pending<Id>(pending: set<Id>, a: Action<Id>): set<Id> {
    if Arrives(a) then pending + {a.id} else if a.Untrack? then pending - {a.id} else pending
  }

  function PendingAfter<Id>(pending: set<Id>, run: seq<Action<Id>>): set<Id>
    decreases |run|
  {
    if run == [] then pending else PendingAfter(Pending(pending, run[0]), run[1..])
  }

  predicate Reported<Id>(s: State<Id>, id: Id) {
    exists r :: r in s.reported && r.id == id
  }

  /** The request is tracked, in the hands of a goroutine, or reported as evicted. */
  ghost predicate Kept<Id>(s: State<Id>, id: Id) {
    id in s.tracked || (exists w :: Carries(s, w, id)) || Reported(s, id)
  }

  ghost predicate NamesAgree<Id>(s: State<Id>) {
    forall id :: id in s.tracked ==> s.tracked[id].id == id
  }

  lemma StepKeepsRequest<Id>(s: State<Id>, a: Action<Id>, n: State<Id>, id: Id)
    requires NamesAgree(s) && Next(s, a) == Some(n) && Kept(s, id) && a != Untrack(id)
    ensures Kept(n, id)
  {
    if id in s.tracked {
      if a.Pop? && a.id == id {
        assert Carries(n, a.w, id);
      }
    } else if w :| Carries(s, w, id) {
      if a.Fire? && a.w == w {
        assert n.reported[|s.reported|].id == id;
      } else if !(a.Fail? && a.w == w) {
        assert Carries(n, w, id);
      }
    } else {
      var r :| r in s.reported && r.id == id;
      assert r in n.reported;
    }
  }

  lemma {:induction false} RunKeepsRequests<Id>(s: State<Id>, run: seq<Action<Id>>, pending: set<Id>)
    requires NamesAgree(s) && (forall id :: id in pending ==> Kept(s, id)) && Exec(s, run).Some?
    ensures forall id :: id in PendingAfter(pending, run) ==> Kept(Exec(s, run).value, id)
    decreases |run|
  {
    if run != [] {
      var a, n := run[0], Next(s, run[0]).value;
      forall id | id in Pending(pending, a)
        ensures Kept(n, id)
      {
        if !(Arrives(a) && a.id == id) {
          StepKeepsRequest(s, a, n, id);
        }
      }
      RunKeepsRequests(n, run[1..], Pending(pending, a));
    }
  }

  /** Over every run, a request that has arrived and was not untracked is tracked, being evicted, or reported. */
  lemma NoRequestIsLost<Id>(run: seq<Action<Id>>)
    requires Exec(Init(), run).Some?
    ensures forall id :: id in PendingAfter({}, run) ==> Kept(Exec(Init<Id>(), run).value, id)
  {
    RunKeepsRequests(Init<Id>(), run, {});
  }

  /** A guard that has run was created. */
  ghost predicate FiredAreCreated<Id>(s: State<Id>) {
    && (forall o :: o in s.fired ==> o < s.onces)
    && (forall id :: id in s.guards ==> s.guards[id] < s.onces)
    && (forall w :: w in s.workers && s.workers[w].Guarded? ==> s.workers[w].once < s.onces)
  }

  lemma StepKeepsFired<Id>(s: State<Id>, a: Action<Id>, n: State<Id>)
    requires FiredAreCreated(s) && Next(s, a) == Some(n)
    ensures FiredAreCreated(n)
  {
    if a.LoadOrStore? {
      assert forall w :: w in n.workers && w != a.w ==> w in s.workers && n.workers[w] == s.workers[w];
    }
  }

  lemma {:induction false} RunKeepsFired<Id>(s: State<Id>, run: seq<Action<Id>>)
    requires FiredAreCreated(s) && Exec(s, run).Some?
    ensures FiredAreCreated(Exec(s, run).value)
    decreases |run|
  {
    if run != [] {
      StepKeepsFired(s, run[0], Next(s, run[0]).value);
      RunKeepsFired(Next(s, run[0]).value, run[1..]);
    }
  }

  /**
   After any run, a request popped for eviction is signalled, undisturbed, exactly when no guard of its ID is stored or
   the stored one has not run; cleaning the ID up first always leads to a signal.
   */
  lemma CleanupRearms<Id>(run: seq<Action<Id>>, w: nat, c: nat)
    requires Exec(Init(), run).Some?
    requires var s := Exec(Init<Id>(), run).value;
             w in s.workers && s.workers[w].Popped? && s.workers[w].request.channel == Some(c)
    ensures var s := Exec(Init<Id>(), run).value;
            var id := s.workers[w].request.id;
            && Exec(s, [LoadOrStore(w), Fire(w)]).Some? && Exec(s, [DropGuard(id), LoadOrStore(w), Fire(w)]).Some?
            && Exec(s, [LoadOrStore(w), Fire(w)]).value.closed ==
               (if id !in s.guards || s.guards[id] !in s.fired then s.closed + [c] else s.closed)
            && Exec(s, [DropGuard(id), LoadOrStore(w), Fire(w)]).value.closed == s.closed + [c]
  {
    RunKeepsFired(Init<Id>(), run);
    var s := Exec(Init<Id>(), run).value;
    var dropped := Next(s, DropGuard(s.workers[w].request.id)).value;
    EvictAlone(s, w, c);
    EvictAlone(dropped, w, c);
    var drop: Action<Id> := DropGuard(s.workers[w].request.id);
    assert [drop, LoadOrStore(w), Fire(w)][1..] == [LoadOrStore(w), Fire(w)];
  }

  lemma EvictAlone<Id>(s: State<Id>, w: nat, c: nat)
    requires FiredAreCreated(s) && w in s.workers && s.workers[w].Popped? && s.workers[w].request.channel == Some(c)
    ensures Exec(s, [LoadOrStore(w), Fire(w)]).Some?
    ensures var id := s.workers[w].request.id;
            Exec(s, [LoadOrStore(w), Fire(w)]).value.closed ==
            (if id !in s.guards || s.guards[id] !in s.fired then s.closed + [c] else s.closed)
  {
    var load, fire: Action<Id> := LoadOrStore(w), Fire(w);
    var n := Next(s, load).value;
    assert [load, fire][1..] == [fire] && [fire][1..] == [];
    assert Exec(n, [fire]) == Next(n, fire);
  }

  // A request that reuses the ID of an evicted one that has not been cleaned up.

  const REUSE: seq<Action<nat>> := [PreRequest(7), Pop(0, 7), LoadOrStore(0), Fire(0),
                                    PreRequest(7), Pop(0, 7), LoadOrStore(0), Fire(0)]

  const REUSED: State<nat> :=
    State(2, 1, map[], map[7 := 0], {0}, map[], [0], [Request(7, Some(0)), Request(7, Some(1))])
  const EVICTED: State<nat> := State(1, 1, map[], map[7 := 0], {0}, map[], [0], [Request(7, Some(0))])

  lemma FirstIsSignalled()
    ensures Exec(Init(), REUSE[..4]) == Some(EVICTED)
  {
    var s0, first := Init<nat>(), Request(7, Some(0));
    var s1 := s0.(channels := 1, tracked := map[7 := first]);
    var s2 := s1.(tracked := map[], workers := map[0 := Popped(first)]);
    var s3 := s2.(workers := map[0 := Guarded(first, 0)], guards := map[7 := 0], onces := 1);
    Overwrite(0, Popped(first), Guarded(first, 0));
    assert [] + [first] == [first] && [] + [0] == [0] && {} + {0} == {0};
    assert Next(s1, REUSE[1]) == Some(s2);
    assert Next(s2, REUSE[2]) == Some(s3);
    assert Next(s3, REUSE[3]) == Some(EVICTED);
    FollowRun(REUSE[..4], [s0, s1, s2, s3, EVICTED], 0);
    assert REUSE[..4][0..] == REUSE[..4];
  }

  lemma SecondIsNot()
    ensures Exec(EVICTED, REUSE[4..]) == Some(REUSED)
  {
    var first, second := Request(7, Some(0)), Request(7, Some(1));
    var s5 := EVICTED.(channels := 2, tracked := map[7 := second]);
    var s6 := s5.(tracked := map[], workers := map[0 := Popped(second)]);
    var s7 := s6.(workers := map[0 := Guarded(second, 0)]);
    Overwrite(0, Popped(second), Guarded(second, 0));
    assert [first] + [second] == [first, second] && {0} + {0} == {0};
    assert Next(s5, REUSE[5]) == Some(s6);
    assert Next(s6, REUSE[6]) == Some(s7);
    assert Next(s7, REUSE[7]) == Some(REUSED);
    FollowRun(REUSE[4..], [EVICTED, s5, s6, s7, REUSED], 0);
    assert REUSE[4..][0..] == REUSE[4..];
  }

  lemma {:induction false} ExecAppend<Id>(s: State<Id>, first: seq<Action<Id>>, second: seq<Action<Id>>)
    requires Exec(s, first).Some?
    ensures Exec(s, first + second) == Exec(Exec(s, first).value, second)
    decreases |first|
  {
    if first == [] {
      assert first + second == second;
    } else {
      assert (first + second)[1..] == first[1..] + second;
      ExecAppend(Next(s, first[0]).value, first[1..], second);
    }
  }

  /** With a reused ID an eviction can be reported while the request's channel stays open. */
  lemma ReusedIDIsNotSignalled()
    ensures var s := Exec(Init(), REUSE);
            && s.Some? && s.value.reported == [Request(7, Some(0)), Request(7, Some(1))] && s.value.closed == [0]
  {
    FirstIsSignalled();
    SecondIsNot();
    ExecAppend(Init(), REUSE[..4], REUSE[4..]);
    assert REUSE[..4] + REUSE[4..] == REUSE;
  }

  lemma Overwrite<K, V>(k: K, x: V, y: V)
    ensures map[k := x][k := y] == map[k := y] && map[k := y] - {k} == map[]
  {
  }

  lemma {:induction false} FollowRun<Id>(run: seq<Action<Id>>, states: seq<State<Id>>, i: nat)
    requires i <= |run| && |states| == |run| + 1
    requires forall k :: 0 <= k < |run| ==> Next(states[k], run[k]) == Some(states[k + 1])
    ensures Exec(states[i], run[i..]) == Some(states[|run|])
    decreases |run| - i
  {
    if i < |run| {
      FollowRun(run, states, i + 1);
      assert run[i..][1..] == run[i + 1..];
    }
  }
}
