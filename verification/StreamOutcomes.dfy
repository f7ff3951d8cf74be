/**
 What becomes of a request on a stream, in terms of the messages that were received while the stream was open: whether
 the completion hook runs, whether it is evicted, and how a failure is answered.
 */
module StreamOutcomes {
  import opened Chunking
  import opened Exchanges
  import opened ResponseBytes
  import opened Streams

  /** The `i`-th event came while the stream was open. */
  predicate Seen(env: Env, events: seq<Event>, i: int) {
    0 <= i < |events| && !Exec(env, Init(), events[..i]).over
  }

  /** The end of the request body got as far as choosing a target pod. */
  predicate PicksPod(e: Event) {
    && IsRequestEnd(e)
    && (e.message.handling.Scheduled? || (e.message.handling.Refused? && e.message.handling.scheduled))
  }

  ghost predicate PodPicked(env: Env, events: seq<Event>) {
    exists i :: Seen(env, events, i) && PicksPod(events[i])
  }

  ghost predicate ResponseEnded(env: Env, events: seq<Event>) {
    exists i :: Seen(env, events, i) && Completes(events[i])
  }

  lemma ExecSnoc(env: Env, events: seq<Event>, e: Event)
    ensures Exec(env, Init(), events + [e]) == Step(env, Exec(env, Init(), events), e)
  {
    ExecAppend(env, Init(), events, [e]);
    assert [e][1..] == [];
    assert Exec(env, Exec(env, Init(), events), [e]) == Step(env, Exec(env, Init(), events), e);
  }

  lemma SeenSnoc(env: Env, events: seq<Event>, e: Event, i: int)
    ensures Seen(env, events + [e], i) <==>
            Seen(env, events, i) || (i == |events| && !Exec(env, Init(), events).over)
  {
    if 0 <= i < |events| {
      assert (events + [e])[..i] == events[..i];
    } else if i == |events| {
      assert (events + [e])[..i] == events;
    }
  }

  lemma PickedSnoc(env: Env, events: seq<Event>, e: Event)
    ensures PodPicked(env, events + [e]) <==>
            PodPicked(env, events) || (PicksPod(e) && !Exec(env, Init(), events).over)
  {
    var all := events + [e];
    if i :| Seen(env, events, i) && PicksPod(events[i]) {
      SeenSnoc(env, events, e, i);
      assert all[i] == events[i];
    }
    if PicksPod(e) && !Exec(env, Init(), events).over {
      SeenSnoc(env, events, e, |events|);
      assert all[|events|] == e;
    }
    if i :| Seen(env, all, i) && PicksPod(all[i]) {
      SeenSnoc(env, events, e, i);
      assert i < |events| ==> all[i] == events[i];
    }
  }

  lemma EndedSnoc(env: Env, events: seq<Event>, e: Event)
    ensures ResponseEnded(env, events + [e]) <==>
            ResponseEnded(env, events) || (Completes(e) && !Exec(env, Init(), events).over)
  {
    var all := events + [e];
    if i :| Seen(env, events, i) && Completes(events[i]) {
      SeenSnoc(env, events, e, i);
      assert all[i] == events[i];
    }
    if Completes(e) && !Exec(env, Init(), events).over {
      SeenSnoc(env, events, e, |events|);
      assert all[|events|] == e;
    }
    if i :| Seen(env, all, i) && Completes(all[i]) {
      SeenSnoc(env, events, e, i);
      assert i < |events| ==> all[i] == events[i];
    }
  }

  /** The message picks a pod, or ends the response, exactly if it is such a message. */
  predicate Outcome(s: Session, m: Message, c: Context) {
    && (c.targetPod <==> s.ctx.targetPod || PicksPod(Receive(m)))
    && (c.complete <==> s.ctx.complete || Completes(Receive(m)))
  }

  lemma RequestBodyOutcome(s: Session, m: Message)
    requires m.RequestBody?
    ensures Outcome(s, m, AfterRequestBody(s, m).ctx)
  {
  }

  lemma FinishOutcome(env: Env, s: Session, body: Bytes, setEos: bool)
    ensures var c := FinishResponse(env, s, body, setEos).ctx; c.complete && c.targetPod == s.ctx.targetPod
  {
  }

  lemma ResponseBodyOutcome(env: Env, s: Session, m: Message)
    requires m.ResponseBody?
    ensures Outcome(s, m, AfterResponseBody(env, s, m).ctx)
  {
    if !s.ctx.streaming {
      var t := s.(body := s.body + m.data);
      FinishOutcome(env, t, t.body, true);
    }
  }

  lemma MessageOutcome(env: Env, s: Session, m: Message)
    ensures Outcome(s, m, AfterMessage(env, s, m).ctx)
  {
    match m
    case RequestBody(_, _, _) => RequestBodyOutcome(s, m);
    case ResponseBody(_, _) => ResponseBodyOutcome(env, s, m);
    case ResponseTrailers => FinishOutcome(env, s, s.body, false);
    case _ =>
  }

  lemma StepOutcome(env: Env, s: Session, e: Event)
    ensures var t := Step(env, s, e);
            && (t.ctx.targetPod <==> s.ctx.targetPod || (!s.over && PicksPod(e)))
            && (t.ctx.complete <==> s.ctx.complete || (!s.over && Completes(e)))
  {
    if !s.over {
      match e
      case Disconnect =>
      case EvictionSignal => FlushKeeps(s.ctx.(phase := RequestEvicted));
      case Receive(m) =>
        MessageOutcome(env, s, m);
        FlushKeeps(AfterMessage(env, s, m).ctx);
    }
  }

  lemma {:induction false} OutcomeInEvents(env: Env, events: seq<Event>)
    ensures var s := Exec(env, Init(), events);
            && (s.ctx.targetPod <==> PodPicked(env, events)) && (s.ctx.complete <==> ResponseEnded(env, events))
    decreases |events|
  {
    if |events| > 0 {
      var most, e := events[..|events| - 1], events[|events| - 1];
      assert most + [e] == events;
      OutcomeInEvents(env, most);
      ExecSnoc(env, most, e);
      StepOutcome(env, Exec(env, Init(), most), e);
      PickedSnoc(env, most, e);
      EndedSnoc(env, most, e);
    }
  }

  /**
   Over every run of the protocol with one end of the response body, however the stream is left, the completion hook
   runs exactly once when a target pod was picked or the response ended while the stream was open, and not at all
   otherwise.
   */
  lemma HookRunsExactly(env: Env, events: seq<Event>)
    requires Protocol(events) && OneResponseEnd(events)
    ensures Run(env, events).hooks == if PodPicked(env, events) || ResponseEnded(env, events) then 1 else 0
  {
    CompletionHookExact(env, events);
    NoLateEnds(env, Init(), events);
    OutcomeInEvents(env, events);
  }

  // ---------------------------------------------------------------------------------------------
  // Evictions.

  predicate Arms(e: Event) {
    IsRequestEnd(e) && e.message.handling.Scheduled? && e.message.handling.evictable
  }

  ghost predicate Armed(env: Env, events: seq<Event>) {
    exists i :: Seen(env, events, i) && Arms(events[i])
  }

  lemma ArmedGrows(env: Env, events: seq<Event>, e: Event)
    ensures Armed(env, events) ==> Armed(env, events + [e])
    ensures Arms(e) && !Exec(env, Init(), events).over ==> Armed(env, events + [e])
  {
    var all := events + [e];
    if i :| Seen(env, events, i) && Arms(events[i]) {
      SeenSnoc(env, events, e, i);
      assert all[i] == events[i];
    }
    if Arms(e) && !Exec(env, Init(), events).over {
      SeenSnoc(env, events, e, |events|);
      assert all[|events|] == e;
    }
  }

  lemma StepArms(env: Env, s: Session, e: Event)
    requires EvictedBeforeEnd(s)
    ensures Step(env, s, e).armed ==> s.armed || (!s.over && Arms(e))
    ensures Immediate(true) in Step(env, s, e).sent ==> Immediate(true) in s.sent || s.armed
  {
    if !s.over {
      match e
      case Disconnect =>
      case EvictionSignal =>
      case Receive(m) =>
        var t := AfterMessage(env, s, m);
        MessageWaits(env, s, m);
        MessageMarks(env, s, m);
        FlushBeforeEnd(t.ctx);
        DeliveredFrom(env.limit, s.sent, if Fails(m) then FailureAnswer(m) else FlushAll(t.ctx).out);
    }
  }

  lemma {:induction false} EvictedWasArmed(env: Env, events: seq<Event>)
    ensures var s := Exec(env, Init(), events);
            s.armed || Immediate(true) in s.sent ==> Armed(env, events)
    decreases |events|
  {
    if events != [] {
      var most, e := events[..|events| - 1], events[|events| - 1];
      assert most + [e] == events;
      EvictedWasArmed(env, most);
      ExecSnoc(env, most, e);
      RunBeforeEnd(env, Init(), most);
      StepArms(env, Exec(env, Init(), most), e);
      ArmedGrows(env, most, e);
    }
  }

  /** Over every run, only a request that was scheduled as evictable is ever answered as evicted. */
  lemma OnlyEvictablesAreEvicted(env: Env, events: seq<Event>)
    ensures Immediate(true) in Run(env, events).sent ==> Armed(env, events)
  {
    EvictedWasArmed(env, events);
  }

  /** Messages of the request that neither end it nor belong to the response leave it armed as it was. */
  lemma {:induction false} StaysArmed(env: Env, s: Session, events: seq<Event>)
    requires Undecided(events) && !Exec(env, s, events).over && EvictionSignal !in events
    ensures Exec(env, s, events).armed == s.armed
    decreases |events|
  {
    if events != [] {
      assert events[0] in events && forall x :: x in events[1..] ==> x in events;
      OverStays(env, Step(env, s, events[0]), events[1..]);
      StaysArmed(env, Step(env, s, events[0]), events[1..]);
    }
  }

  /**
   A scheduled request whose response has not begun is answered at an eviction signal exactly when it is evictable and
   the answer can still be sent; the answer is the last.
   */
  lemma EvictableIsEvicted(env: Env, before: seq<Event>, end: Message, between: seq<Event>)
    requires Undecided(before) && IsScheduled(end) && Undecided(between) && EvictionSignal !in between
    requires !Exec(env, Init(), before + [Receive(end)] + between).over
    ensures var s := Exec(env, Init(), before + [Receive(end)] + between);
            Run(env, before + [Receive(end)] + between + [EvictionSignal]).sent ==
            s.sent + if end.handling.evictable && |s.sent| < env.limit then [Immediate(true)] else []
  {
    var start := before + [Receive(end)];
    var s1, s2 := Exec(env, Init(), start), Exec(env, Init(), start + between);
    ExecAppend(env, Init(), start, between);
    OverStays(env, s1, between);
    SchedulingForwards(env, before, end);
    ForwardedRun(env, s1, between, end.handling.rawBody, end.handling.streams);
    StaysArmed(env, s1, between);
    ExecSnoc(env, before, Receive(end));
    ExecSnoc(env, start + between, EvictionSignal);
    SignalStep(env, s2);
  }

  lemma SignalStep(env: Env, s: Session)
    requires !s.over && !s.ctx.complete
    ensures Step(env, s, EvictionSignal).sent ==
            s.sent + if s.armed && |s.sent| < env.limit then [Immediate(true)] else []
  {
    assert [Immediate(true)][..0] == [];
    assert s.sent + [] == s.sent;
  }

  // ---------------------------------------------------------------------------------------------
  // Failures, and requests without a body.

  /** The request cannot be served: no endpoint for a request without a body, or a body that is not scheduled. */
  predicate CannotServe(m: Message) {
    || (m.RequestHeaders? && m.endOfStream && !m.endpointFound)
    || (m.RequestBody? && m.endOfStream && !m.handling.Scheduled?)
  }

  /** There is a status to answer a failure with. */
  predicate Answerable(m: Message) {
    m.RequestBody? && m.handling.Refused? ==> m.handling.answerable
  }

  /**
   Over every run, a request that cannot be served is answered with one immediate answer, if there is a status for it
   and it can still be sent, and the stream is left; nothing that comes later is answered.
   */
  lemma FailureIsAnsweredLast(env: Env, before: seq<Event>, m: Message, after: seq<Event>)
    requires !Exec(env, Init(), before).over && CannotServe(m)
    ensures var s := Exec(env, Init(), before);
            Run(env, before + [Receive(m)] + after).sent ==
            s.sent + if Answerable(m) && |s.sent| < env.limit then [Immediate(false)] else []
  {
    var s := Exec(env, Init(), before);
    ExecSnoc(env, before, Receive(m));
    ExecAppend(env, Init(), before + [Receive(m)], after);
    OverStays(env, Step(env, s, Receive(m)), after);
    assert s.sent + [] == s.sent && [Immediate(false)][..0] == [];
    MessageWaits(env, s, m);
  }

  /** Over every run, a request without a body that has an endpoint is answered with its header, once it can be sent. */
  lemma BodylessRequestIsAnswered(env: Env, before: seq<Event>, after: seq<Event>)
    requires Undecided(before) && !Exec(env, Init(), before + [Receive(RequestHeaders(true, true))]).over
    ensures HeaderForRequest in Run(env, before + [Receive(RequestHeaders(true, true))] + after).sent
  {
    var start, e := before + [Receive(RequestHeaders(true, true))], Receive(RequestHeaders(true, true));
    var s := Exec(env, Init(), before);
    ExecSnoc(env, before, e);
    OverStays(env, s, [e]);
    ArrivingRun(env, Init(), before);
    RunStaysHeaded(env, Init(), before);
    HeaderStep(env, s);
    ExecAppend(env, Init(), start, after);
    SentGrows(env, Exec(env, Init(), start), after);
  }

  lemma HeaderStep(env: Env, s: Session)
    requires Arriving(s) && SessionHeaded(s) && !Step(env, s, Receive(RequestHeaders(true, true))).over
    ensures HeaderForRequest in Step(env, s, Receive(RequestHeaders(true, true))).sent
  {
    var c := AfterMessage(env, s, RequestHeaders(true, true)).ctx;
    if s.ctx.phase == RequestReceived {
      assert FlushAll(c).out == [HeaderForRequest];
      assert s.sent + [HeaderForRequest] == Step(env, s, Receive(RequestHeaders(true, true))).sent;
    } else {
      assert FlushAll(c).out == [];
    }
  }
}
