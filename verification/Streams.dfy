/**
 One external-processing stream: the messages that Envoy sends, the answers sent back, and the completion hook of the
 director. A run is any sequence of received messages, eviction signals and disconnects.
 */
module Streams {
  import opened Chunking

  /** What becomes of a complete request body; `Scheduled` and a late refusal have set the target pod. */
  datatype Handling =
    | ParseFailed
    | Refused(scheduled: bool, answerable: bool)
    | Scheduled(rawBody: Bytes, evictable: bool, streams: bool)

  datatype Message =
    | RequestHeaders(endOfStream: bool, endpointFound: bool)
    | RequestBody(data: Bytes, endOfStream: bool, handling: Handling)
    | RequestTrailers
    | ResponseHeaders(eventStream: bool)
    | ResponseBody(data: Bytes, endOfStream: bool)
    | ResponseTrailers

  datatype Event = Receive(message: Message) | EvictionSignal | Disconnect

  datatype Answer =
    | HeaderForRequest
    | BodyForRequest(chunk: Chunk)
    | HeaderForResponse
    | BodyForResponse(chunk: Chunk)
    | TrailerForResponse
    | Immediate(evicted: bool)

  datatype Phase =
    | RequestReceived
    | RequestHeaderAnswered
    | RequestBodyAnswered
    | ResponseReceived
    | ResponseHeaderAnswered
    | ResponseBodyAnswered
    | RequestEvicted

  /** The part of the request context that the protocol uses; the answers wait until the phase lets them go. */
  datatype Context = Context(
    phase: Phase,
    targetPod: bool,
    complete: bool,
    streaming: bool,
    reqHeader: bool,
    reqBody: seq<Answer>,
    respHeader: bool,
    respBody: seq<Answer>,
    respTrailer: bool)

  /** `hooks` counts the calls of the completion hook; `over` says that the stream has been left. */
  datatype Session = Session(ctx: Context, body: Bytes, armed: bool, hooks: nat, sent: seq<Answer>, over: bool)

  /** How many sends succeed before the stream breaks, and how model names are rewritten. */
  datatype Env = Env(limit: nat, rewrite: Bytes -> Bytes)

  const INITIAL := Context(RequestReceived, false, false, false, false, [], false, [], false)

  function Init(): Session {
    Session(INITIAL, [], false, 0, [], false)
  }

  function RequestBodies(chunks: seq<Chunk>): (answers: seq<Answer>)
    ensures |answers| == |chunks| && forall i :: 0 <= i < |chunks| ==> answers[i] == BodyForRequest(chunks[i])
  {
    seq(|chunks|, i requires 0 <= i < |chunks| => BodyForRequest(chunks[i]))
  }

  function ResponseBodies(chunks: seq<Chunk>): (answers: seq<Answer>)
    ensures |answers| == |chunks| && forall i :: 0 <= i < |chunks| ==> answers[i] == BodyForResponse(chunks[i])
  {
    seq(|chunks|, i requires 0 <= i < |chunks| => BodyForResponse(chunks[i]))
  }

  // ---------------------------------------------------------------------------------------------
  // Receiving a message.

  predicate Fails(m: Message) {
    match m
    case RequestHeaders(eos, found) => eos && !found
    case RequestBody(_, eos, handling) => eos && !handling.Scheduled?
    case _ => false
  }

  /** A failed request is answered, unless its error has no status to answer with. */
  function FailureAnswer(m: Message): seq<Answer> {
    if m.RequestBody? && m.handling.Refused? && !m.handling.answerable then [] else [Immediate(false)]
  }

  /** Completes the response once. */
  function FinishResponse(env: Env, s: Session, body: Bytes, setEos: bool): Session {
    if s.ctx.complete then s
    else
      var c := s.ctx.(complete := true);
      s.(hooks := s.hooks + 1,
         ctx := if c.streaming then c else c.(respBody := ResponseBodies(Chunks(env.rewrite(body), setEos))))
  }

  function AfterRequestBody(s: Session, m: Message): Session
    requires m.RequestBody?
  {
    if !m.endOfStream then s.(body := s.body + m.data)
    else
      match m.handling
      case ParseFailed => s.(body := [])
      case Refused(scheduled, _) => s.(body := [], ctx := s.ctx.(targetPod := s.ctx.targetPod || scheduled))
      case Scheduled(raw, evictable, streams) =>
        s.(body := [], armed := evictable,
           ctx := s.ctx.(targetPod := true, streaming := streams, reqHeader := true,
                         reqBody := RequestBodies(Chunks(raw, true))))
  }

  function AfterResponseBody(env: Env, s: Session, m: Message): Session
    requires m.ResponseBody?
  {
    if s.ctx.streaming then
      s.(hooks := if m.endOfStream then s.hooks + 1 else s.hooks,
         ctx := s.ctx.(complete := s.ctx.complete || m.endOfStream,
                       respBody := ResponseBodies(Chunks(env.rewrite(m.data), m.endOfStream))))
    else
      var t := s.(body := s.body + m.data);
      if m.endOfStream then FinishResponse(env, t, t.body, true) else t
  }

  function AfterMessage(env: Env, s: Session, m: Message): Session {
    match m
    case RequestHeaders(eos, found) => if eos && found then s.(ctx := s.ctx.(reqHeader := true)) else s
    case RequestBody(_, _, _) => AfterRequestBody(s, m)
    case RequestTrailers => s
    case ResponseHeaders(eventStream) =>
      s.(ctx := s.ctx.(phase := ResponseReceived, streaming := s.ctx.streaming || eventStream, respHeader := true))
    case ResponseBody(_, _) => AfterResponseBody(env, s, m)
    case ResponseTrailers =>
      var t := FinishResponse(env, s, s.body, false);
      t.(ctx := t.ctx.(respTrailer := true))
  }

  // ---------------------------------------------------------------------------------------------
  // One pass over the waiting answers.

  datatype Flush = Flush(ctx: Context, out: seq<Answer>)

  function FlushRequestHeader(f: Flush): Flush {
    if f.ctx.phase == RequestReceived && f.ctx.reqHeader
    then Flush(f.ctx.(phase := RequestHeaderAnswered), f.out + [HeaderForRequest]) else f
  }

  function FlushRequestBody(f: Flush): Flush {
    if f.ctx.phase == RequestHeaderAnswered && |f.ctx.reqBody| > 0
    then Flush(f.ctx.(phase := RequestBodyAnswered, reqBody := []), f.out + f.ctx.reqBody) else f
  }

  function FlushResponseHeader(f: Flush): Flush {
    if f.ctx.phase == ResponseReceived && f.ctx.respHeader
    then Flush(f.ctx.(phase := ResponseHeaderAnswered), f.out + [HeaderForResponse]) else f
  }

  function FlushResponseBody(f: Flush): Flush {
    if f.ctx.phase == ResponseHeaderAnswered
    then Flush(f.ctx.(phase := if f.ctx.complete then ResponseBodyAnswered else ResponseHeaderAnswered, respBody := []),
               f.out + f.ctx.respBody)
    else f
  }

  function FlushTrailer(f: Flush): Flush {
    if f.ctx.phase == ResponseBodyAnswered && f.ctx.respTrailer
    then f.(out := f.out + [TrailerForResponse]) else f
  }

  function FlushAll(c: Context): Flush {
    if c.phase == RequestEvicted then Flush(c, [Immediate(true)])
    else FlushTrailer(FlushResponseBody(FlushResponseHeader(FlushRequestBody(FlushRequestHeader(Flush(c, []))))))
  }

  // ---------------------------------------------------------------------------------------------
  // Runs.

  predicate Fits(limit: nat, sent: seq<Answer>, out: seq<Answer>) {
    |sent| + |out| <= limit
  }

  /** What has been sent after trying to send `out`. */
  function Delivered(limit: nat, sent: seq<Answer>, out: seq<Answer>): seq<Answer> {
    if Fits(limit, sent, out) then sent + out
    else if |sent| < limit then sent + out[..limit - |sent|]
    else sent
  }

  function Deliver(env: Env, s: Session, f: Flush, leave: bool): Session {
    s.(ctx := f.ctx, sent := Delivered(env.limit, s.sent, f.out), over := leave || !Fits(env.limit, s.sent, f.out))
  }

  function Step(env: Env, s: Session, e: Event): Session {
    if s.over then s
    else
      match e
      case Disconnect => s.(over := true)
      case EvictionSignal =>
        if !s.armed then s
        else if s.ctx.complete then s.(armed := false)
        else Deliver(env, s, FlushAll(s.ctx.(phase := RequestEvicted)), true)
      case Receive(m) =>
        var t := AfterMessage(env, s, m);
        if Fails(m) then Deliver(env, t, Flush(t.ctx, FailureAnswer(m)), true)
        else Deliver(env, t, FlushAll(t.ctx), false)
  }

  function Exec(env: Env, s: Session, events: seq<Event>): Session
    decreases |events|
  {
    if events == [] then s else Exec(env, Step(env, s, events[0]), events[1..])
  }

  /** Leaving the stream, for whatever reason. */
  function Leave(s: Session): Session {
    if s.ctx.targetPod && !s.ctx.complete then s.(hooks := s.hooks + 1) else s
  }

  function Run(env: Env, events: seq<Event>): Session {
    Leave(Exec(env, Init(), events))
  }

  lemma {:induction false} OverStays(env: Env, s: Session, events: seq<Event>)
    ensures s.over ==> Exec(env, s, events) == s
    decreases |events|
  {
    if events != [] {
      OverStays(env, Step(env, s, events[0]), events[1..]);
    }
  }

  // ---------------------------------------------------------------------------------------------
  // The completion hook.

  /** A streamed response ends again after it was complete. */
  predicate LateEnd(s: Session, e: Event) {
    !s.over && e.Receive? && e.message.ResponseBody? && e.message.endOfStream && s.ctx.streaming && s.ctx.complete
  }

  function LateEnds(env: Env, s: Session, events: seq<Event>): nat
    decreases |events|
  {
    if events == [] then 0
    else (if LateEnd(s, events[0]) then 1 else 0) + LateEnds(env, Step(env, s, events[0]), events[1..])
  }

  function Once(c: Context): nat {
    if c.complete then 1 else 0
  }

  lemma FlushKeeps(c: Context)
    ensures var d := FlushAll(c).ctx;
            SameOutcome(c, d)
  {
    if c.phase != RequestEvicted {
      StageKeeps(Flush(c, []));
      var f1 := FlushRequestHeader(Flush(c, []));
      StageKeeps(f1);
      var f2 := FlushRequestBody(f1);
      StageKeeps(f2);
      var f3 := FlushResponseHeader(f2);
      StageKeeps(f3);
      StageKeeps(FlushResponseBody(f3));
    }
  }

  predicate SameOutcome(c: Context, d: Context) {
    && d.complete == c.complete && d.targetPod == c.targetPod
    && d.streaming == c.streaming && d.respTrailer == c.respTrailer
  }

  lemma StageKeeps(f: Flush)
    ensures SameOutcome(f.ctx, FlushRequestHeader(f).ctx)
    ensures SameOutcome(f.ctx, FlushRequestBody(f).ctx)
    ensures SameOutcome(f.ctx, FlushResponseHeader(f).ctx)
    ensures SameOutcome(f.ctx, FlushResponseBody(f).ctx)
    ensures SameOutcome(f.ctx, FlushTrailer(f).ctx)
  {
  }

  lemma MessageHooks(env: Env, s: Session, m: Message)
    requires !s.over
    ensures var t := AfterMessage(env, s, m);
            t.hooks - Once(t.ctx) == s.hooks - Once(s.ctx) + if LateEnd(s, Receive(m)) then 1 else 0
  {
  }

  lemma StepHooks(env: Env, s: Session, e: Event)
    ensures var t := Step(env, s, e);
            t.hooks - Once(t.ctx) == s.hooks - Once(s.ctx) + if LateEnd(s, e) then 1 else 0
  {
    if !s.over {
      match e
      case Disconnect =>
      case EvictionSignal =>
        FlushKeeps(s.ctx.(phase := RequestEvicted));
      case Receive(m) =>
        MessageHooks(env, s, m);
        FlushKeeps(AfterMessage(env, s, m).ctx);
    }
  }

  lemma {:induction false} HooksCount(env: Env, s: Session, events: seq<Event>)
    ensures var t := Exec(env, s, events);
            t.hooks - Once(t.ctx) == s.hooks - Once(s.ctx) + LateEnds(env, s, events)
    decreases |events|
  {
    if events != [] {
      StepHooks(env, s, events[0]);
      HooksCount(env, Step(env, s, events[0]), events[1..]);
    }
  }

  /** In every run the hook runs once if the response completed or a target pod was set, and once per late end. */
  lemma CompletionHookExact(env: Env, events: seq<Event>)
    ensures var s := Run(env, events);
            s.hooks == (if s.ctx.complete || s.ctx.targetPod then 1 else 0) + LateEnds(env, Init(), events)
  {
    HooksCount(env, Init(), events);
  }

  // ---------------------------------------------------------------------------------------------
  // The order of the answers.

  function Rank(a: Answer): int {
    match a
    case HeaderForRequest => 0
    case BodyForRequest(_) => 1
    case HeaderForResponse => 2
    case BodyForResponse(_) => 3
    case TrailerForResponse => 4
    case Immediate(_) => 5
  }

  /** `b` may be sent after `a`: only body answers repeat. */
  predicate MayFollow(a: Answer, b: Answer) {
    Rank(a) < Rank(b) || (Rank(a) == Rank(b) && (a.BodyForRequest? || a.BodyForResponse?))
  }

  /** The answers go up in rank, and an immediate answer comes last. */
  predicate Ranked(sent: seq<Answer>) {
    forall i, j :: 0 <= i < j < |sent| ==> MayFollow(sent[i], sent[j])
  }

  predicate UpTo(sent: seq<Answer>, rank: int) {
    forall x :: x in sent ==> Rank(x) <= rank
  }

  function Bound(p: Phase): int {
    match p
    case RequestReceived => -1
    case RequestHeaderAnswered => 0
    case RequestBodyAnswered => 1
    case ResponseReceived => 1
    case ResponseHeaderAnswered => 3
    case ResponseBodyAnswered => 3
    case RequestEvicted => 4
  }

  predicate Waiting(c: Context) {
    && (forall x :: x in c.reqBody ==> x.BodyForRequest?)
    && (forall x :: x in c.respBody ==> x.BodyForResponse?)
  }

  /** The answers of `sent` and then of the flush are in order and within the phase. */
  predicate InOrder(sent: seq<Answer>, f: Flush) {
    Ranked(sent + f.out) && UpTo(sent + f.out, Bound(f.ctx.phase)) && Waiting(f.ctx)
  }

  lemma AppendOrdered(sent: seq<Answer>, more: seq<Answer>, low: int)
    requires Ranked(sent) && UpTo(sent, low) && Ranked(more)
    requires forall x :: x in more ==> low < Rank(x) || (low == Rank(x) && (x.BodyForRequest? || x.BodyForResponse?))
    ensures Ranked(sent + more)
  {
    var all := sent + more;
    forall i, j | 0 <= i < j < |all|
      ensures MayFollow(all[i], all[j])
    {
      if i < |sent| <= j {
        assert all[i] in sent && all[j] in more;
      } else if |sent| <= i {
        assert all[i] == more[i - |sent|] && all[j] == more[j - |sent|];
      }
    }
  }

  lemma PrefixOrdered(all: seq<Answer>, prefix: seq<Answer>)
    requires Ranked(all) && prefix <= all
    ensures Ranked(prefix)
  {
    assert forall i :: 0 <= i < |prefix| ==> prefix[i] == all[i];
  }

  lemma RequestStagesInOrder(sent: seq<Answer>, f: Flush)
    requires InOrder(sent, f)
    ensures InOrder(sent, FlushRequestHeader(f))
    ensures InOrder(sent, FlushRequestBody(f))
  {
    var all := sent + f.out;
    if FlushRequestHeader(f) != f {
      AppendOrdered(all, [HeaderForRequest], -1);
      assert sent + FlushRequestHeader(f).out == all + [HeaderForRequest];
    }
    if FlushRequestBody(f) != f {
      AppendOrdered(all, f.ctx.reqBody, 0);
      assert sent + FlushRequestBody(f).out == all + f.ctx.reqBody;
    }
  }

  lemma ResponseStagesInOrder(sent: seq<Answer>, f: Flush)
    requires InOrder(sent, f)
    ensures InOrder(sent, FlushResponseHeader(f))
    ensures InOrder(sent, FlushResponseBody(f))
  {
    var all := sent + f.out;
    if f.ctx.phase == ResponseReceived {
      AppendOrdered(all, [HeaderForResponse], 1);
      assert sent + (f.out + [HeaderForResponse]) == all + [HeaderForResponse];
    }
    if f.ctx.phase == ResponseHeaderAnswered {
      AppendOrdered(all, f.ctx.respBody, 3);
      assert sent + (f.out + f.ctx.respBody) == all + f.ctx.respBody;
    }
  }

  lemma TrailerInOrder(sent: seq<Answer>, f: Flush)
    requires InOrder(sent, f)
    ensures Ranked(sent + FlushTrailer(f).out) && Waiting(FlushTrailer(f).ctx)
    ensures UpTo(sent + FlushTrailer(f).out, if f.ctx.respTrailer then 4 else Bound(f.ctx.phase))
  {
    var all := sent + f.out;
    if FlushTrailer(f) != f {
      AppendOrdered(all, [TrailerForResponse], 3);
      assert sent + FlushTrailer(f).out == all + [TrailerForResponse];
    }
  }

  lemma FlushInOrder(sent: seq<Answer>, c: Context)
    requires c.phase != RequestEvicted && InOrder(sent, Flush(c, []))
    ensures var f := FlushAll(c);
            && Ranked(sent + f.out) && Waiting(f.ctx)
            && UpTo(sent + f.out, if c.respTrailer then 4 else Bound(f.ctx.phase))
  {
    var f2 := RequestStages(sent, Flush(c, []));
    var f4 := ResponseStages(sent, f2);
    TrailerInOrder(sent, f4);
  }

  lemma RequestStages(sent: seq<Answer>, f: Flush) returns (g: Flush)
    requires InOrder(sent, f)
    ensures g == FlushRequestBody(FlushRequestHeader(f)) && InOrder(sent, g) && SameOutcome(f.ctx, g.ctx)
  {
    var f1 := FlushRequestHeader(f);
    RequestStagesInOrder(sent, f);
    StageKeeps(f);
    RequestStagesInOrder(sent, f1);
    StageKeeps(f1);
    g := FlushRequestBody(f1);
  }

  lemma ResponseStages(sent: seq<Answer>, f: Flush) returns (g: Flush)
    requires InOrder(sent, f)
    ensures g == FlushResponseBody(FlushResponseHeader(f)) && InOrder(sent, g) && SameOutcome(f.ctx, g.ctx)
  {
    var f1 := FlushResponseHeader(f);
    ResponseStagesInOrder(sent, f);
    StageKeeps(f);
    ResponseStagesInOrder(sent, f1);
    StageKeeps(f1);
    g := FlushResponseBody(f1);
  }

  predicate LiveInOrder(s: Session) {
    && Ranked(s.sent) && Waiting(s.ctx) && s.ctx.phase != RequestEvicted
    && UpTo(s.sent, if s.ctx.respTrailer then 4 else Bound(s.ctx.phase))
  }

  predicate Ordered(s: Session) {
    if s.over then Ranked(s.sent) else LiveInOrder(s)
  }

  predicate IsResponseHeaders(e: Event) {
    e.Receive? && e.message.ResponseHeaders?
  }

  predicate IsResponseTrailers(e: Event) {
    e.Receive? && e.message.ResponseTrailers?
  }

  /** Envoy sends one response-headers message, and the response trailers as the last message. */
  predicate Protocol(events: seq<Event>) {
    && (forall i, j :: 0 <= i < j < |events| && IsResponseHeaders(events[i]) ==> !IsResponseHeaders(events[j]))
    && (forall i, j :: 0 <= i < j < |events| && IsResponseTrailers(events[i]) ==> !events[j].Receive?)
  }

  predicate ResponseBegun(p: Phase) {
    p == ResponseReceived || p == ResponseHeaderAnswered || p == ResponseBodyAnswered
  }

  /** What the protocol still allows in a session. */
  predicate Allows(s: Session, events: seq<Event>) {
    && Protocol(events)
    && (ResponseBegun(s.ctx.phase) ==> forall e :: e in events ==> !IsResponseHeaders(e))
    && (s.ctx.respTrailer ==> forall e :: e in events ==> !e.Receive?)
  }

  lemma DeliverOrdered(env: Env, s: Session, f: Flush, leave: bool)
    requires Ranked(s.sent + f.out)
    requires !leave ==> Waiting(f.ctx) && f.ctx.phase != RequestEvicted
    requires !leave ==> UpTo(s.sent + f.out, if f.ctx.respTrailer then 4 else Bound(f.ctx.phase))
    ensures Ordered(Deliver(env, s, f, leave))
  {
    PrefixOrdered(s.sent + f.out, Delivered(env.limit, s.sent, f.out));
  }

  lemma MessageInOrder(env: Env, s: Session, m: Message)
    requires !s.over && LiveInOrder(s) && !s.ctx.respTrailer && (m.ResponseHeaders? ==> !ResponseBegun(s.ctx.phase))
    ensures var c := AfterMessage(env, s, m).ctx; c.phase != RequestEvicted && InOrder(s.sent, Flush(c, []))
    ensures AfterMessage(env, s, m).sent == s.sent
  {
    assert s.sent + [] == s.sent;
    MessageMarks(env, s, m);
    MessageWaits(env, s, m);
  }

  lemma StepInOrder(env: Env, s: Session, e: Event)
    requires Ordered(s) && Allows(s, [e])
    ensures Ordered(Step(env, s, e))
  {
    if !s.over {
      match e
      case Disconnect =>
      case EvictionSignal =>
        if s.armed && !s.ctx.complete {
          AppendOrdered(s.sent, [Immediate(true)], 4);
          DeliverOrdered(env, s, Flush(s.ctx.(phase := RequestEvicted), [Immediate(true)]), true);
        }
      case Receive(m) =>
        assert e in [e];
        MessageInOrder(env, s, m);
        var t := AfterMessage(env, s, m);
        if Fails(m) {
          AppendOrdered(s.sent, FailureAnswer(m), 4);
          DeliverOrdered(env, t, Flush(t.ctx, FailureAnswer(m)), true);
        } else {
          FlushInOrder(s.sent, t.ctx);
          FlushKeeps(t.ctx);
          FlushPhase(t.ctx);
          DeliverOrdered(env, t, FlushAll(t.ctx), false);
        }
    }
  }

  lemma FlushPhase(c: Context)
    requires c.phase != RequestEvicted
    ensures FlushAll(c).ctx.phase != RequestEvicted
    ensures !ResponseBegun(c.phase) ==> !ResponseBegun(FlushAll(c).ctx.phase)
  {
  }

  /** A message begins the response, or sets its trailer, only if it is the message that says so. */
  lemma MessageMarks(env: Env, s: Session, m: Message)
    ensures var c := AfterMessage(env, s, m).ctx;
            && c.phase == (if m.ResponseHeaders? then ResponseReceived else s.ctx.phase)
            && c.respTrailer == (m.ResponseTrailers? || s.ctx.respTrailer)
  {
  }

  lemma StepMarks(env: Env, s: Session, e: Event)
    requires s.ctx.phase == RequestEvicted ==> s.over
    ensures var t := Step(env, s, e);
            && (ResponseBegun(t.ctx.phase) ==> ResponseBegun(s.ctx.phase) || IsResponseHeaders(e))
            && (t.ctx.respTrailer ==> s.ctx.respTrailer || IsResponseTrailers(e))
  {
    if !s.over {
      match e
      case Disconnect =>
      case EvictionSignal =>
        FlushKeeps(s.ctx.(phase := RequestEvicted));
      case Receive(m) =>
        var c := AfterMessage(env, s, m).ctx;
        MessageMarks(env, s, m);
        FlushKeeps(c);
        FlushPhase(c);
    }
  }

  lemma {:induction false} RunInOrder(env: Env, s: Session, events: seq<Event>)
    requires Ordered(s) && Allows(s, events)
    ensures Ranked(Exec(env, s, events).sent)
    decreases |events|
  {
    if events != [] {
      var e, rest := events[0], events[1..];
      assert forall x :: x in rest ==> x in events;
      StepInOrder(env, s, e);
      StepMarks(env, s, e);
      forall k | 0 <= k < |rest|
        ensures IsResponseHeaders(e) ==> !IsResponseHeaders(rest[k])
        ensures IsResponseTrailers(e) ==> !rest[k].Receive?
      {
        assert rest[k] == events[k + 1];
      }
      RunInOrder(env, Step(env, s, e), rest);
    }
  }

  // ---------------------------------------------------------------------------------------------
  // Evictions.

  predicate Ends(a: Answer) {
    a.BodyForResponse? && a.chunk.endOfStream
  }

  predicate NoEnd(answers: seq<Answer>) {
    forall x :: x in answers ==> !Ends(x)
  }

  /** The answers that wait are body answers, and end the response only if it is complete. */
  predicate WaitingEnds(c: Context) {
    Waiting(c) && (!c.complete ==> NoEnd(c.respBody))
  }

  /** A response is ended only when complete, and an eviction is answered only before that, and last. */
  predicate EvictedBeforeEnd(s: Session) {
    && (!s.ctx.complete ==> NoEnd(s.sent))
    && WaitingEnds(s.ctx)
    && (Immediate(true) in s.sent ==> s.over && !s.ctx.complete)
    && (s.ctx.phase == RequestEvicted ==> s.over)
  }

  /** What a flush sends was waiting, or is a header or a trailer. */
  predicate FromWaiting(c: Context, out: seq<Answer>) {
    forall x :: x in out ==>
      x in c.reqBody || x in c.respBody || x == HeaderForRequest || x == HeaderForResponse || x == TrailerForResponse
  }

  predicate Fewer(c: Context, d: Context) {
    (d.reqBody == c.reqBody || d.reqBody == []) && (d.respBody == c.respBody || d.respBody == [])
  }

  lemma StageSends(c: Context, f: Flush)
    requires FromWaiting(c, f.out) && Fewer(c, f.ctx)
    ensures FromWaiting(c, FlushRequestHeader(f).out) && Fewer(c, FlushRequestHeader(f).ctx)
    ensures FromWaiting(c, FlushRequestBody(f).out) && Fewer(c, FlushRequestBody(f).ctx)
    ensures FromWaiting(c, FlushResponseHeader(f).out) && Fewer(c, FlushResponseHeader(f).ctx)
    ensures FromWaiting(c, FlushResponseBody(f).out) && Fewer(c, FlushResponseBody(f).ctx)
    ensures FromWaiting(c, FlushTrailer(f).out) && Fewer(c, FlushTrailer(f).ctx)
  {
  }

  lemma FlushSends(c: Context)
    requires c.phase != RequestEvicted
    ensures FromWaiting(c, FlushAll(c).out) && Fewer(c, FlushAll(c).ctx)
  {
    var f0 := Flush(c, []);
    StageSends(c, f0);
    var f1 := FlushRequestHeader(f0);
    StageSends(c, f1);
    var f2 := FlushRequestBody(f1);
    StageSends(c, f2);
    var f3 := FlushResponseHeader(f2);
    StageSends(c, f3);
    StageSends(c, FlushResponseBody(f3));
  }

  lemma DeliveredFrom(limit: nat, sent: seq<Answer>, out: seq<Answer>)
    ensures forall x :: x in Delivered(limit, sent, out) ==> x in sent || x in out
  {
  }

  /** The step from `s` to `t` keeps the waiting answers in line and never takes completion back. */
  predicate KeepsWaiting(s: Session, t: Session) {
    && (WaitingEnds(s.ctx) ==> WaitingEnds(t.ctx)) && (s.ctx.complete ==> t.ctx.complete)
    && t.sent == s.sent && t.over == s.over
  }

  lemma FinishWaits(env: Env, s: Session, body: Bytes, setEos: bool)
    ensures KeepsWaiting(s, FinishResponse(env, s, body, setEos))
  {
  }

  lemma RequestBodyWaits(s: Session, m: Message)
    requires m.RequestBody?
    ensures KeepsWaiting(s, AfterRequestBody(s, m))
  {
  }

  lemma ResponseBodyWaits(env: Env, s: Session, m: Message)
    requires m.ResponseBody?
    ensures KeepsWaiting(s, AfterResponseBody(env, s, m))
  {
    if s.ctx.streaming {
      ChunksEnd(env.rewrite(m.data), m.endOfStream);
    } else {
      var t := s.(body := s.body + m.data);
      FinishWaits(env, t, t.body, true);
    }
  }

  lemma ChunksEnd(body: Bytes, setEos: bool)
    ensures forall x :: x in ResponseBodies(Chunks(body, setEos)) ==> x.BodyForResponse?
    ensures !setEos ==> NoEnd(ResponseBodies(Chunks(body, setEos)))
  {
    ChunksAreExact(body, setEos);
  }

  lemma MessageWaits(env: Env, s: Session, m: Message)
    ensures KeepsWaiting(s, AfterMessage(env, s, m))
  {
    if m.RequestBody? {
      RequestBodyWaits(s, m);
    } else if m.ResponseBody? {
      ResponseBodyWaits(env, s, m);
    } else if m.ResponseTrailers? {
      FinishWaits(env, s, s.body, false);
    }
  }

  lemma DeliverBeforeEnd(env: Env, s: Session, f: Flush, leave: bool)
    requires WaitingEnds(f.ctx) && f.ctx.complete == s.ctx.complete && Immediate(true) !in s.sent
    requires !s.ctx.complete ==> NoEnd(s.sent) && NoEnd(f.out)
    requires Immediate(true) in f.out ==> leave && !f.ctx.complete
    requires f.ctx.phase == RequestEvicted ==> leave
    ensures EvictedBeforeEnd(Deliver(env, s, f, leave))
  {
    DeliveredFrom(env.limit, s.sent, f.out);
  }

  lemma StepBeforeEnd(env: Env, s: Session, e: Event)
    requires EvictedBeforeEnd(s)
    ensures EvictedBeforeEnd(Step(env, s, e))
  {
    if !s.over {
      match e
      case Disconnect =>
      case EvictionSignal =>
        if s.armed && !s.ctx.complete {
          DeliverBeforeEnd(env, s, Flush(s.ctx.(phase := RequestEvicted), [Immediate(true)]), true);
        }
      case Receive(m) =>
        var t := AfterMessage(env, s, m);
        MessageWaits(env, s, m);
        MessageMarks(env, s, m);
        if Fails(m) {
          DeliverBeforeEnd(env, t, Flush(t.ctx, FailureAnswer(m)), true);
        } else {
          FlushBeforeEnd(t.ctx);
          DeliverBeforeEnd(env, t, FlushAll(t.ctx), false);
        }
    }
  }

  /** Of what waits, and of headers and trailers, nothing is an eviction, and nothing ends an open response. */
  lemma SentBeforeEnd(c: Context, out: seq<Answer>)
    requires WaitingEnds(c) && FromWaiting(c, out)
    ensures Immediate(true) !in out && (!c.complete ==> NoEnd(out))
  {
  }

  lemma FewerWaits(c: Context, d: Context)
    requires WaitingEnds(c) && Fewer(c, d) && d.complete == c.complete
    ensures WaitingEnds(d)
  {
  }

  lemma FlushBeforeEnd(c: Context)
    requires WaitingEnds(c) && c.phase != RequestEvicted
    ensures var f := FlushAll(c);
            && WaitingEnds(f.ctx) && f.ctx.complete == c.complete && f.ctx.phase != RequestEvicted
            && Immediate(true) !in f.out && (!c.complete ==> NoEnd(f.out))
  {
    FlushSends(c);
    FlushKeeps(c);
    FlushPhase(c);
    SentBeforeEnd(c, FlushAll(c).out);
    FewerWaits(c, FlushAll(c).ctx);
  }

  lemma {:induction false} RunBeforeEnd(env: Env, s: Session, events: seq<Event>)
    requires EvictedBeforeEnd(s)
    ensures EvictedBeforeEnd(Exec(env, s, events))
    decreases |events|
  {
    if events != [] {
      StepBeforeEnd(env, s, events[0]);
      RunBeforeEnd(env, Step(env, s, events[0]), events[1..]);
    }
  }

  /** Over every run, an eviction is answered only in a session whose response never completed and was never ended. */
  lemma EvictionNeverFollowsCompletion(env: Env, events: seq<Event>)
    ensures var s := Run(env, events);
            Immediate(true) in s.sent ==> !s.ctx.complete && forall x :: x in s.sent ==> !Ends(x)
  {
    RunBeforeEnd(env, Init(), events);
  }

  // ---------------------------------------------------------------------------------------------
  // Headers before bodies and trailers.

  /** The header answer without which `a` may not be sent. */
  predicate Headed(a: Answer, before: seq<Answer>) {
    && (a.BodyForRequest? ==> HeaderForRequest in before)
    && (a.BodyForResponse? || a.TrailerForResponse? ==> HeaderForResponse in before)
  }

  predicate HeadersFirst(sent: seq<Answer>) {
    forall j :: 0 <= j < |sent| ==> Headed(sent[j], sent[..j])
  }

  /** The header answers that a phase presupposes. */
  predicate PhaseHeaded(p: Phase, sent: seq<Answer>) {
    && (p == RequestHeaderAnswered ==> HeaderForRequest in sent)
    && (p == ResponseHeaderAnswered || p == ResponseBodyAnswered ==> HeaderForResponse in sent)
  }

  predicate FlushHeaded(sent: seq<Answer>, f: Flush) {
    HeadersFirst(sent + f.out) && PhaseHeaded(f.ctx.phase, sent + f.out) && Waiting(f.ctx)
  }

  lemma AppendHeaded(sent: seq<Answer>, more: seq<Answer>)
    requires HeadersFirst(sent) && forall x :: x in more ==> Headed(x, sent)
    ensures HeadersFirst(sent + more)
  {
    var all := sent + more;
    forall j | 0 <= j < |all|
      ensures Headed(all[j], all[..j])
    {
      if j < |sent| {
        assert all[..j] == sent[..j];
      } else {
        assert all[j] in more && all[..j] == sent + more[..j - |sent|];
      }
    }
  }

  lemma StageHeaded(sent: seq<Answer>, f: Flush)
    requires FlushHeaded(sent, f)
    ensures FlushHeaded(sent, FlushRequestHeader(f)) && FlushHeaded(sent, FlushRequestBody(f))
    ensures FlushHeaded(sent, FlushResponseHeader(f)) && FlushHeaded(sent, FlushResponseBody(f))
    ensures FlushHeaded(sent, FlushTrailer(f))
  {
    StageAppends(sent, f, [HeaderForRequest]);
    StageAppends(sent, f, [HeaderForResponse]);
    if f.ctx.phase == RequestHeaderAnswered {
      StageAppends(sent, f, f.ctx.reqBody);
    }
    if f.ctx.phase == ResponseHeaderAnswered {
      StageAppends(sent, f, f.ctx.respBody);
    }
    if f.ctx.phase == ResponseBodyAnswered {
      StageAppends(sent, f, [TrailerForResponse]);
    }
  }

  lemma StageAppends(sent: seq<Answer>, f: Flush, more: seq<Answer>)
    requires FlushHeaded(sent, f) && forall x :: x in more ==> Headed(x, sent + f.out)
    ensures HeadersFirst(sent + (f.out + more)) && PhaseHeaded(f.ctx.phase, sent + (f.out + more))
    ensures forall x :: x in more ==> x in sent + (f.out + more)
  {
    AppendHeaded(sent + f.out, more);
    assert sent + (f.out + more) == sent + f.out + more;
  }

  lemma FlushAllHeaded(sent: seq<Answer>, c: Context)
    requires c.phase != RequestEvicted && FlushHeaded(sent, Flush(c, []))
    ensures FlushHeaded(sent, FlushAll(c))
  {
    var f0 := Flush(c, []);
    StageHeaded(sent, f0);
    var f1 := FlushRequestHeader(f0);
    StageHeaded(sent, f1);
    var f2 := FlushRequestBody(f1);
    StageHeaded(sent, f2);
    var f3 := FlushResponseHeader(f2);
    StageHeaded(sent, f3);
    StageHeaded(sent, FlushResponseBody(f3));
  }

  predicate SessionHeaded(s: Session) {
    HeadersFirst(s.sent) && (!s.over ==> PhaseHeaded(s.ctx.phase, s.sent))
  }

  lemma DeliverHeaded(env: Env, s: Session, f: Flush, leave: bool)
    requires HeadersFirst(s.sent + f.out) && (!leave ==> PhaseHeaded(f.ctx.phase, s.sent + f.out))
    ensures SessionHeaded(Deliver(env, s, f, leave))
  {
    var all, sent := s.sent + f.out, Delivered(env.limit, s.sent, f.out);
    assert sent <= all;
    assert forall j :: 0 <= j < |sent| ==> sent[..j] == all[..j];
  }

  lemma StepHeaded(env: Env, s: Session, e: Event)
    requires EvictedBeforeEnd(s) && SessionHeaded(s)
    ensures SessionHeaded(Step(env, s, e))
  {
    if !s.over {
      match e
      case Disconnect =>
      case EvictionSignal =>
        AppendHeaded(s.sent, [Immediate(true)]);
        DeliverHeaded(env, s, Flush(s.ctx.(phase := RequestEvicted), [Immediate(true)]), true);
      case Receive(m) =>
        var t := AfterMessage(env, s, m);
        MessageMarks(env, s, m);
        MessageWaits(env, s, m);
        if Fails(m) {
          AppendHeaded(s.sent, FailureAnswer(m));
          DeliverHeaded(env, t, Flush(t.ctx, FailureAnswer(m)), true);
        } else {
          assert s.sent + [] == s.sent;
          FlushAllHeaded(s.sent, t.ctx);
          DeliverHeaded(env, t, FlushAll(t.ctx), false);
        }
    }
  }

  lemma {:induction false} RunHeaded(env: Env, s: Session, events: seq<Event>)
    requires EvictedBeforeEnd(s) && SessionHeaded(s)
    ensures HeadersFirst(Exec(env, s, events).sent)
    decreases |events|
  {
    if events != [] {
      StepHeaded(env, s, events[0]);
      StepBeforeEnd(env, s, events[0]);
      RunHeaded(env, Step(env, s, events[0]), events[1..]);
    }
  }

  /** Over every run, protocol or not, no body answer and no trailer precedes the header answer of its direction. */
  lemma HeadersPrecedeBodies(env: Env, events: seq<Event>)
    ensures HeadersFirst(Run(env, events).sent)
  {
    RunHeaded(env, Init(), events);
  }

  /**
   Request header, request bodies, response header, response bodies and at most one trailer, each body or trailer
   behind its header; an immediate answer comes last.
   */
  predicate WellOrdered(sent: seq<Answer>) {
    Ranked(sent) && HeadersFirst(sent)
  }

  /** In every run that keeps the protocol, the answers sent are in order and an immediate answer is the last. */
  lemma AnswersInOrder(env: Env, events: seq<Event>)
    requires Protocol(events)
    ensures WellOrdered(Run(env, events).sent)
  {
    RunInOrder(env, Init(), events);
    HeadersPrecedeBodies(env, events);
  }

  lemma {:induction false} SentGrows(env: Env, s: Session, events: seq<Event>)
    ensures s.sent <= Exec(env, s, events).sent
    decreases |events|
  {
    if events != [] {
      StepGrows(env, s, events[0]);
      SentGrows(env, Step(env, s, events[0]), events[1..]);
    }
  }

  lemma StepGrows(env: Env, s: Session, e: Event)
    ensures s.sent <= Step(env, s, e).sent
  {
    if e.Receive? && !s.over {
      MessageWaits(env, s, e.message);
    }
  }

  // ---------------------------------------------------------------------------------------------
  // The completion hook under the protocol.

  predicate IsResponseEnd(e: Event) {
    e.Receive? && e.message.ResponseBody? && e.message.endOfStream
  }

  /** The response body ends once. */
  predicate OneResponseEnd(events: seq<Event>) {
    forall i, j :: 0 <= i < j < |events| && IsResponseEnd(events[i]) ==> !IsResponseEnd(events[j])
  }

  lemma MessageCompletes(env: Env, s: Session, m: Message)
    ensures AfterMessage(env, s, m).ctx.complete ==> s.ctx.complete || IsResponseEnd(Receive(m)) || m.ResponseTrailers?
  {
  }

  lemma StepCompletes(env: Env, s: Session, e: Event)
    ensures Step(env, s, e).ctx.complete ==> s.ctx.complete || IsResponseEnd(e) || IsResponseTrailers(e)
  {
    if !s.over {
      match e
      case Disconnect =>
      case EvictionSignal =>
        FlushKeeps(s.ctx.(phase := RequestEvicted));
      case Receive(m) =>
        MessageCompletes(env, s, m);
        FlushKeeps(AfterMessage(env, s, m).ctx);
    }
  }

  lemma {:induction false} NoLateEnds(env: Env, s: Session, events: seq<Event>)
    requires Protocol(events) && OneResponseEnd(events)
    requires s.ctx.complete ==> forall e :: e in events ==> !IsResponseEnd(e)
    ensures LateEnds(env, s, events) == 0
    decreases |events|
  {
    if events != [] {
      var e, rest := events[0], events[1..];
      StepCompletes(env, s, e);
      assert e in events && forall x :: x in rest ==> x in events;
      forall k | 0 <= k < |rest|
        ensures IsResponseEnd(e) ==> !IsResponseEnd(rest[k])
        ensures IsResponseTrailers(e) ==> !rest[k].Receive?
      {
        assert rest[k] == events[k + 1];
      }
      NoLateEnds(env, Step(env, s, e), rest);
    }
  }

  /** Whenever a target pod was set, the hook runs exactly once, however the stream is left. */
  lemma HookRunsOnce(env: Env, events: seq<Event>)
    requires Protocol(events) && OneResponseEnd(events)
    ensures var s := Run(env, events);
            s.hooks <= 1 && (s.ctx.targetPod ==> s.hooks == 1)
  {
    CompletionHookExact(env, events);
    NoLateEnds(env, Init(), events);
  }
}
