/**
 One exchange on a stream, in terms of the messages received: what is forwarded of the request, and how the response
 comes to be streamed.
 */
module Exchanges {
  import opened Chunking
  import opened ResponseBytes
  import opened Streams

  function RequestChunksOf(a: Answer): seq<Chunk> {
    if a.BodyForRequest? then [a.chunk] else []
  }

  /** The chunks of the request body among the answers: what is forwarded to the model server. */
  function RequestChunks(sent: seq<Answer>): seq<Chunk> {
    if sent == [] then [] else RequestChunksOf(sent[0]) + RequestChunks(sent[1..])
  }

  lemma {:induction false} RequestChunksAppend(a: seq<Answer>, b: seq<Answer>)
    ensures RequestChunks(a + b) == RequestChunks(a) + RequestChunks(b)
  {
    if a == [] {
      assert a + b == b;
    } else {
      RequestChunksAppend(a[1..], b);
      assert (a + b)[1..] == a[1..] + b && (a + b)[0] == a[0];
      Associate(RequestChunksOf(a[0]), RequestChunks(a[1..]), RequestChunks(b));
    }
  }

  lemma {:induction false} ForwardedChunks(chunks: seq<Chunk>)
    ensures RequestChunks(RequestBodies(chunks)) == chunks
  {
    if chunks != [] {
      ForwardedChunks(chunks[1..]);
      assert RequestBodies(chunks)[1..] == RequestBodies(chunks[1..]);
      assert chunks == [chunks[0]] + chunks[1..];
    }
  }

  lemma {:induction false} NothingForwarded(out: seq<Answer>)
    requires forall x :: x in out ==> !x.BodyForRequest?
    ensures RequestChunks(out) == []
  {
    if out != [] {
      NothingForwarded(out[1..]);
    }
  }

  lemma SilentForward(limit: nat, sent: seq<Answer>, out: seq<Answer>)
    requires forall x :: x in out ==> !x.BodyForRequest?
    ensures RequestChunks(Delivered(limit, sent, out)) == RequestChunks(sent)
  {
    var more := if Fits(limit, sent, out) then out else if |sent| < limit then out[..limit - |sent|] else [];
    assert Delivered(limit, sent, out) == sent + more;
    NothingForwarded(more);
    RequestChunksAppend(sent, more);
  }

  // ---------------------------------------------------------------------------------------------
  // Once the request has been answered, or the response has begun, nothing more is forwarded.

  predicate Late(p: Phase) {
    p != RequestReceived && p != RequestHeaderAnswered
  }

  lemma LateFlush(c: Context)
    requires Late(c.phase) && c.phase != RequestEvicted && Waiting(c)
    ensures Late(FlushAll(c).ctx.phase) && forall x :: x in FlushAll(c).out ==> !x.BodyForRequest?
  {
    var f2 := FlushRequestBody(FlushRequestHeader(Flush(c, [])));
    assert f2 == Flush(c, []);
  }

  lemma LateStep(env: Env, s: Session, e: Event)
    requires EvictedBeforeEnd(s) && Late(s.ctx.phase)
    ensures Late(Step(env, s, e).ctx.phase) && RequestChunks(Step(env, s, e).sent) == RequestChunks(s.sent)
  {
    if !s.over {
      match e
      case Disconnect =>
      case EvictionSignal => SilentForward(env.limit, s.sent, [Immediate(true)]);
      case Receive(m) =>
        var t := AfterMessage(env, s, m);
        MessageMarks(env, s, m);
        MessageWaits(env, s, m);
        LateFlush(t.ctx);
        SilentForward(env.limit, s.sent, if Fails(m) then FailureAnswer(m) else FlushAll(t.ctx).out);
    }
  }

  lemma {:induction false} LateRun(env: Env, s: Session, events: seq<Event>)
    requires EvictedBeforeEnd(s) && Late(s.ctx.phase)
    ensures RequestChunks(Exec(env, s, events).sent) == RequestChunks(s.sent)
    decreases |events|
  {
    if events != [] {
      LateStep(env, s, events[0]);
      StepBeforeEnd(env, s, events[0]);
      LateRun(env, Step(env, s, events[0]), events[1..]);
    }
  }

  // ---------------------------------------------------------------------------------------------
  // Before the request has ended.

  /** The request is still arriving, and nothing of the response has come. */
  predicate Arriving(s: Session) {
    && !s.over && !Late(s.ctx.phase) && |s.ctx.reqBody| == 0 && |s.ctx.respBody| == 0 && Waiting(s.ctx)
    && !s.ctx.complete && !s.ctx.respTrailer && |RequestChunks(s.sent)| == 0 && |ResponseChunks(s.sent)| == 0
  }

  /** A message of the response, or the end of the request. */
  predicate Decisive(e: Event) {
    && e.Receive?
    && (e.message.ResponseHeaders? || e.message.ResponseBody? || e.message.ResponseTrailers?
        || (e.message.RequestBody? && e.message.endOfStream))
  }

  predicate Undecided(events: seq<Event>) {
    forall e :: e in events ==> !Decisive(e)
  }

  lemma ArrivingFlush(c: Context)
    requires !Late(c.phase) && |c.reqBody| == 0 && |c.respBody| == 0 && Waiting(c)
    ensures var f := FlushAll(c);
            && !Late(f.ctx.phase) && |f.ctx.reqBody| == 0 && |f.ctx.respBody| == 0 && Waiting(f.ctx)
            && (forall x :: x in f.out ==> x == HeaderForRequest)
  {
    var f := FlushRequestHeader(Flush(c, []));
    assert FlushRequestBody(f) == f;
    assert FlushResponseHeader(f) == f && FlushResponseBody(f) == f && FlushTrailer(f) == f;
  }

  lemma ArrivingMessage(env: Env, s: Session, m: Message)
    requires Arriving(s) && !Decisive(Receive(m))
    ensures var t := AfterMessage(env, s, m);
            && t.sent == s.sent && !Late(t.ctx.phase) && |t.ctx.reqBody| == 0 && |t.ctx.respBody| == 0
            && Waiting(t.ctx) && !t.ctx.complete && !t.ctx.respTrailer
  {
  }

  lemma ArrivingStep(env: Env, s: Session, e: Event)
    requires Arriving(s) && !Decisive(e) && !Step(env, s, e).over
    ensures Arriving(Step(env, s, e))
  {
    if e.Receive? {
      var c := AfterMessage(env, s, e.message).ctx;
      ArrivingMessage(env, s, e.message);
      ArrivingFlush(c);
      FlushKeeps(c);
      SilentForward(env.limit, s.sent, FlushAll(c).out);
      SilentDelivery(env.limit, s.sent, FlushAll(c).out);
    }
  }

  lemma {:induction false} ArrivingRun(env: Env, s: Session, events: seq<Event>)
    requires Arriving(s) && Undecided(events) && !Exec(env, s, events).over
    ensures Arriving(Exec(env, s, events))
    decreases |events|
  {
    if events != [] {
      assert events[0] in events && forall x :: x in events[1..] ==> x in events;
      OverStays(env, Step(env, s, events[0]), events[1..]);
      ArrivingStep(env, s, events[0]);
      ArrivingRun(env, Step(env, s, events[0]), events[1..]);
    }
  }

  // ---------------------------------------------------------------------------------------------
  // The end of the request.

  predicate IsScheduled(m: Message) {
    m.RequestBody? && m.endOfStream && m.handling.Scheduled?
  }

  /** The request has been answered in full, and nothing of the response has come. */
  predicate Forwarded(s: Session, raw: Bytes, streams: bool) {
    && !s.over && s.ctx.phase == RequestBodyAnswered && |s.ctx.respBody| == 0 && Waiting(s.ctx)
    && !s.ctx.complete && !s.ctx.respTrailer && s.ctx.streaming == streams && |ResponseChunks(s.sent)| == 0
    && RequestChunks(s.sent) == Chunks(raw, true) && HeaderForRequest in s.sent
  }

  lemma ForwardFlush(c: Context, chunks: seq<Chunk>)
    requires !Late(c.phase) && c.reqHeader && c.reqBody == RequestBodies(chunks) && chunks != []
    requires |c.respBody| == 0
    ensures var f := FlushAll(c);
            && f.ctx == c.(phase := RequestBodyAnswered, reqBody := [])
            && f.out == (if c.phase == RequestReceived then [HeaderForRequest] else []) + RequestBodies(chunks)
  {
    assert [] + [HeaderForRequest] == [HeaderForRequest];
  }

  /** What the flush at the end of the request sends: the header, unless it was sent before, and the body. */
  function ForwardOut(p: Phase, chunks: seq<Chunk>): seq<Answer> {
    (if p == RequestReceived then [HeaderForRequest] else []) + RequestBodies(chunks)
  }

  lemma ForwardOutCarries(sent: seq<Answer>, p: Phase, chunks: seq<Chunk>)
    requires |RequestChunks(sent)| == 0
    ensures RequestChunks(sent + ForwardOut(p, chunks)) == chunks
  {
    var head := if p == RequestReceived then [HeaderForRequest] else [];
    NothingForwarded(head);
    ForwardedChunks(chunks);
    RequestChunksAppend(head, RequestBodies(chunks));
    RequestChunksAppend(sent, head + RequestBodies(chunks));
  }

  lemma ForwardOutAnswersNothing(sent: seq<Answer>, p: Phase, chunks: seq<Chunk>)
    requires |ResponseChunks(sent)| == 0
    ensures |ResponseChunks(sent + ForwardOut(p, chunks))| == 0
  {
    NoBytes(ForwardOut(p, chunks));
    AnsweredAppend(sent, ForwardOut(p, chunks));
  }

  lemma ScheduledMessage(env: Env, s: Session, m: Message)
    requires IsScheduled(m)
    ensures var t := AfterMessage(env, s, m);
            && t.sent == s.sent
            && t.ctx == s.ctx.(targetPod := true, streaming := m.handling.streams, reqHeader := true,
                               reqBody := RequestBodies(Chunks(m.handling.rawBody, true)))
  {
  }

  lemma ForwardOutHasHeader(sent: seq<Answer>, p: Phase, chunks: seq<Chunk>)
    requires !Late(p) && PhaseHeaded(p, sent)
    ensures HeaderForRequest in sent + ForwardOut(p, chunks)
  {
    if p == RequestReceived {
      assert ForwardOut(p, chunks)[0] == HeaderForRequest;
    }
  }

  lemma ScheduledStep(env: Env, s: Session, m: Message)
    requires Arriving(s) && SessionHeaded(s) && IsScheduled(m) && !Step(env, s, Receive(m)).over
    ensures Forwarded(Step(env, s, Receive(m)), m.handling.rawBody, m.handling.streams)
  {
    var c, chunks := AfterMessage(env, s, m).ctx, Chunks(m.handling.rawBody, true);
    ScheduledMessage(env, s, m);
    ChunksAreExact(m.handling.rawBody, true);
    ForwardFlush(c, chunks);
    ScheduledDelivery(env, s, c, chunks, Step(env, s, Receive(m)));
  }

  lemma ScheduledDelivery(env: Env, s: Session, c: Context, chunks: seq<Chunk>, t: Session)
    requires Arriving(s) && SessionHeaded(s) && c.phase == s.ctx.phase && !t.over
    requires t.sent == s.sent + ForwardOut(c.phase, chunks)
    ensures |ResponseChunks(t.sent)| == 0 && RequestChunks(t.sent) == chunks && HeaderForRequest in t.sent
  {
    ForwardOutCarries(s.sent, c.phase, chunks);
    ForwardOutAnswersNothing(s.sent, c.phase, chunks);
    ForwardOutHasHeader(s.sent, c.phase, chunks);
  }

  /** The events up to the end of a request that the director has scheduled, with nothing of the response among them. */
  predicate Scheduling(env: Env, before: seq<Event>, end: Message) {
    Undecided(before) && IsScheduled(end) && !Exec(env, Init(), before + [Receive(end)]).over
  }

  lemma SchedulingForwards(env: Env, before: seq<Event>, end: Message)
    requires Scheduling(env, before, end)
    ensures Forwarded(Exec(env, Init(), before + [Receive(end)]), end.handling.rawBody, end.handling.streams)
  {
    var s := Exec(env, Init(), before);
    ExecAppend(env, Init(), before, [Receive(end)]);
    assert Exec(env, s, [Receive(end)]) == Step(env, s, Receive(end));
    OverStays(env, s, [Receive(end)]);
    ArrivingRun(env, Init(), before);
    RunStaysHeaded(env, Init(), before);
    ScheduledStep(env, s, end);
  }

  lemma {:induction false} RunStaysHeaded(env: Env, s: Session, events: seq<Event>)
    requires EvictedBeforeEnd(s) && SessionHeaded(s)
    ensures EvictedBeforeEnd(Exec(env, s, events)) && SessionHeaded(Exec(env, s, events))
    decreases |events|
  {
    if events != [] {
      StepHeaded(env, s, events[0]);
      StepBeforeEnd(env, s, events[0]);
      RunStaysHeaded(env, Step(env, s, events[0]), events[1..]);
    }
  }

  /**
   Over every run from the start of the stream, whatever comes after: when the request ends, before anything of the
   response has come, and the director has scheduled it, what is forwarded is exactly the body the director prepared,
   in chunks of which the last alone ends the stream, behind the header.
   */
  lemma ScheduledBodyIsForwarded(env: Env, before: seq<Event>, end: Message, after: seq<Event>)
    requires Scheduling(env, before, end)
    ensures var sent := Run(env, before + [Receive(end)] + after).sent;
            && Join(RequestChunks(sent)) == end.handling.rawBody && WellFormed(RequestChunks(sent), true)
            && HeaderForRequest in sent && HeadersFirst(sent)
  {
    var start := before + [Receive(end)];
    var s := Exec(env, Init(), start);
    SchedulingForwards(env, before, end);
    RunBeforeEnd(env, Init(), start);
    ExecAppend(env, Init(), start, after);
    LateRun(env, s, after);
    SentGrows(env, s, after);
    ChunksAreExact(end.handling.rawBody, true);
    HeadersPrecedeBodies(env, start + after);
  }

  /** A request that ends after the response has begun is not forwarded at all. */
  lemma LateRequestIsNotForwarded(env: Env, before: seq<Event>, headers: Message, after: seq<Event>)
    requires Undecided(before) && headers.ResponseHeaders?
    requires !Exec(env, Init(), before + [Receive(headers)]).over
    ensures RequestChunks(Run(env, before + [Receive(headers)] + after).sent) == []
  {
    var start := before + [Receive(headers)];
    var s, t := Exec(env, Init(), before), Exec(env, Init(), start);
    ExecAppend(env, Init(), before, [Receive(headers)]);
    assert t == Step(env, s, Receive(headers));
    OverStays(env, s, [Receive(headers)]);
    ArrivingRun(env, Init(), before);
    RunBeforeEnd(env, Init(), start);
    var c := AfterMessage(env, s, headers).ctx;
    LateFlush(c);
    SilentForward(env.limit, s.sent, FlushAll(c).out);
    ExecAppend(env, Init(), start, after);
    LateRun(env, t, after);
  }

  // ---------------------------------------------------------------------------------------------
  // From the end of the request to the response.

  lemma AnsweredRequestFlush(c: Context)
    requires c.phase == RequestBodyAnswered
    ensures FlushAll(c) == Flush(c, [])
  {
  }

  lemma ForwardedMessage(env: Env, s: Session, m: Message)
    requires s.ctx.phase == RequestBodyAnswered && !Decisive(Receive(m))
    ensures var t := AfterMessage(env, s, m);
            t.sent == s.sent && t.ctx == s.ctx.(reqHeader := t.ctx.reqHeader)
  {
  }

  lemma ForwardedStep(env: Env, s: Session, e: Event, raw: Bytes, streams: bool)
    requires Forwarded(s, raw, streams) && !Decisive(e) && !Step(env, s, e).over
    ensures Forwarded(Step(env, s, e), raw, streams)
  {
    if e.Receive? {
      ForwardedMessage(env, s, e.message);
      AnsweredRequestFlush(AfterMessage(env, s, e.message).ctx);
      assert s.sent + [] == s.sent;
    }
  }

  lemma {:induction false} ForwardedRun(env: Env, s: Session, events: seq<Event>, raw: Bytes, streams: bool)
    requires Forwarded(s, raw, streams) && Undecided(events) && !Exec(env, s, events).over
    ensures Forwarded(Exec(env, s, events), raw, streams)
    decreases |events|
  {
    if events != [] {
      assert events[0] in events && forall x :: x in events[1..] ==> x in events;
      OverStays(env, Step(env, s, events[0]), events[1..]);
      ForwardedStep(env, s, events[0], raw, streams);
      ForwardedRun(env, Step(env, s, events[0]), events[1..], raw, streams);
    }
  }

  lemma HeadersStep(env: Env, s: Session, eventStream: bool, raw: Bytes, streams: bool)
    requires Forwarded(s, raw, streams) && !Step(env, s, Receive(ResponseHeaders(eventStream))).over
    ensures var t := Step(env, s, Receive(ResponseHeaders(eventStream)));
            AwaitsBody(t, streams || eventStream) && |ResponseChunks(t.sent)| == 0
  {
    var c := AfterMessage(env, s, ResponseHeaders(eventStream)).ctx;
    assert [] + [HeaderForResponse] == [HeaderForResponse] && [HeaderForResponse] + [] == [HeaderForResponse];
    assert FlushAll(c).out == [HeaderForResponse];
    SilentDelivery(env.limit, s.sent, [HeaderForResponse]);
  }

  /** A scheduled request, its response headers and nothing else of the response. */
  function Exchange(before: seq<Event>, end: Message, between: seq<Event>, eventStream: bool): seq<Event> {
    before + [Receive(end)] + between + [Receive(ResponseHeaders(eventStream))]
  }

  lemma ExchangeAwaitsBody(env: Env, before: seq<Event>, end: Message, between: seq<Event>, eventStream: bool)
    requires Undecided(before) && IsScheduled(end) && Undecided(between)
    requires !Exec(env, Init(), Exchange(before, end, between, eventStream)).over
    ensures var s := Exec(env, Init(), Exchange(before, end, between, eventStream));
            AwaitsBody(s, end.handling.streams || eventStream) && |ResponseChunks(s.sent)| == 0
  {
    var start, headers := before + [Receive(end)], Receive(ResponseHeaders(eventStream));
    var s1 := Exec(env, Init(), start);
    var s2 := Exec(env, s1, between);
    ExecAppend(env, Init(), start, between);
    ExecAppend(env, Init(), start + between, [headers]);
    assert Exec(env, s2, [headers]) == Step(env, s2, headers);
    OverStays(env, s2, [headers]);
    OverStays(env, s1, between);
    SchedulingForwards(env, before, end);
    ForwardedRun(env, s1, between, end.handling.rawBody, end.handling.streams);
    HeadersStep(env, s2, eventStream, end.handling.rawBody, end.handling.streams);
  }

  /**
   Over every run from the start of the stream in which the request asked for a streamed response or the model server
   announced one, the response is answered piece by piece as it arrives, each piece rewritten on its own, and the last
   chunk of the last piece alone ends the stream.
   */
  lemma StreamedResponseExact(env: Env, before: seq<Event>, end: Message, between: seq<Event>, eventStream: bool,
                              pieces: seq<Bytes>)
    requires Undecided(before) && IsScheduled(end) && Undecided(between) && pieces != []
    requires end.handling.streams || eventStream
    requires !Exec(env, Init(), Exchange(before, end, between, eventStream) + BodyEvents(pieces)).over
    ensures var sent := Run(env, Exchange(before, end, between, eventStream) + BodyEvents(pieces)).sent;
            && ResponseChunks(sent) == PieceChunks(env.rewrite, pieces)
            && AnsweredBytes(sent) == Rewritten(env.rewrite, pieces) && EndsOnce(ResponseChunks(sent))
  {
    var start := Exchange(before, end, between, eventStream);
    var s := Exec(env, Init(), start);
    ExecAppend(env, Init(), start, BodyEvents(pieces));
    OverStays(env, s, BodyEvents(pieces));
    ExchangeAwaitsBody(env, before, end, between, eventStream);
    StreamedResponseArrives(env, s, pieces);
    assert ResponseChunks(s.sent) + PieceChunks(env.rewrite, pieces) == PieceChunks(env.rewrite, pieces);
    PieceChunksJoin(env.rewrite, pieces);
    PieceChunksEnd(env.rewrite, pieces);
  }
}
