/**
 The bytes with which a response is answered. Request and response share one buffer, so what a buffered response
 carries depends on what the request left in it.
 */
module ResponseBytes {
  import opened Chunking
  import opened Streams

  function ChunksOf(a: Answer): seq<Chunk> {
    if a.BodyForResponse? then [a.chunk] else []
  }

  /** The chunks of the response body among the answers. */
  function ResponseChunks(sent: seq<Answer>): seq<Chunk> {
    if sent == [] then [] else ChunksOf(sent[0]) + ResponseChunks(sent[1..])
  }

  /** The response bytes among the answers. */
  function AnsweredBytes(sent: seq<Answer>): Bytes {
    Join(ResponseChunks(sent))
  }

  lemma {:induction false} AnsweredAppend(a: seq<Answer>, b: seq<Answer>)
    ensures ResponseChunks(a + b) == ResponseChunks(a) + ResponseChunks(b)
  {
    if a == [] {
      assert a + b == b;
    } else {
      AnsweredAppend(a[1..], b);
      assert (a + b)[1..] == a[1..] + b && (a + b)[0] == a[0];
      Associate(ChunksOf(a[0]), ResponseChunks(a[1..]), ResponseChunks(b));
    }
  }

  lemma {:induction false} AnsweredChunks(chunks: seq<Chunk>)
    ensures ResponseChunks(ResponseBodies(chunks)) == chunks
  {
    if chunks != [] {
      AnsweredChunks(chunks[1..]);
      assert ResponseBodies(chunks)[1..] == ResponseBodies(chunks[1..]);
      assert chunks == [chunks[0]] + chunks[1..];
    }
  }

  lemma {:induction false} NoBytes(out: seq<Answer>)
    requires forall x :: x in out ==> !x.BodyForResponse?
    ensures ResponseChunks(out) == []
  {
    if out != [] {
      NoBytes(out[1..]);
    }
  }

  lemma {:induction false} ExecAppend(env: Env, s: Session, first: seq<Event>, second: seq<Event>)
    ensures Exec(env, s, first + second) == Exec(env, Exec(env, s, first), second)
    decreases |first|
  {
    if first == [] {
      assert first + second == second;
    } else {
      assert (first + second)[1..] == first[1..] + second;
      ExecAppend(env, Step(env, s, first[0]), first[1..], second);
    }
  }

  // ---------------------------------------------------------------------------------------------
  // Buffered responses.

  /** The message asks for a streamed response. */
  predicate AsksToStream(e: Event) {
    && e.Receive?
    && ((e.message.ResponseHeaders? && e.message.eventStream)
        || (e.message.RequestBody? && e.message.handling.Scheduled? && e.message.handling.streams))
  }

  /** The message that ends the response. */
  predicate Completes(e: Event) {
    IsResponseEnd(e) || IsResponseTrailers(e)
  }

  predicate Buffered(events: seq<Event>) {
    forall e :: e in events ==> !AsksToStream(e)
  }

  predicate Incomplete(events: seq<Event>) {
    forall e :: e in events ==> !Completes(e)
  }

  predicate HasResponseHeaders(events: seq<Event>) {
    exists e :: e in events && IsResponseHeaders(e)
  }

  /** What the shared buffer holds after a message: the end of the request empties it, every other body adds to it. */
  function Keep(held: Bytes, e: Event): Bytes {
    if !e.Receive? then held
    else if e.message.RequestBody? then (if e.message.endOfStream then [] else held + e.message.data)
    else if e.message.ResponseBody? then held + e.message.data
    else held
  }

  function Held(held: Bytes, events: seq<Event>): Bytes
    decreases |events|
  {
    if events == [] then held else Held(Keep(held, events[0]), events[1..])
  }

  /** The response of an open, buffering session is not complete and no part of it waits. */
  predicate Buffers(s: Session) {
    && !s.over && !s.ctx.streaming && !s.ctx.complete && !s.ctx.respTrailer
    && |s.ctx.respBody| == 0 && Waiting(s.ctx) && s.ctx.phase != RequestEvicted
    && s.ctx.phase != ResponseReceived && s.ctx.phase != ResponseBodyAnswered
  }

  lemma BufferingMessage(env: Env, s: Session, m: Message)
    requires Buffers(s) && !AsksToStream(Receive(m)) && !Completes(Receive(m))
    ensures var t := AfterMessage(env, s, m);
            && t.body == Keep(s.body, Receive(m)) && t.sent == s.sent
            && !t.ctx.streaming && !t.ctx.complete && !t.ctx.respTrailer && |t.ctx.respBody| == 0 && Waiting(t.ctx)
            && t.ctx.phase == (if m.ResponseHeaders? then ResponseReceived else s.ctx.phase)
            && (m.ResponseHeaders? ==> t.ctx.respHeader)
  {
    MessageMarks(env, s, m);
    MessageWaits(env, s, m);
  }

  lemma BufferingFlush(c: Context)
    requires !c.complete && !c.respTrailer && |c.respBody| == 0 && Waiting(c)
    requires c.phase != RequestEvicted && c.phase != ResponseBodyAnswered
    requires c.phase == ResponseReceived ==> c.respHeader
    ensures var f := FlushAll(c);
            && |f.ctx.respBody| == 0 && Waiting(f.ctx) && ResponseChunks(f.out) == []
            && f.ctx.phase != RequestEvicted && f.ctx.phase != ResponseReceived && f.ctx.phase != ResponseBodyAnswered
            && (f.ctx.phase == ResponseHeaderAnswered
                <==> c.phase == ResponseHeaderAnswered || c.phase == ResponseReceived)
  {
    FlushSends(c);
    NoBytes(FlushAll(c).out);
  }

  lemma BufferingStep(env: Env, s: Session, e: Event)
    requires Buffers(s) && !AsksToStream(e) && !Completes(e) && !Step(env, s, e).over
    ensures var t := Step(env, s, e);
            && Buffers(t) && t.body == Keep(s.body, e) && ResponseChunks(t.sent) == ResponseChunks(s.sent)
            && (t.ctx.phase == ResponseHeaderAnswered
                <==> s.ctx.phase == ResponseHeaderAnswered || IsResponseHeaders(e))
  {
    if e.Receive? {
      var c := AfterMessage(env, s, e.message).ctx;
      BufferingMessage(env, s, e.message);
      BufferingFlush(c);
      FlushKeeps(c);
      AnsweredAppend(s.sent, FlushAll(c).out);
    }
  }

  lemma {:induction false} BufferingRun(env: Env, s: Session, events: seq<Event>)
    requires Buffers(s) && Buffered(events) && Incomplete(events) && !Exec(env, s, events).over
    ensures var t := Exec(env, s, events);
            && Buffers(t) && t.body == Held(s.body, events) && ResponseChunks(t.sent) == ResponseChunks(s.sent)
            && (t.ctx.phase == ResponseHeaderAnswered
                <==> s.ctx.phase == ResponseHeaderAnswered || HasResponseHeaders(events))
    decreases |events|
  {
    if events != [] {
      var e, rest := events[0], events[1..];
      assert e in events && forall x :: x in rest ==> x in events;
      OverStays(env, Step(env, s, e), rest);
      BufferingStep(env, s, e);
      BufferingRun(env, Step(env, s, e), rest);
      assert HasResponseHeaders(events) <==> IsResponseHeaders(e) || HasResponseHeaders(rest) by {
        assert events == [e] + rest;
      }
    }
  }

  /** The response is complete and no part of it waits. */
  predicate FullyAnswered(c: Context) {
    c.complete && !c.streaming && |c.respBody| == 0 && Waiting(c) && c.phase != RequestEvicted
  }

  /** The flush of a completed response sends its body, and then its trailer if there is one. */
  lemma CompletedOut(c: Context)
    requires c.phase == ResponseHeaderAnswered && c.complete
    ensures FlushAll(c).out == c.respBody + if c.respTrailer then [TrailerForResponse] else []
    ensures FlushAll(c).ctx == c.(phase := ResponseBodyAnswered, respBody := [])
  {
    assert [] + c.respBody == c.respBody && c.respBody + [] == c.respBody;
  }

  lemma CompletedChunks(respBody: seq<Answer>, chunks: seq<Chunk>, trailer: seq<Answer>)
    requires respBody == ResponseBodies(chunks) && forall x :: x in trailer ==> !x.BodyForResponse?
    ensures ResponseChunks(respBody + trailer) == chunks
  {
    AnsweredChunks(chunks);
    AnsweredAppend(respBody, trailer);
    NoBytes(trailer);
  }

  lemma CompletingFlush(env: Env, c: Context, body: Bytes, eos: bool)
    requires c.phase == ResponseHeaderAnswered && c.complete && !c.streaming
    requires c.respBody == ResponseBodies(Chunks(env.rewrite(body), eos)) && Waiting(c)
    ensures var f := FlushAll(c);
            && FullyAnswered(f.ctx) && ResponseChunks(f.out) == Chunks(env.rewrite(body), eos)
            && (c.respTrailer ==> TrailerForResponse in f.out)
  {
    CompletedOut(c);
    CompletedChunks(c.respBody, Chunks(env.rewrite(body), eos), if c.respTrailer then [TrailerForResponse] else []);
  }

  lemma CompletingStep(env: Env, s: Session, e: Event)
    requires Buffers(s) && s.ctx.phase == ResponseHeaderAnswered && Completes(e) && !Step(env, s, e).over
    ensures var t := Step(env, s, e);
            && FullyAnswered(t.ctx) && (IsResponseTrailers(e) ==> TrailerForResponse in t.sent)
            && ResponseChunks(t.sent) == ResponseChunks(s.sent) + Chunks(env.rewrite(Keep(s.body, e)), IsResponseEnd(e))
  {
    var c := AfterMessage(env, s, e.message).ctx;
    MessageWaits(env, s, e.message);
    CompletingFlush(env, c, Keep(s.body, e), e.message.ResponseBody?);
    FlushKeeps(c);
    AnsweredAppend(s.sent, FlushAll(c).out);
  }

  lemma AnsweredMessage(env: Env, s: Session, m: Message)
    requires FullyAnswered(s.ctx) && !AsksToStream(Receive(m))
    ensures var t := AfterMessage(env, s, m);
            FullyAnswered(t.ctx) && t.sent == s.sent
  {
    MessageMarks(env, s, m);
    MessageWaits(env, s, m);
  }

  lemma AnsweredFlush(c: Context)
    requires FullyAnswered(c)
    ensures FullyAnswered(FlushAll(c).ctx) && forall x :: x in FlushAll(c).out ==> !x.BodyForResponse?
  {
    FlushSends(c);
    FlushKeeps(c);
    FlushPhase(c);
  }

  /** Nothing adds to a response that has been answered. */
  lemma AnsweredStep(env: Env, s: Session, e: Event)
    requires FullyAnswered(s.ctx) && !AsksToStream(e)
    ensures var t := Step(env, s, e);
            FullyAnswered(t.ctx) && ResponseChunks(t.sent) == ResponseChunks(s.sent)
  {
    if !s.over && e.Receive? {
      var t := AfterMessage(env, s, e.message);
      AnsweredMessage(env, s, e.message);
      AnsweredFlush(t.ctx);
      SilentDelivery(env.limit, s.sent, if Fails(e.message) then FailureAnswer(e.message) else FlushAll(t.ctx).out);
    }
  }

  lemma SilentDelivery(limit: nat, sent: seq<Answer>, out: seq<Answer>)
    requires forall x :: x in out ==> !x.BodyForResponse?
    ensures ResponseChunks(Delivered(limit, sent, out)) == ResponseChunks(sent)
  {
    var more := if Fits(limit, sent, out) then out else if |sent| < limit then out[..limit - |sent|] else [];
    assert Delivered(limit, sent, out) == sent + more;
    NoBytes(more);
    AnsweredAppend(sent, more);
  }

  lemma {:induction false} AnsweredRun(env: Env, s: Session, events: seq<Event>)
    requires FullyAnswered(s.ctx) && Buffered(events)
    ensures ResponseChunks(Exec(env, s, events).sent) == ResponseChunks(s.sent)
    decreases |events|
  {
    if events != [] {
      assert forall x :: x in events[1..] ==> x in events;
      AnsweredStep(env, s, events[0]);
      AnsweredRun(env, Step(env, s, events[0]), events[1..]);
    }
  }

  /** `last` completes a buffered response whose headers were answered, on a stream that is still open. */
  predicate BufferedRun(env: Env, before: seq<Event>, last: Event, after: seq<Event>) {
    && Buffered(before + [last] + after) && Incomplete(before) && HasResponseHeaders(before) && Completes(last)
    && !Exec(env, Init(), before + [last]).over
  }

  lemma PartsAreBuffered(before: seq<Event>, last: Event, after: seq<Event>)
    requires Buffered(before + [last] + after)
    ensures Buffered(before) && Buffered(after)
  {
    var all := before + [last] + after;
    assert forall x :: x in before || x in after ==> x in all;
  }

  /** Once `last` has come, the response is answered in full. */
  lemma BufferedRunAnswers(env: Env, before: seq<Event>, last: Event)
    requires Buffered(before) && Incomplete(before) && HasResponseHeaders(before) && Completes(last)
    requires !Exec(env, Init(), before + [last]).over
    ensures var t := Exec(env, Init(), before + [last]);
            && FullyAnswered(t.ctx) && (IsResponseTrailers(last) ==> TrailerForResponse in t.sent)
            && ResponseChunks(t.sent) == Chunks(env.rewrite(Keep(Held([], before), last)), IsResponseEnd(last))
  {
    var s := Exec(env, Init(), before);
    ExecAppend(env, Init(), before, [last]);
    assert Exec(env, s, [last]) == Step(env, s, last);
    OverStays(env, s, [last]);
    BufferingRun(env, Init(), before);
    CompletingStep(env, s, last);
    var chunks := Chunks(env.rewrite(Keep(s.body, last)), IsResponseEnd(last));
    assert ResponseChunks([]) + chunks == chunks;
  }

  /**
   Over every run from the start of the stream, a buffered response is answered with the rewriting of what the shared
   buffer held when the response was complete, whatever comes after; its last chunk alone ends the stream, and does so
   exactly when it was ended by its body; trailers are answered too.
   */
  lemma BufferedResponseExact(env: Env, before: seq<Event>, last: Event, after: seq<Event>)
    requires BufferedRun(env, before, last, after)
    ensures var chunks := ResponseChunks(Run(env, before + [last] + after).sent);
            && Join(chunks) == env.rewrite(Keep(Held([], before), last)) && WellFormed(chunks, IsResponseEnd(last))
            && (IsResponseTrailers(last) ==> TrailerForResponse in Run(env, before + [last] + after).sent)
  {
    PartsAreBuffered(before, last, after);
    BufferedRunAnswers(env, before, last);
    var t := Exec(env, Init(), before + [last]);
    ExecAppend(env, Init(), before + [last], after);
    AnsweredRun(env, t, after);
    SentGrows(env, t, after);
    ChunksAreExact(env.rewrite(Keep(Held([], before), last)), IsResponseEnd(last));
  }

  // ---------------------------------------------------------------------------------------------
  // When a buffered response is answered with its own bytes.

  predicate IsRequestBody(e: Event) {
    e.Receive? && e.message.RequestBody?
  }

  predicate IsRequestEnd(e: Event) {
    IsRequestBody(e) && e.message.endOfStream
  }

  predicate IsResponseBody(e: Event) {
    e.Receive? && e.message.ResponseBody?
  }

  /** Envoy sends no more of the request body once the response body arrives. */
  predicate RequestFirst(events: seq<Event>) {
    forall i, j :: 0 <= i < j < |events| && IsResponseBody(events[i]) ==> !IsRequestBody(events[j])
  }

  /** Request-body bytes that no end of the request body follows. */
  predicate Unended(events: seq<Event>, i: nat) {
    && i < |events| && IsRequestBody(events[i]) && !IsRequestEnd(events[i]) && events[i].message.data != []
    && forall j :: i < j < |events| ==> !IsRequestEnd(events[j])
  }

  function DataOf(e: Event): Bytes {
    if IsResponseBody(e) then e.message.data else []
  }

  /** The bytes of the response body, in order. */
  function OwnBytes(events: seq<Event>): Bytes
    decreases |events|
  {
    if events == [] then [] else DataOf(events[0]) + OwnBytes(events[1..])
  }

  function Leftover(held: Bytes, events: seq<Event>): Bytes
    decreases |events|
  {
    if events == [] then held
    else Leftover(if IsRequestBody(events[0]) then Keep(held, events[0]) else held, events[1..])
  }

  lemma {:induction false} NoRequestLeft(held: Bytes, events: seq<Event>)
    requires forall e :: e in events ==> !IsRequestBody(e)
    ensures Leftover(held, events) == held && Held(held, events) == held + OwnBytes(events)
    decreases |events|
  {
    if events != [] {
      assert forall x :: x in events[1..] ==> x in events;
      NoRequestLeft(held, events[1..]);
      NoRequestLeft(Keep(held, events[0]), events[1..]);
      Associate(held, DataOf(events[0]), OwnBytes(events[1..]));
    }
  }

  /** The buffer holds what the request left, then the response. */
  lemma {:induction false} HeldIsLeftoverThenOwn(held: Bytes, events: seq<Event>)
    requires RequestFirst(events)
    ensures Held(held, events) == Leftover(held, events) + OwnBytes(events)
    decreases |events|
  {
    if events != [] {
      var e, rest := events[0], events[1..];
      assert forall k :: 0 <= k < |rest| ==> rest[k] == events[k + 1];
      if IsResponseBody(e) {
        NoRequestLeft(held, events);
      } else {
        HeldIsLeftoverThenOwn(Keep(held, e), rest);
      }
    }
  }

  lemma UnendedTail(events: seq<Event>, i: nat)
    requires events != []
    ensures i > 0 ==> (Unended(events, i) <==> Unended(events[1..], i - 1))
  {
    var rest := events[1..];
    assert forall k :: 0 <= k < |rest| ==> rest[k] == events[k + 1];
    if i > 0 && Unended(rest, i - 1) {
      forall j | i < j < |events|
        ensures !IsRequestEnd(events[j])
      {
        assert events[j] == rest[j - 1];
      }
    }
  }

  predicate Ended(events: seq<Event>) {
    exists j :: 0 <= j < |events| && IsRequestEnd(events[j])
  }

  lemma EndedTail(events: seq<Event>)
    requires events != []
    ensures Ended(events) <==> IsRequestEnd(events[0]) || Ended(events[1..])
  {
    if j :| 0 <= j < |events| && IsRequestEnd(events[j]) {
      assert j > 0 ==> events[1..][j - 1] == events[j];
    }
  }

  lemma {:induction false} LeftoverExact(held: Bytes, events: seq<Event>)
    ensures Leftover(held, events) == [] <==>
            (held == [] || Ended(events)) && forall i: nat :: !Unended(events, i)
    decreases |events|
  {
    if events != [] {
      var e, rest := events[0], events[1..];
      LeftoverExact(if IsRequestBody(e) then Keep(held, e) else held, rest);
      EndedTail(events);
      forall i: nat
        ensures i > 0 ==> (Unended(events, i) <==> Unended(rest, i - 1))
      {
        UnendedTail(events, i);
      }
      assert (forall i: nat :: !Unended(rest, i)) <==> (forall i: nat :: i > 0 ==> !Unended(events, i)) by {
        forall i: nat
          ensures Unended(rest, i) <==> Unended(events, i + 1)
        {
          UnendedTail(events, i + 1);
        }
      }
      assert Unended(events, 0) <==> IsRequestBody(e) && !IsRequestEnd(e) && e.message.data != [] && !Ended(rest) by {
        assert forall j :: 0 < j < |events| ==> events[j] == rest[j - 1];
      }
    }
  }

  lemma {:induction false} OwnBytesAppend(events: seq<Event>, last: Event)
    ensures OwnBytes(events + [last]) == OwnBytes(events) + DataOf(last)
    decreases |events|
  {
    if events != [] {
      assert (events + [last])[1..] == events[1..] + [last];
      OwnBytesAppend(events[1..], last);
      Associate(DataOf(events[0]), OwnBytes(events[1..]), DataOf(last));
    }
  }

  /**
   With bodies that need no rewriting, a buffered response is answered with its own bytes alone exactly when no
   request-body bytes arrived after the last end of the request body; otherwise those bytes come first.
   */
  lemma OwnBytesExactlyWhenRequestEnded(env: Env, before: seq<Event>, last: Event, after: seq<Event>)
    requires BufferedRun(env, before, last, after) && RequestFirst(before) && forall b :: env.rewrite(b) == b
    ensures var answered := AnsweredBytes(Run(env, before + [last] + after).sent);
            && answered == Leftover([], before) + OwnBytes(before + [last])
            && (answered == OwnBytes(before + [last]) <==> forall i: nat :: !Unended(before, i))
  {
    BufferedResponseExact(env, before, last, after);
    HeldIsLeftoverThenOwn([], before);
    OwnBytesAppend(before, last);
    Associate(Leftover([], before), OwnBytes(before), DataOf(last));
    LeftoverExact([], before);
  }

  // A response that starts while the request body is still arriving: both use the same buffer.

  const REQUEST_PIECE := Receive(RequestBody([1], false, ParseFailed))
  const HEADERS := Receive(ResponseHeaders(false))
  const RESPONSE_END := Receive(ResponseBody([2], true))

  const BEFORE_END: seq<Event> := [REQUEST_PIECE, HEADERS]

  lemma EarlyHeaders(env: Env) returns (s: Session)
    requires env.limit >= 2
    ensures s == Session(INITIAL.(phase := ResponseHeaderAnswered, respHeader := true), [1], false, 0,
                         [HeaderForResponse], false)
    ensures s == Exec(env, Init(), BEFORE_END)
  {
    var s1 := Init().(body := [1]);
    assert [] + [1] == [1];
    assert Step(env, Init(), REQUEST_PIECE) == s1;
    s := Step(env, s1, HEADERS);
    assert [HEADERS][1..] == [] && BEFORE_END[1..] == [HEADERS];
    assert Exec(env, s1, [HEADERS]) == s;
  }

  lemma EarlyEnd(env: Env, s: Session)
    requires env.limit >= 2 && (forall b :: env.rewrite(b) == b) && AwaitsBody(s, false)
    requires |s.sent| == 1 && s.body == [1]
    ensures !Step(env, s, RESPONSE_END).over
  {
    var c := AfterMessage(env, s, RESPONSE_END.message).ctx;
    FlushBody(c);
    assert [1] + [2] == [1, 2];
    assert |Chunks([1, 2], true)| == 1;
  }

  lemma EarlyIsBuffered(env: Env)
    requires env.limit >= 2 && forall b :: env.rewrite(b) == b
    ensures BufferedRun(env, BEFORE_END, RESPONSE_END, [])
  {
    var s := EarlyHeaders(env);
    EarlyEnd(env, s);
    ExecAppend(env, Init(), BEFORE_END, [RESPONSE_END]);
    assert [RESPONSE_END][1..] == [];
    assert Exec(env, s, [RESPONSE_END]) == Step(env, s, RESPONSE_END);
    assert BEFORE_END[1] in BEFORE_END;
  }

  lemma EarlyHeld()
    ensures Keep(Held([], BEFORE_END), RESPONSE_END) == [1, 2]
  {
    assert BEFORE_END[1..] == [HEADERS] && [HEADERS][1..] == [] && [] + [1] == [1] && [1] + [2] == [1, 2];
    assert Held([1], [HEADERS]) == Held([1], []) == [1];
  }

  /** The bytes of an unfinished request body come before the bytes of a buffered response. */
  lemma UnfinishedRequestBodyIsAnswered(limit: nat)
    requires limit >= 2
    ensures AnsweredBytes(Run(Env(limit, b => b), BEFORE_END + [RESPONSE_END]).sent) == [1, 2]
  {
    var env := Env(limit, b => b);
    EarlyIsBuffered(env);
    BufferedResponseExact(env, BEFORE_END, RESPONSE_END, []);
    EarlyHeld();
    assert BEFORE_END + [RESPONSE_END] + [] == BEFORE_END + [RESPONSE_END];
  }

  // ---------------------------------------------------------------------------------------------
  // Streamed responses.

  /** The messages of a response body that arrives in these pieces. */
  function BodyEvents(pieces: seq<Bytes>): seq<Event> {
    seq(|pieces|, i requires 0 <= i < |pieces| => Receive(ResponseBody(pieces[i], i == |pieces| - 1)))
  }

  function Rewritten(rewrite: Bytes -> Bytes, pieces: seq<Bytes>): Bytes {
    if pieces == [] then [] else rewrite(pieces[0]) + Rewritten(rewrite, pieces[1..])
  }

  /** The chunks of the pieces, each rewritten on its own. */
  function PieceChunks(rewrite: Bytes -> Bytes, pieces: seq<Bytes>): seq<Chunk> {
    if pieces == [] then [] else Chunks(rewrite(pieces[0]), |pieces| == 1) + PieceChunks(rewrite, pieces[1..])
  }

  /** The last chunk ends the stream, and no other does. */
  predicate EndsOnce(chunks: seq<Chunk>) {
    && chunks != [] && chunks[|chunks| - 1].endOfStream
    && forall i :: 0 <= i < |chunks| - 1 ==> !chunks[i].endOfStream
  }

  lemma EndsLater(first: seq<Chunk>, rest: seq<Chunk>)
    requires (forall i :: 0 <= i < |first| ==> !first[i].endOfStream) && EndsOnce(rest)
    ensures EndsOnce(first + rest)
  {
    var all := first + rest;
    assert all[|all| - 1] == rest[|rest| - 1];
    forall i | 0 <= i < |all| - 1
      ensures !all[i].endOfStream
    {
      assert i >= |first| ==> all[i] == rest[i - |first|];
    }
  }

  lemma {:induction false} PieceChunksJoin(rewrite: Bytes -> Bytes, pieces: seq<Bytes>)
    ensures Join(PieceChunks(rewrite, pieces)) == Rewritten(rewrite, pieces)
  {
    if pieces != [] {
      ChunksAreExact(rewrite(pieces[0]), |pieces| == 1);
      PieceChunksJoin(rewrite, pieces[1..]);
      JoinAppend(Chunks(rewrite(pieces[0]), |pieces| == 1), PieceChunks(rewrite, pieces[1..]));
    }
  }

  lemma {:induction false} PieceChunksEnd(rewrite: Bytes -> Bytes, pieces: seq<Bytes>)
    requires pieces != []
    ensures EndsOnce(PieceChunks(rewrite, pieces))
  {
    var first, rest := Chunks(rewrite(pieces[0]), |pieces| == 1), PieceChunks(rewrite, pieces[1..]);
    ChunksAreExact(rewrite(pieces[0]), |pieces| == 1);
    if |pieces| == 1 {
      assert pieces[1..] == [] && first + rest == first;
    } else {
      PieceChunksEnd(rewrite, pieces[1..]);
      EndsLater(first, rest);
    }
  }

  /** The response headers have been answered and no body answer waits. */
  predicate AwaitsBody(s: Session, streaming: bool) {
    && !s.over && s.ctx.phase == ResponseHeaderAnswered && s.ctx.streaming == streaming
    && !s.ctx.complete && !s.ctx.respTrailer && s.ctx.respBody == []
  }

  /** While the response body is awaited, a flush sends the waiting body answers alone. */
  lemma FlushBody(c: Context)
    requires c.phase == ResponseHeaderAnswered && !c.respTrailer
    ensures FlushAll(c) ==
            Flush(c.(phase := if c.complete then ResponseBodyAnswered else ResponseHeaderAnswered, respBody := []),
                  c.respBody)
  {
    assert [] + c.respBody == c.respBody;
  }

  lemma StreamedPiece(env: Env, s: Session, data: Bytes, eos: bool)
    requires AwaitsBody(s, true)
    ensures var out := ResponseBodies(Chunks(env.rewrite(data), eos));
            var t := Step(env, s, Receive(ResponseBody(data, eos)));
            && t.sent == Delivered(env.limit, s.sent, out)
            && (t.over <==> !Fits(env.limit, s.sent, out))
            && (!eos && !t.over ==> AwaitsBody(t, true))
  {
    FlushBody(AfterMessage(env, s, ResponseBody(data, eos)).ctx);
  }

  lemma StreamedBytes(env: Env, s: Session, data: Bytes, eos: bool)
    requires AwaitsBody(s, true)
    ensures var t := Step(env, s, Receive(ResponseBody(data, eos)));
            !t.over ==>
              && ResponseChunks(t.sent) == ResponseChunks(s.sent) + Chunks(env.rewrite(data), eos)
              && (!eos ==> AwaitsBody(t, true))
  {
    StreamedPiece(env, s, data, eos);
    var chunks := Chunks(env.rewrite(data), eos);
    AnsweredAppend(s.sent, ResponseBodies(chunks));
    AnsweredChunks(chunks);
  }

  /** A streamed response arrives piece by piece, each rewritten on its own. */
  lemma {:induction false} StreamedResponseArrives(env: Env, s: Session, pieces: seq<Bytes>)
    requires AwaitsBody(s, true)
    requires !Exec(env, s, BodyEvents(pieces)).over
    ensures ResponseChunks(Exec(env, s, BodyEvents(pieces)).sent) ==
            ResponseChunks(s.sent) + PieceChunks(env.rewrite, pieces)
    decreases |pieces|
  {
    if pieces != [] {
      var events, chunks := BodyEvents(pieces), Chunks(env.rewrite(pieces[0]), |pieces| == 1);
      assert events[1..] == BodyEvents(pieces[1..]);
      StreamedBytes(env, s, pieces[0], |pieces| == 1);
      var t := Step(env, s, events[0]);
      OverStays(env, t, events[1..]);
      Associate(ResponseChunks(s.sent), chunks, PieceChunks(env.rewrite, pieces[1..]));
      if |pieces| > 1 {
        StreamedResponseArrives(env, t, pieces[1..]);
      } else {
        assert pieces[1..] == [];
      }
    }
  }
}
