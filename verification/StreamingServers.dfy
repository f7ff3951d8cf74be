/** The streaming server: the request context, the stream it answers on, and the processing loop. */
module StreamingServers {
  import opened Chunking
  import opened Streams

  /** The sending side of the stream; it breaks after `limit` sends. */
  class Stream {
    const limit: nat
    var sent: seq<Answer>

    constructor (limit: nat)
      ensures sent == [] && this.limit == limit
    {
      this.limit := limit;
      sent := [];
    }

    method Send(a: Answer) returns (ok: bool)
      modifies this
      ensures ok <==> |old(sent)| < limit
      ensures sent == if ok then old(sent) + [a] else old(sent)
    {
      ok := |sent| < limit;
      if ok {
        sent := sent + [a];
      }
    }

    method SendAll(answers: seq<Answer>) returns (ok: bool)
      requires |sent| <= limit
      modifies this
      ensures ok <==> Fits(limit, old(sent), answers)
      ensures sent == Delivered(limit, old(sent), answers)
    {
      for i := 0 to |answers|
        invariant |sent| == |old(sent)| + i <= limit && sent == old(sent) + answers[..i]
      {
        var done := Send(answers[i]);
        if !done {
          return false;
        }
        assert answers[..i + 1] == answers[..i] + [answers[i]];
      }
      assert answers[..|answers|] == answers;
      return true;
    }
  }

  /** `sent` is what the stream holds when sending `out` after `before` went well, or broke. */
  ghost predicate Sends(limit: nat, before: seq<Answer>, out: seq<Answer>, ok: bool, sent: seq<Answer>) {
    (ok <==> Fits(limit, before, out)) && sent == Delivered(limit, before, out)
  }

  lemma SendMore(limit: nat, before: seq<Answer>, out: seq<Answer>, more: seq<Answer>, ok: bool, sent: seq<Answer>)
    requires Fits(limit, before, out) && Sends(limit, before + out, more, ok, sent)
    ensures Sends(limit, before, out + more, ok, sent)
  {
    assert before + (out + more) == (before + out) + more;
    if !ok && |before + out| < limit {
      assert (out + more)[..limit - |before|] == out + more[..limit - |before + out|];
    } else if !ok && |before| < limit {
      assert (out + more)[..limit - |before|] == out;
    } else if !ok {
      assert out == [] && before + out == before;
    }
  }

  class RequestContext {
    var requestState: Phase
    var targetPod: bool
    var responseComplete: bool
    var modelServerStreaming: bool
    var reqHeaderResp: bool
    var reqBodyResp: seq<Answer>
    var respHeaderResp: bool
    var respBodyResp: seq<Answer>
    var respTrailerResp: bool

    ghost function Abs(): Context
      reads this
    {
      Context(requestState, targetPod, responseComplete, modelServerStreaming, reqHeaderResp, reqBodyResp,
              respHeaderResp, respBodyResp, respTrailerResp)
    }

    constructor ()
      ensures Abs() == INITIAL
    {
      requestState := RequestReceived;
      targetPod, responseComplete, modelServerStreaming := false, false, false;
      reqHeaderResp, reqBodyResp := false, [];
      respHeaderResp, respBodyResp, respTrailerResp := false, [], false;
    }

    /** So far the pass has sent the answers of `f` after `before`. */
    ghost predicate Ready(stream: Stream, before: seq<Answer>, f: Flush)
      reads this, stream
    {
      f.ctx == Abs() && stream.sent == before + f.out && |stream.sent| <= stream.limit
    }

    method SendRequestHeader(stream: Stream, ghost before: seq<Answer>, ghost f: Flush) returns (ok: bool)
      requires Ready(stream, before, f)
      modifies this`requestState, stream
      ensures Sends(stream.limit, before, FlushRequestHeader(f).out, ok, stream.sent)
      ensures ok ==> Ready(stream, before, FlushRequestHeader(f))
    {
      ok := true;
      if requestState == RequestReceived && reqHeaderResp {
        ok := stream.SendAll([HeaderForRequest]);
        SendMore(stream.limit, before, f.out, [HeaderForRequest], ok, stream.sent);
        if ok {
          requestState := RequestHeaderAnswered;
        }
      }
    }

    method SendRequestBody(stream: Stream, ghost before: seq<Answer>, ghost f: Flush) returns (ok: bool)
      requires Ready(stream, before, f)
      modifies this`requestState, this`reqBodyResp, stream
      ensures Sends(stream.limit, before, FlushRequestBody(f).out, ok, stream.sent)
      ensures ok ==> Ready(stream, before, FlushRequestBody(f))
    {
      ok := true;
      if requestState == RequestHeaderAnswered && |reqBodyResp| > 0 {
        ok := stream.SendAll(reqBodyResp);
        SendMore(stream.limit, before, f.out, reqBodyResp, ok, stream.sent);
        if ok {
          requestState := RequestBodyAnswered;
          reqBodyResp := [];
        }
      }
    }

    method SendResponseHeader(stream: Stream, ghost before: seq<Answer>, ghost f: Flush) returns (ok: bool)
      requires Ready(stream, before, f)
      modifies this`requestState, stream
      ensures Sends(stream.limit, before, FlushResponseHeader(f).out, ok, stream.sent)
      ensures ok ==> Ready(stream, before, FlushResponseHeader(f))
    {
      ok := true;
      if requestState == ResponseReceived && respHeaderResp {
        ok := stream.SendAll([HeaderForResponse]);
        SendMore(stream.limit, before, f.out, [HeaderForResponse], ok, stream.sent);
        if ok {
          requestState := ResponseHeaderAnswered;
        }
      }
    }

    method SendResponseBody(stream: Stream, ghost before: seq<Answer>, ghost f: Flush) returns (ok: bool)
      requires Ready(stream, before, f)
      modifies this`requestState, this`respBodyResp, stream
      ensures Sends(stream.limit, before, FlushResponseBody(f).out, ok, stream.sent)
      ensures ok ==> Ready(stream, before, FlushResponseBody(f))
    {
      ok := true;
      if requestState == ResponseHeaderAnswered {
        ok := stream.SendAll(respBodyResp);
        SendMore(stream.limit, before, f.out, respBodyResp, ok, stream.sent);
        if ok {
          if responseComplete {
            requestState := ResponseBodyAnswered;
          }
          respBodyResp := [];
        }
      }
    }

    method SendTrailer(stream: Stream, ghost before: seq<Answer>, ghost f: Flush) returns (ok: bool)
      requires Ready(stream, before, f)
      modifies stream
      ensures Sends(stream.limit, before, FlushTrailer(f).out, ok, stream.sent)
      ensures ok ==> Ready(stream, before, FlushTrailer(f))
    {
      ok := true;
      if requestState == ResponseBodyAnswered && respTrailerResp {
        ok := stream.SendAll([TrailerForResponse]);
        SendMore(stream.limit, before, f.out, [TrailerForResponse], ok, stream.sent);
      }
    }

    /** Sends, in order, all the answers that the state lets go. */
    method UpdateStateAndSendIfNeeded(stream: Stream) returns (ok: bool)
      requires |stream.sent| <= stream.limit
      modifies this`requestState, this`reqBodyResp, this`respBodyResp, stream
      ensures Sends(stream.limit, old(stream.sent), FlushAll(old(Abs())).out, ok, stream.sent)
      ensures ok ==> Abs() == FlushAll(old(Abs())).ctx
    {
      ghost var before, c := stream.sent, Abs();
      if requestState == RequestEvicted {
        ok := stream.SendAll([Immediate(true)]);
        return;
      }
      ghost var f0 := Flush(c, []);
      assert before + [] == before;
      ghost var f1, f2, f3, f4 := Stages(c);
      ok := SendRequestHeader(stream, before, f0);
      if ok {
        ok := SendRequestBody(stream, before, f1);
      }
      if ok {
        ok := SendResponseHeader(stream, before, f2);
      }
      if ok {
        ok := SendResponseBody(stream, before, f3);
      }
      if ok {
        ok := SendTrailer(stream, before, f4);
      }
    }
  }

  lemma Stages(c: Context) returns (f1: Flush, f2: Flush, f3: Flush, f4: Flush)
    requires c.phase != RequestEvicted
    ensures f1 == FlushRequestHeader(Flush(c, [])) && f2 == FlushRequestBody(f1) && f3 == FlushResponseHeader(f2)
    ensures f4 == FlushResponseBody(f3) && FlushAll(c) == FlushTrailer(f4)
    ensures f1.out <= f2.out <= f3.out <= f4.out <= FlushAll(c).out
  {
    f1 := FlushRequestHeader(Flush(c, []));
    f2 := FlushRequestBody(f1);
    f3 := FlushResponseHeader(f2);
    f4 := FlushResponseBody(f3);
    StageGrows(f1);
    StageGrows(f2);
    StageGrows(f3);
    StageGrows(f4);
  }

  lemma StageGrows(f: Flush)
    ensures f.out <= FlushRequestBody(f).out && f.out <= FlushResponseHeader(f).out
    ensures f.out <= FlushResponseBody(f).out && f.out <= FlushTrailer(f).out
  {
  }

  method GenerateRequestBodyResponses(body: Bytes) returns (answers: seq<Answer>)
    ensures answers == RequestBodies(Chunks(body, true))
  {
    var chunks := BuildChunkedBodyResponses(body, true);
    answers := [];
    for i := 0 to |chunks|
      invariant answers == RequestBodies(chunks)[..i]
    {
      answers := answers + [BodyForRequest(chunks[i])];
      assert answers == RequestBodies(chunks)[..i] + [RequestBodies(chunks)[i]];
    }
    assert RequestBodies(chunks)[..|chunks|] == RequestBodies(chunks);
  }

  method GenerateResponseBodyResponses(body: Bytes, setEos: bool) returns (answers: seq<Answer>)
    ensures answers == ResponseBodies(Chunks(body, setEos))
  {
    var chunks := BuildChunkedBodyResponses(body, setEos);
    answers := [];
    for i := 0 to |chunks|
      invariant answers == ResponseBodies(chunks)[..i]
    {
      answers := answers + [BodyForResponse(chunks[i])];
      assert answers == ResponseBodies(chunks)[..i] + [ResponseBodies(chunks)[i]];
    }
    assert ResponseBodies(chunks)[..|chunks|] == ResponseBodies(chunks);
  }

  /** Handles one stream. `hooks` counts the calls of the director's completion hook. */
  class StreamingServer {
    const rewrite: Bytes -> Bytes
    const stream: Stream
    const reqCtx: RequestContext
    var body: Bytes
    var evictable: bool
    var hooks: nat

    constructor (rewrite: Bytes -> Bytes, stream: Stream)
      requires stream.sent == []
      ensures this.rewrite == rewrite && this.stream == stream && fresh(reqCtx) && Abs(false) == Init()
    {
      this.rewrite, this.stream := rewrite, stream;
      reqCtx := new RequestContext();
      body, evictable, hooks := [], false, 0;
    }

    ghost function Surroundings(): Env
      reads this
    {
      Env(stream.limit, rewrite)
    }

    ghost function Abs(over: bool): Session
      reads this, stream, reqCtx
    {
      Session(reqCtx.Abs(), body, evictable, hooks, stream.sent, over)
    }

    method FinishResponse(data: Bytes, setEos: bool)
      modifies this`hooks, reqCtx`responseComplete, reqCtx`respBodyResp
      ensures Abs(false) == Streams.FinishResponse(Surroundings(), old(Abs(false)), data, setEos)
    {
      if reqCtx.responseComplete {
        return;
      }
      reqCtx.responseComplete := true;
      hooks := hooks + 1;
      if !reqCtx.modelServerStreaming {
        reqCtx.respBodyResp := GenerateResponseBodyResponses(rewrite(data), setEos);
      }
    }

    method HandleRequestBody(m: Message)
      requires m.RequestBody?
      modifies this, reqCtx
      ensures Abs(false) == AfterRequestBody(old(Abs(false)), m)
    {
      body := body + m.data;
      if m.endOfStream {
        body := [];
        if m.handling.Refused? {
          reqCtx.targetPod := reqCtx.targetPod || m.handling.scheduled;
        } else if m.handling.Scheduled? {
          reqCtx.targetPod := true;
          evictable := m.handling.evictable;
          reqCtx.modelServerStreaming := m.handling.streams;
          reqCtx.reqHeaderResp := true;
          reqCtx.reqBodyResp := GenerateRequestBodyResponses(m.handling.rawBody);
        }
      }
    }

    method HandleResponseBody(m: Message)
      requires m.ResponseBody?
      modifies this, reqCtx
      ensures Abs(false) == AfterResponseBody(Surroundings(), old(Abs(false)), m)
    {
      if reqCtx.modelServerStreaming {
        if m.endOfStream {
          reqCtx.responseComplete := true;
          hooks := hooks + 1;
        }
        reqCtx.respBodyResp := GenerateResponseBodyResponses(rewrite(m.data), m.endOfStream);
      } else {
        body := body + m.data;
        if m.endOfStream {
          FinishResponse(body, true);
        }
      }
    }

    method HandleMessage(m: Message)
      modifies this, reqCtx
      ensures Abs(false) == AfterMessage(Surroundings(), old(Abs(false)), m)
    {
      match m
      case RequestHeaders(eos, found) =>
        if eos && found {
          reqCtx.reqHeaderResp := true;
        }
      case RequestBody(_, _, _) =>
        HandleRequestBody(m);
      case RequestTrailers =>
      case ResponseHeaders(eventStream) =>
        if eventStream {
          reqCtx.modelServerStreaming := true;
        }
        reqCtx.requestState := ResponseReceived;
        reqCtx.respHeaderResp := true;
      case ResponseBody(_, _) =>
        HandleResponseBody(m);
      case ResponseTrailers =>
        FinishResponse(body, false);
        reqCtx.respTrailerResp := true;
    }

    /** The server is where the session `s` is; once the stream is left, only the outcome counts. */
    ghost predicate Agrees(s: Session, over: bool)
      reads this, stream, reqCtx
    {
      && over == s.over && stream.sent == s.sent && hooks == s.hooks
      && reqCtx.targetPod == s.ctx.targetPod && reqCtx.responseComplete == s.ctx.complete
      && (!over ==> Abs(false) == s)
    }

    /** One turn of the loop; `over` when the stream is left. A broken stream is left in an unspecified phase. */
    method HandleEvent(e: Event) returns (over: bool)
      requires |stream.sent| <= stream.limit
      modifies this, reqCtx, stream
      ensures |stream.sent| <= stream.limit
      ensures Agrees(Step(Surroundings(), old(Abs(false)), e), over)
    {
      match e
      case Disconnect =>
        return true;
      case EvictionSignal =>
        if !evictable {
          return false;
        }
        if reqCtx.responseComplete {
          evictable := false;
          return false;
        }
        reqCtx.requestState := RequestEvicted;
        var _ := reqCtx.UpdateStateAndSendIfNeeded(stream);
        return true;
      case Receive(m) =>
        HandleMessage(m);
        if Fails(m) {
          var _ := stream.SendAll(FailureAnswer(m));
          return true;
        }
        ghost var c := reqCtx.Abs();
        FlushKeeps(c);
        var ok := reqCtx.UpdateStateAndSendIfNeeded(stream);
        return !ok;
    }

    /** Handles the events until the stream is left, and then completes a scheduled request that is not complete. */
    method Process(events: seq<Event>)
      requires Abs(false) == Init()
      modifies this, reqCtx, stream
      ensures var s := Run(Surroundings(), events); stream.sent == s.sent && hooks == s.hooks
    {
      var over := HandleEvents(events);
      if reqCtx.targetPod && !reqCtx.responseComplete {
        hooks := hooks + 1;
      }
    }

    method HandleEvents(events: seq<Event>) returns (over: bool)
      requires Abs(false) == Init()
      modifies this, reqCtx, stream
      ensures Agrees(Exec(Surroundings(), Init(), events), over)
    {
      ghost var env := Surroundings();
      ghost var s := Init();
      assert events[0..] == events;
      over := false;
      var i := 0;
      while i < |events| && !over
        invariant 0 <= i <= |events| && |stream.sent| <= stream.limit && Agrees(s, over)
        invariant Exec(env, Init(), events) == Exec(env, s, events[i..])
      {
        ExecNext(env, s, events, i);
        over := HandleEvent(events[i]);
        s := Step(env, s, events[i]);
        i := i + 1;
      }
      if over {
        OverStays(env, s, events[i..]);
      } else {
        assert events[i..] == [];
      }
    }
  }

  lemma ExecNext(env: Env, s: Session, events: seq<Event>, i: nat)
    requires i < |events|
    ensures Exec(env, s, events[i..]) == Exec(env, Step(env, s, events[i]), events[i + 1..])
  {
    assert events[i..][1..] == events[i + 1..];
  }
}
