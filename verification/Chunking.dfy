/** Splitting a body into streamed chunks. */
module Chunking {

  type Bytes = seq<nat>

  datatype Chunk = Chunk(body: Bytes, endOfStream: bool)

  const BODY_BYTE_LIMIT := 62000

  function Join(chunks: seq<Chunk>): Bytes {
    if chunks == [] then [] else chunks[0].body + Join(chunks[1..])
  }

  lemma {:induction false} JoinAppend(a: seq<Chunk>, b: seq<Chunk>)
    ensures Join(a + b) == Join(a) + Join(b)
  {
    if a == [] {
      assert a + b == b;
    } else {
      JoinAppend(a[1..], b);
      assert (a + b)[1..] == a[1..] + b && (a + b)[0] == a[0];
      Associate(a[0].body, Join(a[1..]), Join(b));
    }
  }

  /** Every chunk but the last is full, and only the last one ends the stream. */
  predicate WellFormed(chunks: seq<Chunk>, setEos: bool) {
    && chunks != []
    && (forall i :: 0 <= i < |chunks| - 1 ==> |chunks[i].body| == BODY_BYTE_LIMIT && !chunks[i].endOfStream)
    && |chunks[|chunks| - 1].body| <= BODY_BYTE_LIMIT
    && chunks[|chunks| - 1].endOfStream == setEos
    && (|chunks| > 1 ==> chunks[|chunks| - 1].body != [])
  }

  /** The chunks of `body`: the reference for the loop below. */
  function Chunks(body: Bytes, setEos: bool): seq<Chunk>
    decreases |body|
  {
    if |body| <= BODY_BYTE_LIMIT then [Chunk(body, setEos)]
    else [Chunk(body[..BODY_BYTE_LIMIT], false)] + Chunks(body[BODY_BYTE_LIMIT..], setEos)
  }

  /** The chunks put together are the body, none exceeds the limit, and only the last one may end the stream. */
  lemma {:induction false} ChunksAreExact(body: Bytes, setEos: bool)
    ensures WellFormed(Chunks(body, setEos), setEos) && Join(Chunks(body, setEos)) == body
    decreases |body|
  {
    var chunks := Chunks(body, setEos);
    if |body| <= BODY_BYTE_LIMIT {
      assert chunks[1..] == [];
      assert body + [] == body;
    } else {
      var rest := body[BODY_BYTE_LIMIT..];
      ChunksAreExact(rest, setEos);
      assert chunks[1..] == Chunks(rest, setEos);
      assert forall i :: 0 < i < |chunks| ==> chunks[i] == Chunks(rest, setEos)[i - 1];
      LastChunkFull(rest, setEos);
    }
  }

  lemma LastChunkFull(body: Bytes, setEos: bool)
    requires body != [] && WellFormed(Chunks(body, setEos), setEos)
    ensures var chunks := Chunks(body, setEos); chunks[|chunks| - 1].body != []
  {
  }

  method BuildChunkedBodyResponses(body: Bytes, setEos: bool) returns (responses: seq<Chunk>)
    ensures responses == Chunks(body, setEos)
  {
    if |body| == 0 {
      return [Chunk(body, setEos)];
    }
    responses := [];
    var start := 0;
    assert body[0..] == body;
    while start < |body|
      invariant 0 <= start <= |body|
      invariant start < |body| ==> responses + Chunks(body[start..], setEos) == Chunks(body, setEos)
      invariant start == |body| ==> responses == Chunks(body, setEos)
    {
      var length := if |body| - start < BODY_BYTE_LIMIT then |body| - start else BODY_BYTE_LIMIT;
      var chunk := body[start..start + length];
      var eos := setEos && length + start >= |body|;
      FirstChunk(body, start, setEos);
      ghost var before := responses;
      responses := responses + [Chunk(chunk, eos)];
      if start + length < |body| {
        Associate(before, [Chunk(chunk, eos)], Chunks(body[start + length..], setEos));
      }
      start := start + length;
    }
  }

  lemma Associate<T>(a: seq<T>, b: seq<T>, c: seq<T>)
    ensures (a + b) + c == a + (b + c)
  {
  }

  lemma FirstChunk(body: Bytes, start: nat, setEos: bool)
    requires start < |body|
    ensures |body| - start <= BODY_BYTE_LIMIT ==> Chunks(body[start..], setEos) == [Chunk(body[start..|body|], setEos)]
    ensures |body| - start > BODY_BYTE_LIMIT ==>
              var end := start + BODY_BYTE_LIMIT;
              Chunks(body[start..], setEos) == [Chunk(body[start..end], false)] + Chunks(body[end..], setEos)
  {
    var rest := body[start..];
    assert rest == body[start..|body|];
    if |rest| > BODY_BYTE_LIMIT {
      var end := start + BODY_BYTE_LIMIT;
      assert rest[..BODY_BYTE_LIMIT] == body[start..end] && rest[BODY_BYTE_LIMIT..] == body[end..];
    }
  }

  /** There is one way to split a body into well-formed chunks. */
  lemma {:induction false} SplitIsUnique(chunks: seq<Chunk>, setEos: bool)
    requires WellFormed(chunks, setEos)
    ensures chunks == Chunks(Join(chunks), setEos)
    decreases |chunks|
  {
    var rest := chunks[1..];
    if |chunks| == 1 {
      assert rest == [];
      assert Join(chunks) == chunks[0].body;
    } else {
      assert WellFormed(rest, setEos) by {
        assert forall i :: 0 <= i < |rest| ==> rest[i] == chunks[i + 1];
      }
      SplitIsUnique(rest, setEos);
      NonEmptyJoin(rest);
      var body := Join(chunks);
      assert body[..BODY_BYTE_LIMIT] == chunks[0].body && body[BODY_BYTE_LIMIT..] == Join(rest);
    }
  }

  lemma {:induction false} NonEmptyJoin(chunks: seq<Chunk>)
    requires chunks != [] && chunks[|chunks| - 1].body != []
    ensures Join(chunks) != []
  {
    if |chunks| > 1 {
      NonEmptyJoin(chunks[1..]);
    }
  }
}
