/** The sidecar's response writer: it buffers the start of a decode response and later passes everything through. */
module BufferedWriters {
  import opened Options

  type Bytes = seq<nat>

  const NEWLINE: nat := 10
  const STATUS_OK := 200

  /** The number of non-overlapping event delimiters, two newlines each. */
  function CountEvents(data: Bytes): nat {
    if |data| < 2 then 0
    else if data[0] == NEWLINE && data[1] == NEWLINE then 1 + CountEvents(data[2..])
    else CountEvents(data[1..])
  }

  /** The buffer holds at least two complete events. */
  predicate ShouldSignal(data: Bytes) {
    CountEvents(data) >= 2
  }

  /** An event ends at position `i`: two newlines. */
  predicate Delimited(data: Bytes, i: int) {
    0 <= i < |data| - 1 && data[i] == NEWLINE && data[i + 1] == NEWLINE
  }

  ghost predicate OneEvent(data: Bytes) {
    exists i :: Delimited(data, i)
  }

  /** Two events end in the data, the second after the end of the first. */
  ghost predicate TwoEvents(data: Bytes) {
    exists i, j :: Delimited(data, i) && Delimited(data, j) && i + 2 <= j
  }

  lemma {:induction false} CountSeesOne(data: Bytes)
    ensures CountEvents(data) >= 1 <==> OneEvent(data)
    decreases |data|
  {
    if |data| >= 2 && !Delimited(data, 0) {
      CountSeesOne(data[1..]);
      Shifted(data, 1);
    } else if |data| >= 2 {
      assert Delimited(data, 0);
    }
  }

  lemma Shifted(data: Bytes, n: nat)
    requires n <= |data|
    ensures forall i :: i >= 0 ==> (Delimited(data[n..], i) <==> Delimited(data, i + n))
    ensures forall i :: Delimited(data, i) && i >= n ==> Delimited(data[n..], i - n)
  {
  }

  /** The signal stands for two complete events. */
  lemma {:induction false} SignalMeansTwoEvents(data: Bytes)
    ensures ShouldSignal(data) <==> TwoEvents(data)
    decreases |data|
  {
    if |data| >= 2 {
      if Delimited(data, 0) {
        CountSeesOne(data[2..]);
        Shifted(data, 2);
        if OneEvent(data[2..]) {
          var i :| Delimited(data[2..], i);
          assert Delimited(data, 0) && Delimited(data, i + 2);
        }
      } else {
        SignalMeansTwoEvents(data[1..]);
        Shifted(data, 1);
        if TwoEvents(data[1..]) {
          var i, j :| Delimited(data[1..], i) && Delimited(data[1..], j) && i + 2 <= j;
          assert Delimited(data, i + 1) && Delimited(data, j + 1);
        }
      }
    }
  }

  /** More data never takes a signal back. */
  lemma {:induction false} CountGrows(data: Bytes, more: Bytes)
    ensures CountEvents(data) <= CountEvents(data + more)
    decreases |data|
  {
    if |data| >= 2 {
      var all := data + more;
      if data[0] == NEWLINE && data[1] == NEWLINE {
        assert all[2..] == data[2..] + more;
        CountGrows(data[2..], more);
      } else {
        assert all[1..] == data[1..] + more;
        CountGrows(data[1..], more);
      }
    }
  }

  /** The HTTP server passes such a status on and still awaits the one that counts. */
  predicate Informational(code: int) {
    100 <= code < 200 && code != 101
  }

  /**
   The client's side of the response, with the informational statuses it was sent. The first other status counts, and
   a body or a flush without one implies the default.
   */
  datatype Client = Client(status: Option<int>, hints: seq<int>, body: Bytes)

  const UNTOUCHED := Client(None, [], [])

  function WithStatus(c: Client, code: int): Client {
    if c.status.Some? then c
    else if Informational(code) then c.(hints := c.hints + [code])
    else c.(status := Some(code))
  }

  function WithBody(c: Client, b: Bytes): Client {
    var d := WithStatus(c, STATUS_OK);
    d.(body := d.body + b)
  }

  /** What the writer holds; `status` is 0 until one is given. */
  datatype Writer = Writer(buffering: bool, buffer: Bytes, status: int, wroteHeader: bool, ready: bool)

  const FRESH := Writer(true, [], 0, false, false)

  /** The bytes that the client has not been sent. */
  function Unsent(w: Writer): Bytes {
    if w.buffering then w.buffer else []
  }

  function AfterWrite(w: Writer, b: Bytes): Writer {
    if !w.buffering then w
    else
      var buffer := w.buffer + b;
      w.(status := if w.status == 0 then STATUS_OK else w.status, buffer := buffer,
         ready := w.ready || ShouldSignal(buffer))
  }

  function AfterStatus(w: Writer, code: int): Writer {
    if w.buffering && w.status == 0 then w.(status := code) else w
  }

  /** The client once the buffered status and bytes have been passed on. */
  function Flushed(w: Writer, c: Client): Client {
    if !w.buffering then c
    else
      var d := if !w.wroteHeader && w.status != 0 then WithStatus(c, w.status) else c;
      WithStatus(if w.buffer != [] then WithBody(d, w.buffer) else d, STATUS_OK)
  }

  class ResponseWriterWithBuffer {
    var client: Client
    var buffering: bool
    var buffer: Bytes
    var statusCode: int
    var wroteHeader: bool
    var ready: bool

    ghost function Abs(): Writer
      reads this
    {
      Writer(buffering, buffer, statusCode, wroteHeader, ready)
    }

    constructor ()
      ensures Abs() == FRESH && client == UNTOUCHED
    {
      client := UNTOUCHED;
      buffering, buffer, statusCode, wroteHeader, ready := true, [], 0, false, false;
    }

    /** Nothing is lost or reordered: what was sent or waits grows by exactly the bytes written. */
    method Write(b: Bytes)
      modifies this
      ensures Abs() == AfterWrite(old(Abs()), b)
      ensures client == if old(buffering) then old(client) else WithBody(old(client), b)
      ensures client.body + Unsent(Abs()) == old(client.body + Unsent(Abs())) + b
    {
      if !buffering {
        client := WithBody(client, b);
        return;
      }
      if statusCode == 0 {
        statusCode := STATUS_OK;
      }
      buffer := buffer + b;
      if ShouldSignal(buffer) {
        ready := true;
      }
    }

    method WriteHeader(code: int)
      modifies this
      ensures Abs() == AfterStatus(old(Abs()), code)
      ensures client == if old(buffering) then old(client) else WithStatus(old(client), code)
    {
      if !buffering {
        client := WithStatus(client, code);
        return;
      }
      if statusCode == 0 {
        statusCode := code;
      }
    }

    method WriteHeaderOnce()
      modifies this`wroteHeader, this`client
      ensures wroteHeader
      ensures client == if !old(wroteHeader) && statusCode != 0 then WithStatus(old(client), statusCode)
                        else old(client)
    {
      if wroteHeader {
        return;
      }
      wroteHeader := true;
      if statusCode != 0 {
        client := WithStatus(client, statusCode);
      }
    }

    method FlushBufferAndGoDirect()
      modifies this
      ensures !buffering && client == Flushed(old(Abs()), old(client))
      ensures old(buffering) ==> client.status.Some?
      ensures client.body == old(client.body + Unsent(Abs()))
      ensures client.body + Unsent(Abs()) == old(client.body + Unsent(Abs()))
    {
      if !buffering {
        return;
      }
      WriteHeaderOnce();
      if |buffer| > 0 {
        client := WithBody(client, buffer);
      }
      client := WithStatus(client, STATUS_OK);
      buffering := false;
    }
  }
}
