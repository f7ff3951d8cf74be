/**
 A streaming decode attempt: the proxy goroutine writes the decoder's response while the inspector decides whether a
 prefill is needed. Loads of the mode flag, locked sections of the proxy and the parts of the inspector's flush are
 atomic steps; the flush holds the lock from its first part to its last. A run is any interleaving of such steps.
 */
module WriterProtocol {
  import opened BufferedWriters
  import opened Options

  /** The proxy goroutine: between calls, waiting for the lock with a call that saw the buffering mode, or past that. */
  datatype Proxy =
    | Between
    | WriteWaits(bytes: Bytes)
    | WriteDirect(bytes: Bytes)
    | StatusWaits(code: int)
    | StatusDirect(code: int)
    | Returned

  datatype Inspector =
    | Waiting
    | ReadingStatus
    | ReadingBuffer
    | TakingLock(failed: bool)
    | FlushHeader(failed: bool)
    | FlushBuffer(failed: bool)
    | GoDirect(failed: bool)
    | Unlock(failed: bool)
    | AwaitProxy
    | NeedsPrefill
    | Decoded
    | Failed

  /**
   `written`, `firstCode` and `firstFinal` record what the proxy has handed to the writer: the bytes, the first status
   of any kind, and the first that is not informational; bytes without a status imply the default. `statusRead` and
   `judged` record what the decoder had given when the inspector read the status (0 for none) and the buffer.
   */
  datatype State = State(
    writer: Writer, client: Client, locked: bool, proxy: Proxy, inspector: Inspector,
    written: Bytes, firstCode: Option<int>, firstFinal: Option<int>,
    statusRead: Option<int>, judged: Option<Bytes>)

  datatype Action =
    | StartWrite(bytes: Bytes)
    | StartStatus(code: int)
    | ProxyStep
    | ProxyFlush
    | Return
    | Inspect

  /** A lower status code is not valid HTTP, and writing one panics. */
  const MIN_STATUS := 100

  /** The check for a finish reason that asks for a prefill, on the buffered bytes. */
  type Check = Bytes -> bool

  function Init(): State {
    State(FRESH, UNTOUCHED, false, Between, Waiting, [], None, None, None, None)
  }

  predicate IsHTTPError(status: int) {
    status < 200 || status >= 300
  }

  function First(status: Option<int>, code: int): Option<int> {
    if status.Some? then status else Some(code)
  }

  function Wrote(s: State, b: Bytes): State {
    s.(proxy := Between, written := s.written + b, firstCode := First(s.firstCode, STATUS_OK),
       firstFinal := First(s.firstFinal, STATUS_OK))
  }

  function GaveStatus(s: State, code: int): State {
    s.(proxy := Between, firstCode := First(s.firstCode, code),
       firstFinal := if Informational(code) then s.firstFinal else First(s.firstFinal, code))
  }

  function ProxyNext(s: State): Option<State> {
    match s.proxy
    case WriteDirect(b) => Some(Wrote(s, b).(client := WithBody(s.client, b)))
    case StatusDirect(code) => Some(GaveStatus(s, code).(client := WithStatus(s.client, code)))
    case WriteWaits(b) =>
      if s.locked then None
      else if s.writer.buffering then Some(Wrote(s, b).(writer := AfterWrite(s.writer, b)))
      else Some(Wrote(s, b).(client := WithBody(s.client, b)))
    case StatusWaits(code) =>
      if s.locked then None
      else if s.writer.buffering then Some(GaveStatus(s, code).(writer := AfterStatus(s.writer, code)))
      else Some(GaveStatus(s, code).(client := WithStatus(s.client, code)))
    case _ => None
  }

  function InspectorNext(check: Check, s: State): Option<State> {
    match s.inspector
    case Waiting => if s.writer.ready || s.proxy.Returned? then Some(s.(inspector := ReadingStatus)) else None
    case ReadingStatus =>
      if s.locked then None
      else if IsHTTPError(s.writer.status) then Some(s.(inspector := TakingLock(true)))
      else Some(s.(inspector := ReadingBuffer))
    case ReadingBuffer =>
      if s.locked then None
      else if check(s.writer.buffer) then Some(s.(inspector := NeedsPrefill))
      else Some(s.(inspector := TakingLock(false)))
    case TakingLock(failed) => if s.locked then None else Some(s.(inspector := FlushHeader(failed), locked := true))
    case FlushHeader(failed) =>
      Some(s.(inspector := FlushBuffer(failed), writer := s.writer.(wroteHeader := true),
              client := if !s.writer.wroteHeader && s.writer.status != 0 then WithStatus(s.client, s.writer.status)
                        else s.client))
    case FlushBuffer(failed) =>
      Some(s.(inspector := GoDirect(failed),
              client := WithStatus(if s.writer.buffer != [] then WithBody(s.client, s.writer.buffer) else s.client,
                                   STATUS_OK)))
    case GoDirect(failed) => Some(s.(inspector := Unlock(failed), writer := s.writer.(buffering := false)))
    case Unlock(failed) => Some(s.(inspector := if failed then Failed else AwaitProxy, locked := false))
    case AwaitProxy => if s.proxy.Returned? then Some(s.(inspector := Decoded)) else None
    case _ => None
  }

  function Given(code: Option<int>): int {
    if code.None? then 0 else code.value
  }

  /** Records what the inspector's step from `s` to `n` has read. */
  function Noted(s: State, n: State): State {
    n.(statusRead := if s.inspector.ReadingStatus? then Some(Given(s.firstCode)) else s.statusRead,
       judged := if s.inspector.ReadingBuffer? then Some(s.written) else s.judged)
  }

  function Next(check: Check, s: State, a: Action): Option<State> {
    match a
    case StartWrite(b) =>
      if s.proxy.Between? then Some(s.(proxy := if s.writer.buffering then WriteWaits(b) else WriteDirect(b))) else None
    case StartStatus(code) =>
      if s.proxy.Between? && code >= MIN_STATUS
      then Some(s.(proxy := if s.writer.buffering then StatusWaits(code) else StatusDirect(code))) else None
    case ProxyStep => ProxyNext(s)
    case ProxyFlush =>
      if !s.proxy.Between? || (s.writer.buffering && s.locked) then None
      else Some(if s.writer.buffering
                then s.(writer := s.writer.(ready := s.writer.ready || ShouldSignal(s.writer.buffer)))
                else s.(client := WithStatus(s.client, STATUS_OK)))
    case Return => if s.proxy.Between? then Some(s.(proxy := Proxy.Returned)) else None
    case Inspect =>
      match InspectorNext(check, s)
      case None => None
      case Some(n) => Some(Noted(s, n))
  }

  function Exec(check: Check, s: State, run: seq<Action>): Option<State>
    decreases |run|
  {
    if run == [] then Some(s)
    else
      match Next(check, s, run[0])
      case None => None
      case Some(next) => Exec(check, next, run[1..])
  }

  // ---------------------------------------------------------------------------------------------

  /** The inspector has not yet passed the buffer on. */
  predicate BeforeBuffer(i: Inspector) {
    || i.Waiting? || i.ReadingStatus? || i.ReadingBuffer? || i.TakingLock? || i.FlushHeader? || i.FlushBuffer?
    || i.NeedsPrefill?
  }

  predicate Flushing(i: Inspector) {
    i.FlushHeader? || i.FlushBuffer? || i.GoDirect? || i.Unlock?
  }

  /** The status that a flush commits when the writer holds `code`, or nothing. */
  function Committed(code: Option<int>): int {
    if code.None? || Informational(code.value) then STATUS_OK else code.value
  }

  /** What the proxy has handed over, and what the writer holds of it. */
  predicate RecordSound(s: State) {
    && (s.firstCode.None? ==> s.written == [] && s.firstFinal.None?)
    && (s.firstCode.Some? && !Informational(s.firstCode.value) ==> s.firstFinal == s.firstCode)
    && ((s.proxy.StatusWaits? || s.proxy.StatusDirect?) ==> s.proxy.code >= MIN_STATUS)
    && s.firstCode == (if s.writer.status == 0 then None else Some(s.writer.status))
    && (s.writer.buffer != [] ==> s.writer.status != 0)
    && (s.writer.ready ==> s.writer.buffer != [])
  }

  /** Who may touch what; once the inspector has moved on, the writer holds a status or the proxy is done. */
  predicate ModeSound(s: State) {
    && (s.locked <==> Flushing(s.inspector))
    && (s.writer.buffering <==> BeforeBuffer(s.inspector) || s.inspector.GoDirect?)
    && (s.proxy.WriteDirect? || s.proxy.StatusDirect? ==> !s.writer.buffering)
    && (!s.inspector.Waiting? ==> s.writer.status != 0 || s.proxy.Returned?)
    && (s.inspector.AwaitProxy? || s.inspector.Decoded? || Accepted(s.inspector) ==>
          200 <= s.writer.status < 300)
    && (s.inspector.Decoded? ==> s.proxy.Returned?)
  }

  /** The inspector has read a status that is no error. */
  predicate Accepted(i: Inspector) {
    || i.ReadingBuffer? || i.NeedsPrefill?
    || ((i.TakingLock? || i.FlushHeader? || i.FlushBuffer? || i.GoDirect? || i.Unlock?) && !i.failed)
  }

  predicate ClientSound(s: State) {
    && s.written == s.client.body + (if BeforeBuffer(s.inspector) then s.writer.buffer else [])
    && (BeforeBuffer(s.inspector) && !s.inspector.FlushBuffer? ==> s.client == UNTOUCHED && !s.writer.wroteHeader)
    && (s.inspector.FlushBuffer? ==>
          && s.client.body == []
          && s.client.status == (if s.firstCode.None? || Informational(s.firstCode.value) then None else s.firstCode))
    && (!BeforeBuffer(s.inspector) ==> s.client.status == Some(Committed(s.firstCode)))
    && (s.client.hints != [] ==> s.firstCode.Some? && Informational(s.firstCode.value))
  }

  predicate Inv(s: State) {
    RecordSound(s) && ModeSound(s) && ClientSound(s)
  }

  lemma InspectorKeepsMode(check: Check, s: State, n: State)
    requires RecordSound(s) && ModeSound(s) && InspectorNext(check, s) == Some(n)
    ensures RecordSound(n) && ModeSound(n)
  {
  }

  lemma FlushKeepsClient(check: Check, s: State, n: State)
    requires RecordSound(s) && ClientSound(s) && InspectorNext(check, s) == Some(n)
    requires s.inspector.FlushHeader? || s.inspector.FlushBuffer?
    ensures ClientSound(n)
  {
  }

  lemma InspectorKeepsClient(check: Check, s: State, n: State)
    requires ClientSound(s) && InspectorNext(check, s) == Some(n)
    requires !s.inspector.FlushHeader? && !s.inspector.FlushBuffer?
    ensures ClientSound(n)
  {
  }

  lemma InspectorKeepsInv(check: Check, s: State, n: State)
    requires Inv(s) && InspectorNext(check, s) == Some(n)
    ensures Inv(n)
  {
    InspectorKeepsMode(check, s, n);
    if s.inspector.FlushHeader? || s.inspector.FlushBuffer? {
      FlushKeepsClient(check, s, n);
    } else {
      InspectorKeepsClient(check, s, n);
    }
  }

  lemma ProxyKeepsRecord(s: State, n: State)
    requires Inv(s) && ProxyNext(s) == Some(n)
    ensures RecordSound(n) && ModeSound(n)
  {
  }

  lemma ProxyKeepsClient(s: State, n: State)
    requires Inv(s) && ProxyNext(s) == Some(n)
    ensures ClientSound(n)
  {
  }

  lemma ProxyKeepsInv(s: State, n: State)
    requires Inv(s) && ProxyNext(s) == Some(n)
    ensures Inv(n)
  {
    ProxyKeepsRecord(s, n);
    ProxyKeepsClient(s, n);
  }

  lemma StepKeepsInv(check: Check, s: State, a: Action, n: State)
    requires Inv(s) && Next(check, s, a) == Some(n)
    ensures Inv(n)
  {
    if a.Inspect? {
      InspectorKeepsInv(check, s, InspectorNext(check, s).value);
    } else if a.ProxyStep? {
      ProxyKeepsInv(s, n);
    }
  }

  lemma {:induction false} RunKeepsInv(check: Check, s: State, run: seq<Action>)
    requires Inv(s) && Exec(check, s, run).Some?
    ensures Inv(Exec(check, s, run).value)
    decreases |run|
  {
    if run != [] {
      var n := Next(check, s, run[0]).value;
      StepKeepsInv(check, s, run[0], n);
      RunKeepsInv(check, n, run[1..]);
    }
  }

  /**
   In every reachable state the bytes sent to the client and the bytes still buffered are all the bytes written, in
   order, and no byte is sent before a status.
   */
  lemma NothingLostOrReordered(check: Check, run: seq<Action>)
    requires Exec(check, Init(), run).Some?
    ensures var s := Exec(check, Init(), run).value;
            && s.written == s.client.body + (if BeforeBuffer(s.inspector) then s.writer.buffer else [])
            && (s.client.body != [] ==> s.client.status.Some?)
  {
    RunKeepsInv(check, Init(), run);
  }

  /**
   In every run the status the client is given is the first final one of the decoder, or the default when there is
   none, exactly unless the decoder began with an informational status: that one stays in the buffer, and the client
   gets the default whatever the decoder says later.
   */
  lemma StatusIsTheDecodersExactly(check: Check, run: seq<Action>)
    requires Exec(check, Init(), run).Some? && Exec(check, Init(), run).value.client.status.Some?
    ensures var s := Exec(check, Init(), run).value;
            && s.client.status == Some(Committed(s.firstCode))
            && (s.client.status == Some(Committed(s.firstFinal)) <==>
                !(s.firstCode.Some? && Informational(s.firstCode.value)) || Committed(s.firstFinal) == STATUS_OK)
  {
    RunKeepsInv(check, Init(), run);
  }

  /** The decoder announces early hints, then answers 404, and returns; the inspector takes it for an error. */
  const HINT_RUN: seq<Action> :=
    [StartStatus(103), ProxyStep, StartStatus(404), ProxyStep, Return, Inspect, Inspect, Inspect, Inspect, Inspect]

  const HELD_HINT := State(FRESH.(status := 103), UNTOUCHED, false, Proxy.Returned, Waiting,
                           [], Some(103), Some(404), None, None)

  lemma ExecCons(check: Check, s: State, a: Action, n: State, rest: seq<Action>, end: State)
    requires Next(check, s, a) == Some(n) && Exec(check, n, rest) == Some(end)
    ensures Exec(check, s, [a] + rest) == Some(end)
  {
    assert ([a] + rest)[1..] == rest;
  }

  lemma HintIsHeld(check: Check) returns (held: State)
    ensures held == HELD_HINT
    ensures Exec(check, Init(), HINT_RUN[..5]) == Some(held)
  {
    var run := HINT_RUN[..5];
    var s1 := Init().(proxy := StatusWaits(103));
    var s2 := Init().(writer := FRESH.(status := 103), firstCode := Some(103));
    var s3 := s2.(proxy := StatusWaits(404));
    var s4 := s2.(firstFinal := Some(404));
    held := s4.(proxy := Proxy.Returned);
    ExecCons(check, s4, run[4], held, [], held);
    ExecCons(check, s3, run[3], s4, run[4..], held);
    ExecCons(check, s2, run[2], s3, run[3..], held);
    ExecCons(check, s1, run[1], s2, run[2..], held);
    ExecCons(check, Init(), run[0], s1, run[1..], held);
  }

  lemma HeldHintIsFlushed(check: Check, held: State) returns (end: State)
    requires held == HELD_HINT
    ensures Exec(check, held, HINT_RUN[5..]) == Some(end) && end.client == Client(Some(STATUS_OK), [103], [])
    ensures end.firstFinal == Some(404)
  {
    var run := HINT_RUN[5..];
    var s1 := held.(inspector := ReadingStatus);
    var s2 := held.(inspector := TakingLock(true), statusRead := Some(103));
    var s3 := s2.(inspector := FlushHeader(true), locked := true);
    var s4 := s3.(inspector := FlushBuffer(true), writer := s3.writer.(wroteHeader := true),
                  client := Client(None, [103], []));
    end := s4.(inspector := GoDirect(true), client := Client(Some(STATUS_OK), [103], []));
    assert [] + [103] == [103];
    assert Next(check, s3, run[3]) == Some(s4);
    assert Next(check, s4, run[4]) == Some(end);
    ExecCons(check, s4, run[4], end, [], end);
    ExecCons(check, s3, run[3], s4, run[4..], end);
    ExecCons(check, s2, run[2], s3, run[3..], end);
    ExecCons(check, s1, run[1], s2, run[2..], end);
    ExecCons(check, held, run[0], s1, run[1..], end);
  }

  lemma {:induction false} ExecAppend(check: Check, s: State, first: seq<Action>, second: seq<Action>)
    requires Exec(check, s, first).Some?
    ensures Exec(check, s, first + second) == Exec(check, Exec(check, s, first).value, second)
    decreases |first|
  {
    if first == [] {
      assert first + second == second;
    } else {
      assert (first + second)[1..] == first[1..] + second;
      ExecAppend(check, Next(check, s, first[0]).value, first[1..], second);
    }
  }

  /** A decoder that announces early hints before its 404 has its client told 200. */
  lemma EarlyHintHidesStatus(check: Check)
    ensures var end := Exec(check, Init(), HINT_RUN);
            end.Some? && end.value.client == Client(Some(STATUS_OK), [103], []) && end.value.firstFinal == Some(404)
  {
    var held := HintIsHeld(check);
    var end := HeldHintIsFlushed(check, held);
    ExecAppend(check, Init(), HINT_RUN[..5], HINT_RUN[5..]);
    assert HINT_RUN[..5] + HINT_RUN[5..] == HINT_RUN;
  }

  lemma {:induction false} PrefillIsFinal(check: Check, s: State, run: seq<Action>)
    requires s.inspector.NeedsPrefill? && Exec(check, s, run).Some?
    ensures Exec(check, s, run).value.inspector.NeedsPrefill?
    decreases |run|
  {
    if run != [] {
      PrefillIsFinal(check, Next(check, s, run[0]).value, run[1..]);
    }
  }

  /** A decode judged to need a prefill has sent the client nothing, neither then nor later. */
  lemma PrefillLeavesClientUntouched(check: Check, run: seq<Action>, later: seq<Action>)
    requires Exec(check, Init(), run).Some? && Exec(check, Init(), run).value.inspector.NeedsPrefill?
    requires Exec(check, Exec(check, Init(), run).value, later).Some?
    ensures Exec(check, Init(), run).value.client == UNTOUCHED
    ensures Exec(check, Exec(check, Init(), run).value, later).value.client == UNTOUCHED
  {
    RunKeepsInv(check, Init(), run);
    var s := Exec(check, Init(), run).value;
    RunKeepsInv(check, s, later);
    PrefillIsFinal(check, s, later);
  }

  /** A decode reported as done has sent the client everything the decoder wrote, under the status it gave. */
  lemma DecodedIsComplete(check: Check, run: seq<Action>)
    requires Exec(check, Init(), run).Some?
    ensures var s := Exec(check, Init(), run).value;
            s.inspector.Decoded? ==>
              s.proxy.Returned? &&
              s.client == Client(s.firstFinal, [], s.written) && s.firstFinal.Some? && 200 <= s.firstFinal.value < 300
  {
    RunKeepsInv(check, Init(), run);
  }

  // ---------------------------------------------------------------------------------------------
  // The inspector's verdict.

  predicate Success(code: int) {
    200 <= code < 300
  }

  /** The inspector has found an HTTP error and passes the response on as it is. */
  predicate Failing(i: Inspector) {
    i.Failed? || ((i.TakingLock? || i.FlushHeader? || i.FlushBuffer? || i.GoDirect? || i.Unlock?) && i.failed)
  }

  /** The inspector has found that no prefill is needed, and streams. */
  predicate Streaming(i: Inspector) {
    || i.AwaitProxy? || i.Decoded?
    || ((i.TakingLock? || i.FlushHeader? || i.FlushBuffer? || i.GoDirect? || i.Unlock?) && !i.failed)
  }

  predicate Reading(i: Inspector) {
    i.Waiting? || i.ReadingStatus?
  }

  predicate VerdictSound(check: Check, s: State) {
    && (Reading(s.inspector) ==> s.statusRead.None?)
    && (!Reading(s.inspector) ==> s.statusRead == Some(Given(s.firstCode)))
    && (s.inspector.ReadingBuffer? ==> s.judged.None? && Success(Given(s.firstCode)))
    && (s.inspector.NeedsPrefill? ==> s.judged.Some? && Success(Given(s.firstCode)) && check(s.judged.value))
    && (Streaming(s.inspector) ==> s.judged.Some? && Success(Given(s.firstCode)) && !check(s.judged.value))
    && (Failing(s.inspector) ==> !Success(Given(s.firstCode)))
    && (s.judged.Some? ==> s.judged.value <= s.written && !Reading(s.inspector))
  }

  /** Until it is passed on, the buffer is all that was written. */
  lemma BufferIsAll(s: State)
    requires Inv(s) && s.inspector.ReadingBuffer?
    ensures s.writer.buffer == s.written
  {
  }

  lemma InspectorKeepsVerdict(check: Check, s: State, n: State)
    requires Inv(s) && VerdictSound(check, s) && Next(check, s, Inspect) == Some(n)
    ensures VerdictSound(check, n)
  {
    if s.inspector.ReadingBuffer? {
      BufferIsAll(s);
    }
  }

  lemma ProxyKeepsVerdict(check: Check, s: State, a: Action, n: State)
    requires Inv(s) && VerdictSound(check, s) && Next(check, s, a) == Some(n) && !a.Inspect?
    ensures VerdictSound(check, n)
  {
    assert n.inspector == s.inspector && n.judged == s.judged && n.statusRead == s.statusRead;
    assert s.written <= n.written;
    assert !s.inspector.Waiting? && !s.proxy.Returned? ==> n.firstCode == s.firstCode;
  }

  lemma StepKeepsVerdict(check: Check, s: State, a: Action, n: State)
    requires Inv(s) && VerdictSound(check, s) && Next(check, s, a) == Some(n)
    ensures VerdictSound(check, n)
  {
    if a.Inspect? {
      InspectorKeepsVerdict(check, s, n);
    } else {
      ProxyKeepsVerdict(check, s, a, n);
    }
  }

  lemma {:induction false} RunKeepsVerdict(check: Check, s: State, run: seq<Action>)
    requires Inv(s) && VerdictSound(check, s) && Exec(check, s, run).Some?
    ensures VerdictSound(check, Exec(check, s, run).value)
    decreases |run|
  {
    if run != [] {
      var n := Next(check, s, run[0]).value;
      StepKeepsInv(check, s, run[0], n);
      StepKeepsVerdict(check, s, run[0], n);
      RunKeepsVerdict(check, n, run[1..]);
    }
  }

  /**
   In every run the inspector asks for a prefill only when the decoder's status is a success and the check held of the
   bytes the decoder had written when the buffer was read; it streams only when the check did not hold of them; and
   it takes the decode for failed exactly when the status it read is no success.
   */
  lemma VerdictIsExact(check: Check, run: seq<Action>)
    requires Exec(check, Init(), run).Some?
    ensures var s := Exec(check, Init(), run).value;
            && (s.inspector.NeedsPrefill? ==>
                  && s.statusRead.Some? && 200 <= s.statusRead.value < 300
                  && s.judged.Some? && s.judged.value <= s.written && check(s.judged.value))
            && (s.inspector.AwaitProxy? || s.inspector.Decoded? ==>
                  && s.statusRead.Some? && 200 <= s.statusRead.value < 300
                  && s.judged.Some? && s.judged.value <= s.written && !check(s.judged.value))
            && (s.statusRead.Some? ==>
                  (Failing(s.inspector) <==> s.statusRead.value < 200 || s.statusRead.value >= 300))
            && (Failing(s.inspector) ==> s.statusRead.Some?)
  {
    RunKeepsVerdict(check, Init(), run);
  }

  /** The verdict on a prefill rests on two complete events, or on the whole response. */
  predicate Informed(s: State) {
    s.inspector.Waiting? || ShouldSignal(s.writer.buffer) || s.proxy.Returned?
  }

  lemma StepKeepsInformed(check: Check, s: State, a: Action, n: State)
    requires Informed(s) && (s.writer.ready ==> ShouldSignal(s.writer.buffer)) && Next(check, s, a) == Some(n)
    ensures Informed(n) && (n.writer.ready ==> ShouldSignal(n.writer.buffer))
  {
    if s.proxy.WriteWaits? {
      CountGrows(s.writer.buffer, s.proxy.bytes);
    }
  }

  lemma {:induction false} RunKeepsInformed(check: Check, s: State, run: seq<Action>)
    requires Informed(s) && (s.writer.ready ==> ShouldSignal(s.writer.buffer)) && Exec(check, s, run).Some?
    ensures Informed(Exec(check, s, run).value)
    decreases |run|
  {
    if run != [] {
      var n := Next(check, s, run[0]).value;
      StepKeepsInformed(check, s, run[0], n);
      RunKeepsInformed(check, n, run[1..]);
    }
  }

  /** In every run the inspector moves only once two complete events are buffered or the proxy has returned. */
  lemma VerdictIsInformed(check: Check, run: seq<Action>)
    requires Exec(check, Init(), run).Some?
    ensures var s := Exec(check, Init(), run).value;
            s.inspector.Waiting? || TwoEvents(s.writer.buffer) || s.proxy.Returned?
  {
    RunKeepsInformed(check, Init(), run);
    SignalMeansTwoEvents(Exec(check, Init(), run).value.writer.buffer);
  }

  // ---------------------------------------------------------------------------------------------
  // The inspector comes to an end.

  predicate Ended(i: Inspector) {
    i.NeedsPrefill? || i.Decoded? || i.Failed?
  }

  /** How many steps the inspector has at most before it. */
  function StepsLeft(i: Inspector): nat {
    match i
    case Waiting => 9
    case ReadingStatus => 8
    case ReadingBuffer => 7
    case TakingLock(_) => 6
    case FlushHeader(_) => 5
    case FlushBuffer(_) => 4
    case GoDirect(_) => 3
    case Unlock(_) => 2
    case AwaitProxy => 1
    case _ => 0
  }

  /** Once the proxy has returned, the inspector reaches its verdict by its own steps. */
  lemma {:induction false} InspectorEnds(check: Check, s: State) returns (run: seq<Action>)
    requires Inv(s) && s.proxy.Returned?
    ensures (forall i :: 0 <= i < |run| ==> run[i] == Inspect) && |run| <= StepsLeft(s.inspector)
    ensures Exec(check, s, run).Some? && Ended(Exec(check, s, run).value.inspector)
    decreases StepsLeft(s.inspector)
  {
    if Ended(s.inspector) {
      run := [];
    } else {
      var n := Next(check, s, Inspect).value;
      StepKeepsInv(check, s, Inspect, n);
      var rest := InspectorEnds(check, n);
      run := [Inspect] + rest;
      assert run[1..] == rest;
    }
  }

  /** A signal lets the inspector go on without waiting for the proxy to return. */
  lemma SignalReleasesInspector(check: Check, s: State)
    requires s.inspector.Waiting? && s.writer.ready
    ensures Next(check, s, Inspect).Some? && Next(check, s, Inspect).value.inspector.ReadingStatus?
  {
  }

  /** Two complete events in the buffer raise the signal, with the write that completes them. */
  lemma TwoEventsRaiseTheSignal(s: State)
    requires s.proxy.WriteWaits? && !s.locked && s.writer.buffering && TwoEvents(s.writer.buffer + s.proxy.bytes)
    ensures ProxyNext(s).Some? && ProxyNext(s).value.writer.ready
  {
    SignalMeansTwoEvents(s.writer.buffer + s.proxy.bytes);
  }
}
