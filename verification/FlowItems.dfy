/** A request inside the flow controller: its outcome, and the controller's handling of it. */
module FlowItems {
  import opened Options

  datatype Outcome =
    | NotYetFinalized
    | Dispatched
    | RejectedCapacity
    | RejectedOther
    | EvictedTTL
    | EvictedContextCancelled
    | EvictedOther
  {
    predicate Rejected() {
      RejectedCapacity? || RejectedOther?
    }

    predicate Evicted() {
      EvictedTTL? || EvictedContextCancelled? || EvictedOther?
    }
  }

  datatype Sentinel =
    | ErrRejected
    | ErrEvicted
    | ErrTTLExpired
    | ErrContextCancelled
    | ErrQueueAtCapacity
    | ErrFlowControllerNotRunning
    | ErrShardDraining
    | ErrProcessorBusy
    | ErrNoShards
    | ErrFlowIDEmpty
    | ContextCanceled
    | ContextDeadlineExceeded
    | Other(code: nat)

  /** An error, as the set of sentinels it wraps; wrapping two errors joins their sets. */
  type Error = set<Sentinel>

  datatype FinalState = FinalState(outcome: Outcome, err: Option<Error>)

  /** An outcome together with the error that its class promises. */
  predicate Proper(f: FinalState) {
    && !f.outcome.NotYetFinalized?
    && (f.err.None? <==> f.outcome.Dispatched?)
    && (f.outcome.Rejected() ==> ErrRejected in f.err.value)
    && (f.outcome.Evicted() ==> ErrEvicted in f.err.value)
  }

  function InferOutcome(cause: Error, isQueued: bool): (f: FinalState)
    ensures Proper(f) && (if isQueued then f.outcome.Evicted() else f.outcome == RejectedOther)
    ensures f.outcome.EvictedTTL? <==> isQueued && (ErrTTLExpired in cause || ContextDeadlineExceeded in cause)
    ensures f.outcome.EvictedContextCancelled? <==>
            isQueued && ErrTTLExpired !in cause && ContextDeadlineExceeded !in cause && ContextCanceled in cause
  {
    var (specific, ifEvicted) :=
      if ErrTTLExpired in cause || ContextDeadlineExceeded in cause then ({ErrTTLExpired}, EvictedTTL)
      else if ContextCanceled in cause then ({ErrContextCancelled} + cause, EvictedContextCancelled)
      else (cause, EvictedOther);
    if isQueued then FinalState(ifEvicted, Some({ErrEvicted} + specific))
    else FinalState(RejectedOther, Some({ErrRejected} + specific))
  }

  /** The error says how far the item had come, and why it ended: the time limit, or the cause as it was. */
  lemma InferredErrors(cause: Error, isQueued: bool, x: Sentinel)
    ensures x in InferOutcome(cause, isQueued).err.value <==>
            || x == (if isQueued then ErrEvicted else ErrRejected)
            || (if ErrTTLExpired in cause || ContextDeadlineExceeded in cause then x == ErrTTLExpired
                else x in cause || (x == ErrContextCancelled && ContextCanceled in cause))
  {
  }

  /** The synchronized part of an item: `signals` is everything ever sent on its completion channel. */
  datatype Life = Life(handle: Option<nat>, final: Option<FinalState>, signals: seq<FinalState>)

  const NEWBORN := Life(None, None, [])

  function Finalized(l: Life, f: FinalState): Life {
    if l.final.Some? then l else Life(l.handle, Some(f), l.signals + [f])
  }

  /** Once final, an item keeps its state, and the channel carries that state exactly once. */
  lemma {:induction false} FinalizedOnce(l: Life, states: seq<FinalState>)
    requires l.final.None? && l.signals == []
    ensures var after := FinalizedBy(l, states);
            && (states == [] ==> after == l)
            && (states != [] ==> after.final == Some(states[0]) && after.signals == [states[0]])
  {
    if |states| > 0 {
      AlreadyFinal(Finalized(l, states[0]), states[1..]);
    }
  }

  function FinalizedBy(l: Life, states: seq<FinalState>): Life
    decreases |states|
  {
    if states == [] then l else FinalizedBy(Finalized(l, states[0]), states[1..])
  }

  lemma {:induction false} AlreadyFinal(l: Life, states: seq<FinalState>)
    requires l.final.Some?
    ensures FinalizedBy(l, states) == l
  {
    if states != [] {
      AlreadyFinal(l, states[1..]);
    }
  }

  class FlowItem {
    var handle: Option<nat>
    var finalState: Option<FinalState>
    var done: seq<FinalState>

    ghost function Abs(): Life
      reads this
    {
      Life(handle, finalState, done)
    }

    constructor ()
      ensures Abs() == NEWBORN
    {
      handle, finalState, done := None, None, [];
    }

    method SetHandle(h: nat)
      modifies this
      ensures Abs() == old(Abs()).(handle := Some(h))
    {
      handle := Some(h);
    }

    /** Finalizes with an outcome inferred from the cause and from whether the item has a queue handle. */
    method Finalize(cause: Error)
      modifies this
      ensures Abs() == Finalized(old(Abs()), InferOutcome(cause, old(handle).Some?))
    {
      if finalState.None? {
        var isQueued := handle.Some?;
        var inferred := InferOutcome(cause, isQueued);
        FinalizeInternal(inferred);
      }
    }

    method FinalizeWithOutcome(outcome: Outcome, err: Option<Error>)
      modifies this
      ensures Abs() == Finalized(old(Abs()), FinalState(outcome, err))
    {
      if finalState.None? {
        FinalizeInternal(FinalState(outcome, err));
      }
    }

    method FinalizeInternal(f: FinalState)
      modifies this
      ensures handle == old(handle) && finalState == Some(f) && done == old(done) + [f]
    {
      finalState := Some(f);
      done := done + [f];
    }
  }

  // ---------------------------------------------------------------------------------------------
  // Distribution.

  /** A processor the item may be submitted to: the load of the flow's queue there, and how it would answer. */
  datatype Candidate = Candidate(byteSize: nat, submit: Option<Error>, submitOrBlock: Option<Error>)

  predicate Ranked(cs: seq<Candidate>) {
    forall i, j :: 0 <= i < j < |cs| ==> cs[i].byteSize <= cs[j].byteSize
  }

  datatype Placement = Accepted(index: nat) | Refused(outcome: Outcome, err: Error)

  /**
   Offers the item to the ranked candidates without blocking, then blocks on the least loaded one. An item accepted
   without blocking goes to a least loaded candidate among those that accept.
   */
  method DistributeRequest(candidates: seq<Candidate>) returns (r: Placement)
    requires candidates != [] && Ranked(candidates)
    ensures r.Accepted? ==> r.index < |candidates|
    ensures (exists i :: 0 <= i < |candidates| && candidates[i].submit.None?) ==>
              && r.Accepted? && candidates[r.index].submit.None?
              && (forall j :: 0 <= j < |candidates| && candidates[j].submit.None? ==>
                    candidates[r.index].byteSize <= candidates[j].byteSize)
    ensures (forall i :: 0 <= i < |candidates| ==> candidates[i].submit.Some?) ==>
              if candidates[0].submitOrBlock.None? then r == Accepted(0)
              else r == Refused(RejectedOther, {ErrRejected} + candidates[0].submitOrBlock.value)
  {
    for i := 0 to |candidates|
      invariant forall j :: 0 <= j < i ==> candidates[j].submit.Some?
    {
      if candidates[i].submit.None? {
        return Accepted(i);
      }
    }
    match candidates[0].submitOrBlock
    case None => return Accepted(0);
    case Some(e) => return Refused(RejectedOther, {ErrRejected} + e);
  }

  /**
   One attempt to hand a fresh item to a processor. On failure the item is final and in a proper state; on success
   the item is untouched and belongs to the processor. `candidates` is empty when no shard is viable.
   */
  method TryDistribution(candidates: seq<Candidate>, cause: Error) returns (item: FlowItem, placed: bool)
    requires Ranked(candidates)
    ensures fresh(item)
    ensures placed <==>
              || (exists i :: 0 <= i < |candidates| && candidates[i].submit.None?)
              || (candidates != [] && candidates[0].submitOrBlock.None?)
    ensures placed ==> item.Abs() == NEWBORN
    ensures !placed ==>
              && item.finalState.Some? && Proper(item.finalState.value) && item.finalState.value.outcome.Rejected()
              && item.done == [item.finalState.value]
    ensures candidates == [] ==> item.finalState == Some(FinalState(RejectedCapacity, Some({ErrRejected, ErrNoShards})))
    ensures !placed && candidates != [] ==>
              var e := candidates[0].submitOrBlock.value;
              item.finalState ==
              Some(if ContextCanceled in e || ContextDeadlineExceeded in e then InferOutcome(cause, false)
                   else FinalState(RejectedOther, Some({ErrRejected} + e)))
  {
    item := new FlowItem();
    if candidates == [] {
      item.FinalizeWithOutcome(RejectedCapacity, Some({ErrRejected, ErrNoShards}));
      return item, false;
    }
    var r := DistributeRequest(candidates);
    match r
    case Accepted(_) => placed := true;
    case Refused(outcome, err) =>
      placed := false;
      if ContextCanceled in err || ContextDeadlineExceeded in err {
        item.Finalize(cause);
      } else {
        item.FinalizeWithOutcome(outcome, Some({ErrRejected} + err));
      }
  }

  // ---------------------------------------------------------------------------------------------
  // Admission.

  datatype Code = ResourceExhausted | ServiceUnavailable | Internal

  function TranslateOutcome(outcome: Outcome): (r: Option<Code>)
    ensures r.None? <==> outcome.Dispatched?
    ensures r == Some(ServiceUnavailable) <==> outcome.EvictedTTL? || outcome.EvictedContextCancelled?
    ensures r == Some(ResourceExhausted) <==> outcome.RejectedCapacity?
  {
    match outcome
    case Dispatched => None
    case RejectedCapacity => Some(ResourceExhausted)
    case EvictedTTL => Some(ServiceUnavailable)
    case EvictedContextCancelled => Some(ServiceUnavailable)
    case _ => Some(Internal)
  }
}
