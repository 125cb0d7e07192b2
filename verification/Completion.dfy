/**
 * One I/O operation of an io_context and the receiver behind it: starting, being published or
 * rejected, waiting in the kernel, failing to submit, being aborted, and delivering. The stop
 * token of the receiver can be cancelled at any moment and stays cancelled. Both backends stage
 * a completion kind in the operation, and one arbitration turns it into the final signal.
 */
module Completion {
  /** What the receiver of a request is given: a descriptor verbatim, or a clamped count. */
  datatype Request = Descriptor | Count

  datatype Kind = Value | ValueWithError | Stopped

  /** `Errno(0)` is the empty error of the system. */
  datatype Error = Errno(code: int) | OperationCanceled

  datatype Signal = SetValue(error: Error, value: int) | SetStopped

  /** Where the operation is; `Kernel` covers the I/O queues as well. */
  datatype Place = Idle | Kernel | Queued | Delivered

  const EAGAIN := 11

  predicate Empty(e: Error) {
    e == Errno(0)
  }

  function ErrnoResult(result: int): Error {
    Errno(-result)
  }

  /** The value a request hands on. */
  function Yield(request: Request, result: int): int {
    if request.Count? && result < 0 then 0 else result
  }

  // ----- what should be delivered ---------------------------------------------------------

  /** Why an operation completed. */
  datatype Cause =
    | Pending
    | CancelledAtStart
    | Native(result: int)
    | Rejected(result: int)
    | Aborted

  /** The signal a cause calls for, given the stop token when it is delivered. */
  function Outcome(request: Request, cause: Cause, cancelled: bool): Signal {
    match cause
    case Native(r) => SetValue(if r < 0 then ErrnoResult(r) else Errno(0), Yield(request, r))
    case Rejected(r) => SetValue(ErrnoResult(r), Yield(request, r))
    case _ =>
      if cancelled then SetStopped else SetValue(OperationCanceled, Yield(request, -1))
  }

  /** A descriptor is handed over exactly without an error, and a failed count is zero. */
  predicate Sound(request: Request, s: Signal) {
    s.SetValue? ==>
      if request.Descriptor? then Empty(s.error) <==> s.value >= 0
      else s.value >= 0 && (!Empty(s.error) ==> s.value == 0)
  }

  lemma OutcomeSound(request: Request, cause: Cause, cancelled: bool)
    requires cause.Rejected? ==> cause.result < 0
    ensures var s := Outcome(request, cause, cancelled);
            && Sound(request, s)
            && (s.SetStopped? <==> cancelled && (cause.CancelledAtStart? || cause.Aborted? || cause.Pending?))
            && (s.SetValue? && Empty(s.error) <==> cause.Native? && cause.result >= 0)
            && (cause.Native? && cause.result >= 0 ==> s == SetValue(Errno(0), cause.result))
            && ((cause.Native? || cause.Rejected?) && cause.result < 0 ==>
                  s == SetValue(Errno(-cause.result), if request.Count? then 0 else cause.result))
            && (!cause.Native? && !cause.Rejected? && !cancelled ==>
                  s == SetValue(OperationCanceled, if request.Count? then 0 else -1))
  {
  }

  // ----- the operation --------------------------------------------------------------------

  class NativeOperation {
    const request: Request
    var completion: Kind
    var error: Error
    var result: int
    /** The stop token of the receiver. */
    var cancelled: bool
    /** What the receiver was called with. */
    var signals: seq<Signal>
    /** Where the operation is, by its first completion. */
    var place: Place
    /** How often it is on the CPU queue. */
    var runs: nat
    /** A failed submit left its entry in the submission queue. */
    var entry: bool
    ghost var cause: Cause
    /** The token when the operation started, and when it delivered. */
    ghost var cancelledAtStart: bool
    ghost var arbitrated: bool
    /** The entry left behind was completed as well. */
    ghost var repeated: bool

    /** The staged fields say the cause. */
    ghost predicate Staged()
      reads this
    {
      match completion
      case Value => cause == Pending || cause == Native(result)
      case ValueWithError =>
        result < 0 && error == ErrnoResult(result) && (cause == Native(result) || cause == Rejected(result))
      case Stopped => cause == CancelledAtStart || cause == Aborted
    }

    /** An operation that has not been completed twice. */
    ghost predicate Valid()
      reads this
    {
      && Staged() && !repeated && runs == (if place == Queued then 1 else 0)
      && (entry ==> cause.Rejected?)
      && (place == Idle || place == Kernel ==> completion == Value && cause == Pending)
      && (place == Queued || place == Delivered ==> cause != Pending)
      && (place == Idle ==> !cancelledAtStart)
      && (cancelledAtStart <==> cause == CancelledAtStart)
      && (cancelledAtStart ==> cancelled)
      && (arbitrated ==> cancelled)
      && (cancelledAtStart && place == Delivered ==> arbitrated)
      && signals == if place == Delivered then [Outcome(request, cause, arbitrated)] else []
    }

    constructor (request: Request)
      ensures Valid() && this.request == request && place == Idle && !cancelled
    {
      this.request := request;
      completion, error, result, cancelled, signals := Value, Errno(0), 0, false, [];
      place, runs, entry := Idle, 0, false;
      cause, cancelledAtStart, arbitrated, repeated := Pending, false, false, false;
    }

    /** Someone requests a stop through the token. */
    method Cancel()
      modifies this`cancelled
      ensures cancelled && (old(Valid()) ==> Valid())
    {
      cancelled := true;
    }

    /** Delivers the staged completion, each time the operation is run. */
    method Execute()
      requires runs > 0
      modifies this
      ensures |signals| == |old(signals)| + 1 && old(signals) <= signals
      ensures signals[|signals| - 1] ==
              match completion
              case Value =>
                SetValue(Errno(if result < 0 then -result else 0), if request.Count? && result < 0 then 0 else result)
              case ValueWithError => SetValue(error, if request.Count? && result < 0 then 0 else result)
              case Stopped =>
                if cancelled then SetStopped
                else SetValue(OperationCanceled, if request.Count? then 0 else -1)
      ensures runs == old(runs) - 1 && place == Delivered
      ensures cause == old(cause) && cancelled == old(cancelled) && arbitrated == cancelled && entry == old(entry)
      ensures cancelledAtStart == old(cancelledAtStart) && repeated == old(repeated)
      ensures completion == old(completion) && error == old(error) && result == old(result)
      ensures old(Valid()) ==> Valid()
    {
      match completion {
        case Value =>
          if result < 0 {
            signals := signals + [SetValue(ErrnoResult(result), Yield(request, result))];
          } else {
            signals := signals + [SetValue(Errno(0), Yield(request, result))];
          }
        case ValueWithError =>
          signals := signals + [SetValue(error, Yield(request, result))];
        case Stopped =>
          if cancelled {
            signals := signals + [SetStopped];
          } else {
            signals := signals + [SetValue(OperationCanceled, Yield(request, -1))];
          }
      }
      runs, place, arbitrated := runs - 1, Delivered, cancelled;
    }

    /** Hands the completion to the CPU queue, or delivers it when the context refuses. */
    method PublishCpu(accepted: bool)
      requires Valid() && place == Queued
      modifies this
      ensures Valid() && place == (if accepted then Queued else Delivered)
      ensures cause == old(cause) && cancelled == old(cancelled)
      ensures cancelledAtStart == old(cancelledAtStart)
    {
      if !accepted {
        Execute();
      }
    }

    /** Hands the operation to the kernel side, or stops it when the context refuses. */
    method PublishIo(accepted: bool)
      requires Valid() && place == Kernel && !cancelledAtStart
      modifies this
      ensures Valid() && place == (if accepted then Kernel else Delivered)
      ensures cause == if accepted then Pending else Aborted
      ensures cancelled == old(cancelled) && !cancelledAtStart
    {
      if !accepted {
        SubmitStopped();
        Execute();
      }
    }

    /** Marks a completion that the token asked for before anything was done. */
    method StopAtStart(accepted: bool)
      requires Valid() && place == Idle && cancelled
      modifies this
      ensures Valid() && place == (if accepted then Queued else Delivered)
      ensures cause == CancelledAtStart && cancelled && cancelledAtStart
    {
      completion, result := Stopped, 0;
      cause, cancelledAtStart, place, runs := CancelledAtStart, true, Queued, 1;
      PublishCpu(accepted);
    }

    /** Completes with the result of a call made while starting. */
    method CompleteAtStart(native: int, accepted: bool)
      requires Valid() && place == Idle
      modifies this
      ensures Valid() && place == (if accepted then Queued else Delivered)
      ensures cause == Native(native) && cancelled == old(cancelled) && !cancelledAtStart
    {
      result := native;
      if native < 0 {
        completion, error := ValueWithError, ErrnoResult(native);
      } else {
        completion := Value;
      }
      cause, place, runs := Native(native), Queued, 1;
      PublishCpu(accepted);
    }

    /** io_uring: an eager call is tried when the switch is on; `immediate` is its result. */
    method StartIoUring(eager: bool, immediate: int, accepted: bool)
      requires Valid() && place == Idle
      modifies this
      ensures Valid() && cancelled == old(cancelled) && cancelledAtStart == old(cancelled)
      ensures place != Idle && (!accepted ==> place == Delivered)
      ensures cause ==
              if cancelled then CancelledAtStart
              else if eager && immediate != -EAGAIN then Native(immediate)
              else if accepted then Pending else Aborted
    {
      if cancelled {
        StopAtStart(accepted);
      } else if eager && immediate != -EAGAIN {
        CompleteAtStart(immediate, accepted);
      } else {
        completion, place := Value, Kernel;
        PublishIo(accepted);
      }
    }

    /** kqueue: one call is always made; `waits` says that the request takes it as would-block. */
    method StartKqueue(probe: int, waits: bool, accepted: bool)
      requires Valid() && place == Idle
      modifies this
      ensures Valid() && cancelled == old(cancelled) && cancelledAtStart == old(cancelled)
      ensures place != Idle && (!accepted ==> place == Delivered)
      ensures cause ==
              if cancelled then CancelledAtStart
              else if !waits then Native(probe)
              else if accepted then Pending else Aborted
    {
      if cancelled {
        StopAtStart(accepted);
      } else if waits {
        result, completion, place := probe, Value, Kernel;
        PublishIo(accepted);
      } else {
        CompleteAtStart(probe, accepted);
      }
    }

    /**
     * A completion or a readiness step reports a result; `again` sends the operation back. The
     * completion of an entry left behind by a failed submit finds the operation completed, and
     * queues it once more.
     */
    method Report(native: int, again: bool)
      requires Valid() && (place == Kernel || entry)
      modifies this
      ensures old(place) == Kernel ==>
                && Valid() && place == (if again then Kernel else Queued)
                && cause == (if again then Pending else Native(native)) && !cancelledAtStart
      ensures old(place) != Kernel ==>
                && repeated && !entry && place == old(place) && signals == old(signals)
                && runs == old(runs) + (if again then 0 else 1)
                && cause == old(cause) && completion == old(completion) && error == old(error)
      ensures result == native && cancelled == old(cancelled) && arbitrated == old(arbitrated)
      ensures cancelledAtStart == old(cancelledAtStart)
    {
      result := native;
      if place == Kernel {
        if !again {
          cause, place, runs := Native(native), Queued, 1;
        }
      } else {
        entry, repeated := false, true;
        if !again {
          runs := runs + 1;
        }
      }
    }

    /** `left` tells whether the entry of the operation stays in the submission queue. */
    method SubmitError(code: int, left: bool)
      requires Valid() && place == Kernel && code < 0
      modifies this
      ensures Valid() && place == Queued && cause == Rejected(code) && entry == left
      ensures cancelled == old(cancelled) && !cancelledAtStart
    {
      completion, error, result := ValueWithError, ErrnoResult(code), code;
      cause, place, runs, entry := Rejected(code), Queued, 1, left;
    }

    method SubmitStopped()
      requires Valid() && place == Kernel
      modifies this
      ensures Valid() && place == Queued && cause == Aborted
      ensures cancelled == old(cancelled) && !cancelledAtStart
    {
      completion := Stopped;
      cause, place, runs := Aborted, Queued, 1;
    }
  }

  // ----- whole lives ----------------------------------------------------------------------

  datatype Start = IoUring(eager: bool, immediate: int) | Kqueue(probe: int, waits: bool)

  /** What ends the wait in the kernel; a failed submit may leave the entry behind. */
  datatype End = Reports(native: int) | Fails(code: int, left: bool) | Aborts

  /** The completion of an entry left behind comes never, or before or after the delivery. */
  datatype Second = Never | Before(native: int) | Behind(native: int)

  /** Token cancellations that come before an event. */
  method MayCancel(op: NativeOperation, cancels: bool)
    requires op.Valid()
    modifies op`cancelled
    ensures op.Valid() && op.cancelled == (old(op.cancelled) || cancels)
  {
    if cancels {
      op.Cancel();
    }
  }

  method Begin(op: NativeOperation, start: Start, accepted: bool)
    requires op.Valid() && op.place == Idle
    modifies op
    ensures op.Valid() && op.cancelled == old(op.cancelled) && op.cancelledAtStart == old(op.cancelled)
    ensures op.place != Idle && (!accepted ==> op.place == Delivered && op.arbitrated == op.cancelled)
    ensures op.place == Kernel ==> op.cause == Pending
    ensures op.cause ==
            if op.cancelled then CancelledAtStart
            else if start.IoUring? && start.eager && start.immediate != -EAGAIN then Native(start.immediate)
            else if start.Kqueue? && !start.waits then Native(start.probe)
            else if accepted then Pending else Aborted
  {
    match start {
      case IoUring(eager, immediate) => op.StartIoUring(eager, immediate, accepted);
      case Kqueue(probe, waits) => op.StartKqueue(probe, waits, accepted);
    }
  }

  function CauseOf(end: End): Cause {
    match end
    case Reports(r) => Native(r)
    case Fails(code, left) => Rejected(code)
    case Aborts => Aborted
  }

  method Settle(op: NativeOperation, end: End)
    requires op.Valid() && op.place == Kernel && (end.Fails? ==> end.code < 0)
    modifies op
    ensures op.Valid() && op.place == Queued && op.cancelled == old(op.cancelled)
    ensures op.cause == CauseOf(end) && op.entry == (end.Fails? && end.left)
    ensures !op.cancelledAtStart
  {
    match end {
      case Reports(native) => op.Report(native, false);
      case Fails(code, left) => op.SubmitError(code, left);
      case Aborts => op.SubmitStopped();
    }
  }

  /** Would-block results send a waiting operation back any number of times. */
  method Retry(op: NativeOperation, retries: seq<(int, bool)>)
    requires op.Valid() && op.place == Kernel && !op.cancelledAtStart
    modifies op
    ensures op.Valid() && op.place == Kernel && !op.cancelledAtStart
    ensures op.cancelled <==> old(op.cancelled) || exists i :: 0 <= i < |retries| && retries[i].1
  {
    for i := 0 to |retries|
      invariant op.Valid() && op.place == Kernel && !op.cancelledAtStart
      invariant op.cancelled <==> old(op.cancelled) || exists j :: 0 <= j < i && retries[j].1
    {
      MayCancel(op, retries[i].1);
      op.Report(retries[i].0, true);
    }
  }

  /** What happens to an operation that was accepted, up to its delivery. */
  method Complete(op: NativeOperation, retries: seq<(int, bool)>, end: End, cancels: bool)
    requires op.Valid() && (op.place == Kernel || op.place == Queued)
    requires end.Fails? ==> end.code < 0
    requires !op.cause.Rejected?
    modifies op
    ensures op.Valid() && op.place == Queued && op.cancelledAtStart == old(op.cancelledAtStart)
    ensures op.cause == if old(op.place) == Kernel then CauseOf(end) else old(op.cause)
    ensures op.cause.Rejected? ==> op.entry == end.left
    ensures op.cancelled <==>
            || old(op.cancelled) || cancels
            || (old(op.place) == Kernel && exists i :: 0 <= i < |retries| && retries[i].1)
  {
    if op.place == Kernel {
      Retry(op, retries);
      Settle(op, end);
    }
    MayCancel(op, cancels);
  }

  /** Delivers a completion, and the second one if the entry left behind is completed. */
  method Deliver(op: NativeOperation, second: Second)
    requires op.Valid() && op.place == Queued
    modifies op
    ensures op.cause == old(op.cause) && op.cancelledAtStart == old(op.cancelledAtStart)
    ensures op.repeated <==> old(op.entry) && !second.Never?
    ensures !op.repeated ==> op.Valid() && op.place == Delivered && op.arbitrated == op.cancelled
    ensures op.cancelled == old(op.cancelled)
    ensures op.repeated ==>
              && |op.signals| == 2
              && op.signals[1] == SetValue(Errno(-op.cause.result),
                                           if op.request.Count? && second.native < 0 then 0 else second.native)
              && (second.Behind? ==>
                    op.signals[0] == SetValue(Errno(-op.cause.result),
                                              if op.request.Count? then 0 else op.cause.result))
              && (second.Before? ==> op.signals[0] == op.signals[1])
  {
    if op.entry && second.Before? {
      op.Report(second.native, false);
      op.Execute();
      op.Execute();
    } else {
      op.Execute();
      if op.entry && second.Behind? {
        op.Report(second.native, false);
        op.Execute();
      }
    }
  }

  /**
   * A whole life: any start, any answers of the context and of the kernel, any moments of
   * cancellation. The receiver gets one signal, and it is the right one, exactly when no entry
   * that a failed submit left behind is completed as well; otherwise it gets two, and the second
   * reports the failure together with the result of the operation.
   */
  method Live(op: NativeOperation, cancelsFirst: bool, start: Start, accepted: bool,
              retries: seq<(int, bool)>, end: End, cancelsLast: bool, second: Second)
    requires op.Valid() && op.place == Idle
    requires end.Fails? ==> end.code < 0
    modifies op
    ensures |op.signals| == if op.repeated then 2 else 1
    ensures op.repeated <==> op.cause.Rejected? && end.Fails? && end.left && !second.Never?
    ensures !op.repeated ==> Right(op, op.signals[0])
    ensures old(op.cancelled) || cancelsFirst ==> op.signals == [SetStopped]
    ensures op.cause ==
            if old(op.cancelled) || cancelsFirst then CancelledAtStart
            else if start.IoUring? && start.eager && start.immediate != -EAGAIN then Native(start.immediate)
            else if start.Kqueue? && !start.waits then Native(start.probe)
            else if !accepted then Aborted
            else match end
                 case Reports(r) => Native(r)
                 case Fails(code, left) => Rejected(code)
                 case Aborts => Aborted
    ensures op.cause.Native? && op.cause.result >= 0 ==> op.signals == [SetValue(Errno(0), op.cause.result)]
    ensures (op.cause.Native? || op.cause.Rejected?) && op.cause.result < 0 && !op.repeated ==>
              op.signals == [SetValue(Errno(-op.cause.result), if op.request.Count? then 0 else op.cause.result)]
    ensures op.cause == Aborted ==>
              op.signals == [if accepted && (cancelsLast || exists i :: 0 <= i < |retries| && retries[i].1)
                             then SetStopped
                             else SetValue(OperationCanceled, if op.request.Count? then 0 else -1)]
    ensures op.repeated ==>
              op.signals[1] == SetValue(Errno(-end.code),
                                        if op.request.Count? && second.native < 0 then 0 else second.native)
    ensures op.repeated && second.native >= 0 && op.request.Descriptor? ==> !Sound(op.request, op.signals[1])
  {
    MayCancel(op, cancelsFirst);
    Begin(op, start, accepted);
    if op.place != Delivered {
      Complete(op, retries, end, cancelsLast);
      Deliver(op, second);
    }
    OutcomeSound(op.request, op.cause, op.arbitrated);
  }

  /** The signal fits the cause and the token, and hands nothing over that it should not. */
  ghost predicate Right(op: NativeOperation, signal: Signal)
    reads op
  {
    && signal == Outcome(op.request, op.cause, op.arbitrated) && Sound(op.request, signal)
    && (signal.SetStopped? ==> op.cancelled)
    && (signal.SetValue? && Empty(signal.error) ==> op.cause.Native? && op.cause.result >= 0)
  }
}
