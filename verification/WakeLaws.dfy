/**
 * What the steps of WakePoll do, said about each channel, the submission queue and the phase:
 * when a poll is armed and what its answer means, what collecting does to a channel, and when
 * the worker goes on looping, finishes or blocks.
 */
module WakeLaws {
  import opened WakePoll

  /** How many entries the kernel takes for an answer. */
  function Count(answer: int): nat {
    if answer < 0 then 0 else answer
  }

  /**
   * A poll is put in the queue only on an open ring and channel, when none is pending, the
   * context runs and the queue has room; it is pending afterwards exactly when the kernel took
   * something. Otherwise nothing changes, and the result tells which of these it was.
   */
  lemma ArmLaw(st: State, c: Channel, full: bool, answer: int)
    requires answer <= |st.queue| + 1
    ensures var st', r := Arm(st, c, full, answer).0, Arm(st, c, full, answer).1;
            var w, w' := if c == Shared then st.shared else st.own, if c == Shared then st'.shared else st'.own;
            var v, v' := if c == Shared then st.own else st.shared, if c == Shared then st'.own else st'.shared;
            var puts := st.open && w.open && !w.pending && st.running && !full;
            && (!puts ==>
                  st' == st && r == (if !st.open || !w.open then -22 else if w.pending then 1
                                     else if !st.running then 0 else -11))
            && (puts ==>
                  && r == (if answer < 0 then answer else if answer == 0 then -11 else 1)
                  && st'.queue == (st.queue + [Poll(c)])[Count(answer)..]
                  && (w'.pending <==> answer > 0) && v'.pending == v.pending
                  && w'.signalled == w.signalled && w'.fired == w.fired && w'.open == w.open
                  && v'.signalled == v.signalled && v'.fired == v.fired && v'.open == v.open)
  {
  }

  /** Collecting the completion of a poll drains its channel, and arms it again if that is possible. */
  lemma CollectLaw(st: State, c: Channel, full: bool, answer: int, k: Kernel)
    requires Enabled(st, Collect(c, full, answer), k)
    ensures var st' := Step(st, Collect(c, full, answer), k);
            var w, w' := if c == Shared then st.shared else st.own, if c == Shared then st'.shared else st'.own;
            && !w'.signalled && w'.fired == w.fired - 1 && w'.open == w.open
            && (w'.pending <==> st.open && w.open && st.running && !full && answer > 0)
            && st'.phase == st.phase && st'.inflight == st.inflight
  {
  }

  /** Signals and fired polls: a poll that fires goes from live to completed. */
  lemma ChannelLaw(st: State, a: Action, k: Kernel)
    requires Enabled(st, a, k) && (a.Signal? || a.Fire? || a.CloseChannel?)
    ensures var st' := Step(st, a, k);
            var w, w' := if a.channel == Shared then st.shared else st.own,
                         if a.channel == Shared then st'.shared else st'.own;
            && w' == (match a
                      case Signal(_) => w.(signalled := true)
                      case Fire(_) => Wake(w.open, w.signalled, w.pending, w.live - 1, w.fired + 1)
                      case _ => w.(open := false))
            && st' == (if a.channel == Shared then st.(shared := w') else st.(own := w'))
  {
  }

  /** Where operations are: in the queue, with the kernel, tracked by the worker. */
  lemma IoLaw(st: State, a: Action, k: Kernel)
    requires Enabled(st, a, k)
    ensures var st' := Step(st, a, k);
            && (a.PrepareIo? ==>
                  && st'.queue == st.queue + [Io(a.operation)] && st'.taken == st.taken
                  && st'.inflight == st.inflight + {a.operation})
            && (a.SubmitIo? ==>
                  && st'.queue == st.queue[Count(a.answer)..]
                  && st'.taken == st.taken + Operations(st.queue[..Count(a.answer)])
                  && st'.inflight == if a.answer < 0 && st.phase.prepared != []
                                     then st.inflight - {st.phase.prepared[|st.phase.prepared| - 1]} else st.inflight)
            && (a.CollectIo? ==>
                  && st'.queue == st.queue && st'.taken == st.taken - {a.operation}
                  && st'.inflight == st.inflight - {a.operation})
            && (a.AbortIo? ==> st'.queue == st.queue && st'.taken == st.taken && st'.inflight == {})
  {
  }

  /**
   * Where the worker goes. A poll that cannot be armed for lack of room makes it loop again, any
   * other failure makes it finish. It blocks after both polls, unless one was skipped because of
   * a stop and there is nothing to wait for.
   */
  lemma PhaseLaw(st: State, a: Action, k: Kernel)
    requires Enabled(st, a, k)
    ensures var st' := Step(st, a, k);
            st'.phase ==
            match a
            case Enter(full, answer) =>
              var r := Arm(st, st.phase.next, full, answer).1;
              if r < 0 then Finishing else if st.phase.next == Shared then Entering(Local) else Looping
            case PrepareIo(o) =>
              if st.phase.Preparing? then Preparing(st.phase.prepared + [o], st.phase.back)
              else Preparing([o], st.phase)
            case SubmitIo(_) => st.phase.back
            case AbortIo => Aborting
            case Leave => Finishing
            case RearmShared(full, answer) =>
              var r := Arm(st, Shared, full, answer).1;
              if r == -11 then Looping else if r < 0 then Finishing else Rearming(r)
            case RearmLocal(full, answer) =>
              var r := Arm(st, Local, full, answer).1;
              if r == -11 then Looping
              else if r < 0 then Finishing
              else if st.phase.result != 0 && r != 0 then Blocked
              else if !st.closing && (st.running || st.inflight != {}) then Blocked
              else Finishing
            case Return => Looping
            case _ => st.phase
  {
    hide Arm, Operations, Polls, Submit;
    match a
    case Enter(full, answer) => ArmFrame(st, st.phase.next, full, answer);
    case Collect(c, full, answer) => ArmFrame(Collected(st, c), c, full, answer);
    case RearmShared(full, answer) => ArmFrame(st, Shared, full, answer);
    case RearmLocal(full, answer) => ArmFrame(st, Local, full, answer);
    case SubmitIo(answer) => SubmitFrame(st, answer);
    case _ =>
  }

  lemma ArmFrame(st: State, c: Channel, full: bool, answer: int)
    requires answer <= |st.queue| + 1
    ensures var st' := Arm(st, c, full, answer).0;
            && st'.phase == st.phase && st'.inflight == st.inflight
            && st'.open == st.open && st'.running == st.running && st'.closing == st.closing
  {
    hide Operations, Polls;
  }

  lemma SubmitFrame(st: State, answer: int)
    requires answer <= |st.queue|
    ensures var st' := Submit(st, answer);
            st'.open == st.open && st'.running == st.running && st'.closing == st.closing
  {
    hide Operations, Polls;
  }

  /** A worker leaves its loop only when told to, and nothing undoes a stop or a close. */
  lemma FlagLaw(st: State, a: Action, k: Kernel)
    requires Enabled(st, a, k)
    ensures a == Leave ==> st.closing || (!st.running && st.inflight == {})
    ensures Step(st, a, k).running == (st.running && a != Stop) && Step(st, a, k).closing == (st.closing || a == Close)
    ensures Step(st, a, k).open == (st.open && a != CloseRing)
  {
    hide Arm, Operations, Polls, Submit;
    match a
    case Enter(full, answer) => ArmFrame(st, st.phase.next, full, answer);
    case Collect(c, full, answer) => ArmFrame(Collected(st, c), c, full, answer);
    case RearmShared(full, answer) => ArmFrame(st, Shared, full, answer);
    case RearmLocal(full, answer) => ArmFrame(st, Local, full, answer);
    case SubmitIo(answer) => SubmitFrame(st, answer);
    case _ =>
  }
}
