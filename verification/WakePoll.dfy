/**
 * The two wake polls of an io_uring worker, one on the channel shared by all workers and one on
 * its own, and the operations it submits beside them. A one-shot poll is put in the submission
 * queue, becomes live when the kernel takes it, fires a completion once its channel is signalled,
 * and is armed again when that completion is collected. The worker arms both before it blocks.
 * What the kernel may leave in the submission queue decides whether a worker that blocks can
 * be woken.
 */
module WakePoll {
  datatype Channel = Shared | Local

  datatype Entry = Poll(channel: Channel) | Io(operation: nat)

  /**
   * A channel: open, signalled and not yet drained, the pending flag the worker keeps, live
   * polls and uncollected poll completions.
   */
  datatype Wake = Wake(open: bool, signalled: bool, pending: bool, live: nat, fired: nat)

  /**
   * `Preparing`: inside a pass that prepares operations and submits them at its end; `back` is
   * where the pass returns to. `Rearming`: the shared poll was armed with this result and the
   * local one is next. `Aborting`: past the abort of what was in flight; completions are not
   * collected any more.
   */
  datatype Phase =
    | Entering(next: Channel)
    | Looping
    | Preparing(prepared: seq<nat>, back: Phase)
    | Rearming(result: int)
    | Blocked
    | Finishing
    | Aborting

  /**
   * `inflight` are the operations the worker tracks, `taken` those the kernel took from the
   * queue and whose completion was not collected yet.
   */
  datatype State = State(
    shared: Wake, own: Wake,
    queue: seq<Entry>, inflight: set<nat>, taken: set<nat>,
    open: bool, running: bool, closing: bool,
    phase: Phase)

  /**
   * `partial`: a submit may take a proper prefix of the queue. `failing`: a submit of operations
   * may fail, or take nothing.
   */
  datatype Kernel = Kernel(partial: bool, failing: bool)

  const EINVAL := 22
  const EAGAIN := 11

  ghost function Initial(): State {
    State(Wake(true, false, false, 0, 0), Wake(true, false, false, 0, 0),
          [], {}, {}, true, true, false, Entering(Shared))
  }

  function Of(st: State, c: Channel): Wake {
    if c == Shared then st.shared else st.own
  }

  function With(st: State, c: Channel, w: Wake): State {
    if c == Shared then st.(shared := w) else st.(own := w)
  }

  /** How many entries poll a channel. */
  function Polls(entries: seq<Entry>, c: Channel): nat {
    if entries == [] then 0 else (if entries[0] == Poll(c) then 1 else 0) + Polls(entries[1..], c)
  }

  /** The operations with an entry in the queue. */
  function Operations(entries: seq<Entry>): set<nat> {
    set e <- entries | e.Io? :: e.operation
  }

  // ----- submitting and arming ------------------------------------------------------------

  /** What the kernel may answer to a submit of `length` entries, if it does not fail. */
  predicate Takes(answer: int, length: nat, k: Kernel) {
    answer == length || (k.partial && 0 < answer <= length)
  }

  /** The submit of a poll may always fail. */
  predicate AnswersPoll(answer: int, length: nat, k: Kernel) {
    answer <= 0 || Takes(answer, length, k)
  }

  predicate AnswersIo(answer: int, length: nat, k: Kernel) {
    (k.failing && answer <= 0) || Takes(answer, length, k)
  }

  /** The kernel takes entries from the front. */
  function Submit(st: State, answer: int): State
    requires answer <= |st.queue|
  {
    var n := if answer < 0 then 0 else answer;
    st.(queue := st.queue[n..],
    taken := st.taken + Operations(st.queue[..n]),
    shared := st.shared.(live := st.shared.live + Polls(st.queue[..n], Shared)),
    own := st.own.(live := st.own.live + Polls(st.queue[..n], Local)))
  }

  /** Arms a poll; `full` says that the submission queue has no room. */
  function Arm(st: State, c: Channel, full: bool, answer: int): (State, int)
    requires answer <= |st.queue| + 1
  {
    if !st.open || !Of(st, c).open then (st, -EINVAL)
    else if Of(st, c).pending then (st, 1)
    else if !st.running then (st, 0)
    else if full then (st, -EAGAIN)
    else Armed(Submit(st.(queue := st.queue + [Poll(c)]), answer), c, answer)
  }

  function Armed(st: State, c: Channel, answer: int): (State, int) {
    if answer < 0 then (st, answer)
    else if answer == 0 then (st, -EAGAIN)
    else (With(st, c, Of(st, c).(pending := true)), 1)
  }

  /** Collecting the completion of a poll clears the flag and drains the channel. */
  function Collected(st: State, c: Channel): State
    requires Of(st, c).fired > 0
  {
    With(st, c, Of(st, c).(pending := false, signalled := false, fired := Of(st, c).fired - 1))
  }

  /** A worker leaves when its context closes, or when it stops with nothing in flight. */
  predicate ShouldFinish(st: State) {
    st.closing || (!st.running && st.inflight == {})
  }

  function AfterFailure(result: int): Phase {
    if result == -EAGAIN then Looping else Finishing
  }

  // ----- steps --------------------------------------------------------------------------

  datatype Action =
    | Enter(full: bool, answer: int)
    | PrepareIo(operation: nat)
    | SubmitIo(answer: int)
    | CollectIo(operation: nat)
    | AbortIo
    | Signal(channel: Channel)
    | Fire(channel: Channel)
    | Collect(channel: Channel, full: bool, answer: int)
    | Stop | Close | CloseChannel(channel: Channel) | CloseRing
    | Leave
    | RearmShared(full: bool, answer: int)
    | RearmLocal(full: bool, answer: int)
    | Return

  predicate Active(st: State) {
    st.phase.Looping? || st.phase.Finishing?
  }

  /** A pass that prepares operations is begun only while nothing tells the worker to stop. */
  predicate MayPrepare(st: State) {
    st.phase.Preparing? || ((Active(st) || st.phase.Aborting?) && st.running && !st.closing)
  }

  predicate Enabled(st: State, a: Action, k: Kernel) {
    match a
    case Enter(full, answer) => st.phase.Entering? && AnswersPoll(answer, |st.queue| + 1, k)
    case PrepareIo(o) => MayPrepare(st) && o !in st.inflight
    case SubmitIo(answer) => st.phase.Preparing? && AnswersIo(answer, |st.queue|, k)
    case CollectIo(o) => Active(st) && o in st.taken
    case AbortIo => st.phase.Finishing? || st.phase.Aborting?
    case Signal(c) => true
    case Fire(c) => Of(st, c).live > 0 && Of(st, c).signalled
    case Collect(c, full, answer) =>
      Active(st) && Of(st, c).fired > 0 && AnswersPoll(answer, |st.queue| + 1, k)
    case Leave => st.phase.Looping? && ShouldFinish(st)
    case RearmShared(full, answer) => st.phase.Looping? && AnswersPoll(answer, |st.queue| + 1, k)
    case RearmLocal(full, answer) => st.phase.Rearming? && AnswersPoll(answer, |st.queue| + 1, k)
    case Return => st.phase.Blocked?
    case _ => true
  }

  /** The operation gets an entry and is tracked. */
  function PrepareStep(st: State, o: nat): State
    requires MayPrepare(st)
  {
    st.(queue := st.queue + [Io(o)], inflight := st.inflight + {o},
    phase := if st.phase.Preparing? then st.phase.(prepared := st.phase.prepared + [o])
    else Preparing([o], st.phase))
  }

  /** An error fails the operation prepared last; the entries stay in the queue. */
  function SubmitStep(st: State, answer: int): State
    requires st.phase.Preparing? && answer <= |st.queue|
  {
    var ops := st.phase.prepared;
    Submit(st, answer).(
    inflight := if answer < 0 && ops != [] then st.inflight - {ops[|ops| - 1]} else st.inflight,
    phase := st.phase.back)
  }

  function EnterStep(st: State, c: Channel, full: bool, answer: int): State
    requires answer <= |st.queue| + 1
  {
    var (st', r) := Arm(st, c, full, answer);
    st'.(phase := if r < 0 then Finishing else if c == Shared then Entering(Local) else Looping)
  }

  function RearmSharedStep(st: State, full: bool, answer: int): State
    requires answer <= |st.queue| + 1
  {
    var (st', r) := Arm(st, Shared, full, answer);
    st'.(phase := if r < 0 then AfterFailure(r) else Rearming(r))
  }

  /** `first` is the result of arming the shared poll. */
  function RearmLocalStep(st: State, first: int, full: bool, answer: int): State
    requires answer <= |st.queue| + 1
  {
    var (st', r) := Arm(st, Local, full, answer);
    st'.(phase :=
    if r < 0 then AfterFailure(r)
    else if (first == 0 || r == 0) && ShouldFinish(st') then Finishing
    else Blocked)
  }

  function Step(st: State, a: Action, k: Kernel): State
    requires Enabled(st, a, k)
  {
    match a
    case Enter(full, answer) => EnterStep(st, st.phase.next, full, answer)
    case PrepareIo(o) => PrepareStep(st, o)
    case SubmitIo(answer) => SubmitStep(st, answer)
    case CollectIo(o) => st.(inflight := st.inflight - {o}, taken := st.taken - {o})
    case AbortIo => st.(inflight := {}, phase := Aborting)
    case Signal(c) => With(st, c, Of(st, c).(signalled := true))
    case Fire(c) => With(st, c, Of(st, c).(live := Of(st, c).live - 1, fired := Of(st, c).fired + 1))
    case Collect(c, full, answer) => Arm(Collected(st, c), c, full, answer).0
    case Stop => st.(running := false)
    case Close => st.(closing := true)
    case CloseChannel(c) => With(st, c, Of(st, c).(open := false))
    case CloseRing => st.(open := false)
    case Leave => st.(phase := Finishing)
    case RearmShared(full, answer) => RearmSharedStep(st, full, answer)
    case RearmLocal(full, answer) => RearmLocalStep(st, st.phase.result, full, answer)
    case Return => st.(phase := Looping)
  }

  ghost predicate Legal(acts: seq<Action>, k: Kernel)
    decreases |acts|, 0
  {
    acts == [] ||
    (var n := |acts| - 1; Legal(acts[..n], k) && Enabled(After(acts[..n], k), acts[n], k))
  }

  ghost function After(acts: seq<Action>, k: Kernel): State
    requires Legal(acts, k)
    decreases |acts|, 1
  {
    if acts == [] then Initial()
    else var n := |acts| - 1; Step(After(acts[..n], k), acts[n], k)
  }

  // ----- what a blocked worker can hear ---------------------------------------------------

  /** A signal on this channel ends the wait: its poll is live, or has fired already. */
  predicate Heard(w: Wake) {
    w.live + w.fired > 0
  }

  /** The kernel has an operation that the worker tracks, and will report it. */
  predicate Expects(st: State) {
    st.inflight * st.taken != {}
  }

  /** A blocked worker hears both channels, or the kernel has an operation of its. */
  predicate CanWake(st: State) {
    st.phase.Blocked? ==> (Heard(st.shared) && Heard(st.own)) || Expects(st)
  }

  predicate Sourced(st: State) {
    (st.shared.pending ==> Heard(st.shared)) && (st.own.pending ==> Heard(st.own))
  }

  /** What is tracked was taken, except during a pass, which has yet to submit it. */
  predicate Submitted(st: State) {
    && st.inflight <= st.taken + Operations(st.queue)
    && (!st.phase.Preparing? ==> Operations(st.queue) == {})
  }

  predicate Rearmed(st: State) {
    match st.phase
    case Rearming(r) => if r == 0 then !st.running else st.shared.pending
    case Blocked => (st.shared.pending && st.own.pending) || st.inflight != {}
    case Preparing(prepared, back) => back.Looping? || back.Finishing? || back.Aborting?
    case _ => true
  }

  predicate Inv(st: State) {
    Sourced(st) && Submitted(st) && Rearmed(st)
  }

  const PERFECT := Kernel(false, false)

  lemma {:induction false} PollsLast(entries: seq<Entry>, c: Channel)
    ensures Polls(entries + [Poll(c)], c) > 0
    decreases |entries|
  {
    if entries != [] {
      assert (entries + [Poll(c)])[1..] == entries[1..] + [Poll(c)];
      PollsLast(entries[1..], c);
    }
  }

  /** What arming keeps, and what its result says about the flag. */
  predicate ArmedFrom(st: State, c: Channel, st': State, r: int) {
    && (Sourced(st) ==> Sourced(st'))
    && (Operations(st.queue) == {} ==> Operations(st'.queue) == {})
    && st.taken <= st'.taken
    && (st.shared.pending ==> st'.shared.pending)
    && (r == 0 ==> !st.running)
    && (r > 0 ==> Of(st', c).pending)
    && st'.inflight == st.inflight && st'.phase == st.phase
    && st'.running == st.running && st'.closing == st.closing
  }

  lemma SubmitSourced(st: State, c: Channel, answer: int)
    requires AnswersPoll(answer, |st.queue| + 1, PERFECT)
    ensures var st' := Submit(st.(queue := st.queue + [Poll(c)]), answer);
            && st'.shared.live >= st.shared.live && st'.own.live >= st.own.live
            && (answer > 0 ==> Of(st', c).live > 0)
            && (Operations(st.queue) == {} ==> Operations(st'.queue) == {})
  {
    PollsLast(st.queue, c);
    var queue := st.queue + [Poll(c)];
    assert queue[..|st.queue| + 1] == queue;
    if Operations(st.queue) == {} {
      PollIsNoIo(st.queue, c);
      forall n | 0 <= n <= |queue| ensures Operations(queue[n..]) == {} {
        Suffix(queue, n);
      }
    }
  }

  lemma PollIsNoIo(entries: seq<Entry>, c: Channel)
    ensures Operations(entries + [Poll(c)]) == Operations(entries)
  {
    forall o | o in Operations(entries + [Poll(c)]) ensures o in Operations(entries) {
      assert Io(o) in entries;
    }
    assert forall o <- Operations(entries) :: Io(o) in entries + [Poll(c)];
  }

  lemma Suffix(entries: seq<Entry>, n: nat)
    requires n <= |entries|
    ensures Operations(entries[n..]) <= Operations(entries) && Operations(entries[..n]) <= Operations(entries)
  {
  }

  lemma ArmSourced(st: State, c: Channel, full: bool, answer: int)
    requires AnswersPoll(answer, |st.queue| + 1, PERFECT)
    ensures ArmedFrom(st, c, Arm(st, c, full, answer).0, Arm(st, c, full, answer).1)
  {
    hide Operations, Polls;
    SubmitSourced(st, c, answer);
  }

  lemma EnterInv(st: State, full: bool, answer: int)
    requires Inv(st) && st.phase.Entering? && AnswersPoll(answer, |st.queue| + 1, PERFECT)
    ensures Inv(EnterStep(st, st.phase.next, full, answer))
  {
    hide Arm, Operations;
    ArmSourced(st, st.phase.next, full, answer);
  }

  lemma CollectInv(st: State, c: Channel, full: bool, answer: int)
    requires Inv(st) && Active(st) && Of(st, c).fired > 0 && AnswersPoll(answer, |st.queue| + 1, PERFECT)
    ensures Inv(Arm(Collected(st, c), c, full, answer).0)
  {
    hide Arm, Operations;
    ArmSourced(Collected(st, c), c, full, answer);
  }

  lemma RearmSharedInv(st: State, full: bool, answer: int)
    requires Inv(st) && st.phase.Looping? && AnswersPoll(answer, |st.queue| + 1, PERFECT)
    ensures Inv(RearmSharedStep(st, full, answer))
  {
    hide Arm, Operations;
    ArmSourced(st, Shared, full, answer);
  }

  /** Blocking needs both polls, or operations in flight when one was skipped by a stop. */
  lemma RearmLocalInv(st: State, full: bool, answer: int)
    requires Inv(st) && st.phase.Rearming? && AnswersPoll(answer, |st.queue| + 1, PERFECT)
    ensures Inv(RearmLocalStep(st, st.phase.result, full, answer))
  {
    hide Arm, Operations;
    ArmSourced(st, Local, full, answer);
  }

  lemma PrepareInv(st: State, o: nat)
    requires Inv(st) && MayPrepare(st)
    ensures Inv(PrepareStep(st, o))
  {
    var queue := st.queue + [Io(o)];
    forall x | x in Operations(st.queue) + {o} ensures x in Operations(queue) {
      assert x == o ==> Io(o) in queue;
      assert x != o ==> Io(x) in st.queue && Io(x) in queue;
    }
  }

  /** A submit that takes everything hands every operation of the pass to the kernel. */
  lemma SubmitInv(st: State, answer: int)
    requires Inv(st) && st.phase.Preparing? && AnswersIo(answer, |st.queue|, PERFECT)
    ensures Inv(SubmitStep(st, answer))
  {
    assert st.queue[..|st.queue|] == st.queue && st.queue[|st.queue|..] == [];
  }

  /** Signalling, firing and closing keep the flag and the number of polls that can be heard. */
  lemma ChannelInv(st: State, c: Channel, w: Wake)
    requires Inv(st) && w.pending == Of(st, c).pending && w.live + w.fired == Of(st, c).live + Of(st, c).fired
    ensures Inv(With(st, c, w))
  {
  }

  lemma StepInv(st: State, a: Action)
    requires Inv(st) && Enabled(st, a, PERFECT)
    ensures Inv(Step(st, a, PERFECT))
  {
    hide Arm, EnterStep, RearmSharedStep, RearmLocalStep, PrepareStep, SubmitStep, Submit, With, Collected, Operations;
    match a {
      case Enter(full, answer) => EnterInv(st, full, answer);
      case PrepareIo(o) => PrepareInv(st, o);
      case SubmitIo(answer) => SubmitInv(st, answer);
      case Signal(c) => ChannelInv(st, c, Of(st, c).(signalled := true));
      case Fire(c) => ChannelInv(st, c, Of(st, c).(live := Of(st, c).live - 1, fired := Of(st, c).fired + 1));
      case CloseChannel(c) => ChannelInv(st, c, Of(st, c).(open := false));
      case Collect(c, full, answer) => CollectInv(st, c, full, answer);
      case RearmShared(full, answer) => RearmSharedInv(st, full, answer);
      case RearmLocal(full, answer) => RearmLocalInv(st, full, answer);
      case _ =>
    }
  }

  lemma InitialInv()
    ensures Inv(Initial())
  {
  }

  lemma {:induction false} RunInv(acts: seq<Action>)
    requires Legal(acts, PERFECT)
    ensures Inv(After(acts, PERFECT))
    decreases |acts|
  {
    hide Inv, Step, Enabled;
    if acts != [] {
      var n := |acts| - 1;
      RunInv(acts[..n]);
      StepInv(After(acts[..n], PERFECT), acts[n]);
    } else {
      InitialInv();
    }
  }

  /** A worker blocks only where something can wake it. */
  lemma InvCanWake(st: State)
    requires Inv(st)
    ensures CanWake(st)
  {
    if st.phase.Blocked? && st.inflight != {} {
      var o :| o in st.inflight;
      assert o in st.inflight * st.taken;
    }
  }

  // ----- the exact condition --------------------------------------------------------------

  ghost predicate NeverStuck(k: Kernel) {
    forall acts :: Legal(acts, k) ==> CanWake(After(acts, k))
  }

  ghost predicate PlaysAt(run: seq<Action>, scenes: seq<State>, k: Kernel, i: nat)
    requires i < |run| && |scenes| == |run| + 1
  {
    Enabled(scenes[i], run[i], k) && Step(scenes[i], run[i], k) == scenes[i + 1]
  }

  /** The run goes through these states. */
  ghost predicate Plays(run: seq<Action>, scenes: seq<State>, k: Kernel) {
    && |scenes| == |run| + 1 && scenes[0] == Initial()
    && forall i :: 0 <= i < |run| ==> PlaysAt(run, scenes, k, i)
  }

  lemma {:induction false} Played(run: seq<Action>, scenes: seq<State>, k: Kernel, i: nat)
    requires Plays(run, scenes, k) && i <= |run|
    ensures Legal(run[..i], k) && After(run[..i], k) == scenes[i]
    decreases i
  {
    hide Enabled, Step;
    if i > 0 {
      var n := i - 1;
      Played(run, scenes, k, n);
      assert run[..i][..n] == run[..n];
      assert PlaysAt(run, scenes, k, n);
    }
  }

  lemma PlaysToEnd(run: seq<Action>, scenes: seq<State>, k: Kernel)
    requires Plays(run, scenes, k)
    ensures Legal(run, k) && After(run, k) == scenes[|run|]
  {
    hide Plays;
    Played(run, scenes, k, |run|);
    assert run[..|run|] == run;
  }

  const CLOSED := Wake(true, false, false, 0, 0)
  const ARMED := Wake(true, false, true, 1, 0)
  const CALLED := Wake(true, true, true, 1, 0)
  const FIRED := Wake(true, true, true, 0, 1)
  const DEAF := Wake(true, false, true, 0, 0)

  function Scene(shared: Wake, own: Wake, queue: seq<Entry>, inflight: set<nat>, taken: set<nat>, phase: Phase): State {
    State(shared, own, queue, inflight, taken, true, true, false, phase)
  }

  // A partial submit leaves an operation in the queue, and the next one takes that operation
  // instead of the poll of the worker's own channel.

  function PartialRun(): seq<Action> {
    [Enter(false, 1), Enter(false, 1), PrepareIo(0), PrepareIo(1), SubmitIo(1), CollectIo(0),
     Signal(Local), Fire(Local), Collect(Local, false, 1), CollectIo(1), RearmShared(false, 0), RearmLocal(false, 0)]
  }

  ghost function PartialScenes(): seq<State> {
    [Initial(),
     Scene(ARMED, CLOSED, [], {}, {}, Entering(Local)),
     Scene(ARMED, ARMED, [], {}, {}, Looping),
     Scene(ARMED, ARMED, [Io(0)], {0}, {}, Preparing([0], Looping)),
     Scene(ARMED, ARMED, [Io(0), Io(1)], {0, 1}, {}, Preparing([0, 1], Looping)),
     Scene(ARMED, ARMED, [Io(1)], {0, 1}, {0}, Looping),
     Scene(ARMED, ARMED, [Io(1)], {1}, {}, Looping),
     Scene(ARMED, CALLED, [Io(1)], {1}, {}, Looping),
     Scene(ARMED, FIRED, [Io(1)], {1}, {}, Looping),
     Scene(ARMED, DEAF, [Poll(Local)], {1}, {1}, Looping),
     Scene(ARMED, DEAF, [Poll(Local)], {}, {}, Looping),
     Scene(ARMED, DEAF, [Poll(Local)], {}, {}, Rearming(1)),
     Scene(ARMED, DEAF, [Poll(Local)], {}, {}, Blocked)]
  }

  // A failed submit fails one of two operations. The other is tracked but still in the queue
  // when the worker stops, collects both polls without arming them, and waits for it.

  const EBUSY := 16

  function FailingRun(): seq<Action> {
    [Enter(false, 1), Enter(false, 1), PrepareIo(0), PrepareIo(1), SubmitIo(-EBUSY), Signal(Local), Fire(Local),
     Signal(Shared), Fire(Shared), Stop, Collect(Local, false, 0), Collect(Shared, false, 0),
     RearmShared(false, 0), RearmLocal(false, 0)]
  }

  ghost function FailingScenes(): seq<State> {
    var queue := [Io(0), Io(1)];
    [Initial(),
     Scene(ARMED, CLOSED, [], {}, {}, Entering(Local)),
     Scene(ARMED, ARMED, [], {}, {}, Looping),
     Scene(ARMED, ARMED, [Io(0)], {0}, {}, Preparing([0], Looping)),
     Scene(ARMED, ARMED, queue, {0, 1}, {}, Preparing([0, 1], Looping)),
     Scene(ARMED, ARMED, queue, {0}, {}, Looping),
     Scene(ARMED, CALLED, queue, {0}, {}, Looping),
     Scene(ARMED, FIRED, queue, {0}, {}, Looping),
     Scene(CALLED, FIRED, queue, {0}, {}, Looping),
     Scene(FIRED, FIRED, queue, {0}, {}, Looping),
     Scene(FIRED, FIRED, queue, {0}, {}, Looping).(running := false),
     Scene(FIRED, CLOSED, queue, {0}, {}, Looping).(running := false),
     Scene(CLOSED, CLOSED, queue, {0}, {}, Looping).(running := false),
     Scene(CLOSED, CLOSED, queue, {0}, {}, Rearming(0)).(running := false),
     Scene(CLOSED, CLOSED, queue, {0}, {}, Blocked).(running := false)]
  }

  // The entries taken in these runs.

  lemma TakeFirst(e: Entry, rest: seq<Entry>)
    ensures ([e] + rest)[..1] == [e] && ([e] + rest)[1..] == rest
    ensures Operations([e]) == if e.Io? then {e.operation} else {}
    ensures forall c :: Polls([e], c) == if e == Poll(c) then 1 else 0
  {
    assert e in [e];
    forall c ensures Polls([e], c) == if e == Poll(c) then 1 else 0 {
      assert [e][1..] == [];
    }
  }

  lemma TakeNothing(queue: seq<Entry>)
    ensures queue[..0] == [] && queue[0..] == queue && Operations([]) == {}
  {
  }

  lemma Opening()
    ensures forall e: Entry :: [] + [e] == [e] && ([e] + [])[..1] == [e] && ([e] + [])[1..] == []
    ensures forall c :: [Poll(c)][..1] == [Poll(c)] && [Poll(c)][1..] == [] && Operations([Poll(c)]) == {}
    ensures forall c, d :: Polls([Poll(c)], d) == if c == d then 1 else 0
    ensures [Io(0)] + [Io(1)] == [Io(0), Io(1)] && {0} + {1} == {0, 1} && [0] + [1] == [0, 1]
  {
    forall c, d ensures Polls([Poll(c)], d) == if c == d then 1 else 0 {
      TakeFirst(Poll(c), []);
      assert [Poll(c)] + [] == [Poll(c)];
    }
  }

  lemma PartialOpens(k: Kernel, i: nat)
    requires k.partial && i < 5
    ensures PlaysAt(PartialRun(), PartialScenes(), k, i)
  {
    Opening();
    TakeFirst(Io(0), [Io(1)]);
  }

  lemma PartialCloses(k: Kernel, i: nat)
    requires k.partial && 5 <= i < 12
    ensures PlaysAt(PartialRun(), PartialScenes(), k, i)
  {
    TakeFirst(Io(1), [Poll(Local)]);
    assert {0, 1} - {0} == {1};
  }

  lemma PartialPlays(k: Kernel)
    requires k.partial
    ensures Plays(PartialRun(), PartialScenes(), k)
  {
    hide PlaysAt;
    forall i | 0 <= i < 12 ensures PlaysAt(PartialRun(), PartialScenes(), k, i) {
      if i < 5 { PartialOpens(k, i); } else { PartialCloses(k, i); }
    }
  }

  lemma FailingOpens(k: Kernel, i: nat)
    requires k.failing && i < 5
    ensures PlaysAt(FailingRun(), FailingScenes(), k, i)
  {
    Opening();
    TakeNothing([Io(0), Io(1)]);
    assert {0, 1} - {1} == {0};
  }

  lemma FailingWakes(k: Kernel, i: nat)
    requires k.failing && 5 <= i < 10
    ensures PlaysAt(FailingRun(), FailingScenes(), k, i)
  {
  }

  lemma FailingCloses(k: Kernel, i: nat)
    requires k.failing && 10 <= i < 14
    ensures PlaysAt(FailingRun(), FailingScenes(), k, i)
  {
  }

  lemma FailingPlays(k: Kernel)
    requires k.failing
    ensures Plays(FailingRun(), FailingScenes(), k)
  {
    hide PlaysAt;
    forall i | 0 <= i < 14 ensures PlaysAt(FailingRun(), FailingScenes(), k, i) {
      if i < 5 { FailingOpens(k, i); } else if i < 10 { FailingWakes(k, i); } else { FailingCloses(k, i); }
    }
  }

  /** With partial submits a worker can block with no operation in flight and a deaf channel. */
  lemma PartialStuck(k: Kernel)
    requires k.partial
    ensures Legal(PartialRun(), k)
    ensures var st := After(PartialRun(), k);
            st.phase.Blocked? && st.inflight == {} && st.own.pending && !Heard(st.own)
  {
    PartialPlays(k);
    PlaysToEnd(PartialRun(), PartialScenes(), k);
  }

  /** With failing submits a stopped worker can block deaf, waiting for an operation that nobody has. */
  lemma FailingStuck(k: Kernel)
    requires k.failing
    ensures Legal(FailingRun(), k)
    ensures var st := After(FailingRun(), k);
            st.phase.Blocked? && st.inflight == {0} && st.taken == {} && !Heard(st.shared) && !Heard(st.own)
  {
    FailingPlays(k);
    PlaysToEnd(FailingRun(), FailingScenes(), k);
  }

  /**
   * Blocking is safe exactly when a submit that takes anything takes everything, and a submit of
   * operations always takes something.
   */
  lemma NeverStuckExactly(k: Kernel)
    ensures NeverStuck(k) <==> !k.partial && !k.failing
  {
    if k.partial {
      PartialStuck(k);
    } else if k.failing {
      FailingStuck(k);
    } else {
      forall acts | Legal(acts, k) ensures CanWake(After(acts, k)) {
        RunInv(acts);
        InvCanWake(After(acts, k));
      }
    }
  }
}
