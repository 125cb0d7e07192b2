/**
 * The timers of a context together with its workers and the thread that stops it. A worker
 * fetches staged waits into its own queue, the stopping thread stages every pending wait before
 * it publishes the stopping state and takes what is staged while it drains. Waits and
 * published operations share one set of numbers.
 */
module TimerStop {
  import opened Sequences
  import G = WorkerGroup
  import W = WorkerStop
  import T = TimerModel

  /**
   * `aborted`: the stopping thread has staged all pending waits. `quiet`: how much of its drain
   * pass has found nothing, 1 for the CPU queue, 2 for the I/O queue after it and 3 for the ready
   * list after both; it is 0 again when the drain takes or runs something. History: `early` are
   * the waits started before the abort, `seen` those that had left their timers when the stopping
   * thread last looked at the ready list or ran something.
   */
  datatype State = State(
    group: G.State, timers: T.State<nat>,
    aborted: bool, quiet: nat,
    early: set<nat>, seen: set<nat>)

  ghost function Initial(n: nat, clock: int): State {
    State(G.Initial(n), T.Initial(clock), false, 0, {}, {})
  }

  datatype Action =
    // a step of the workers, publishers or the stopping thread that leaves the timers alone
    | Group(action: G.Action)
    // a timer entry point, on any thread
    | Timers(command: T.Command<nat>)
    // a worker takes the expired and staged waits
    | Fetch(worker: nat, order: seq<nat>)
    // the stopping thread; it runs what a look took head first, while a fetch keeps staging order
    | Abort(order: seq<nat>)
    | Look

  /** The operations that a step of the group brings in. */
  function Brings(a: G.Action): set<nat> {
    match a
    case Publish(op, q) => {op}
    case Work(i, m) => G.Spawns(m)
    case DrainTimers(waits) => waits
    case DrainExecute(op, spawned) => spawned
    case _ => {}
  }

  predicate TakesWaits(a: G.Action) {
    a.DrainTimers? || (a.Work? && a.move.Fetch?)
  }

  /** The waits handed out between two states of the timers. */
  ghost function HandedOut(before: T.State<nat>, after: T.State<nat>): set<nat> {
    set w <- T.Waits(after.fetched) | w !in T.Waits(before.fetched)
  }

  ghost function Fetches(st: State, order: seq<nat>): set<nat>
    requires T.Enabled(st.timers, T.Fetch(order))
  {
    HandedOut(st.timers, T.Step(st.timers, T.Fetch(order)))
  }

  ghost function Staged(st: State): set<nat> {
    HandedOut(st.timers, T.TakeReady(st.timers))
  }

  /** The waits that have left their timers. */
  ghost function Left(timers: T.State<nat>): set<nat> {
    set w <- timers.place | !timers.place[w].Waiting?
  }

  /** The progress of the drain pass after a step of the group. */
  ghost function Passed(st: State, a: G.Action): nat {
    match a
    case DrainTake(q) =>
      if G.Queued(st.group, q) != multiset{} then 0
      else if q == G.Cpu then 1
      else if st.quiet == 1 then 2 else 0
    case DrainExecute(op, spawned) => 0
    case _ => st.quiet
  }

  ghost predicate Enabled(st: State, a: Action, fatal: bool) {
    match a
    case Group(b) =>
      && G.Enabled(st.group, b, fatal) && !TakesWaits(b) && Brings(b) !! st.timers.place.Keys
      && (b.PublishStop? ==> st.aborted) && (b.SetStopped? ==> st.quiet == 3)
    case Timers(c) =>
      && T.Enabled(st.timers, c) && !c.Fetch? && !c.Abort?
      && (c.StartWait? ==> c.wait !in st.group.accepted && c.wait !in st.group.rejected)
    case Fetch(i, order) =>
      T.Enabled(st.timers, T.Fetch(order)) && G.Enabled(st.group, G.Work(i, G.Fetch(Fetches(st, order))), fatal)
    case Abort(order) => st.group.stop.Requested? && !st.aborted && T.Enabled(st.timers, T.Abort(order))
    case Look => G.Enabled(st.group, G.DrainTimers(Staged(st)), fatal)
  }

  ghost function Step(st: State, a: Action, fatal: bool): State
    requires Enabled(st, a, fatal)
  {
    match a
    case Group(b) =>
      st.(group := G.Step(st.group, b, fatal), quiet := Passed(st, b),
          seen := if b.DrainExecute? then Left(st.timers) else st.seen)
    case Timers(c) => st.(timers := T.Step(st.timers, c))
    case Fetch(i, order) =>
      st.(group := G.Step(st.group, G.Work(i, G.Fetch(Fetches(st, order))), fatal),
          timers := T.Step(st.timers, T.Fetch(order)))
    case Abort(order) =>
      st.(timers := T.Step(st.timers, T.Abort(order)), aborted := true, early := st.timers.place.Keys)
    case Look =>
      st.(group := G.Step(st.group, G.DrainTimers(Staged(st)), fatal), timers := T.TakeReady(st.timers),
          quiet := if Staged(st) == {} && st.quiet == 2 then 3 else 0,
          seen := Left(st.timers))
  }

  ghost predicate Legal(st: State, acts: seq<Action>, fatal: bool)
    decreases |acts|, 0
  {
    acts == [] ||
    (var k := |acts| - 1; Legal(st, acts[..k], fatal) && Enabled(After(st, acts[..k], fatal), acts[k], fatal))
  }

  ghost function After(st: State, acts: seq<Action>, fatal: bool): State
    requires Legal(st, acts, fatal)
    decreases |acts|, 1
  {
    if acts == [] then st
    else var k := |acts| - 1; Step(After(st, acts[..k], fatal), acts[k], fatal)
  }

  // ----- the invariant ------------------------------------------------------------------

  /** The waits known to the workers are those that were handed out. */
  ghost predicate Shared(group: G.State, timers: T.State<nat>) {
    forall w <- timers.place :: w !in group.rejected && (w in group.accepted <==> w in T.Waits(timers.fetched))
  }

  ghost predicate Phases(st: State) {
    && (st.group.stop.Closed? || st.group.stop.Draining? || st.group.stop.Stopped? ==> st.aborted)
    && (st.aborted ==> !st.group.stop.Never?)
    && (st.group.stop.Stopped? ==> st.quiet == 3)
    && (st.quiet == 3 ==> st.aborted)
    && (!st.aborted ==> st.early == {})
  }

  /** The waits of the history have left their timers, and were handed out by a whole quiet pass. */
  ghost predicate Delivered(st: State) {
    forall w <- st.early + st.seen ::
      w in st.timers.place && !st.timers.place[w].Waiting? && (st.quiet == 3 ==> w in T.Waits(st.timers.fetched))
  }

  ghost predicate Inv(st: State) {
    W.StopInv(st.group) && T.Inv(st.timers) && Shared(st.group, st.timers) && Phases(st) && Delivered(st)
  }

  lemma InitialInv(n: nat, clock: int)
    ensures Inv(Initial(n, clock))
  {
    W.StopInvInitial(n);
  }

  /** Only what a step brings in becomes known. */
  lemma GroupBrings(st: G.State, a: G.Action, fatal: bool)
    requires G.Enabled(st, a, fatal)
    ensures var st' := G.Step(st, a, fatal);
            && st'.accepted <= st.accepted + Brings(a) && st'.rejected <= st.rejected + Brings(a)
            && st.accepted <= st'.accepted && st.rejected <= st'.rejected
  {
    hide G.May, G.NextPc, G.Pops, G.New, G.Suspended, G.Keeps, G.Adds, G.Gives, G.Spawns;
  }

  lemma GroupShared(st: State, a: G.Action, fatal: bool)
    requires Shared(st.group, st.timers) && G.Enabled(st.group, a, fatal) && Brings(a) !! st.timers.place.Keys
    ensures Shared(G.Step(st.group, a, fatal), st.timers)
  {
    hide G.Enabled, G.Step;
    GroupBrings(st.group, a, fatal);
  }

  /** What the timers hand out is new to the workers, so a fetch is never held up. */
  lemma HandedOutIsNew(st: State, after: T.State<nat>)
    requires Inv(st) && T.Inv(after) && after.place.Keys == st.timers.place.Keys
    ensures G.New(st.group, HandedOut(st.timers, after))
  {
    hide W.StopInv;
  }

  lemma HandedOutShared(st: State, after: T.State<nat>, group: G.State)
    requires Inv(st) && T.Inv(after) && after.place.Keys == st.timers.place.Keys && st.timers.fetched <= after.fetched
    requires group.rejected == st.group.rejected && group.accepted == st.group.accepted + HandedOut(st.timers, after)
    ensures Shared(group, after)
  {
    hide W.StopInv;
    T.WaitsPrefix(st.timers.fetched, after.fetched);
  }

  lemma GroupStop(st: G.State, a: G.Action, fatal: bool)
    requires G.Enabled(st, a, fatal)
    ensures var st' := G.Step(st, a, fatal);
            match a
            case RequestStop(owner) => st.stop.Never? && st'.stop.Requested?
            case PublishStop => st.stop.Requested? && st'.stop.Closed?
            case AllGone => st.stop.Closed? && st'.stop.Draining?
            case SetStopped => st.stop.Draining? && st'.stop.Stopped?
            case _ => st'.stop == st.stop && (a.DrainTake? || a.DrainExecute? ==> st.stop.Draining?)
  {
    hide G.May, G.NextPc, G.Pops, G.New, G.Suspended, G.Keeps, G.Adds, G.Gives, G.Spawns, G.MayStop;
  }

  lemma GroupInv(st: State, a: G.Action, fatal: bool)
    requires Inv(st) && Enabled(st, Group(a), fatal)
    ensures Inv(Step(st, Group(a), fatal))
  {
    hide W.StopInv, T.Inv, Shared, G.Enabled, G.Step, T.Enabled;
    W.StopInvStep(st.group, a, fatal);
    GroupShared(st, a, fatal);
    GroupStop(st.group, a, fatal);
  }

  /** What a step of the timers leaves of the waits pending when the stop began. */
  lemma DeliveredOn(st: State, st': State)
    requires Delivered(st) && st'.early == st.early && st'.seen == st.seen && st'.quiet == st.quiet
    requires T.Onward(st.timers.place, st'.timers.place) && st.timers.fetched <= st'.timers.fetched
    ensures Delivered(st')
  {
    T.WaitsPrefix(st.timers.fetched, st'.timers.fetched);
  }

  lemma TimersInv(st: State, c: T.Command<nat>, fatal: bool)
    requires Inv(st) && Enabled(st, Timers(c), fatal)
    ensures Inv(Step(st, Timers(c), fatal))
  {
    hide W.StopInv, T.Inv, T.Step, T.Enabled, Delivered, G.Enabled, G.Step;
    T.StepInv(st.timers, c);
    T.StepStarts(st.timers, c);
    T.StepOnward(st.timers, c);
    T.StepFetched(st.timers, c);
    DeliveredOn(st, Step(st, Timers(c), fatal));
    TimersShared(st, c);
  }

  /** The entry points hand nothing out, and a new wait is unknown to the workers. */
  lemma TimersShared(st: State, c: T.Command<nat>)
    requires Inv(st) && T.Enabled(st.timers, c) && !c.Fetch? && !c.Abort? && T.Inv(T.Step(st.timers, c))
    requires T.Step(st.timers, c).place.Keys == st.timers.place.Keys + if c.StartWait? then {c.wait} else {}
    requires c.StartWait? ==> c.wait !in st.group.accepted && c.wait !in st.group.rejected
    ensures Shared(st.group, T.Step(st.timers, c))
  {
    hide W.StopInv, T.Step, T.Enabled, T.Registry;
    HandsNothing(st.timers, c);
    assert forall w <- T.Waits(st.timers.fetched) :: w in st.timers.place;
  }

  lemma FetchInv(st: State, i: nat, order: seq<nat>, fatal: bool)
    requires Inv(st) && Enabled(st, Fetch(i, order), fatal)
    ensures Inv(Step(st, Fetch(i, order), fatal))
  {
    hide W.StopInv, T.Inv, T.Step, T.Enabled, Delivered, G.Enabled, G.Step, Shared, HandedOut;
    var c, a := T.Fetch(order), G.Work(i, G.Fetch(Fetches(st, order)));
    T.StepInv(st.timers, c);
    T.StepStarts(st.timers, c);
    T.StepOnward(st.timers, c);
    T.StepFetched(st.timers, c);
    W.StopInvStep(st.group, a, fatal);
    GroupStop(st.group, a, fatal);
    DeliveredOn(st, Step(st, Fetch(i, order), fatal));
    GroupTakes(st.group, a, fatal);
    HandedOutShared(st, T.Step(st.timers, c), G.Step(st.group, a, fatal));
  }

  lemma GroupTakes(st: G.State, a: G.Action, fatal: bool)
    requires G.Enabled(st, a, fatal) && TakesWaits(a)
    ensures var st' := G.Step(st, a, fatal); st'.accepted == st.accepted + Brings(a) && st'.rejected == st.rejected
  {
  }

  lemma AbortInv(st: State, order: seq<nat>, fatal: bool)
    requires Inv(st) && Enabled(st, Abort(order), fatal)
    ensures Inv(Step(st, Abort(order), fatal))
  {
    hide W.StopInv, T.Inv, T.Step, T.Enabled, G.Enabled, G.Step, Shared;
    var c := T.Abort(order);
    T.StepInv(st.timers, c);
    T.StepStarts(st.timers, c);
    AbortShared(st, order);
    AbortStages(st.timers, order);
  }

  lemma AbortShared(st: State, order: seq<nat>)
    requires Inv(st) && T.Enabled(st.timers, T.Abort(order))
    requires T.Step(st.timers, T.Abort(order)).place.Keys == st.timers.place.Keys
    ensures Shared(st.group, T.Step(st.timers, T.Abort(order)))
  {
    hide W.StopInv;
    T.DismissExact(st.timers, order);
  }

  lemma AbortStages(timers: T.State<nat>, order: seq<nat>)
    requires T.Inv(timers) && T.Enabled(timers, T.Abort(order))
    ensures var after := T.Step(timers, T.Abort(order));
            forall w <- timers.place :: w in after.place && !after.place[w].Waiting?
  {
    hide T.Inv;
    T.StepInv(timers, T.Abort(order));
    T.StepStarts(timers, T.Abort(order));
    T.AbortClears(timers, order);
    NoneWaiting(T.Step(timers, T.Abort(order)));
  }

  lemma NoneWaiting(timers: T.State<nat>)
    requires T.Inv(timers) && timers.active == map[]
    ensures forall w <- timers.place :: !timers.place[w].Waiting?
  {
  }

  lemma LookInv(st: State, fatal: bool)
    requires Inv(st) && Enabled(st, Look, fatal)
    ensures Inv(Step(st, Look, fatal))
  {
    hide W.StopInv, T.Inv, T.TakeReady, G.Enabled, G.Step, Shared, HandedOut, Delivered;
    var a, after := G.DrainTimers(Staged(st)), T.TakeReady(st.timers);
    T.TakeReadyInv(st.timers);
    W.StopInvStep(st.group, a, fatal);
    GroupStop(st.group, a, fatal);
    GroupTakes(st.group, a, fatal);
    LookFacts(st.timers);
    HandedOutShared(st, after, G.Step(st.group, a, fatal));
    LookDelivers(st, Step(st, Look, fatal));
    DrainingNow(st.group, Staged(st), fatal);
  }

  lemma DrainingNow(st: G.State, waits: set<nat>, fatal: bool)
    requires G.Enabled(st, G.DrainTimers(waits), fatal)
    ensures st.stop.Draining?
  {
  }

  /** Taking the ready list leaves no wait staged. */
  lemma LookFacts(timers: T.State<nat>)
    requires T.Inv(timers)
    ensures var after := T.TakeReady(timers);
            && after.place.Keys == timers.place.Keys && timers.fetched <= after.fetched
            && T.Onward(timers.place, after.place) && forall w <- after.place :: after.place[w] != T.Ready
  {
  }

  lemma LookDelivers(st: State, st': State)
    requires Delivered(st) && st'.early == st.early && st'.timers == T.TakeReady(st.timers) && T.Inv(st'.timers)
    requires st'.seen == Left(st.timers)
    requires T.Onward(st.timers.place, st'.timers.place)
    requires forall w <- st'.timers.place :: st'.timers.place[w] != T.Ready
    ensures Delivered(st')
  {
    hide T.TakeReady;
  }

  lemma StepInv(st: State, a: Action, fatal: bool)
    requires Inv(st) && Enabled(st, a, fatal)
    ensures Inv(Step(st, a, fatal))
  {
    hide Inv, Enabled, Step;
    match a {
      case Group(b) => GroupInv(st, b, fatal);
      case Timers(c) => TimersInv(st, c, fatal);
      case Fetch(i, order) => FetchInv(st, i, order, fatal);
      case Abort(order) => AbortInv(st, order, fatal);
      case Look => LookInv(st, fatal);
    }
  }

  lemma {:induction false} RunInv(st: State, acts: seq<Action>, fatal: bool)
    requires Inv(st) && Legal(st, acts, fatal)
    ensures Inv(After(st, acts, fatal))
    decreases |acts|
  {
    hide Inv, Enabled, Step;
    if acts != [] {
      var k := |acts| - 1;
      RunInv(st, acts[..k], fatal);
      StepInv(After(st, acts[..k], fatal), acts[k], fatal);
    }
  }

  // ----- the theorems -------------------------------------------------------------------

  ghost predicate Reachable(st: State, n: nat, clock: int, fatal: bool) {
    exists acts :: Legal(Initial(n, clock), acts, fatal) && After(Initial(n, clock), acts, fatal) == st
  }

  lemma ReachableInv(st: State, n: nat, clock: int, fatal: bool)
    requires Reachable(st, n, clock, fatal)
    ensures Inv(st)
  {
    hide Inv;
    var acts :| Legal(Initial(n, clock), acts, fatal) && After(Initial(n, clock), acts, fatal) == st;
    InitialInv(n, clock);
    RunInv(Initial(n, clock), acts, fatal);
  }

  /**
   * Once the context is stopped and no thread is inside run(), a wait has run exactly once if
   * it was handed out and not at all otherwise. Every wait has run that was started before the
   * stopping thread aborted the timers, or had been staged when it last looked at the ready list
   * or ran something; one that has not is still with a timer or staged.
   */
  lemma StopDelivers(st: State, n: nat, clock: int, fatal: bool, w: nat)
    requires Reachable(st, n, clock, fatal) && st.group.stop.Stopped? && st.group.running == 0 && w in st.timers.place
    ensures st.group.executed[w] == if w in T.Waits(st.timers.fetched) then 1 else 0
    ensures w in st.early || w in st.seen ==> st.group.executed[w] == 1
    ensures st.group.executed[w] == 0 <==> st.timers.place[w].Waiting? || st.timers.place[w] == T.Ready
  {
    ReachableInv(st, n, clock, fatal);
    W.Empty(st.group);
    hide Reachable;
  }

  /** The context is stopped and every thread can only find it so. */
  ghost predicate Over(st: State) {
    st.group.stop.Stopped? && st.group.closing && forall w <- st.group.workers :: W.Gone(w)
  }

  lemma StoppedIsOver(st: State)
    requires Inv(st) && st.group.stop.Stopped? && st.group.running == 0
    ensures Over(st)
  {
    G.CountNone(st.group.workers, G.Inside);
  }

  lemma OverMoves(st: State, i: nat, m: G.Move, fatal: bool)
    requires Over(st) && G.Enabled(st.group, G.Work(i, m), fatal)
    ensures !m.Execute? && !m.Fetch? && Over(st.(group := G.WorkerStep(st.group, i, m)))
    ensures G.WorkerStep(st.group, i, m).executed == st.group.executed
  {
    hide G.Pops, G.Adds, G.Keeps, G.Gives;
    W.MoveGone(st.group.workers[i], m, G.Seen(st.group), fatal);
  }

  lemma OverOthers(st: State, a: G.Action, fatal: bool)
    requires Over(st) && G.Enabled(st.group, a, fatal) && !a.Work?
    ensures Over(st.(group := G.Step(st.group, a, fatal))) && G.Step(st.group, a, fatal).executed == st.group.executed
  {
    hide G.Suspended, G.MayStop;
    if a.WakeOne? {
      var ws := G.Step(st.group, a, fatal).workers;
      assert forall i :: 0 <= i < |ws| ==> ws[i].pc == st.group.workers[i].pc && W.Gone(st.group.workers[i]);
    }
  }

  /** Nothing is run or handed out any more. */
  lemma OverStep(st: State, a: Action, fatal: bool)
    requires Over(st) && Enabled(st, a, fatal)
    ensures var st' := Step(st, a, fatal);
            Over(st') && st'.group.executed == st.group.executed && st'.timers.fetched == st.timers.fetched
  {
    hide G.May, G.WorkerStep, G.New, G.Suspended;
    match a {
      case Group(b) =>
        if b.Work? {
          OverMoves(st, b.worker, b.move, fatal);
        } else {
          OverOthers(st, b, fatal);
        }
      case Fetch(i, order) => OverMoves(st, i, G.Fetch(Fetches(st, order)), fatal);
      case Timers(c) => HandsNothing(st.timers, c);
      case _ =>
    }
  }

  lemma HandsNothing(timers: T.State<nat>, c: T.Command<nat>)
    requires T.Enabled(timers, c) && !c.Fetch? && !c.Abort?
    ensures T.Step(timers, c).fetched == timers.fetched
  {
  }

  lemma {:induction false} OverRun(st: State, acts: seq<Action>, fatal: bool)
    requires Over(st) && Legal(st, acts, fatal)
    ensures var st' := After(st, acts, fatal); Over(st') && st'.group.executed == st.group.executed
    decreases |acts|
  {
    hide Over, Enabled, Step;
    if acts != [] {
      var k := |acts| - 1;
      OverRun(st, acts[..k], fatal);
      OverStep(After(st, acts[..k], fatal), acts[k], fatal);
    }
  }

  /** A wait that a stop did not deliver is never delivered, whatever happens afterwards. */
  lemma NeverLater(st: State, n: nat, clock: int, fatal: bool, w: nat, acts: seq<Action>)
    requires Reachable(st, n, clock, fatal) && st.group.stop.Stopped? && st.group.running == 0
    requires w in st.timers.place && w !in T.Waits(st.timers.fetched) && Legal(st, acts, fatal)
    ensures After(st, acts, fatal).group.executed[w] == 0
  {
    hide Legal, After, Inv, Over, Reachable;
    ReachableInv(st, n, clock, fatal);
    StoppedIsOver(st);
    OverRun(st, acts, fatal);
    StopDelivers(st, n, clock, fatal, w);
  }

  // ----- a wait started after the last look -----------------------------------------------

  lemma ReachNext(st: State, n: nat, clock: int, a: Action, fatal: bool)
    requires Reachable(st, n, clock, fatal) && Enabled(st, a, fatal)
    ensures Reachable(Step(st, a, fatal), n, clock, fatal)
  {
    hide Enabled, Step;
    var acts :| Legal(Initial(n, clock), acts, fatal) && After(Initial(n, clock), acts, fatal) == st;
    assert (acts + [a])[..|acts|] == acts;
    assert Legal(Initial(n, clock), acts + [a], fatal);
    assert After(Initial(n, clock), acts + [a], fatal) == Step(st, a, fatal);
  }

  /** A context whose threads are outside run() and that is being stopped. */
  ghost function Alone(n: nat, clock: int, stop: G.Stop, closing: bool, aborted: bool, quiet: nat): State {
    State(G.Initial(n).(stop := stop, closing := closing), T.Initial(clock), aborted, quiet, {}, {})
  }

  lemma StartReached(n: nat, clock: int, fatal: bool)
    ensures Reachable(Initial(n, clock), n, clock, fatal)
  {
    assert Legal(Initial(n, clock), [], fatal) && After(Initial(n, clock), [], fatal) == Initial(n, clock);
  }

  /** The steps up to the drain. */
  lemma ClosedAlone(n: nat, clock: int, fatal: bool)
    ensures Reachable(Alone(n, clock, G.Draining(G.External), true, true, 0), n, clock, fatal)
  {
    hide Reachable;
    var owner := G.External;
    StartReached(n, clock, fatal);
    var a := Alone(n, clock, G.Never, false, false, 0);
    assert a == Initial(n, clock);
    ReachNext(a, n, clock, Group(G.RequestStop(owner)), fatal);
    var b := Alone(n, clock, G.Requested(owner), false, false, 0);
    assert Step(a, Group(G.RequestStop(owner)), fatal) == b;
    AbortAlone(n, clock, owner, fatal);
    ReachNext(b, n, clock, Abort([]), fatal);
    var c := Alone(n, clock, G.Requested(owner), false, true, 0);
    ReachNext(c, n, clock, Group(G.PublishStop), fatal);
    ReachNext(Alone(n, clock, G.Closed(owner), true, true, 0), n, clock, Group(G.AllGone), fatal);
  }

  lemma AbortAlone(n: nat, clock: int, owner: G.Stopper, fatal: bool)
    ensures Enabled(Alone(n, clock, G.Requested(owner), false, false, 0), Abort([]), fatal)
    ensures Step(Alone(n, clock, G.Requested(owner), false, false, 0), Abort([]), fatal)
         == Alone(n, clock, G.Requested(owner), false, true, 0)
  {
  }

  /** A quiet pass. */
  lemma LookedAlone(n: nat, clock: int, fatal: bool)
    ensures Reachable(Alone(n, clock, G.Draining(G.External), true, true, 3), n, clock, fatal)
  {
    hide Reachable;
    var owner := G.External;
    ClosedAlone(n, clock, fatal);
    TakeAlone(n, clock, G.Cpu, 0, fatal);
    ReachNext(Alone(n, clock, G.Draining(owner), true, true, 0), n, clock, Group(G.DrainTake(G.Cpu)), fatal);
    TakeAlone(n, clock, G.Io, 1, fatal);
    ReachNext(Alone(n, clock, G.Draining(owner), true, true, 1), n, clock, Group(G.DrainTake(G.Io)), fatal);
    LookAlone(n, clock, owner, fatal);
    ReachNext(Alone(n, clock, G.Draining(owner), true, true, 2), n, clock, Look, fatal);
  }

  lemma TakeAlone(n: nat, clock: int, q: G.Queue, quiet: nat, fatal: bool)
    requires q == G.Io ==> quiet == 1
    ensures var st := Alone(n, clock, G.Draining(G.External), true, true, quiet);
            && Enabled(st, Group(G.DrainTake(q)), fatal)
            && Step(st, Group(G.DrainTake(q)), fatal)
            == Alone(n, clock, G.Draining(G.External), true, true, if q == G.Cpu then 1 else 2)
  {
  }

  lemma LookAlone(n: nat, clock: int, owner: G.Stopper, fatal: bool)
    ensures Enabled(Alone(n, clock, G.Draining(owner), true, true, 2), Look, fatal)
    ensures Step(Alone(n, clock, G.Draining(owner), true, true, 2), Look, fatal)
         == Alone(n, clock, G.Draining(owner), true, true, 3)
  {
    var st := Alone(n, clock, G.Draining(owner), true, true, 2);
    assert T.Waits([]) == [];
    assert T.TakeReady(st.timers) == st.timers;
    assert Staged(st) == {};
  }

  /** A wait that is started after the stopping thread's last look stays staged for good. */
  lemma LateWait(n: nat, clock: int, fatal: bool) returns (st: State)
    ensures Reachable(st, n, clock, fatal) && st.group.stop.Stopped? && st.group.running == 0
    ensures 5 in st.timers.place && st.timers.place[5] == T.Ready && st.group.executed[5] == 0
  {
    hide Reachable;
    LookedAlone(n, clock, fatal);
    var a := Alone(n, clock, G.Draining(G.External), true, true, 3);
    ReachNext(a, n, clock, Timers(T.StartWait(0, 5)), fatal);
    var b := Step(a, Timers(T.StartWait(0, 5)), fatal);
    ReachNext(b, n, clock, Group(G.SetStopped), fatal);
    st := Step(b, Group(G.SetStopped), fatal);
  }

  // ----- the exact condition --------------------------------------------------------------

  predicate StartsWait(a: Action) {
    a.Timers? && a.command.StartWait?
  }

  /** No wait is started after the stopping thread has aborted the timers. */
  ghost predicate Prompt(acts: seq<Action>) {
    forall i, j :: 0 <= i < j < |acts| && acts[i].Abort? ==> !StartsWait(acts[j])
  }

  ghost predicate AllRun(st: State) {
    st.group.stop.Stopped? && st.group.running == 0 ==> forall w <- st.timers.place :: st.group.executed[w] == 1
  }

  /** A stop delivers every wait; `late`: waits may be started after the abort. */
  ghost predicate Delivers(n: nat, clock: int, fatal: bool, late: bool) {
    forall acts :: Legal(Initial(n, clock), acts, fatal) && (late || Prompt(acts)) ==>
      AllRun(After(Initial(n, clock), acts, fatal))
  }

  /** Only a started wait is new to the timers, and only an abort sets what is early. */
  lemma StepKeys(st: State, a: Action, fatal: bool)
    requires Inv(st) && Enabled(st, a, fatal)
    ensures var st' := Step(st, a, fatal);
            && (!StartsWait(a) ==> st'.timers.place.Keys == st.timers.place.Keys)
            && (a.Abort? ==> st'.early == st.timers.place.Keys)
            && (!a.Abort? ==> st'.early == st.early && st'.aborted == st.aborted)
  {
    hide W.StopInv, T.Inv, T.Step, T.Enabled, G.Enabled, G.Step, Delivered, Shared;
    match a {
      case Timers(c) => T.StepStarts(st.timers, c);
      case Fetch(i, order) => T.StepStarts(st.timers, T.Fetch(order));
      case Abort(order) => T.StepStarts(st.timers, T.Abort(order));
      case Look => LookFacts(st.timers);
      case _ =>
    }
  }

  lemma {:induction false} PromptEarly(n: nat, clock: int, fatal: bool, acts: seq<Action>)
    requires Legal(Initial(n, clock), acts, fatal) && Prompt(acts)
    ensures var st := After(Initial(n, clock), acts, fatal);
            st.aborted ==> st.timers.place.Keys == st.early && exists i :: 0 <= i < |acts| && acts[i].Abort?
    decreases |acts|
  {
    hide Inv, Enabled, Step;
    if acts != [] {
      var k := |acts| - 1;
      var before := acts[..k];
      assert Prompt(before) by {
        assert forall i :: 0 <= i < k ==> before[i] == acts[i];
      }
      PromptEarly(n, clock, fatal, before);
      InitialInv(n, clock);
      RunInv(Initial(n, clock), before, fatal);
      StepKeys(After(Initial(n, clock), before, fatal), acts[k], fatal);
      if i :| 0 <= i < |before| && before[i].Abort? {
        assert acts[i].Abort? && !StartsWait(acts[k]);
      }
    }
  }

  /** A stop delivers every wait exactly when none is started after the abort of the timers. */
  lemma DeliversExactly(n: nat, clock: int, fatal: bool, late: bool)
    ensures Delivers(n, clock, fatal, late) <==> !late
  {
    hide Legal, After;
    if late {
      var st := LateWait(n, clock, fatal);
      var acts :| Legal(Initial(n, clock), acts, fatal) && After(Initial(n, clock), acts, fatal) == st;
      assert !AllRun(st);
    } else {
      forall acts | Legal(Initial(n, clock), acts, fatal) && Prompt(acts)
        ensures AllRun(After(Initial(n, clock), acts, fatal))
      {
        PromptRuns(n, clock, fatal, acts);
      }
    }
  }

  lemma PromptRuns(n: nat, clock: int, fatal: bool, acts: seq<Action>)
    requires Legal(Initial(n, clock), acts, fatal) && Prompt(acts)
    ensures AllRun(After(Initial(n, clock), acts, fatal))
  {
    hide Legal, After, Inv;
    var st := After(Initial(n, clock), acts, fatal);
    PromptEarly(n, clock, fatal, acts);
    ReachableInv(st, n, clock, fatal);
    if st.group.stop.Stopped? && st.group.running == 0 {
      StoppedAborted(st);
      forall w <- st.timers.place ensures st.group.executed[w] == 1 {
        StopDelivers(st, n, clock, fatal, w);
      }
    }
  }

  lemma StoppedAborted(st: State)
    requires Inv(st) && st.group.stop.Stopped?
    ensures st.aborted
  {
  }

  // ----- the drain pass -------------------------------------------------------------------

  /**
   * The drain ends only with a pass that finds the CPU queue, the I/O queue and the ready list
   * empty, in this order, with nothing taken or run between: each step of the stopping thread
   * takes the pass one source further, or starts it over.
   */
  lemma PassLaw(st: State, a: Action, fatal: bool)
    requires Enabled(st, a, fatal) && Inv(st)
    ensures var st' := Step(st, a, fatal);
            st'.quiet ==
            if a == Group(G.DrainTake(G.Cpu)) then if st.group.cpu == multiset{} then 1 else 0
            else if a == Group(G.DrainTake(G.Io)) then if st.group.io == multiset{} && st.quiet == 1 then 2 else 0
            else if a == Look then if st.timers.ready == [] && st.quiet == 2 then 3 else 0
            else if a.Group? && a.action.DrainExecute? then 0
            else st.quiet
    ensures a == Group(G.SetStopped) ==> st.quiet == 3
  {
    hide T.Inv, W.StopInv, Shared, Delivered, Staged, G.Step, T.Step, T.TakeReady;
    StagedExactly(st);
  }

  /** The history records the waits there are at the abort, and those off their timers at a look or a run. */
  lemma HistoryLaw(st: State, a: Action, fatal: bool, w: nat)
    requires Enabled(st, a, fatal)
    ensures var st' := Step(st, a, fatal);
            && (w in st'.seen <==>
                  if a == Look || (a.Group? && a.action.DrainExecute?)
                  then w in st.timers.place && !st.timers.place[w].Waiting? else w in st.seen)
            && (w in st'.early <==> if a.Abort? then w in st.timers.place else w in st.early)
            && (st'.aborted <==> st.aborted || a.Abort?)
  {
    hide G.Step, T.Step, T.TakeReady, G.Enabled, T.Enabled;
  }

  lemma StagedExactly(st: State)
    requires T.Inv(st.timers)
    ensures Staged(st) == {} <==> st.timers.ready == []
  {
    T.WaitsTaken(st.timers);
    ReverseMembers(T.Waits(st.timers.ready));
    var waits := T.Waits(st.timers.ready);
    if st.timers.ready != [] {
      assert waits[0] in waits;
      assert waits[0] in Staged(st);
    }
  }
}
