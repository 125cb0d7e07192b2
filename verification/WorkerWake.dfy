/**
 * No lost wakeup: while the context is open, work in a shared queue is never left with every
 * worker of the loop asleep or past its last look at that queue. The shortcut that skips the
 * wake compares two counters read at different times, and this is exactly right as long as no
 * worker that is counted awake leaves the loop of an open context.
 */
module WorkerWake {
  import opened WorkerGroup

  /** The worker will not look at queue `q` again before it blocks. */
  predicate Committed(w: Worker, q: Queue) {
    w.pc.CheckStop? || w.pc.Arming? || w.pc.Blocked? || (q == Cpu && w.pc.CheckIo?)
  }

  /** A draining worker that will look at `q` once more before it leaves. */
  predicate LastLooks(w: Worker, q: Queue) {
    w.pc.Finishing? || (q == Io && w.pc.Closing?)
  }

  /** A worker that will look at `q`, or has a signal that ends its wait. */
  predicate Attends(w: Worker, q: Queue) {
    (InLoop(w) && (Committed(w, q) ==> w.signal)) || LastLooks(w, q)
  }

  ghost predicate Attended(ws: seq<Worker>, q: Queue) {
    exists w <- ws :: Attends(w, q)
  }

  ghost predicate AnyInLoop(ws: seq<Worker>) {
    exists w <- ws :: InLoop(w)
  }

  /** Queue `q` holds work, nobody is about to wake a worker, and none will come by itself. */
  ghost predicate Lost(st: State, q: Queue) {
    !st.closing && st.lock.Free? && Queued(st, q) != multiset{} && AnyInLoop(st.workers) && !Attended(st.workers, q)
  }

  // ----- the invariant ------------------------------------------------------------------

  ghost predicate Served(st: State, q: Queue) {
    Queued(st, q) == multiset{} || !AnyInLoop(st.workers) || Attended(st.workers, q)
  }

  /** An open context is not left by a worker counted as awake. */
  ghost predicate Stays(st: State) {
    forall w <- st.workers :: Awake(w) ==> InLoop(w)
  }

  ghost predicate Guarded(st: State, q: Queue) {
    !st.closing && (st.lock.Free? || (st.lock.Loaded? && st.lock.awake > 0)) ==> Served(st, q)
  }

  ghost predicate WakeInv(st: State, n: nat, fatal: bool) {
    && |st.workers| == n && Counted(st)
    && (st.closing || st.stop.Never? || st.stop.Requested?)
    && (!fatal && !st.closing ==> Stays(st))
    && Guarded(st, Cpu) && Guarded(st, Io)
  }

  // ----- one worker's step --------------------------------------------------------------

  predicate Filled(v: View, q: Queue) {
    if q == Cpu then v.cpu else v.io
  }

  /** What a worker's step does to its attention for a queue that it does not pop. */
  lemma MoveAttends(w: Worker, m: Move, v: View, fatal: bool, q: Queue, w': Worker)
    requires May(w, m, v, fatal) && w'.pc == NextPc(w, m, v) && w'.signal == (w.signal && !m.Poll?)
    ensures InLoop(w') && !InLoop(w) ==> Attends(w', q)
    ensures Attends(w, q) && Filled(v, q) && !Pops(w, m, v, q) ==> Attends(w', q)
    ensures Adds(w, m, q) != multiset{} ==> Attends(w', q) && !Pops(w, m, v, q)
    ensures !fatal && !v.closing && InLoop(w) ==> InLoop(w')
    ensures !fatal && !v.closing && Awake(w') && (Awake(w) ==> InLoop(w)) ==> InLoop(w')
  {
  }

  lemma PutAttended(ws: seq<Worker>, i: nat, w': Worker, q: Queue)
    requires i < |ws|
    ensures Attends(w', q) ==> Attended(ws[i := w'], q)
    ensures Attended(ws, q) && (Attends(ws[i], q) ==> Attends(w', q)) ==> Attended(ws[i := w'], q)
    ensures AnyInLoop(ws[i := w']) && !InLoop(w') ==> AnyInLoop(ws)
    ensures InLoop(ws[i]) ==> AnyInLoop(ws)
  {
    var ws' := ws[i := w'];
    assert ws'[i] == w';
    if Attended(ws, q) && (Attends(ws[i], q) ==> Attends(w', q)) {
      var j :| 0 <= j < |ws| && Attends(ws[j], q);
      assert Attends(ws'[j], q);
    }
    if AnyInLoop(ws') && !InLoop(w') {
      var j :| 0 <= j < |ws'| && InLoop(ws'[j]);
      assert InLoop(ws[j]);
    }
  }

  /** A worker's step does not strand a queue that was served. */
  lemma WorkServed(st: State, i: nat, m: Move, fatal: bool, q: Queue)
    requires Enabled(st, Work(i, m), fatal) && Served(st, q)
    ensures Served(WorkerStep(st, i, m), q)
  {
    hide May, NextPc, Pops, Committed, InLoop, Awake, Attended, AnyInLoop, Adds, Attends, Gives, Keeps, Spawns;
    var w, w', st' := st.workers[i], Moved(st, i, m), WorkerStep(st, i, m);
    MoveAttends(w, m, Seen(st), fatal, q, w');
    PutAttended(st.workers, i, w', q);
    if Adds(w, m, q) == multiset{} {
      QueueAfter(st, i, m, q);
    }
  }

  lemma QueueAfter(st: State, i: nat, m: Move, q: Queue)
    requires i < |st.workers| && Adds(st.workers[i], m, q) == multiset{}
    ensures Queued(WorkerStep(st, i, m), q) ==
            if Pops(st.workers[i], m, Seen(st), q) then multiset{} else Queued(st, q)
    ensures Filled(Seen(st), q) <==> Queued(st, q) != multiset{}
  {
    hide Pops, Adds;
  }

  lemma StaysStep(st: State, i: nat, m: Move)
    requires Enabled(st, Work(i, m), false) && !st.closing && Stays(st)
    ensures Stays(WorkerStep(st, i, m))
  {
    hide May, NextPc, Pops, Attends, InLoop, Awake, Gives, Keeps, Spawns, Adds;
    var w, w' := st.workers[i], Moved(st, i, m);
    MoveAttends(w, m, Seen(st), false, Cpu, w');
  }

  // ----- the publisher's steps ----------------------------------------------------------

  /** A loaded count above zero means that somebody is awake, and will look. */
  lemma LoadServed(st: State, n: nat, fatal: bool, q: Queue)
    requires WakeInv(st, n, fatal) && (!fatal || n <= 1) && !st.closing && st.awake > 0
    ensures Served(st, q)
  {
    CountNone(st.workers, Awake);
    var i :| 0 <= i < |st.workers| && Awake(st.workers[i]);
    if InLoop(st.workers[i]) {
      assert Attends(st.workers[i], q);
    } else {
      assert fatal && st.workers == [st.workers[i]];
    }
  }

  /** The shortcut is right when nobody is in run(). */
  lemma NobodyServed(st: State, q: Queue)
    requires Counted(st) && st.running <= 0
    ensures Served(st, q)
  {
    CountNone(st.workers, Inside);
  }

  /** When nobody is suspended, every worker of the loop will look. */
  lemma BroadcastServed(st: State, q: Queue)
    requires forall w <- st.workers :: !Suspended(w)
    ensures Served(st, q)
  {
    if AnyInLoop(st.workers) {
      var w :| w in st.workers && InLoop(w);
      assert Attends(w, q);
    }
  }

  lemma WakeServed(st: State, j: nat, q: Queue)
    requires j < |st.workers| && Suspended(st.workers[j])
    ensures Served(Signalled(st, j), q)
  {
    PutAttended(st.workers, j, st.workers[j].(signal := true), q);
  }

  // ----- every step ---------------------------------------------------------------------

  lemma GuardedStep(st: State, a: Action, n: nat, fatal: bool, q: Queue)
    requires WakeInv(st, n, fatal) && Enabled(st, a, fatal) && (!fatal || n <= 1)
    ensures Guarded(Step(st, a, fatal), q)
  {
    hide May, NextPc, Pops, Attended, AnyInLoop, Counted, Stays, Served, Suspended, WorkerStep;
    assert Guarded(st, q);
    match a {
      case Work(i, m) =>
        WorkLock(st, i, m);
        if !st.closing && Served(st, q) {
          WorkServed(st, i, m, fatal, q);
        }
      case LoadAwake =>
        if !st.closing && st.awake > 0 {
          LoadServed(st, n, fatal, q);
        }
        SameServed(st, Step(st, a, fatal), q);
      case LoadRunning =>
        if st.running <= 0 {
          NobodyServed(st, q);
        }
        SameServed(st, Step(st, a, fatal), q);
      case WakeOne(j) => WakeServed(st, j, q);
      case Broadcast =>
        BroadcastServed(st, q);
        SameServed(st, Step(st, a, fatal), q);
      case RequestStop(owner) => SameServed(st, Step(st, a, fatal), q);
      case _ =>
    }
  }

  lemma WorkLock(st: State, i: nat, m: Move)
    requires i < |st.workers|
    ensures WorkerStep(st, i, m).lock == st.lock && WorkerStep(st, i, m).closing == st.closing
  {
  }

  lemma SameServed(st: State, st': State, q: Queue)
    requires st'.workers == st.workers && st'.cpu == st.cpu && st'.io == st.io
    ensures Served(st', q) == Served(st, q)
  {
  }

  lemma WakeInvStep(st: State, a: Action, n: nat, fatal: bool)
    requires WakeInv(st, n, fatal) && Enabled(st, a, fatal) && (!fatal || n <= 1)
    ensures WakeInv(Step(st, a, fatal), n, fatal)
  {
    hide May, NextPc, Pops, Counted, Guarded, Suspended, InLoop, Awake;
    CountedStep(st, a, fatal);
    GuardedStep(st, a, n, fatal, Cpu);
    GuardedStep(st, a, n, fatal, Io);
    if !fatal && !Step(st, a, fatal).closing {
      StaysOn(st, a);
    }
  }

  lemma StaysOn(st: State, a: Action)
    requires Enabled(st, a, false) && !st.closing && Stays(st)
    requires st.stop.Never? || st.stop.Requested?
    ensures Stays(Step(st, a, false))
  {
    if a.Work? {
      StaysStep(st, a.worker, a.move);
    }
  }

  lemma WakeInvInitial(n: nat, fatal: bool)
    ensures WakeInv(Initial(n), n, fatal)
  {
    CountNone(Initial(n).workers, Awake);
    CountNone(Initial(n).workers, Inside);
  }

  lemma {:induction false} WakeInvRun(n: nat, acts: seq<Action>, fatal: bool)
    requires Legal(Initial(n), acts, fatal) && (!fatal || n <= 1)
    ensures WakeInv(After(Initial(n), acts, fatal), n, fatal)
    decreases |acts|
  {
    if acts == [] {
      WakeInvInitial(n, fatal);
    } else {
      var k := |acts| - 1;
      WakeInvRun(n, acts[..k], fatal);
      WakeInvStep(After(Initial(n), acts[..k], fatal), acts[k], n, fatal);
    }
  }

  /** With no fatal exit, or a single worker, no reachable state has lost a wakeup. */
  lemma NoLostWakeup(st: State, n: nat, fatal: bool, q: Queue)
    requires Reachable(st, n, fatal) && (!fatal || n <= 1)
    ensures !Lost(st, q)
  {
    var acts :| Legal(Initial(n), acts, fatal) && After(Initial(n), acts, fatal) == st;
    WakeInvRun(n, acts, fatal);
    assert Guarded(st, q);
  }

  // ----- the run that loses a wakeup ----------------------------------------------------

  /** A state in which only the first two workers have moved, and hold nothing. */
  ghost function Scene(n: nat, first: Pc, second: Pc, awake: int, running: int, op: set<nat>, lock: Lock): State
    requires n >= 2
  {
    Initial(n).(workers := Initial(n).workers[0 := Worker(first, multiset{}, false)]
                                             [1 := Worker(second, multiset{}, false)],
                cpu := multiset(op), accepted := op, awake := awake, running := running, lock := lock)
  }

  lemma Extend(n: nat, acts: seq<Action>, a: Action)
    requires Legal(Initial(n), acts, true) && Enabled(After(Initial(n), acts, true), a, true)
    ensures Legal(Initial(n), acts + [a], true)
    ensures After(Initial(n), acts + [a], true) == Step(After(Initial(n), acts, true), a, true)
  {
    assert (acts + [a])[..|acts|] == acts;
  }

  lemma ReachNext(st: State, n: nat, a: Action)
    requires Reachable(st, n, true) && Enabled(st, a, true)
    ensures Reachable(Step(st, a, true), n, true)
  {
    var acts :| Legal(Initial(n), acts, true) && After(Initial(n), acts, true) == st;
    Extend(n, acts, a);
  }

  lemma SceneFirst(n: nat, first: Pc, first': Pc, second: Pc)
    requires n >= 2
    ensures var ws := Initial(n).workers;
            var a, a', b := Worker(first, multiset{}, false), Worker(first', multiset{}, false),
                            Worker(second, multiset{}, false);
            ws[0 := a][1 := b][0 := a'] == ws[0 := a'][1 := b]
  {
  }

  /** A step of the first worker that touches no queue. */
  lemma FirstMoves(n: nat, m: Move, first: Pc, second: Pc, awake: int, running: int, op: set<nat>, lock: Lock)
    requires n >= 2 && Reachable(Scene(n, first, second, awake, running, op, lock), n, true)
    requires Plain(m) && !m.Take? && !m.Relook? && !m.LookCpu? && !m.LookIo? && !m.Poll?
    requires May(Worker(first, multiset{}, false), m, View(op != {}, false, false), true)
    ensures Reachable(Scene(n, NextPc(Worker(first, multiset{}, false), m, View(op != {}, false, false)), second,
                            awake + AwakeChange(Worker(first, multiset{}, false), m), running + RunningChange(m),
                            op, lock), n, true)
  {
    hide Reachable, May, NextPc, AwakeChange, RunningChange, Gives, Keeps, Spawns, Adds;
    var st, w := Scene(n, first, second, awake, running, op, lock), Worker(first, multiset{}, false);
    PlainAdds(w, m);
    assert op != {} ==> multiset(op) != multiset{} by {
      if x :| x in op {
        assert x in multiset(op);
      }
    }
    assert Seen(st) == View(op != {}, false, false);
    ReachNext(st, n, Work(0, m));
    assert Popped(st, 0, m, Cpu) == multiset{} && Popped(st, 0, m, Io) == multiset{};
    var st' := Scene(n, NextPc(w, m, Seen(st)), second,
                     awake + AwakeChange(w, m), running + RunningChange(m), op, lock);
    assert Moved(st, 0, m) == Worker(NextPc(w, m, Seen(st)), multiset{}, false);
    SceneFirst(n, first, NextPc(w, m, Seen(st)), second);
    assert Step(st, Work(0, m), true).workers == st'.workers;
    assert Step(st, Work(0, m), true).cpu == st'.cpu && st.io - multiset{} == st.io && st.accepted + {} == st.accepted;
    assert Step(st, Work(0, m), true) == st';
  }

  /** A step of the second worker while the queues are empty. */
  lemma SecondMoves(n: nat, m: Move, first: Pc, second: Pc, awake: int, running: int, lock: Lock)
    requires n >= 2 && Reachable(Scene(n, first, second, awake, running, {}, lock), n, true)
    requires Plain(m)
    requires May(Worker(second, multiset{}, false), m, View(false, false, false), true)
    ensures Reachable(Scene(n, first, NextPc(Worker(second, multiset{}, false), m, View(false, false, false)),
                            awake + AwakeChange(Worker(second, multiset{}, false), m), running + RunningChange(m),
                            {}, lock), n, true)
  {
    hide Reachable, May, NextPc, AwakeChange, RunningChange, Gives, Keeps, Spawns, Adds;
    var st, w := Scene(n, first, second, awake, running, {}, lock), Worker(second, multiset{}, false);
    PlainAdds(w, m);
    assert Seen(st) == View(false, false, false);
    ReachNext(st, n, Work(1, m));
    var st' := Scene(n, first, NextPc(w, m, Seen(st)), awake + AwakeChange(w, m), running + RunningChange(m), {}, lock);
    assert Step(st, Work(1, m), true).workers == st'.workers;
  }

  lemma BothEnter(n: nat)
    requires n >= 2
    ensures Reachable(Scene(n, Active, Active, 2, 2, {}, Free), n, true)
  {
    hide Reachable;
    assert Reachable(Initial(n), n, true) by {
      assert Legal(Initial(n), [], true) && After(Initial(n), [], true) == Initial(n);
      RunReaches(n, []);
    }
    var st := Scene(n, Out, Out, 0, 0, {}, Free);
    assert Initial(n).workers == st.workers && Initial(n).cpu == st.cpu;
    assert Initial(n) == st;
    FirstMoves(n, Start, Out, Out, 0, 0, {}, Free);
    FirstMoves(n, Admit, Starting, Out, 0, 1, {}, Free);
    FirstMoves(n, Enter, Entering, Out, 0, 1, {}, Free);
    SecondMoves(n, Start, Active, Out, 1, 1, Free);
    SecondMoves(n, Admit, Active, Starting, 1, 2, Free);
    SecondMoves(n, Enter, Active, Entering, 1, 2, Free);
  }

  lemma RunReaches(n: nat, acts: seq<Action>)
    requires Legal(Initial(n), acts, true)
    ensures Reachable(After(Initial(n), acts, true), n, true)
  {
  }

  /** The second worker blocks; the first fails and makes its last look at the CPU queue. */
  lemma OneBlocks(n: nat)
    requires n >= 2
    ensures Reachable(Scene(n, Closing(true), Blocked, 1, 2, {}, Free), n, true)
  {
    hide Reachable;
    BothEnter(n);
    SecondMoves(n, Link, Active, Active, 2, 2, Free);
    SecondMoves(n, Doze, Active, Linked, 2, 2, Free);
    SecondMoves(n, Poll(false), Active, Polling, 1, 2, Free);
    SecondMoves(n, LookCpu(false), Active, CheckCpu, 1, 2, Free);
    SecondMoves(n, LookIo(false, false), Active, CheckIo, 1, 2, Free);
    SecondMoves(n, LookStop, Active, CheckStop, 1, 2, Free);
    SecondMoves(n, Block, Active, Arming, 1, 2, Free);
    FirstMoves(n, Finish, Active, Blocked, 1, 2, {}, Free);
    FirstMoves(n, LastCpu, Finishing(true), Blocked, 1, 2, {}, Free);
  }

  /** A publisher counts the failed worker as awake; it is gone when the workers are counted. */
  lemma OneIsMissed(n: nat)
    requires n >= 2
    ensures Reachable(Scene(n, Out, Blocked, 0, 1, {0}, Free), n, true)
  {
    hide Reachable;
    OneBlocks(n);
    ReachNext(Scene(n, Closing(true), Blocked, 1, 2, {}, Free), n, Publish(0, Cpu));
    ReachNext(Scene(n, Closing(true), Blocked, 1, 2, {0}, Pushed), n, LoadAwake);
    FirstMoves(n, LastIo, Closing(true), Blocked, 1, 2, {0}, Loaded(1));
    FirstMoves(n, Retire, Done(true), Blocked, 1, 2, {0}, Loaded(1));
    FirstMoves(n, Release, Leaving, Blocked, 0, 2, {0}, Loaded(1));
    ReachNext(Scene(n, Out, Blocked, 0, 1, {0}, Loaded(1)), n, LoadRunning);
  }

  lemma LostWakeup(n: nat) returns (st: State)
    requires n >= 2
    ensures Reachable(st, n, true) && Lost(st, Cpu)
  {
    OneIsMissed(n);
    st := Scene(n, Out, Blocked, 0, 1, {0}, Free);
    assert InLoop(st.workers[1]);
    assert 0 in st.cpu;
  }

  /** No run of `n` workers loses a wakeup. */
  ghost predicate Safe(n: nat, fatal: bool) {
    forall st, q :: Reachable(st, n, fatal) ==> !Lost(st, q)
  }

  /**
   * The wake shortcut is safe exactly when no worker counted as awake can leave the loop of an
   * open context, or there is only one worker.
   */
  lemma SafeExactly(n: nat, fatal: bool)
    ensures Safe(n, fatal) <==> !fatal || n <= 1
  {
    hide Reachable, Lost;
    if !fatal || n <= 1 {
      forall st, q | Reachable(st, n, fatal) ensures !Lost(st, q) {
        NoLostWakeup(st, n, fatal, q);
      }
    } else {
      var st := LostWakeup(n);
    }
  }
}
