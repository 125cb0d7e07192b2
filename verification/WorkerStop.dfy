/**
 * No operation is stranded or run twice by a stop: in every run of the workers, publishers and
 * the elected stopper, what a publish accepted is run exactly once by the time the context is
 * stopped and no thread is inside run(), and what it rejected was never queued.
 */
module WorkerStop {
  import opened WorkerGroup

  ghost function Held(ws: seq<Worker>): multiset<nat> {
    if ws == [] then multiset{} else Held(ws[..|ws| - 1]) + ws[|ws| - 1].held
  }

  lemma {:induction false} HeldPut(ws: seq<Worker>, i: nat, w: Worker)
    requires i < |ws|
    ensures Held(ws[i := w]) + ws[i].held == Held(ws) + w.held
    decreases |ws|
  {
    var k := |ws| - 1;
    if i < k {
      assert ws[i := w][..k] == ws[..k][i := w] && ws[i := w][k] == ws[k];
      HeldPut(ws[..k], i, w);
      var others, others', mine, mine', last := Held(ws[..k]), Held(ws[..k][i := w]), ws[i].held, w.held, ws[k].held;
      assert others' + last + mine == others' + mine + last == others + mine' + last == others + last + mine';
    } else {
      assert ws[i := w][..k] == ws[..k];
    }
  }

  lemma {:induction false} HeldNone(ws: seq<Worker>)
    requires forall w <- ws :: w.held == multiset{}
    ensures Held(ws) == multiset{}
    decreases |ws|
  {
    if ws != [] {
      HeldNone(ws[..|ws| - 1]);
    }
  }

  // ----- the invariant ------------------------------------------------------------------

  /** Every accepted operation is in exactly one place, or was run once. */
  ghost predicate Conserved(st: State) {
    && multiset(st.accepted) == st.cpu + st.io + Held(st.workers) + st.taken + st.executed
    && st.accepted !! st.rejected
  }

  ghost predicate EmptyHanded(ws: seq<Worker>) {
    forall w <- ws :: Away(w) ==> w.held == multiset{}
  }

  /** A thread that can only find the context stopped. */
  predicate Gone(w: Worker) {
    w.pc.Out? || w.pc.Starting? || w.pc.Leaving?
  }

  ghost predicate OthersGone(ws: seq<Worker>, owner: Stopper) {
    forall j :: 0 <= j < |ws| && owner != Within(j) ==> Gone(ws[j])
  }

  /** A worker past its last look at a queue of a stopped context left that queue empty. */
  ghost predicate LeftEmpty(cpu: multiset<nat>, io: multiset<nat>, w: Worker) {
    && (w.pc.Closing? ==> cpu == multiset{})
    && (Away(w) ==> cpu == multiset{} && io == multiset{})
  }

  ghost predicate Settled(st: State) {
    match st.stop
    case Never => !st.closing && st.taken == multiset{}
    case Requested(owner) => !st.closing && st.taken == multiset{} && Waits(st.workers, owner)
    case Closed(owner) => st.closing && st.taken == multiset{} && Waits(st.workers, owner)
    case Draining(owner) => st.closing && Waits(st.workers, owner) && OthersGone(st.workers, owner)
    case Stopped(owner) =>
      && st.closing && st.taken == multiset{} && OthersGone(st.workers, owner)
      && (if owner.External? then st.cpu == multiset{} && st.io == multiset{}
          else owner.worker < |st.workers| && LeftEmpty(st.cpu, st.io, st.workers[owner.worker]))
  }

  /** A worker that stops the context waits in its call of stop(). */
  ghost predicate Waits(ws: seq<Worker>, owner: Stopper) {
    owner.Within? ==> owner.worker < |ws| && MayStop(ws[owner.worker])
  }

  ghost predicate StopInv(st: State) {
    Counted(st) && Conserved(st) && EmptyHanded(st.workers) && Settled(st)
  }

  // ----- one worker's step --------------------------------------------------------------

  lemma MoveHeld(st: State, i: nat, m: Move, fatal: bool)
    requires Enabled(st, Work(i, m), fatal)
    requires Away(st.workers[i]) ==> st.workers[i].held == multiset{}
    ensures Away(Moved(st, i, m)) ==> Moved(st, i, m).held == multiset{}
  {
    hide NextPc, Pops, Gives, Spawns, Keeps, May, Away;
    if Away(Moved(st, i, m)) {
      MoveAway(st.workers[i], m, Seen(st), fatal, Moved(st, i, m));
    }
  }

  /** A worker that is away has given everything up before, and takes nothing. */
  lemma MoveAway(w: Worker, m: Move, v: View, fatal: bool, w': Worker)
    requires May(w, m, v, fatal) && w'.pc == NextPc(w, m, v) && Away(w')
    ensures Away(w) || w.held == multiset{}
    ensures Gives(m) == multiset{} && Keeps(w, m) == {} && !Pops(w, m, v, Cpu) && !Pops(w, m, v, Io)
  {
  }

  /** What enters and leaves the places balances. */
  lemma Balance(all: multiset<nat>, cpu: multiset<nat>, io: multiset<nat>, held: multiset<nat>, taken: multiset<nat>,
                executed: multiset<nat>, mine: multiset<nat>, mine': multiset<nat>, held': multiset<nat>,
                kept: multiset<nat>, fromCpu: multiset<nat>, fromIo: multiset<nat>, gives: multiset<nat>,
                toCpu: multiset<nat>, toIo: multiset<nat>, ran: multiset<nat>, spawned: multiset<nat>)
    requires all == cpu + io + held + taken + executed
    requires held' + mine == held + mine'
    requires gives <= mine && fromCpu <= cpu && fromIo <= io
    requires mine' == mine - gives + kept + fromCpu + fromIo
    requires gives + spawned == kept + toCpu + toIo + ran
    ensures all + spawned == (cpu - fromCpu + toCpu) + (io - fromIo + toIo) + held' + taken + (executed + ran)
  {
    var after := (cpu - fromCpu + toCpu) + (io - fromIo + toIo) + held' + taken + (executed + ran);
    forall x ensures (all + spawned)[x] == after[x] {
      assert (held' + mine)[x] == (held + mine')[x];
      assert all[x] == (cpu + io + held + taken + executed)[x];
      assert (gives + spawned)[x] == (kept + toCpu + toIo + ran)[x];
    }
  }

  /** What a worker passes on or publishes is kept, queued or run. */
  lemma MoveBalance(w: Worker, m: Move, v: View, fatal: bool)
    requires May(w, m, v, fatal)
    ensures Gives(m) <= w.held
    ensures Gives(m) + multiset(Spawns(m))
         == multiset(Keeps(w, m)) + Adds(w, m, Cpu) + Adds(w, m, Io)
          + (if m.Execute? then multiset{m.op} else multiset{})
  {
    if m.Execute? {
      JoinSets(m.cpu, m.io);
    }
  }

  lemma JoinSets(a: set<nat>, b: set<nat>)
    requires a !! b
    ensures multiset(a + b) == multiset(a) + multiset(b)
  {
  }

  lemma WorkConserved(st: State, i: nat, m: Move, fatal: bool)
    requires Enabled(st, Work(i, m), fatal) && Conserved(st)
    ensures Conserved(WorkerStep(st, i, m))
  {
    hide NextPc, Pops, May, Gives, Spawns, Keeps, Adds;
    var w, w' := st.workers[i], Moved(st, i, m);
    HeldPut(st.workers, i, w');
    JoinSets(st.accepted, Spawns(m));
    MoveBalance(w, m, Seen(st), fatal);
    var ran := if m.Execute? then multiset{m.op} else multiset{};
    Balance(multiset(st.accepted), st.cpu, st.io, Held(st.workers), st.taken, st.executed, w.held, w'.held,
            Held(st.workers[i := w']), multiset(Keeps(w, m)), Popped(st, i, m, Cpu), Popped(st, i, m, Io), Gives(m),
            Adds(w, m, Cpu), Adds(w, m, Io), ran, multiset(Spawns(m)));
  }

  lemma MoveGone(w: Worker, m: Move, v: View, fatal: bool)
    requires May(w, m, v, fatal) && v.closing && Gone(w)
    ensures NextPc(w, m, v).Out? || NextPc(w, m, v).Starting? || NextPc(w, m, v).Leaving?
    ensures Adds(w, m, Cpu) == Adds(w, m, Io) == multiset{} && !Pops(w, m, v, Cpu) && !Pops(w, m, v, Io)
  {
  }

  /** How a worker gets past its last looks. */
  lemma MoveLeaves(w: Worker, m: Move, v: View, fatal: bool, w': Worker)
    requires May(w, m, v, fatal) && w'.pc == NextPc(w, m, v)
    ensures w'.pc.Closing? ==> !v.cpu
    ensures Away(w') ==> Away(w) || (w.pc.Closing? && !v.io)
    ensures w'.pc.Closing? || Away(w') ==> Adds(w, m, Cpu) == Adds(w, m, Io) == multiset{}
  {
  }

  /** The worker that stopped the context leaves both queues empty behind it. */
  lemma MoveLeftEmpty(st: State, i: nat, m: Move, fatal: bool)
    requires Enabled(st, Work(i, m), fatal) && LeftEmpty(st.cpu, st.io, st.workers[i])
    ensures LeftEmpty(WorkerStep(st, i, m).cpu, WorkerStep(st, i, m).io, Moved(st, i, m))
  {
    hide May, NextPc, Pops, Away, Adds;
    MoveLeaves(st.workers[i], m, Seen(st), fatal, Moved(st, i, m));
  }

  lemma WorkSettled(st: State, i: nat, m: Move, fatal: bool)
    requires Enabled(st, Work(i, m), fatal) && Settled(st)
    ensures Settled(WorkerStep(st, i, m))
  {
    hide May, NextPc, Pops, MayStop, LeftEmpty, Away, Gone, WorkerStep;
    var st' := WorkerStep(st, i, m);
    WorkersAfter(st, i, m);
    if st.stop.Draining? || st.stop.Stopped? {
      if st.stop.owner == Within(i) {
        MoveLeftEmpty(st, i, m, fatal);
      } else {
        GoneStays(st, i, m, fatal);
      }
    }
  }

  /** A gone worker stays gone, and touches no queue. */
  lemma GoneStays(st: State, i: nat, m: Move, fatal: bool)
    requires Enabled(st, Work(i, m), fatal) && st.closing && Gone(st.workers[i])
    ensures Gone(Moved(st, i, m))
    ensures WorkerStep(st, i, m).cpu == st.cpu && WorkerStep(st, i, m).io == st.io
  {
    hide May, NextPc, Pops, Adds;
    MoveGone(st.workers[i], m, Seen(st), fatal);
  }

  lemma WorkersAfter(st: State, i: nat, m: Move)
    requires i < |st.workers|
    ensures var st' := WorkerStep(st, i, m);
            && st'.workers == st.workers[i := Moved(st, i, m)]
            && st'.stop == st.stop && st'.closing == st.closing && st'.taken == st.taken
  {
  }

  // ----- the other steps ----------------------------------------------------------------

  lemma PublisherSettled(st: State, a: Action, fatal: bool)
    requires Enabled(st, a, fatal) && Settled(st)
    requires a.Publish? || a.TimerWake? || a.LoadAwake? || a.LoadRunning? || a.WakeOne? || a.Broadcast?
    ensures Settled(Step(st, a, fatal))
  {
    hide May, LeftEmpty, Away, MayStop, Gone, Settled, Counted, Suspended;
    if a.Publish? && !st.closing {
      OpenSettled(st, Step(st, a, fatal));
    } else {
      SamePlaces(st, Step(st, a, fatal));
    }
  }

  lemma DrainSettled(st: State, a: Action, fatal: bool)
    requires Enabled(st, a, fatal) && Settled(st) && (a.DrainTake? || a.DrainTimers? || a.DrainExecute?)
    ensures Settled(Step(st, a, fatal))
  {
    hide May, LeftEmpty, Away, MayStop, Gone, Settled, Counted, Suspended, New;
    SamePlaces(st, Step(st, a, fatal));
  }

  lemma OpenSettled(st: State, st': State)
    requires Settled(st) && !st.closing
    requires st'.workers == st.workers && st'.stop == st.stop && st'.closing == st.closing && st'.taken == st.taken
    ensures Settled(st')
  {
  }

  lemma StopperSettled(st: State, a: Action, fatal: bool)
    requires Enabled(st, a, fatal) && Settled(st) && Counted(st)
    requires a.RequestStop? || a.PublishStop? || a.AllGone? || a.SetStopped?
    ensures Settled(Step(st, a, fatal))
  {
    hide May, LeftEmpty, Away, MayStop, Gone, Counted, Suspended, New;
    match a {
      case AllGone => AllGoneOthers(st);
      case SetStopped => SetStoppedEmpty(st);
      case _ =>
    }
  }

  lemma SettledStep(st: State, a: Action, fatal: bool)
    requires Enabled(st, a, fatal) && StopInv(st)
    ensures Settled(Step(st, a, fatal))
  {
    hide May, Settled, Counted, Conserved, EmptyHanded, Suspended, New, WorkerStep, NextPc, Pops;
    if a.Work? {
      WorkSettled(st, a.worker, a.move, fatal);
    } else if a.Publish? || a.TimerWake? || a.LoadAwake? || a.LoadRunning? || a.WakeOne? || a.Broadcast? {
      PublisherSettled(st, a, fatal);
    } else if a.DrainTake? || a.DrainTimers? || a.DrainExecute? {
      DrainSettled(st, a, fatal);
    } else {
      StopperSettled(st, a, fatal);
    }
  }

  lemma SamePlaces(st: State, st': State)
    requires Settled(st) && |st'.workers| == |st.workers|
    requires forall j :: 0 <= j < |st.workers| ==> st'.workers[j].pc == st.workers[j].pc
    requires st'.stop == st.stop && st'.closing == st.closing
    requires (st'.cpu == st.cpu && st'.io == st.io && st'.taken == st.taken) || st.stop.Draining?
    ensures Settled(st')
  {
  }

  lemma AllGoneOthers(st: State)
    requires Counted(st) && Enabled(st, AllGone, false) && Waits(st.workers, st.stop.owner)
    ensures OthersGone(st.workers, st.stop.owner)
  {
    if st.stop.owner.Within? {
      CountOnly(st.workers, Inside, st.stop.owner.worker);
    } else {
      CountNone(st.workers, Inside);
    }
  }

  lemma SetStoppedEmpty(st: State)
    requires st.cpu == multiset{} && st.io == multiset{}
    ensures forall w :: LeftEmpty(st.cpu, st.io, w)
  {
  }

  lemma ConservedStep(st: State, a: Action, fatal: bool)
    requires Enabled(st, a, fatal) && Conserved(st)
    ensures Conserved(Step(st, a, fatal))
  {
    hide May, NextPc, Pops, WorkerStep, MayStop, Held, Conserved, Suspended;
    match a {
      case Work(i, m) => WorkConserved(st, i, m, fatal);
      case Publish(op, q) =>
        if st.closing {
          RejectConserved(st, op);
        } else {
          PublishConserved(st, op, q);
        }
      case WakeOne(j) => SignalConserved(st, j);
      case DrainTake(q) => TakeConserved(st, q);
      case DrainTimers(waits) => TimersConserved(st, waits);
      case DrainExecute(op, spawned) => DrainConserved(st, op, spawned, fatal);
      case _ => SameConserved(st, Step(st, a, fatal));
    }
  }

  lemma SameConserved(st: State, st': State)
    requires Conserved(st) && st'.workers == st.workers && st'.cpu == st.cpu && st'.io == st.io && st'.taken == st.taken
    requires st'.accepted == st.accepted && st'.rejected == st.rejected && st'.executed == st.executed
    ensures Conserved(st')
  {
  }

  lemma RejectConserved(st: State, op: nat)
    requires Conserved(st) && New(st, {op})
    ensures Conserved(st.(rejected := st.rejected + {op}))
  {
  }

  lemma TakeConserved(st: State, q: Queue)
    requires Conserved(st)
    ensures Conserved(Drained(st, q))
  {
  }

  lemma TimersConserved(st: State, waits: set<nat>)
    requires Conserved(st) && New(st, waits)
    ensures Conserved(st.(taken := st.taken + multiset(waits), accepted := st.accepted + waits))
  {
    JoinSets(st.accepted, waits);
  }

  lemma SignalConserved(st: State, j: nat)
    requires Conserved(st) && j < |st.workers|
    ensures Conserved(Signalled(st, j))
  {
    HeldPut(st.workers, j, st.workers[j].(signal := true));
    Cancelled(Held(Signalled(st, j).workers), Held(st.workers), st.workers[j].held, multiset{});
  }

  lemma PublishConserved(st: State, op: nat, q: Queue)
    requires Conserved(st) && New(st, {op})
    ensures Conserved(Accepted(st, op, q))
  {
    JoinSets(st.accepted, {op});
  }

  lemma DrainConserved(st: State, op: nat, spawned: set<nat>, fatal: bool)
    requires Enabled(st, DrainExecute(op, spawned), fatal) && Conserved(st)
    ensures Conserved(Step(st, DrainExecute(op, spawned), fatal))
  {
    hide Held;
    var added := multiset(spawned);
    JoinSets(st.accepted, spawned);
    if spawned != {} {
      var i := st.stop.owner.worker;
      var w := st.workers[i];
      HeldPut(st.workers, i, w.(held := w.held + added));
      Cancelled(Held(st.workers[i := w.(held := w.held + added)]), Held(st.workers), w.held, added);
    }
    assert st.taken - multiset{op} + (st.executed + multiset{op}) == st.taken + st.executed;
  }

  lemma Cancelled(a: multiset<nat>, b: multiset<nat>, c: multiset<nat>, d: multiset<nat>)
    requires a + c == b + (c + d)
    ensures a == b + d
  {
    forall x ensures a[x] == (b + d)[x] {
      assert (a + c)[x] == (b + (c + d))[x];
    }
  }

  lemma EmptyHandedStep(st: State, a: Action, fatal: bool)
    requires Enabled(st, a, fatal) && EmptyHanded(st.workers) && Settled(st)
    ensures EmptyHanded(Step(st, a, fatal).workers)
  {
    hide May, NextPc, Pops, Settled, EmptyHanded, Suspended, WorkerStep;
    match a {
      case Work(i, m) => WorkEmptyHanded(st, i, m, fatal);
      case WakeOne(j) => SignalEmptyHanded(st, j);
      case DrainExecute(op, spawned) =>
        if spawned != {} {
          DrainEmptyHanded(st, spawned);
        }
      case _ =>
    }
  }

  lemma SignalEmptyHanded(st: State, j: nat)
    requires EmptyHanded(st.workers) && j < |st.workers|
    ensures EmptyHanded(Signalled(st, j).workers)
  {
  }

  lemma DrainEmptyHanded(st: State, spawned: set<nat>)
    requires EmptyHanded(st.workers) && Settled(st) && st.stop.Draining? && st.stop.owner.Within?
    requires spawned != {}
    ensures st.stop.owner.worker < |st.workers| && EmptyHanded(Spawned(st, spawned).workers)
  {
    var w := st.workers[st.stop.owner.worker];
    PutEmptyHanded(st.workers, st.stop.owner.worker, w.(held := w.held + multiset(spawned)));
  }

  lemma PutEmptyHanded(ws: seq<Worker>, i: nat, w: Worker)
    requires EmptyHanded(ws) && i < |ws| && (Away(w) ==> w.held == multiset{})
    ensures EmptyHanded(ws[i := w])
  {
  }

  lemma WorkEmptyHanded(st: State, i: nat, m: Move, fatal: bool)
    requires Enabled(st, Work(i, m), fatal) && EmptyHanded(st.workers)
    ensures EmptyHanded(WorkerStep(st, i, m).workers)
  {
    hide May, NextPc, Pops, WorkerStep;
    MoveHeld(st, i, m, fatal);
    WorkersAfter(st, i, m);
    PutEmptyHanded(st.workers, i, Moved(st, i, m));
  }

  lemma StopInvStep(st: State, a: Action, fatal: bool)
    requires Enabled(st, a, fatal) && StopInv(st)
    ensures StopInv(Step(st, a, fatal))
  {
    hide Enabled, Step, Counted, Conserved, EmptyHanded, Settled;
    CountedStep(st, a, fatal);
    ConservedStep(st, a, fatal);
    EmptyHandedStep(st, a, fatal);
    SettledStep(st, a, fatal);
  }

  lemma StopInvInitial(n: nat)
    ensures StopInv(Initial(n))
  {
    CountNone(Initial(n).workers, Awake);
    CountNone(Initial(n).workers, Inside);
    HeldNone(Initial(n).workers);
  }

  lemma {:induction false} StopInvRun(n: nat, acts: seq<Action>, fatal: bool)
    requires Legal(Initial(n), acts, fatal)
    ensures StopInv(After(Initial(n), acts, fatal))
    decreases |acts|
  {
    hide StopInv, Enabled, Step;
    if acts == [] {
      StopInvInitial(n);
    } else {
      var k := |acts| - 1;
      StopInvRun(n, acts[..k], fatal);
      StopInvStep(After(Initial(n), acts[..k], fatal), acts[k], fatal);
    }
  }

  // ----- the theorems -------------------------------------------------------------------

  /** In every reachable state no operation has run twice, and only accepted ones have run. */
  lemma AtMostOnce(st: State, n: nat, fatal: bool, op: nat)
    requires Reachable(st, n, fatal)
    ensures st.executed[op] <= (if op in st.accepted then 1 else 0)
    ensures op in st.rejected ==> op !in st.cpu && op !in st.io && op !in Held(st.workers) && op !in st.executed
  {
    var acts :| Legal(Initial(n), acts, fatal) && After(Initial(n), acts, fatal) == st;
    StopInvRun(n, acts, fatal);
    assert multiset(st.accepted)[op] == (st.cpu + st.io + Held(st.workers) + st.taken + st.executed)[op];
  }

  /**
   * Once the context is stopped and no thread is inside run(), every queue and every place of
   * every worker is empty and each accepted operation has run exactly once.
   */
  lemma NoStranding(st: State, n: nat, fatal: bool)
    requires Reachable(st, n, fatal) && st.stop.Stopped? && st.running == 0
    ensures st.cpu == multiset{} && st.io == multiset{} && st.taken == multiset{}
    ensures forall w <- st.workers :: w.held == multiset{}
    ensures st.executed == multiset(st.accepted)
    ensures st.accepted !! st.rejected
  {
    var acts :| Legal(Initial(n), acts, fatal) && After(Initial(n), acts, fatal) == st;
    StopInvRun(n, acts, fatal);
    hide Reachable, Legal, After;
    Empty(st);
  }

  lemma Empty(st: State)
    requires StopInv(st) && st.stop.Stopped? && st.running == 0
    ensures st.cpu == multiset{} && st.io == multiset{} && st.taken == multiset{}
    ensures forall w <- st.workers :: w.held == multiset{}
    ensures st.executed == multiset(st.accepted)
  {
    CountNone(st.workers, Inside);
    HeldNone(st.workers);
  }
}
