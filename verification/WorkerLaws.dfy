/**
 * What each step of the worker group does, said per operation: where a new one goes, where one
 * that is somewhere goes next, and what the steps of publishers, sleepers and the stopping
 * thread leave alone.
 */
module WorkerLaws {
  import opened WorkerGroup
  import opened WorkerStop

  /** Where an accepted operation is. */
  datatype Spot = InCpu | InIo | With(worker: nat) | InDrain | Ran

  ghost predicate At(st: State, spot: Spot, op: nat) {
    match spot
    case InCpu => op in st.cpu
    case InIo => op in st.io
    case With(i) => i < |st.workers| && op in st.workers[i].held
    case InDrain => op in st.taken
    case Ran => op in st.executed
  }

  // ----- one place ------------------------------------------------------------------------

  lemma {:induction false} HeldBy(ws: seq<Worker>, op: nat)
    ensures op in Held(ws) <==> exists i :: 0 <= i < |ws| && op in ws[i].held
    decreases |ws|
  {
    if ws != [] {
      var k := |ws| - 1;
      HeldBy(ws[..k], op);
      assert forall i :: 0 <= i < k ==> ws[..k][i] == ws[i];
    }
  }

  lemma {:induction false} HeldTwice(ws: seq<Worker>, op: nat, i: nat, j: nat)
    requires i < j < |ws| && op in ws[i].held && op in ws[j].held
    ensures Held(ws)[op] >= 2
    decreases |ws|
  {
    var k := |ws| - 1;
    if j < k {
      HeldTwice(ws[..k], op, i, j);
    } else {
      HeldBy(ws[..k], op);
      assert ws[..k][i] == ws[i];
    }
  }

  /** An accepted operation is in one place, and any other in none. */
  lemma OneSpot(st: State, op: nat, a: Spot, b: Spot)
    requires Conserved(st) && At(st, a, op) && At(st, b, op)
    ensures a == b && op in st.accepted
  {
    HeldBy(st.workers, op);
    var held := Held(st.workers);
    assert multiset(st.accepted)[op] == st.cpu[op] + st.io[op] + held[op] + st.taken[op] + st.executed[op];
    if a.With? && b.With? && a != b {
      HeldTwice(st.workers, op, if a.worker < b.worker then a.worker else b.worker,
                if a.worker < b.worker then b.worker else a.worker);
    }
  }

  lemma SomeSpot(st: State, op: nat)
    requires Conserved(st) && op in st.accepted
    ensures exists spot :: At(st, spot, op)
  {
    HeldBy(st.workers, op);
    assert multiset(st.accepted)[op] == 1;
    if op in st.cpu {
      assert At(st, InCpu, op);
    } else if op in st.io {
      assert At(st, InIo, op);
    } else if op in st.taken {
      assert At(st, InDrain, op);
    } else if op in st.executed {
      assert At(st, Ran, op);
    } else {
      assert op in Held(st.workers);
      var i :| 0 <= i < |st.workers| && op in st.workers[i].held;
      assert At(st, With(i), op);
    }
  }

  // ----- the way of an operation ----------------------------------------------------------

  /** The worker takes the CPU queue: a bulk pop, or a look that has found nothing of its own. */
  predicate TakesCpu(m: Move) {
    m == Take(Cpu) || m == Relook(Cpu) || m == LookCpu(false)
  }

  /**
   * The worker takes the I/O queue: a bulk pop, a look unless the submission queue is full, or
   * the last look of the final drain, unless that finds nothing at all to do.
   */
  predicate TakesIo(m: Move) {
    m == Take(Io) || m == Relook(Io) || (m.LookIo? && !m.full) || m == LastIo
  }

  lemma MovePops(w: Worker, m: Move, v: View)
    ensures Pops(w, m, v, Cpu) <==> TakesCpu(m)
    ensures Pops(w, m, v, Io) <==> TakesIo(m) && (m == LastIo ==> v.io || w.held != multiset{})
  {
  }

  lemma MoveGives(w: Worker, m: Move, op: nat)
    ensures op in Gives(m) <==> (m.Execute? && op == m.op) || (m.Spill? && op in m.ops)
    ensures m.Spill? ==> Adds(w, m, Cpu) == m.ops
  {
  }

  /** Where an operation is after a step. */
  function NextSpot(a: Action, op: nat, spot: Spot): Spot {
    match spot
    case InCpu => if a.Work? && TakesCpu(a.move) then With(a.worker) else if a == DrainTake(Cpu) then InDrain else InCpu
    case InIo => if a.Work? && TakesIo(a.move) then With(a.worker) else if a == DrainTake(Io) then InDrain else InIo
    case With(i) =>
      if !a.Work? || a.worker != i then With(i)
      else if a.move.Execute? && a.move.op == op then Ran
      else if a.move.Spill? && op in a.move.ops then InCpu
      else With(i)
    case InDrain => if a.DrainExecute? && a.op == op then Ran else InDrain
    case Ran => Ran
  }

  /** What becomes of an operation that is somewhere. */
  lemma StepSpot(st: State, a: Action, fatal: bool, op: nat, spot: Spot)
    requires Enabled(st, a, fatal) && Conserved(st) && At(st, spot, op)
    ensures At(Step(st, a, fatal), NextSpot(a, op, spot), op)
  {
    hide Conserved, May, New, MayStop, WorkerStep, Spawned, TakesCpu, TakesIo;
    if a.Work? {
      WorkSpot(st, a.worker, a.move, fatal, op, spot);
    } else if a.DrainExecute? {
      OneOnly(st, op, spot);
      DrainSpot(st, a, fatal, op, spot);
    } else {
      OtherSpot(st, a, fatal, op, spot);
    }
  }

  lemma OtherSpot(st: State, a: Action, fatal: bool, op: nat, spot: Spot)
    requires Enabled(st, a, fatal) && !a.Work? && !a.DrainExecute? && At(st, spot, op)
    ensures At(Step(st, a, fatal), NextSpot(a, op, spot), op)
  {
    hide May, New, MayStop, Suspended, WorkerStep, Spawned;
  }

  lemma DrainSpot(st: State, a: Action, fatal: bool, op: nat, spot: Spot)
    requires Enabled(st, a, fatal) && a.DrainExecute? && At(st, spot, op)
    ensures At(Step(st, a, fatal), NextSpot(a, op, spot), op)
  {
  }

  lemma OneOnly(st: State, op: nat, spot: Spot)
    requires Conserved(st) && At(st, spot, op)
    ensures spot.With? ==> st.workers[spot.worker].held[op] == 1
    ensures spot == InDrain ==> st.taken[op] == 1
  {
    HeldBy(st.workers, op);
    assert multiset(st.accepted)[op] <= 1;
    if spot.With? {
      HeldOf(st.workers, op, spot.worker);
    }
  }

  lemma {:induction false} HeldOf(ws: seq<Worker>, op: nat, i: nat)
    requires i < |ws|
    ensures ws[i].held[op] <= Held(ws)[op]
    decreases |ws|
  {
    if i < |ws| - 1 {
      HeldOf(ws[..|ws| - 1], op, i);
    }
  }

  lemma WorkSpot(st: State, i: nat, m: Move, fatal: bool, op: nat, spot: Spot)
    requires Enabled(st, Work(i, m), fatal) && Conserved(st) && At(st, spot, op)
    ensures At(WorkerStep(st, i, m), NextSpot(Work(i, m), op, spot), op)
  {
    hide Conserved, May, Moved, Popped, Pops, Gives, Spawns, Keeps, Adds, TakesCpu, TakesIo;
    if spot.With? {
      if spot.worker == i {
        OneOnly(st, op, spot);
        MoveGives(st.workers[i], m, op);
        HeldSpot(st, i, m, op);
      }
    } else {
      MovePops(st.workers[i], m, Seen(st));
      QueueSpot(st, i, m, op);
    }
  }

  lemma QueueSpot(st: State, i: nat, m: Move, op: nat)
    requires i < |st.workers|
    ensures var st' := WorkerStep(st, i, m);
            && (op in st.cpu ==>
                  if Pops(st.workers[i], m, Seen(st), Cpu) then op in st'.workers[i].held else op in st'.cpu)
            && (op in st.io ==>
                  if Pops(st.workers[i], m, Seen(st), Io) then op in st'.workers[i].held else op in st'.io)
  {
    hide NextPc, Pops, Gives, Keeps, Adds;
  }

  lemma HeldSpot(st: State, i: nat, m: Move, op: nat)
    requires i < |st.workers| && st.workers[i].held[op] == 1
    ensures var st' := WorkerStep(st, i, m);
            && (op !in Gives(m) ==> op in st'.workers[i].held)
            && (m.Execute? && m.op == op ==> op in st'.executed)
            && (op in Adds(st.workers[i], m, Cpu) ==> op in st'.cpu)
  {
    hide NextPc, Pops, Gives, Keeps, Adds;
  }

  // ----- new operations -------------------------------------------------------------------

  /** The operations a step brings in. */
  function Brings(a: Action): set<nat> {
    match a
    case Publish(op, q) => {op}
    case Work(i, m) => if m.Execute? then m.cpu + m.io else if m.Fetch? then m.waits else {}
    case DrainTimers(waits) => waits
    case DrainExecute(op, spawned) => spawned
    case _ => {}
  }

  /**
   * A publish to a closing context is refused and changes nothing else. What a step brings in
   * otherwise is accepted.
   */
  lemma StepAccepts(st: State, a: Action, fatal: bool)
    requires Enabled(st, a, fatal)
    ensures a.Publish? && st.closing ==> Step(st, a, fatal) == st.(rejected := st.rejected + {a.op})
    ensures !(a.Publish? && st.closing) ==>
              && Step(st, a, fatal).rejected == st.rejected
              && Step(st, a, fatal).accepted == st.accepted + Brings(a)
  {
    hide May, New, MayStop, Suspended, WorkerStep, Accepted, Drained, Seen, Spawned, Brings;
    match a
    case Work(i, m) => WorkAccepts(st, i, m);
    case Publish(op, q) => PublishAccepts(st, op, q);
    case DrainTake(q) => DrainAccepts(st, q);
    case DrainExecute(op, spawned) => ExecuteAccepts(st, op, spawned, fatal);
    case _ => OtherAccepts(st, a);
  }

  lemma OtherAccepts(st: State, a: Action)
    requires !a.Work? && !a.Publish? && !a.DrainTake? && !a.DrainExecute?
    ensures Brings(a) == if a.DrainTimers? then a.waits else {}
    ensures st.accepted + {} == st.accepted
  {
  }

  lemma ExecuteAccepts(st: State, op: nat, spawned: set<nat>, fatal: bool)
    requires Enabled(st, DrainExecute(op, spawned), fatal)
    ensures Brings(DrainExecute(op, spawned)) == spawned
    ensures var st' := Spawned(st.(taken := st.taken - multiset{op}, executed := st.executed + multiset{op}), spawned);
            st'.rejected == st.rejected && st'.accepted == st.accepted + spawned
  {
  }

  lemma WorkAccepts(st: State, i: nat, m: Move)
    requires i < |st.workers|
    ensures WorkerStep(st, i, m).rejected == st.rejected
    ensures WorkerStep(st, i, m).accepted == st.accepted + Brings(Work(i, m))
  {
    hide NextPc, Pops, Gives, Keeps, Adds, Popped;
  }

  lemma PublishAccepts(st: State, op: nat, q: Queue)
    ensures Accepted(st, op, q).rejected == st.rejected && Brings(Publish(op, q)) == {op}
    ensures Accepted(st, op, q).accepted == st.accepted + {op}
  {
  }

  lemma DrainAccepts(st: State, q: Queue)
    ensures Drained(st, q).rejected == st.rejected && Brings(DrainTake(q)) == {}
    ensures Drained(st, q).accepted == st.accepted == st.accepted + {}
  {
  }

  /** Where a new operation goes. */
  function FirstSpot(st: State, a: Action, op: nat): Spot
    requires op in Brings(a)
    requires a.Work? ==> a.worker < |st.workers|
    requires a.DrainExecute? ==> st.stop.Draining? && st.stop.owner.Within?
  {
    match a
    case Publish(_, q) => if q == Cpu then InCpu else InIo
    case Work(i, m) =>
      if m.Execute? && st.workers[i].pc == Finishing(false) then if op in m.cpu then InCpu else InIo
      else With(i)
    case DrainTimers(_) => InDrain
    case DrainExecute(_, _) => With(st.stop.owner.worker)
    case _ => Ran
  }

  lemma NewSpot(st: State, a: Action, fatal: bool, op: nat)
    requires Enabled(st, a, fatal) && op in Brings(a) && !(a.Publish? && st.closing)
    ensures At(Step(st, a, fatal), FirstSpot(st, a, op), op)
  {
    hide May, New, MayStop, Suspended, WorkerStep;
    if a.Work? {
      WorkNew(st, a.worker, a.move, op);
    }
  }

  lemma WorkNew(st: State, i: nat, m: Move, op: nat)
    requires i < |st.workers| && op in Brings(Work(i, m))
    ensures At(WorkerStep(st, i, m), FirstSpot(st, Work(i, m), op), op)
  {
    hide NextPc, Pops, Gives, Popped;
    if Outside(st.workers[i], m) {
      assert op in Adds(st.workers[i], m, Cpu) || op in Adds(st.workers[i], m, Io);
    } else {
      assert op in multiset(Keeps(st.workers[i], m));
    }
  }

  /** Nothing runs that was not where it is run from, and nothing is forgotten that ran. */
  lemma StepRuns(st: State, a: Action, fatal: bool)
    requires Enabled(st, a, fatal)
    ensures Step(st, a, fatal).executed ==
            st.executed + (if a.Work? && a.move.Execute? then multiset{a.move.op}
                           else if a.DrainExecute? then multiset{a.op} else multiset{})
  {
    hide May, NextPc, Pops, Gives, Spawns, Keeps, Adds, New, MayStop, Suspended;
  }

  // ----- publishers -----------------------------------------------------------------------

  /** A publish under the lock puts the operation in its queue and leaves all else as it is. */
  lemma PublishLaw(st: State, op: nat, q: Queue, fatal: bool)
    requires Enabled(st, Publish(op, q), fatal) && !st.closing
    ensures var st' := Step(st, Publish(op, q), fatal);
            && st'.cpu == (if q == Cpu then st.cpu + multiset{op} else st.cpu)
            && st'.io == (if q == Io then st.io + multiset{op} else st.io)
            && st'.workers == st.workers && st'.taken == st.taken && st'.executed == st.executed
            && st'.awake == st.awake && st'.running == st.running && st'.closing == st.closing && st'.stop == st.stop
            && st'.lock == Pushed
  {
  }

  /**
   * A wake, for a publish or for timers of a context with everybody asleep, ends without
   * touching a worker exactly when all running workers were counted awake, or none is suspended;
   * otherwise one suspended worker is signalled. It changes nothing else.
   */
  lemma WakeLaw(st: State, a: Action, fatal: bool)
    requires Enabled(st, a, fatal)
    requires a.TimerWake? || a.LoadAwake? || a.LoadRunning? || a.WakeOne? || a.Broadcast?
    ensures var st' := Step(st, a, fatal);
            && st' == st.(workers := st'.workers, lock := st'.lock) && |st'.workers| == |st.workers|
            && (forall j :: 0 <= j < |st.workers| ==>
                  st'.workers[j] ==
                  if a == WakeOne(j) then st.workers[j].(signal := true) else st.workers[j])
            && (a.TimerWake? ==> st'.lock == if st.awake == 0 && !st.closing then Pushed else Free)
            && (a.LoadAwake? ==> st'.lock == Loaded(st.awake))
            && (a.LoadRunning? ==> st'.lock == if st.running <= st.lock.awake then Free else Searching)
            && (a.WakeOne? || a.Broadcast? ==> st'.lock == Free)
  {
  }

  // ----- workers --------------------------------------------------------------------------

  /** A worker's step leaves the other workers, the lock, the stop and what it took alone. */
  lemma WorkLaw(st: State, i: nat, m: Move, fatal: bool)
    requires Enabled(st, Work(i, m), fatal)
    ensures var st' := Step(st, Work(i, m), fatal);
            && |st'.workers| == |st.workers|
            && (forall j :: 0 <= j < |st.workers| && j != i ==> st'.workers[j] == st.workers[j])
            && st'.lock == st.lock && st'.stop == st.stop && st'.closing == st.closing && st'.taken == st.taken
            && st'.workers[i].signal == (st.workers[i].signal && !m.Poll?)
  {
    hide May, NextPc, Popped, Gives, Spawns, Keeps, New, Adds;
  }

  /** A worker that takes a queue takes all of it, and no other step takes from a queue. */
  lemma TakeLaw(st: State, i: nat, m: Move, fatal: bool)
    requires Enabled(st, Work(i, m), fatal)
    ensures var st' := Step(st, Work(i, m), fatal);
            && (TakesCpu(m) ==> st'.cpu == multiset{} && st'.io == st.io)
            && (TakesIo(m) ==> st'.io == multiset{} && st'.cpu == st.cpu)
            && (TakesCpu(m) ==> st'.workers[i].held == st.workers[i].held + st.cpu)
            && (TakesIo(m) ==> st'.workers[i].held == st.workers[i].held + st.io)
            && (TakesCpu(m) || TakesIo(m) ==> st'.executed == st.executed && st'.accepted == st.accepted)
            && (!TakesCpu(m) ==> st'.cpu >= st.cpu) && (!TakesIo(m) ==> st'.io >= st.io)
  {
    hide May, New, Seen, WorkerStep, TakesCpu, TakesIo, Gives, Adds, Spawns, Keeps;
    TakesOnly(st.workers[i], m);
    TakeQueues(st, i, m);
    if TakesCpu(m) || TakesIo(m) {
      TakeWorker(st, i, m);
    }
  }

  lemma TakeQueues(st: State, i: nat, m: Move)
    requires i < |st.workers|
    ensures WorkerStep(st, i, m).cpu
         == (if TakesCpu(m) then multiset{} else st.cpu) + Adds(st.workers[i], m, Cpu)
    ensures WorkerStep(st, i, m).io
         == (if TakesIo(m) then multiset{} else st.io) + Adds(st.workers[i], m, Io)
  {
    hide Moved, Pops, Gives, Spawns, Keeps, TakesCpu, TakesIo, Adds, Popped;
    PoppedAre(st, i, m);
  }

  lemma TakeWorker(st: State, i: nat, m: Move)
    requires i < |st.workers| && (TakesCpu(m) || TakesIo(m))
    ensures var st' := WorkerStep(st, i, m);
            && st'.workers[i].held == st.workers[i].held + (if TakesCpu(m) then st.cpu else st.io)
            && st'.executed == st.executed && st'.accepted == st.accepted
  {
    hide NextPc, Pops, Gives, Spawns, Keeps, TakesCpu, TakesIo, Adds, Popped;
    PoppedAre(st, i, m);
    TakesOnly(st.workers[i], m);
    TakeJoins(st.workers[i].held, st.cpu, st.io);
  }

  lemma TakeJoins(held: multiset<nat>, cpu: multiset<nat>, io: multiset<nat>)
    ensures held - multiset{} + multiset({}) + cpu + multiset{} == held + cpu
    ensures held - multiset{} + multiset({}) + multiset{} + io == held + io
  {
  }

  lemma PoppedAre(st: State, i: nat, m: Move)
    requires i < |st.workers|
    ensures Popped(st, i, m, Cpu) == if TakesCpu(m) then st.cpu else multiset{}
    ensures Popped(st, i, m, Io) == if TakesIo(m) then st.io else multiset{}
  {
    hide Pops, TakesCpu, TakesIo;
    MovePops(st.workers[i], m, Seen(st));
  }

  lemma TakesOnly(w: Worker, m: Move)
    ensures TakesCpu(m) ==> !TakesIo(m)
    ensures TakesCpu(m) || TakesIo(m) ==>
              && Gives(m) == Adds(w, m, Cpu) == Adds(w, m, Io) == multiset{}
              && Spawns(m) == Keeps(w, m) == {} && !m.Execute?
  {
    hide Gives, Adds, Spawns, Keeps;
    if TakesCpu(m) || TakesIo(m) {
      PlainAdds(w, m);
    }
  }

  /** A check before sleeping goes on exactly when it finds nothing, and else the worker gets up. */
  lemma LookLaw(st: State, i: nat, m: Move, fatal: bool)
    requires Enabled(st, Work(i, m), fatal)
    ensures var pc' := Step(st, Work(i, m), fatal).workers[i].pc;
            && (m.Poll? ==> pc' == if m.found then Unlinking else CheckCpu)
            && (m.LookCpu? ==> pc' == if m.found || st.cpu != multiset{} then Unlinking else CheckIo)
            && (m.LookIo? ==> pc' == if m.found || st.io != multiset{} then Unlinking else CheckStop)
            && (m.LookStop? ==> pc' == if st.closing then Unlinking else Arming)
            && (m == Relook(Cpu) ==> pc' == if st.cpu != multiset{} then Unlinking else Arming)
            && (m == Relook(Io) ==> pc' == if st.io != multiset{} then Unlinking else Arming)
            && (pc' == Blocked ==> m.Block? || st.workers[i].pc == Blocked)
            && (m.Admit? ==> pc' == if st.closing then Leaving else Entering)
            && (pc'.Done? && m.LastIo? ==> st.io == multiset{} && st.workers[i].held == multiset{})
            && (pc'.Closing? && m.LastCpu? ==> st.cpu == multiset{})
  {
    hide Pops, Gives, Spawns, Keeps, Adds, New, InLoop;
  }

  /**
   * A worker is in the suspend list from its link to its unlink, whatever else it does meanwhile,
   * and it gets out of the last checks and of the wait only by unlinking.
   */
  lemma SuspendLaw(w: Worker, m: Move, v: View, fatal: bool, w': Worker)
    requires May(w, m, v, fatal) && w'.pc == NextPc(w, m, v)
    ensures Suspended(w') <==> m.Link? || (Suspended(w) && !m.Unlink?)
    ensures m.GiveUp? || m.Return? || (m.Spill? && w.pc.Polling?) ==> w'.pc == Unlinking
    ensures m.Unlink? ==> w'.pc == Waking
    ensures m.Rise? ==> w'.pc == Active
    ensures m.Doze? ==> w'.pc == Polling
    ensures m.Block? ==> w'.pc == Blocked
  {
  }

  /**
   * How a thread enters and leaves run(): a context closed late and a failed entry are drained,
   * a refused one is left at once, and a drained worker takes itself off the counters last.
   */
  lemma EntryLaw(w: Worker, m: Move, v: View, fatal: bool)
    requires May(w, m, v, fatal)
    ensures var pc' := NextPc(w, m, v);
            && (m.Start? ==> pc' == Starting) && (m.Enter? ==> pc' == Active) && (m.Refuse? ==> pc' == Leaving)
            && (m.Late? ==> pc' == Finishing(false)) && (m.FailEnter? ==> pc' == Finishing(m.added))
            && (m.Finish? ==> pc' == Finishing(true)) && (m.LastCpu? ==> pc' == Closing(w.pc.counted))
            && (m.LastIo? ==> pc' == if v.io || w.held != multiset{} then Finishing(w.pc.counted)
                                     else Done(w.pc.counted))
            && (m.Retire? ==> pc' == Leaving) && (m.Release? ==> pc' == Out)
            && (m.Take? || m.Fetch? || m.Execute? ==> pc' == w.pc)
  {
  }

  // ----- the stopping thread --------------------------------------------------------------

  /** A stop is requested, published, drained and over, in this order and by one thread. */
  lemma StopLaw(st: State, a: Action, fatal: bool)
    requires Enabled(st, a, fatal)
    ensures var st' := Step(st, a, fatal);
            && st'.stop == (match a
                            case RequestStop(owner) => Requested(owner)
                            case PublishStop => Closed(st.stop.owner)
                            case AllGone => Draining(st.stop.owner)
                            case SetStopped => Stopped(st.stop.owner)
                            case _ => st.stop)
            && (st'.closing <==> st.closing || a == PublishStop)
            && (a == SetStopped ==> st.cpu == st.io == st.taken == multiset{})
            && (a == DrainTake(Cpu) ==> st'.cpu == multiset{} && st'.taken == st.taken + st.cpu && st'.io == st.io)
            && (a == DrainTake(Io) ==> st'.io == multiset{} && st'.taken == st.taken + st.io && st'.cpu == st.cpu)
  {
  }
}
