/**
 * When an operation can complete twice. A failed submit fails the operation prepared last and
 * queues it for delivery, but its entry stays in the submission queue. A later submit takes the
 * entry, and the completion that comes back delivers the operation again.
 */
module SubmitOnce {
  import opened WakePoll

  /** Every completion the worker can collect is of an operation it tracks. */
  ghost predicate NeverTwice(k: Kernel) {
    forall acts, o :: Legal(acts, k) && Enabled(After(acts, k), CollectIo(o), k) ==> o in After(acts, k).inflight
  }

  // ----- the invariant ------------------------------------------------------------------

  predicate DistinctIo(queue: seq<Entry>) {
    forall i, j :: 0 <= i < j < |queue| && queue[i].Io? ==> queue[i] != queue[j]
  }

  /** What the kernel has or will get is tracked, and was prepared once. */
  predicate Tidy(queue: seq<Entry>, taken: set<nat>, inflight: set<nat>) {
    taken + Operations(queue) <= inflight && taken !! Operations(queue) && DistinctIo(queue)
  }

  /** Completions are not collected any more. */
  predicate Over(p: Phase) {
    p.Aborting? || (p.Preparing? && p.back.Aborting?)
  }

  predicate Once(st: State) {
    && (Over(st.phase) || Tidy(st.queue, st.taken, st.inflight))
    && (st.phase.Preparing? ==> st.phase.back.Looping? || st.phase.back.Finishing? || st.phase.back.Aborting?)
  }

  lemma OperationsSplit(queue: seq<Entry>, n: nat)
    requires n <= |queue|
    ensures Operations(queue[..n]) + Operations(queue[n..]) == Operations(queue)
  {
    assert queue == queue[..n] + queue[n..];
    forall o | o in Operations(queue) ensures o in Operations(queue[..n]) + Operations(queue[n..]) {
      assert Io(o) in queue[..n] || Io(o) in queue[n..];
    }
    forall o | o in Operations(queue[..n]) + Operations(queue[n..]) ensures o in Operations(queue) {
      assert Io(o) in queue[..n] + queue[n..];
    }
  }

  /** Entries taken from the front are not left in the queue as well. */
  lemma TakenApart(queue: seq<Entry>, n: nat)
    requires n <= |queue| && DistinctIo(queue)
    ensures Operations(queue[..n]) !! Operations(queue[n..]) && DistinctIo(queue[n..])
  {
    forall o | o in Operations(queue[..n]) ensures o !in Operations(queue[n..]) {
      var i :| 0 <= i < n && queue[..n][i] == Io(o);
      assert queue[i] == Io(o);
      assert forall j :: 0 <= j < |queue[n..]| ==> queue[n..][j] == queue[n + j];
    }
  }

  lemma SubmitTidy(st: State, answer: int)
    requires answer <= |st.queue| && Tidy(st.queue, st.taken, st.inflight)
    ensures var st' := Submit(st, answer); Tidy(st'.queue, st'.taken, st'.inflight)
  {
    hide Operations, DistinctIo, Polls;
    var n := if answer < 0 then 0 else answer;
    OperationsSplit(st.queue, n);
    TakenApart(st.queue, n);
  }

  lemma PollTidy(st: State, c: Channel)
    requires Tidy(st.queue, st.taken, st.inflight)
    ensures Tidy(st.queue + [Poll(c)], st.taken, st.inflight)
  {
    PollIsNoIo(st.queue, c);
  }

  lemma ArmTidy(st: State, c: Channel, full: bool, answer: int)
    requires answer <= |st.queue| + 1 && Tidy(st.queue, st.taken, st.inflight)
    ensures var st' := Arm(st, c, full, answer).0; Tidy(st'.queue, st'.taken, st'.inflight) && st'.phase == st.phase
  {
    hide Tidy, Operations, Polls;
    PollTidy(st, c);
    SubmitTidy(st.(queue := st.queue + [Poll(c)]), answer);
  }

  lemma PrepareOnce(st: State, o: nat)
    requires Once(st) && MayPrepare(st) && o !in st.inflight
    ensures Once(PrepareStep(st, o))
  {
    if !Over(st.phase) {
      var queue := st.queue + [Io(o)];
      forall x | x in Operations(queue) ensures x in Operations(st.queue) + {o} {
        assert x != o ==> Io(x) in st.queue;
      }
      assert Io(o) !in st.queue by {
        assert o !in Operations(st.queue);
      }
    }
  }

  /** A submit of operations that does not fail keeps them all tracked. */
  lemma SubmitIoOnce(st: State, answer: int)
    requires Once(st) && st.phase.Preparing? && 0 <= answer <= |st.queue|
    ensures Once(SubmitStep(st, answer))
  {
    hide Tidy;
    if !Over(st.phase) {
      SubmitTidy(st, answer);
    }
  }

  lemma StepOnce(st: State, a: Action, k: Kernel)
    requires Once(st) && Enabled(st, a, k) && !k.failing
    ensures Once(Step(st, a, k))
  {
    hide Tidy, Arm, Submit, PrepareStep, SubmitStep;
    match a {
      case Enter(full, answer) => ArmTidy(st, st.phase.next, full, answer);
      case PrepareIo(o) => PrepareOnce(st, o);
      case SubmitIo(answer) => SubmitIoOnce(st, answer);
      case CollectIo(o) => CollectIoTidy(st, o);
      case Collect(c, full, answer) => ArmTidy(Collected(st, c), c, full, answer);
      case RearmShared(full, answer) => ArmTidy(st, Shared, full, answer);
      case RearmLocal(full, answer) => ArmTidy(st, Local, full, answer);
      case _ =>
    }
  }

  lemma CollectIoTidy(st: State, o: nat)
    requires Tidy(st.queue, st.taken, st.inflight) && o in st.taken
    ensures Tidy(st.queue, st.taken - {o}, st.inflight - {o})
  {
  }

  lemma InitialOnce()
    ensures Once(Initial())
  {
  }

  lemma {:induction false} RunOnce(acts: seq<Action>, k: Kernel)
    requires Legal(acts, k) && !k.failing
    ensures Once(After(acts, k))
    decreases |acts|
  {
    hide Once, Step, Enabled;
    if acts != [] {
      var n := |acts| - 1;
      RunOnce(acts[..n], k);
      StepOnce(After(acts[..n], k), acts[n], k);
    } else {
      InitialOnce();
    }
  }

  // ----- an operation that completes twice --------------------------------------------------

  /** The submit of operation 0 fails, and that of operation 1 takes both entries. */
  function TwiceRun(): seq<Action> {
    [Enter(false, 1), Enter(false, 1), PrepareIo(0), SubmitIo(-EBUSY), PrepareIo(1), SubmitIo(2)]
  }

  ghost function TwiceScenes(): seq<State> {
    [Initial(),
     Scene(ARMED, CLOSED, [], {}, {}, Entering(Local)),
     Scene(ARMED, ARMED, [], {}, {}, Looping),
     Scene(ARMED, ARMED, [Io(0)], {0}, {}, Preparing([0], Looping)),
     Scene(ARMED, ARMED, [Io(0)], {}, {}, Looping),
     Scene(ARMED, ARMED, [Io(0), Io(1)], {1}, {}, Preparing([1], Looping)),
     Scene(ARMED, ARMED, [], {1}, {0, 1}, Looping)]
  }

  lemma TakeBoth()
    ensures [Io(0), Io(1)][..2] == [Io(0), Io(1)] && [Io(0), Io(1)][2..] == [] && Operations([Io(0), Io(1)]) == {0, 1}
    ensures forall c :: Polls([Io(0), Io(1)], c) == 0
  {
    assert Io(0) in [Io(0), Io(1)] && Io(1) in [Io(0), Io(1)];
    forall c ensures Polls([Io(0), Io(1)], c) == 0 {
      assert [Io(0), Io(1)][1..] == [Io(1)] && [Io(1)][1..] == [];
      assert Polls([Io(1)], c) == Polls([], c) == 0;
    }
  }

  lemma TwiceOpens(k: Kernel, i: nat)
    requires k.failing && i < 3
    ensures PlaysAt(TwiceRun(), TwiceScenes(), k, i)
  {
    Opening();
  }

  lemma TwiceCloses(k: Kernel, i: nat)
    requires k.failing && 3 <= i < 6
    ensures PlaysAt(TwiceRun(), TwiceScenes(), k, i)
  {
    TakeNothing([Io(0)]);
    TakeBoth();
    assert {0} - {0} == {} && {} + {0, 1} == {0, 1};
    assert [Io(0)] + [Io(1)] == [Io(0), Io(1)];
  }

  /** Operation 0 has failed, is not tracked any more, and its completion can be collected. */
  lemma Twice(k: Kernel)
    requires k.failing
    ensures Legal(TwiceRun(), k)
    ensures var st := After(TwiceRun(), k); 0 !in st.inflight && Enabled(st, CollectIo(0), k)
  {
    hide PlaysAt;
    forall i | 0 <= i < 6 ensures PlaysAt(TwiceRun(), TwiceScenes(), k, i) {
      if i < 3 {
        TwiceOpens(k, i);
      } else {
        TwiceCloses(k, i);
      }
    }
    PlaysToEnd(TwiceRun(), TwiceScenes(), k);
  }

  /** No operation completes twice exactly when no submit of operations fails. */
  lemma NeverTwiceExactly(k: Kernel)
    ensures NeverTwice(k) <==> !k.failing
  {
    if k.failing {
      Twice(k);
    } else {
      forall acts, o | Legal(acts, k) && Enabled(After(acts, k), CollectIo(o), k)
        ensures o in After(acts, k).inflight
      {
        RunOnce(acts, k);
      }
    }
  }
}
