/**
 * The final drain of an io_uring worker: completions already delivered, callbacks and whatever
 * they publish, the abort of everything in flight or queued, and again until nothing is left.
 * It ends because every callback publishes no more than the budget of its operation, and then
 * every operation the worker ever had has run exactly once.
 */
module WorkerFinish {
  import opened OperationQueue
  import opened Sequences
  import opened NativeWorker

  /** Operations only join, and what has run stays run, in the same order. */
  ghost predicate Grown(before: Shape, after: Shape) {
    && (forall o <- before.places :: o in after.places)
    && Suffix(At(before.lists, Ran), At(after.lists, Ran))
  }

  ghost predicate Suffix(s: seq<Operation>, t: seq<Operation>) {
    |s| <= |t| && t[|t| - |s|..] == s
  }

  lemma GrownTrans(a: Shape, b: Shape, c: Shape)
    requires Grown(a, b) && Grown(b, c)
    ensures Grown(a, c)
  {
    var s, t, u := At(a.lists, Ran), At(b.lists, Ran), At(c.lists, Ran);
    assert u[|u| - |s|..] == u[|u| - |t|..][|t| - |s|..];
  }

  lemma GrownSame(a: Shape, b: Shape)
    requires (forall o <- a.places :: o in b.places) && At(b.lists, Ran) == At(a.lists, Ran)
    ensures Grown(a, b)
  {
  }

  lemma GrownRun(a: Shape, b: Shape, o: Operation)
    requires (forall x <- a.places :: x in b.places) && At(b.lists, Ran) == [o] + At(a.lists, Ran)
    ensures Grown(a, b)
  {
  }

  /** A flow that does not touch the history. */
  lemma GrownFlow(a: Shape, b: Shape, from: set<Place>, into: set<Place>, others: set<Place>)
    requires Flow(a.places, b.places, from, into) && Kept(a.lists, b.lists, others) && Ran !in others
    ensures Grown(a, b)
  {
    GrownSame(a, b);
  }

  /** Where an operation is that has been completed, and is to be delivered or has been. */
  const DELIVERING := {InCpu, InSharedCpu, InReady, InBatch, Ran}

  /** Completed operations stay so, with the completion they have. */
  ghost predicate Sealed(before: Places, after: Places, marks: Marks, marks': Marks) {
    forall o <- before :: before[o] in DELIVERING ==>
      o in after && after[o] in DELIVERING && o in marks && o in marks' && marks'[o] == marks[o]
  }

  lemma SealedNone(places: Places, marks: Marks)
    requires marks.Keys == places.Keys
    ensures Sealed(places, places, marks, marks)
  {
  }

  lemma SealedTrans(a: Places, b: Places, c: Places, k: Marks, l: Marks, m: Marks)
    requires Sealed(a, b, k, l) && Sealed(b, c, l, m)
    ensures Sealed(a, c, k, m)
  {
  }

  /** Moves on the way to delivery. */
  lemma SealedFlow(before: Places, after: Places, marks: Marks, from: set<Place>, into: set<Place>)
    requires Flow(before, after, from, into) && into <= DELIVERING && marks.Keys == before.Keys
    ensures Sealed(before, after, marks, marks)
  {
  }

  /** New operations. */
  lemma SealedJoin(before: Places, o: Operation, q: Place, marks: Marks, marks': Marks)
    requires o !in before && marks.Keys == before.Keys && forall x <- marks :: x in marks' && marks'[x] == marks[x]
    ensures Sealed(before, before[o := q], marks, marks')
  {
  }

  /** Moves from elsewhere, completing those who move. */
  lemma SealedEnded(before: Places, after: Places, marks: Marks, marks': Marks, from: set<Place>, into: set<Place>,
                    fate: Fate)
    requires Flow(before, after, from, into) && Ended(before, after, marks, marks', fate) && from !! DELIVERING
    ensures Sealed(before, after, marks, marks')
  {
  }

  /**
   * Where callbacks publish: the worker's own queues, the timers, or the shared queues if the
   * worker drains without having entered its loop.
   */
  const PUBLISHED := {InCpu, InIo, InReady, InSharedCpu, InSharedIo}

  /**
   * Runs the callbacks of an operation, which publish new operations, or start waits on timers
   * that have expired, within its budget.
   */
  method Callbacks(w: Worker, operation: Operation)
    requires w.Valid()
    modifies w
    ensures w.Valid() && Grown(old(w.shape), w.shape) && w.inflight == old(w.inflight)
    ensures Load(w.shape.lists) <= Load(old(w.shape.lists)) + operation.budget
    ensures At(w.shape.lists, InBatch) == At(old(w.shape.lists), InBatch)
    ensures At(w.shape.lists, InPrepared) == At(old(w.shape.lists), InPrepared)
    ensures At(w.shape.lists, Ran) == At(old(w.shape.lists), Ran)
    ensures forall o <- w.shape.places :: o in old(w.shape.places) || fresh(o)
    ensures Sealed(old(w.shape.places), w.shape.places, old(w.Fates()), w.Fates())
  {
    hide w.Valid, At, Load, Grown, Sealed;
    var left: nat := operation.budget;
    GrownSame(w.shape, w.shape);
    SealedNone(w.shape.places, w.Fates());
    while left > 0
      invariant w.Valid() && Grown(old(w.shape), w.shape) && w.inflight == old(w.inflight)
      invariant 0 <= left && Load(w.shape.lists) + left <= Load(old(w.shape.lists)) + operation.budget
      invariant At(w.shape.lists, InBatch) == At(old(w.shape.lists), InBatch)
      invariant At(w.shape.lists, InPrepared) == At(old(w.shape.lists), InPrepared)
      invariant At(w.shape.lists, Ran) == At(old(w.shape.lists), Ran)
      invariant forall o <- w.shape.places :: o in old(w.shape.places) || fresh(o)
      invariant Sealed(old(w.shape.places), w.shape.places, old(w.Fates()), w.Fates())
    {
      var more: bool := *;
      if !more {
        break;
      }
      var budget: nat :| budget < left;
      var q: Place :| q in PUBLISHED;
      ghost var before, marks := w.shape, w.Fates();
      var spawned := w.Spawn(q, budget);
      SpawnFacts(before, w.shape, spawned, q);
      SealedJoin(before.places, spawned, q, marks, w.Fates());
      SealedTrans(old(w.shape.places), before.places, w.shape.places, old(w.Fates()), marks, w.Fates());
      GrownTrans(old(w.shape), before, w.shape);
      left := left - 1 - budget;
    }
  }

  lemma SpawnFacts(before: Shape, after: Shape, o: Operation, q: Place)
    requires q in PUBLISHED && o !in before.places && after == Joined(before, o, q, o.next)
    ensures Grown(before, after) && Load(after.lists) == Load(before.lists) + 1 + o.budget
    ensures At(after.lists, InBatch) == At(before.lists, InBatch)
    ensures At(after.lists, InPrepared) == At(before.lists, InPrepared)
    ensures after.places == before.places[o := q] && At(after.lists, Ran) == At(before.lists, Ran)
  {
    hide Load;
    JoinedLoad(before, o, q, o.next);
    JoinedAt(before, o, q, o.next);
    JoinedMaps(before, o, q, o.next);
    hide At, Joined;
    GrownSame(before, after);
  }

  /** Moves a list operation by operation to the front of another, which reverses it. */
  method Pour(w: Worker, p: Place, q: Place)
    requires w.Valid() && Chained(p) && Chained(q) && p != q
    modifies w, w.shape.places.Keys`next
    ensures w.Valid() && w.inflight == old(w.inflight) && w.shape.places.Keys == old(w.shape.places).Keys
    ensures At(w.shape.lists, p) == []
    ensures At(w.shape.lists, q) == Reverse(At(old(w.shape.lists), p)) + At(old(w.shape.lists), q)
    ensures Kept(old(w.shape.lists), w.shape.lists, {p, q}) && Flow(old(w.shape.places), w.shape.places, {p}, {q})
    ensures Load(w.shape.lists) == Load(old(w.shape.lists))
  {
    hide w.Valid, At, Flow, Kept, Load, Reverse;
    FlowNone(w.shape.places, {p}, {q});
    KeptNone(w.shape.lists, {p, q});
    var more := w.NonEmpty(p);
    while more
      invariant w.Valid() && (more <==> At(w.shape.lists, p) != [])
      invariant w.inflight == old(w.inflight) && w.shape.places.Keys == old(w.shape.places).Keys
      invariant Kept(old(w.shape.lists), w.shape.lists, {p, q}) && Flow(old(w.shape.places), w.shape.places, {p}, {q})
      invariant Load(w.shape.lists) == Load(old(w.shape.lists))
      invariant Reverse(At(w.shape.lists, p)) + At(w.shape.lists, q)
             == Reverse(At(old(w.shape.lists), p)) + At(old(w.shape.lists), q)
      decreases |At(w.shape.lists, p)|
    {
      ghost var before := w.shape;
      PushedOne(At(w.shape.lists, p), At(w.shape.lists, q));
      var operation := w.Move(p, q);
      SameKeys(before.places, operation, q);
      FlowTrans(old(w.shape.places), before.places, w.shape.places, {p}, {q});
      KeptTrans(old(w.shape.lists), before.lists, w.shape.lists, {p, q});
      more := w.NonEmpty(p);
    }
    PushedNone(At(w.shape.lists, q), At(w.shape.lists, p));
  }

  /** The queue the next batch comes from. */
  ghost function NextBatch(lists: Lists): seq<Operation> {
    if At(lists, InCpu) != [] then At(lists, InCpu) else At(lists, InSharedCpu)
  }

  /**
   * Runs one batch of CPU tasks, the worker's own first, in the order they came: queues and
   * history both have their newest operation in front.
   */
  method RunBatch(w: Worker) returns (ran: bool)
    requires w.Valid() && Settled(w.shape.lists)
    modifies w, w.shape.places.Keys`next
    ensures w.Valid() && Settled(w.shape.lists) && Grown(old(w.shape), w.shape) && w.inflight == old(w.inflight)
    ensures ran <==> At(old(w.shape.lists), InCpu) != [] || At(old(w.shape.lists), InSharedCpu) != []
    ensures ran ==> Load(w.shape.lists) < Load(old(w.shape.lists))
    ensures At(w.shape.lists, Ran) == NextBatch(old(w.shape.lists)) + At(old(w.shape.lists), Ran)
    ensures !ran ==> w.shape == old(w.shape)
    ensures forall o <- w.shape.places :: o in old(w.shape.places) || fresh(o)
    ensures Sealed(old(w.shape.places), w.shape.places, old(w.Fates()), w.Fates())
  {
    hide w.Valid, At, Load, Grown, Flow, Kept, Reverse, Sealed, MarksOf;
    SealedNone(w.shape.places, w.Fates());
    ran := w.NonEmpty(InCpu);
    if ran {
      Pour(w, InCpu, InBatch);
      TakeFacts(old(w.shape), w.shape, InCpu);
      SealedFlow(old(w.shape.places), w.shape.places, w.Fates(), {InCpu}, {InBatch});
    } else {
      ran := w.NonEmpty(InSharedCpu);
      if !ran {
        GrownSame(w.shape, w.shape);
        return;
      }
      Pour(w, InSharedCpu, InBatch);
      TakeFacts(old(w.shape), w.shape, InSharedCpu);
      SealedFlow(old(w.shape.places), w.shape.places, w.Fates(), {InSharedCpu}, {InBatch});
    }
    ReverseTwice(NextBatch(old(w.shape.lists)));
    ReverseSome(NextBatch(old(w.shape.lists)));
    ghost var taken, marks := w.shape, w.Fates();
    ExecuteBatch(w, old(w.shape));
    SealedTrans(old(w.shape.places), taken.places, w.shape.places, old(w.Fates()), marks, w.Fates());
  }

  lemma ReverseSome(s: seq<Operation>)
    ensures s != [] ==> Reverse(s) != []
    ensures Reverse(s) + [] == Reverse(s)
  {
  }

  lemma TakeFacts(before: Shape, after: Shape, p: Place)
    requires Flow(before.places, after.places, {p}, {InBatch})
    requires Kept(before.lists, after.lists, {p, InBatch}) && p != Ran
    requires p != InPrepared
    ensures Grown(before, after) && At(after.lists, InPrepared) == At(before.lists, InPrepared)
    ensures At(after.lists, Ran) == At(before.lists, Ran)
  {
    GrownFlow(before, after, {p}, {InBatch}, {p, InBatch});
  }

  /** Runs the batch front to back. */
  method ExecuteBatch(w: Worker, ghost start: Shape)
    requires w.Valid() && At(w.shape.lists, InPrepared) == []
    requires At(w.shape.lists, InBatch) != [] && Grown(start, w.shape)
    modifies w, w.shape.places.Keys`next
    ensures w.Valid() && Settled(w.shape.lists) && Grown(start, w.shape) && w.inflight == old(w.inflight)
    ensures Load(w.shape.lists) < Load(old(w.shape.lists))
    ensures At(w.shape.lists, Ran) == Reverse(At(old(w.shape.lists), InBatch)) + At(old(w.shape.lists), Ran)
    ensures forall o <- w.shape.places :: o in old(w.shape.places) || fresh(o)
    ensures Sealed(old(w.shape.places), w.shape.places, old(w.Fates()), w.Fates())
  {
    hide w.Valid, At, Load, Grown, Flow, Kept, Reverse, Sealed, MarksOf;
    SealedNone(w.shape.places, w.Fates());
    var more := true;
    while more
      invariant w.Valid() && At(w.shape.lists, InPrepared) == [] && (more <==> At(w.shape.lists, InBatch) != [])
      invariant Grown(start, w.shape) && w.inflight == old(w.inflight)
      invariant Reverse(At(w.shape.lists, InBatch)) + At(w.shape.lists, Ran)
             == Reverse(At(old(w.shape.lists), InBatch)) + At(old(w.shape.lists), Ran)
      invariant Load(w.shape.lists) <= Load(old(w.shape.lists))
      invariant !more ==> Load(w.shape.lists) < Load(old(w.shape.lists))
      invariant forall o <- w.shape.places :: o in old(w.shape.places) || fresh(o)
      invariant Sealed(old(w.shape.places), w.shape.places, old(w.Fates()), w.Fates())
      decreases |At(w.shape.lists, InBatch)|
    {
      ghost var before, marks := w.shape, w.Fates();
      PushedOne(At(w.shape.lists, InBatch), At(w.shape.lists, Ran));
      ExecuteOne(w);
      SealedTrans(old(w.shape.places), before.places, w.shape.places, old(w.Fates()), marks, w.Fates());
      GrownTrans(start, before, w.shape);
      more := w.NonEmpty(InBatch);
    }
    PushedNone(At(w.shape.lists, Ran), At(w.shape.lists, InBatch));
  }

  /** Runs the first operation of the batch and its callbacks. */
  method ExecuteOne(w: Worker)
    requires w.Valid() && At(w.shape.lists, InBatch) != []
    modifies w, w.shape.places.Keys`next
    ensures w.Valid() && Grown(old(w.shape), w.shape) && w.inflight == old(w.inflight)
    ensures Load(w.shape.lists) < Load(old(w.shape.lists))
    ensures At(w.shape.lists, InPrepared) == At(old(w.shape.lists), InPrepared)
    ensures At(w.shape.lists, InBatch) == At(old(w.shape.lists), InBatch)[1..]
    ensures At(w.shape.lists, Ran) == [At(old(w.shape.lists), InBatch)[0]] + At(old(w.shape.lists), Ran)
    ensures forall o <- w.shape.places :: o in old(w.shape.places) || fresh(o)
    ensures Sealed(old(w.shape.places), w.shape.places, old(w.Fates()), w.Fates())
  {
    hide w.Valid, At, Load, Grown, Flow, Kept, Sealed, MarksOf;
    var operation := w.Move(InBatch, Ran);
    ghost var moved := w.shape;
    SameKeys(old(w.shape.places), operation, Ran);
    assert w.Fates() == old(w.Fates());
    SealedFlow(old(w.shape.places), moved.places, old(w.Fates()), {InBatch}, {Ran});
    RunFacts(old(w.shape), moved, operation);
    Callbacks(w, operation);
    SealedTrans(old(w.shape.places), moved.places, w.shape.places, old(w.Fates()), old(w.Fates()), w.Fates());
    GrownTrans(old(w.shape), moved, w.shape);
  }

  lemma RunFacts(before: Shape, after: Shape, o: Operation)
    requires Flow(before.places, after.places, {InBatch}, {Ran}) && Kept(before.lists, after.lists, {InBatch, Ran})
    requires At(after.lists, Ran) == [o] + At(before.lists, Ran)
    ensures Grown(before, after) && At(after.lists, InPrepared) == At(before.lists, InPrepared)
  {
    GrownRun(before, after, o);
  }

  // ----- completions and aborts ---------------------------------------------------------

  /** A completion of the kernel; `rearm` tells whether a would-block sends the operation back. */
  datatype Report = Report(operation: Operation, result: int, rearm: bool)

  /** The kernel completes operations in flight, each once. */
  predicate Reportable(reports: seq<Report>, inflight: seq<Operation>) {
    && (forall i :: 0 <= i < |reports| ==> reports[i].operation in inflight)
    && (forall i, j :: 0 <= i < j < |reports| ==> reports[i].operation != reports[j].operation)
  }

  predicate Blocked(r: Report) {
    r.result == -EAGAIN && r.rearm
  }

  /** Where a reported operation goes. */
  function Landing(r: Report, spill: bool): Place {
    if Blocked(r) then InIo else if spill then InSharedCpu else InCpu
  }

  ghost predicate Among(reports: seq<Report>, o: Operation) {
    exists i :: 0 <= i < |reports| && reports[i].operation == o
  }

  /** A reported operation has its result and went where it belongs. */
  ghost predicate LandedOne(r: Report, before: Places, after: Places, marks: Marks, marks': Marks, spill: bool) {
    var o := r.operation;
    && o in before && before[o] == InFlight && o in after && o in marks && o in marks'
    && marks'[o] == Mark(marks[o].fate, r.result)
    && after[o] == if r.result == -11 && r.rearm then InIo else if spill then InSharedCpu else InCpu
  }

  /** That holds of all reported operations, and nobody else moved or changed. */
  ghost predicate Landed(reports: seq<Report>, before: Places, after: Places, marks: Marks, marks': Marks,
                         spill: bool) {
    && before.Keys == after.Keys == marks.Keys == marks'.Keys
    && (forall i :: 0 <= i < |reports| ==> LandedOne(reports[i], before, after, marks, marks', spill))
    && (forall o <- before :: Among(reports, o) || (after[o] == before[o] && marks'[o] == marks[o]))
  }

  lemma LandedNone(places: Places, marks: Marks, spill: bool)
    requires marks.Keys == places.Keys
    ensures Landed([], places, places, marks, marks, spill)
  {
  }

  lemma LandedMore(reports: seq<Report>, i: nat, start: Places, before: Places, k: Marks, l: Marks, spill: bool)
    requires i < |reports| && Landed(reports[..i], start, before, k, l, spill)
    requires var o := reports[i].operation;
             o in before && before[o] == InFlight && forall j :: 0 <= j < i ==> reports[j].operation != o
    ensures var r := reports[i];
            Landed(reports[..i + 1], start, before[r.operation := Landing(r, spill)], k,
                   l[r.operation := Mark(l[r.operation].fate, r.result)], spill)
  {
    var n, r := i + 1, reports[i];
    var after, m := before[r.operation := Landing(r, spill)], l[r.operation := Mark(l[r.operation].fate, r.result)];
    assert !Among(reports[..i], r.operation);
    forall j | 0 <= j < n ensures LandedOne(reports[..n][j], start, after, k, m, spill) {
      assert reports[..n][j] == reports[j];
      if j < i {
        assert reports[..i][j] == reports[j];
        assert LandedOne(reports[..i][j], start, before, k, l, spill);
      }
    }
    hide LandedOne;
    forall o <- start ensures Among(reports[..n], o) || (after[o] == start[o] && m[o] == k[o]) {
      if o == r.operation {
        assert reports[..n][i].operation == o;
      } else if Among(reports[..i], o) {
        var j :| 0 <= j < |reports[..i]| && reports[..i][j].operation == o;
        assert reports[..n][j].operation == o;
      }
    }
  }

  /** One completion. */
  method CollectOne(w: Worker, operation: Operation, q: Place, result: int)
    requires w.Valid() && Settled(w.shape.lists) && operation in w.inflight && q in {InIo, InCpu, InSharedCpu}
    modifies w, w.shape.places.Keys
    ensures w.Valid() && Settled(w.shape.lists) && Grown(old(w.shape), w.shape)
    ensures w.inflight == Less(old(w.inflight), operation) && operation in old(w.shape.places)
    ensures Load(w.shape.lists) == Load(old(w.shape.lists)) && w.shape.places.Keys == old(w.shape.places).Keys
    ensures old(w.shape.places)[operation] == InFlight && w.shape.places == old(w.shape.places)[operation := q]
    ensures operation in old(w.Fates())
    ensures w.Fates() == old(w.Fates())[operation := Mark(old(w.Fates())[operation].fate, result)]
  {
    hide w.Valid, At, Load, Grown, Flow, Kept;
    w.Recall(operation, q);
    SameKeys(old(w.shape.places), operation, q);
    operation.result := result;
    RecallFacts(old(w.shape), w.shape, q);
    assert w.Fates() == old(w.Fates())[operation := Mark(old(operation.fate), result)];
  }

  /**
   * Takes over the completions in `reports`. One that would have blocked may be queued again; the
   * others go to a CPU queue, the shared one when `spill`; in which order is said in Dispatch. A
   * completion is for an operation in flight, which holds as long as no submit of operations has
   * failed: SubmitOnce has the exact condition, and Completion what a second completion does.
   */
  method Collect(w: Worker, spill: bool, reports: seq<Report>)
    requires w.Valid() && Settled(w.shape.lists) && Reportable(reports, w.inflight)
    modifies w, w.shape.places.Keys
    ensures w.Valid() && Settled(w.shape.lists) && Grown(old(w.shape), w.shape)
    ensures Load(w.shape.lists) == Load(old(w.shape.lists)) && w.shape.places.Keys == old(w.shape.places).Keys
    ensures Landed(reports, old(w.shape.places), w.shape.places, old(w.Fates()), w.Fates(), spill)
  {
    hide w.Valid, At, Load, Grown, Flow, Kept, Landed, MarksOf, Less;
    GrownSame(w.shape, w.shape);
    LandedNone(w.shape.places, w.Fates(), spill);
    w.Distinct();
    assert reports[..0] == [];
    for i := 0 to |reports|
      invariant w.Valid() && Settled(w.shape.lists) && Grown(old(w.shape), w.shape) && NoRepeat(w.inflight)
      invariant Load(w.shape.lists) == Load(old(w.shape.lists)) && w.shape.places.Keys == old(w.shape.places).Keys
      invariant forall j :: i <= j < |reports| ==> reports[j].operation in w.inflight
      invariant Landed(reports[..i], old(w.shape.places), w.shape.places, old(w.Fates()), w.Fates(), spill)
    {
      var r := reports[i];
      ghost var before, marks := w.shape, w.Fates();
      LessMembers(w.inflight, r.operation);
      CollectOne(w, r.operation, Landing(r, spill), r.result);
      LandedMore(reports, i, old(w.shape.places), before.places, old(w.Fates()), marks, spill);
      GrownTrans(old(w.shape), before, w.shape);
    }
    assert reports[..|reports|] == reports;
  }

  /** What a collection leaves of the completed operations, and of those it completes. */
  lemma LandedSealed(reports: seq<Report>, before: Places, after: Places, marks: Marks, marks': Marks, spill: bool)
    requires Landed(reports, before, after, marks, marks', spill)
    ensures Sealed(before, after, marks, marks') && Reached(reports, after, marks', marks)
  {
    forall o <- before | before[o] in DELIVERING ensures after[o] == before[o] && marks'[o] == marks[o] {
    }
  }

  /** Who was reported, and not sent back, is completed with the result of the kernel. */
  ghost predicate Reached(reports: seq<Report>, places: Places, marks: Marks, start: Marks) {
    forall i :: 0 <= i < |reports| && !(reports[i].result == -11 && reports[i].rearm) ==>
      var o := reports[i].operation;
      && o in places && places[o] in DELIVERING && o in marks && o in start
      && marks[o] == Mark(start[o].fate, reports[i].result)
  }

  lemma ReachedSealed(reports: seq<Report>, a: Places, b: Places, k: Marks, l: Marks, start: Marks)
    requires Reached(reports, a, k, start) && Sealed(a, b, k, l)
    ensures Reached(reports, b, l, start)
  {
  }

  lemma FlightKept(before: Shape, after: Shape)
    requires Kept(before.lists, after.lists, SOURCES + {InCpu})
    ensures At(after.lists, InFlight) == At(before.lists, InFlight)
  {
  }

  lemma RecallFacts(before: Shape, after: Shape, q: Place)
    requires q == InIo || q == InSharedCpu || q == InCpu
    requires Flow(before.places, after.places, {InFlight}, {q}) && Kept(before.lists, after.lists, {InFlight, q})
    ensures Grown(before, after) && (Settled(before.lists) ==> Settled(after.lists))
  {
    GrownFlow(before, after, {InFlight}, {q}, {InFlight, q});
  }

  /** Completes as stopped the first of those in flight. */
  method AbortOne(w: Worker)
    requires w.Valid() && Settled(w.shape.lists) && w.inflight != []
    modifies w, w.shape.places.Keys
    ensures w.Valid() && Settled(w.shape.lists) && Grown(old(w.shape), w.shape) && |w.inflight| < |old(w.inflight)|
    ensures Flow(old(w.shape.places), w.shape.places, {InFlight}, {InCpu})
    ensures Load(w.shape.lists) == Load(old(w.shape.lists)) && w.shape.places.Keys == old(w.shape.places).Keys
    ensures Ended(old(w.shape.places), w.shape.places, old(w.Fates()), w.Fates(), Stopped)
  {
    hide w.Valid, At, Load, Grown, Flow, Kept, Settled, Ended;
    var operation := w.inflight[0];
    w.Recall(operation, InCpu);
    SameKeys(old(w.shape.places), operation, InCpu);
    operation.result, operation.fate := -ECANCELED, Stopped;
    RecallFacts(old(w.shape), w.shape, InCpu);
    assert w.Fates() == old(w.Fates())[operation := Mark(Stopped, -ECANCELED)];
    EndedOne(old(w.shape.places), old(w.Fates()), operation, Mark(Stopped, -ECANCELED), Stopped);
  }

  /** Completes as stopped whatever is in flight. */
  method AbortFlying(w: Worker)
    requires w.Valid() && Settled(w.shape.lists)
    modifies w, w.shape.places.Keys
    ensures w.Valid() && Settled(w.shape.lists) && w.inflight == []
    ensures Flow(old(w.shape.places), w.shape.places, {InFlight}, {InCpu})
    ensures Grown(old(w.shape), w.shape) && Load(w.shape.lists) == Load(old(w.shape.lists))
    ensures w.shape.places.Keys == old(w.shape.places).Keys
    ensures Ended(old(w.shape.places), w.shape.places, old(w.Fates()), w.Fates(), Stopped)
  {
    hide w.Valid, At, Load, Grown, Flow, Kept, Settled, Ended, MarksOf;
    GrownSame(w.shape, w.shape);
    FlowNone(w.shape.places, {InFlight}, {InCpu});
    EndedNone(w.shape.places, w.Fates(), Stopped);
    while w.inflight != []
      invariant w.Valid() && Settled(w.shape.lists) && Grown(old(w.shape), w.shape)
      invariant Flow(old(w.shape.places), w.shape.places, {InFlight}, {InCpu})
      invariant Load(w.shape.lists) == Load(old(w.shape.lists)) && w.shape.places.Keys == old(w.shape.places).Keys
      invariant Ended(old(w.shape.places), w.shape.places, old(w.Fates()), w.Fates(), Stopped)
      decreases |w.inflight|
    {
      ghost var before, marks := w.shape, w.Fates();
      AbortOne(w);
      EndedTrans(old(w.shape.places), before.places, w.shape.places, old(w.Fates()), marks, w.Fates(), Stopped);
      GrownTrans(old(w.shape), before, w.shape);
      FlowTrans(old(w.shape.places), before.places, w.shape.places, {InFlight}, {InCpu});
    }
  }

  /** Completes as stopped whatever is in flight, in the retry slot or queued for I/O. */
  method AbortInflight(w: Worker)
    requires w.Valid() && Settled(w.shape.lists)
    modifies w, w.shape.places.Keys
    ensures w.Valid() && Settled(w.shape.lists) && Drained(w.shape.lists) && w.inflight == []
    ensures Flow(old(w.shape.places), w.shape.places, SOURCES + {InFlight}, {InCpu})
    ensures Grown(old(w.shape), w.shape) && Load(w.shape.lists) == Load(old(w.shape.lists))
    ensures w.shape.places.Keys == old(w.shape.places).Keys
    ensures Ended(old(w.shape.places), w.shape.places, old(w.Fates()), w.Fates(), Stopped)
    ensures Sealed(old(w.shape.places), w.shape.places, old(w.Fates()), w.Fates())
  {
    hide w.Valid, At, Load, Grown, Flow, Kept, Settled, Drained, Ended, MarksOf, Sealed;
    AbortFlying(w);
    ghost var landed, marks := w.shape, w.Fates();
    w.Places();
    var found := w.ConsumeStopping();
    EndedTrans(old(w.shape.places), landed.places, w.shape.places, old(w.Fates()), marks, w.Fates(), Stopped);
    w.Places();
    AbortFacts(old(w.shape), landed, w.shape);
    SealedEnded(old(w.shape.places), w.shape.places, old(w.Fates()), w.Fates(), SOURCES + {InFlight}, {InCpu}, Stopped);
  }

  lemma FlowKeys(a: Places, b: Places, from: set<Place>, into: set<Place>)
    requires Flow(a, b, from, into)
    ensures b.Keys == a.Keys
  {
  }

  lemma AbortFacts(start: Shape, landed: Shape, after: Shape)
    requires Flow(start.places, landed.places, {InFlight}, {InCpu})
    requires Flow(landed.places, after.places, SOURCES, {InCpu})
    requires Kept(landed.lists, after.lists, SOURCES + {InCpu}) && Grown(start, landed)
    ensures Flow(start.places, after.places, SOURCES + {InFlight}, {InCpu}) && Grown(start, after)
    ensures At(after.lists, InFlight) == At(landed.lists, InFlight) && after.places.Keys == start.places.Keys
  {
    hide At, Kept, Grown, Flow;
    FlightKept(landed, after);
    FlowKeys(start.places, landed.places, {InFlight}, {InCpu});
    FlowKeys(landed.places, after.places, SOURCES, {InCpu});
    GrownFlow(landed, after, SOURCES, {InCpu}, SOURCES + {InCpu});
    GrownTrans(start, landed, after);
    FlowMore(start.places, landed.places, {InFlight}, {InCpu}, SOURCES + {InFlight}, {InCpu});
    FlowMore(landed.places, after.places, SOURCES, {InCpu}, SOURCES + {InFlight}, {InCpu});
    FlowTrans(start.places, landed.places, after.places, SOURCES + {InFlight}, {InCpu});
  }

  // ----- the drain ----------------------------------------------------------------------

  /**
   * Takes the staged timer waits to the CPU queue, behind what is there. With the timers
   * `contended` another thread may hold their lock, and then nothing happens.
   */
  method FetchTimers(w: Worker, contended: bool)
    requires w.Valid() && Settled(w.shape.lists)
    modifies w, w.shape.places.Keys`next
    ensures w.Valid() && Settled(w.shape.lists) && Grown(old(w.shape), w.shape) && w.inflight == old(w.inflight)
    ensures Load(w.shape.lists) == Load(old(w.shape.lists)) && w.shape.places.Keys == old(w.shape.places).Keys
    ensures (&& At(w.shape.lists, InReady) == []
             && At(w.shape.lists, InCpu) == At(old(w.shape.lists), InReady) + At(old(w.shape.lists), InCpu))
            || (contended && w.shape == old(w.shape))
    ensures Sealed(old(w.shape.places), w.shape.places, old(w.Fates()), w.Fates())
  {
    hide w.Valid, At, Load, Grown, Flow, Kept, Reverse, Sealed, MarksOf;
    var held: bool := *;
    GrownSame(w.shape, w.shape);
    SealedNone(w.shape.places, w.Fates());
    if contended && held {
      return;
    }
    ghost var ready := At(w.shape.lists, InReady);
    Pour(w, InReady, InBatch);
    ghost var taken := w.shape;
    SealedFlow(old(w.shape.places), w.shape.places, w.Fates(), {InReady}, {InBatch});
    Pour(w, InBatch, InCpu);
    SealedFlow(taken.places, w.shape.places, w.Fates(), {InBatch}, {InCpu});
    SealedTrans(old(w.shape.places), taken.places, w.shape.places, w.Fates(), w.Fates(), w.Fates());
    ReverseSome(ready);
    ReverseTwice(ready);
    FetchFacts(old(w.shape), taken, w.shape);
  }

  lemma FetchFacts(start: Shape, taken: Shape, after: Shape)
    requires Kept(start.lists, taken.lists, {InReady, InBatch}) && Kept(taken.lists, after.lists, {InBatch, InCpu})
    requires taken.places.Keys == start.places.Keys && after.places.Keys == taken.places.Keys
    ensures Grown(start, after) && At(after.lists, InPrepared) == At(start.lists, InPrepared)
    ensures At(after.lists, InReady) == At(taken.lists, InReady) && At(taken.lists, InCpu) == At(start.lists, InCpu)
  {
    GrownSame(start, after);
  }

  /** Takes over completions if asked to, then staged waits, and runs one batch. */
  method DrainOnce(w: Worker, includeCompletions: bool, contended: bool, reports: seq<Report>) returns (ran: bool)
    requires w.Valid() && Settled(w.shape.lists) && Reportable(reports, w.inflight)
    modifies w, w.shape.places.Keys
    ensures w.Valid() && Settled(w.shape.lists) && Grown(old(w.shape), w.shape)
    ensures Load(w.shape.lists) <= Load(old(w.shape.lists)) && (ran ==> Load(w.shape.lists) < Load(old(w.shape.lists)))
    ensures !ran ==> At(w.shape.lists, InCpu) == [] && At(w.shape.lists, InSharedCpu) == []
    ensures !ran && !contended ==> At(w.shape.lists, InReady) == []
    ensures !includeCompletions ==> w.inflight == old(w.inflight) && (At(old(w.shape.lists), InCpu) != [] ==> ran)
    ensures forall o <- w.shape.places :: o in old(w.shape.places) || fresh(o)
    ensures Sealed(old(w.shape.places), w.shape.places, old(w.Fates()), w.Fates())
    ensures includeCompletions ==> Reached(reports, w.shape.places, w.Fates(), old(w.Fates()))
  {
    hide w.Valid, At, Load, Grown, Flow, Kept, Sealed, Landed, Reached, MarksOf;
    GrownSame(w.shape, w.shape);
    SealedNone(w.shape.places, w.Fates());
    if includeCompletions {
      var spill: bool := *;
      Collect(w, spill, reports);
      LandedSealed(reports, old(w.shape.places), w.shape.places, old(w.Fates()), w.Fates(), spill);
    }
    ghost var collected, marks := w.shape, w.Fates();
    FetchTimers(w, contended);
    GrownTrans(old(w.shape), collected, w.shape);
    ghost var fetched, marked := w.shape, w.Fates();
    ran := RunBatch(w);
    GrownTrans(old(w.shape), fetched, w.shape);
    SealedTrans(collected.places, fetched.places, w.shape.places, marks, marked, w.Fates());
    SealedTrans(old(w.shape.places), collected.places, w.shape.places, old(w.Fates()), marks, w.Fates());
    if includeCompletions {
      ReachedSealed(reports, collected.places, w.shape.places, marks, w.Fates(), old(w.Fates()));
    }
  }

  /**
   * Runs CPU tasks and staged timer waits until there are none, taking over completions first
   * if asked to: those in `first` at once, and whatever the kernel reports later.
   */
  method DrainLocal(w: Worker, includeCompletions: bool, contended: bool, first: seq<Report>)
    requires w.Valid() && Settled(w.shape.lists) && Reportable(first, w.inflight)
    modifies w, w.shape.places.Keys
    ensures w.Valid() && Settled(w.shape.lists) && Grown(old(w.shape), w.shape)
    ensures At(w.shape.lists, InCpu) == [] && At(w.shape.lists, InSharedCpu) == []
    ensures !contended ==> At(w.shape.lists, InReady) == []
    ensures Load(w.shape.lists) <= Load(old(w.shape.lists))
    ensures !includeCompletions ==> w.inflight == old(w.inflight)
    ensures !includeCompletions && At(old(w.shape.lists), InCpu) != [] ==>
              Load(w.shape.lists) < Load(old(w.shape.lists))
    ensures forall o <- w.shape.places :: o in old(w.shape.places) || fresh(o)
    ensures Sealed(old(w.shape.places), w.shape.places, old(w.Fates()), w.Fates())
    ensures includeCompletions ==> Reached(first, w.shape.places, w.Fates(), old(w.Fates()))
  {
    hide w.Valid, At, Load, Grown, Sealed, Reached, MarksOf;
    var ran := DrainOnce(w, includeCompletions, contended, first);
    while ran
      invariant w.Valid() && Settled(w.shape.lists) && Grown(old(w.shape), w.shape)
      invariant Load(w.shape.lists) <= Load(old(w.shape.lists))
      invariant ran ==> Load(w.shape.lists) < Load(old(w.shape.lists))
      invariant !ran ==> At(w.shape.lists, InCpu) == [] && At(w.shape.lists, InSharedCpu) == []
      invariant !ran && !contended ==> At(w.shape.lists, InReady) == []
      invariant !includeCompletions ==> w.inflight == old(w.inflight)
      invariant !includeCompletions && At(old(w.shape.lists), InCpu) != [] ==>
                  Load(w.shape.lists) < Load(old(w.shape.lists))
      invariant forall o <- w.shape.places :: o in old(w.shape.places) || fresh(o)
      invariant Sealed(old(w.shape.places), w.shape.places, old(w.Fates()), w.Fates())
      invariant includeCompletions ==> Reached(first, w.shape.places, w.Fates(), old(w.Fates()))
      decreases Load(w.shape.lists), ran
    {
      assert Reportable([], w.inflight);
      var reports: seq<Report> :| Reportable(reports, w.inflight);
      ghost var before, marks := w.shape, w.Fates();
      ran := DrainOnce(w, includeCompletions, contended, reports);
      GrownTrans(old(w.shape), before, w.shape);
      SealedTrans(old(w.shape.places), before.places, w.shape.places, old(w.Fates()), marks, w.Fates());
      if includeCompletions {
        ReachedSealed(first, before.places, w.shape.places, marks, w.Fates(), old(w.Fates()));
      }
    }
  }

  /** One pass over the sources; whether the worker is seen as stopping is arbitrary. */
  method Consume(w: Worker) returns (found: bool)
    requires w.Valid() && Settled(w.shape.lists)
    modifies w, w.shape.places.Keys
    ensures w.Valid() && Settled(w.shape.lists) && Grown(old(w.shape), w.shape)
    ensures Flow(old(w.shape.places), w.shape.places, SOURCES, {InCpu, InFlight, InRetry})
    ensures Load(w.shape.lists) == Load(old(w.shape.lists)) && w.shape.places.Keys == old(w.shape.places).Keys
    ensures found <==> !Drained(old(w.shape.lists))
    ensures || Ended(old(w.shape.places), w.shape.places, old(w.Fates()), w.Fates(), Stopped)
            || Ended(old(w.shape.places), w.shape.places, old(w.Fates()), w.Fates(), Failed)
    ensures Sealed(old(w.shape.places), w.shape.places, old(w.Fates()), w.Fates())
  {
    hide w.Valid, At, Load, Grown, Flow, Kept, Settled, Drained, TakenUpTo, Outcome, Ended, MarksOf, Sealed;
    var stopping: bool := *;
    if stopping {
      found := w.ConsumeStopping();
      FlowMore(old(w.shape.places), w.shape.places, SOURCES, {InCpu}, SOURCES, {InCpu, InFlight, InRetry});
      ConsumeFacts(old(w.shape), w.shape, SOURCES + {InCpu});
      SealedEnded(old(w.shape.places), w.shape.places, old(w.Fates()), w.Fates(), SOURCES, {InCpu, InFlight, InRetry},
                  Stopped);
    } else {
      var submit;
      ghost var filled, done, answers, prepared;
      found, submit, filled, done, answers, prepared := w.ConsumeRunning();
      ConsumeFacts(old(w.shape), w.shape, SOURCES + {InCpu, InFlight});
      SealedEnded(old(w.shape.places), w.shape.places, old(w.Fates()), w.Fates(), SOURCES, {InCpu, InFlight, InRetry},
                  Failed);
    }
  }

  lemma ConsumeFacts(before: Shape, after: Shape, others: set<Place>)
    requires Flow(before.places, after.places, SOURCES, {InCpu, InFlight, InRetry})
    requires Kept(before.lists, after.lists, others)
    requires Ran !in others
    ensures Grown(before, after) && after.places.Keys == before.places.Keys
  {
    hide At, Kept, Grown, Flow;
    FlowKeys(before.places, after.places, SOURCES, {InCpu, InFlight, InRetry});
    GrownFlow(before, after, SOURCES, {InCpu, InFlight, InRetry}, others);
  }

  lemma Occupied(lists: Lists, places: Places, p: Place)
    requires Located(lists, places) && At(lists, p) != []
    ensures !Vacant(places, p)
  {
    var o := At(lists, p)[0];
    assert o in At(lists, p);
    assert o in places && places[o] == p;
  }

  lemma VacantEmpty(lists: Lists, places: Places, p: Place)
    requires Located(lists, places) && Vacant(places, p)
    ensures At(lists, p) == []
  {
    if At(lists, p) != [] {
      Occupied(lists, places, p);
    }
  }

  lemma DrainedVacant(lists: Lists, places: Places)
    requires Located(lists, places) && Drained(lists)
    ensures Vacant(places, InRetry) && Vacant(places, InIo) && Vacant(places, InSharedIo)
  {
    hide Located, At, Vacant;
    EmptyVacant(lists, places, InRetry);
    EmptyVacant(lists, places, InIo);
    EmptyVacant(lists, places, InSharedIo);
  }

  /** What a pass finds, the abort that follows puts on the CPU queue. */
  lemma FoundLands(before: Shape, consumed: Shape, after: Shape)
    requires Located(before.lists, before.places) && Located(after.lists, after.places)
    requires Flow(before.places, consumed.places, SOURCES, {InCpu, InFlight, InRetry}) && !Drained(before.lists)
    requires Flow(consumed.places, after.places, SOURCES + {InFlight}, {InCpu}) && Drained(after.lists)
    requires At(after.lists, InFlight) == []
    ensures At(after.lists, InCpu) != []
  {
    hide Located, At, Drained;
    var o := SomeSource(before.lists, before.places);
    DrainedVacant(after.lists, after.places);
    EmptyVacant(after.lists, after.places, InFlight);
    assert after.places[o] == InCpu;
    Present(after.lists, after.places, o);
  }

  lemma SomeSource(lists: Lists, places: Places) returns (o: Operation)
    requires Located(lists, places) && !Drained(lists)
    ensures o in places && places[o] in SOURCES
  {
    var p := if At(lists, InRetry) != [] then InRetry else if At(lists, InIo) != [] then InIo else InSharedIo;
    o := At(lists, p)[0];
    assert o in At(lists, p);
  }

  lemma Present(lists: Lists, places: Places, o: Operation)
    requires Located(lists, places) && o in places
    ensures o in At(lists, places[o])
  {
  }

  // ----- finish -------------------------------------------------------------------------

  /** Aborts and runs everything until a pass over the sources finds nothing. */
  method AbortAndDeliver(w: Worker, contended: bool)
    requires w.Valid() && Settled(w.shape.lists)
    modifies w, w.shape.places.Keys
    ensures w.Valid() && Grown(old(w.shape), w.shape) && Finished(w.shape, contended)
    ensures forall o <- w.shape.places :: o in old(w.shape.places) || fresh(o)
    ensures Sealed(old(w.shape.places), w.shape.places, old(w.Fates()), w.Fates())
  {
    hide w.Valid, At, Load, Grown, Flow, Settled, Drained, Finished, Sealed, MarksOf;
    AbortRound(w, contended);
    while true
      invariant w.Valid() && Settled(w.shape.lists) && Grown(old(w.shape), w.shape) && Quiet(w.shape.lists, contended)
      invariant forall o <- w.shape.places :: o in old(w.shape.places) || fresh(o)
      invariant Sealed(old(w.shape.places), w.shape.places, old(w.Fates()), w.Fates())
      decreases Load(w.shape.lists)
    {
      ghost var before, marks := w.shape, w.Fates();
      w.Places();
      var found := Consume(w);
      ghost var consumed, marked := w.shape, w.Fates();
      SealedTrans(old(w.shape.places), before.places, consumed.places, old(w.Fates()), marks, marked);
      GrownTrans(old(w.shape), before, consumed);
      if !found {
        w.Places();
        AllFinished(before, w.shape, contended);
        break;
      }
      AbortRoundOf(w, before, contended);
      SealedTrans(old(w.shape.places), consumed.places, w.shape.places, old(w.Fates()), marked, w.Fates());
      GrownTrans(old(w.shape), consumed, w.shape);
    }
  }

  /** No CPU task is left and nothing is in flight, nor staged where the timers were not contended. */
  ghost predicate Quiet(lists: Lists, contended: bool) {
    && At(lists, InCpu) == [] && At(lists, InSharedCpu) == [] && At(lists, InFlight) == []
    && (!contended ==> At(lists, InReady) == [])
  }

  /** Every operation has run, except waits left staged because another thread had the timers. */
  ghost predicate Finished(sh: Shape, contended: bool) {
    forall o <- sh.places :: sh.places[o] == Ran || (contended && sh.places[o] == InReady)
  }

  lemma AllFinished(before: Shape, after: Shape, contended: bool)
    requires Located(before.lists, before.places) && Located(after.lists, after.places)
    requires Flow(before.places, after.places, SOURCES, {InCpu, InFlight, InRetry}) && Drained(before.lists)
    requires Quiet(before.lists, contended) && Settled(before.lists)
    ensures Finished(after, contended)
  {
    hide Located, At;
    EmptyVacant(before.lists, before.places, InReady);
    DrainedVacant(before.lists, before.places);
    EmptyVacant(before.lists, before.places, InCpu);
    EmptyVacant(before.lists, before.places, InSharedCpu);
    EmptyVacant(before.lists, before.places, InFlight);
    EmptyVacant(before.lists, before.places, InBatch);
    EmptyVacant(before.lists, before.places, InPrepared);
  }

  /** Aborts what is in flight or queued, and runs it. */
  method AbortRound(w: Worker, contended: bool)
    requires w.Valid() && Settled(w.shape.lists)
    modifies w, w.shape.places.Keys
    ensures w.Valid() && Settled(w.shape.lists) && Grown(old(w.shape), w.shape) && Quiet(w.shape.lists, contended)
    ensures forall o <- w.shape.places :: o in old(w.shape.places) || fresh(o)
    ensures Sealed(old(w.shape.places), w.shape.places, old(w.Fates()), w.Fates())
  {
    hide w.Valid, At, Load, Grown, Flow, Settled, Drained, Sealed, MarksOf, Ended;
    AbortInflight(w);
    ghost var aborted, marks := w.shape, w.Fates();
    DrainLocal(w, false, contended, []);
    SealedTrans(old(w.shape.places), aborted.places, w.shape.places, old(w.Fates()), marks, w.Fates());
    w.Places();
    GrownTrans(old(w.shape), aborted, w.shape);
  }

  /** The same after a pass that found something: then the load goes down. */
  method AbortRoundOf(w: Worker, ghost before: Shape, contended: bool)
    requires w.Valid() && Settled(w.shape.lists) && Located(before.lists, before.places) && !Drained(before.lists)
    requires Flow(before.places, w.shape.places, SOURCES, {InCpu, InFlight, InRetry})
    modifies w, w.shape.places.Keys
    ensures w.Valid() && Settled(w.shape.lists) && Grown(old(w.shape), w.shape) && Quiet(w.shape.lists, contended)
    ensures Load(w.shape.lists) < Load(old(w.shape.lists))
    ensures forall o <- w.shape.places :: o in old(w.shape.places) || fresh(o)
    ensures Sealed(old(w.shape.places), w.shape.places, old(w.Fates()), w.Fates())
  {
    hide w.Valid, At, Load, Grown, Flow, Settled, Drained, Located, Sealed, MarksOf, Ended;
    AbortInflight(w);
    w.Places();
    FoundLands(before, old(w.shape), w.shape);
    ghost var aborted, marks := w.shape, w.Fates();
    DrainLocal(w, false, contended, []);
    SealedTrans(old(w.shape.places), aborted.places, w.shape.places, old(w.Fates()), marks, w.Fates());
    w.Places();
    GrownTrans(old(w.shape), aborted, w.shape);
  }

  /**
   * The final drain, from any state of the worker: it ends with every operation, old or
   * published meanwhile, having run exactly once; with the timers contended, waits may be left
   * on their ready list. Who was completed before is delivered with that completion, and so is
   * who is among the completions `first` that the kernel has ready.
   */
  method Finish(w: Worker, contended: bool, first: seq<Report>)
    requires w.Valid() && Settled(w.shape.lists) && Reportable(first, w.inflight)
    modifies w, w.shape.places.Keys
    ensures w.Valid() && Grown(old(w.shape), w.shape) && Finished(w.shape, contended)
    ensures NoRepeat(At(w.shape.lists, Ran))
    ensures forall o <- w.shape.places :: o in At(w.shape.lists, Ran) || (contended && o in At(w.shape.lists, InReady))
    ensures forall p :: p != Ran && (p != InReady || !contended) ==> At(w.shape.lists, p) == []
    ensures Sealed(old(w.shape.places), w.shape.places, old(w.Fates()), w.Fates())
    ensures Reached(first, w.shape.places, w.Fates(), old(w.Fates()))
  {
    hide w.Valid, At, Load, Grown, Settled, Sealed, Reached, MarksOf;
    DrainLocal(w, true, contended, first);
    ghost var drained, marks := w.shape, w.Fates();
    AbortAndDeliver(w, contended);
    SealedTrans(old(w.shape.places), drained.places, w.shape.places, old(w.Fates()), marks, w.Fates());
    ReachedSealed(first, drained.places, w.shape.places, marks, w.Fates(), old(w.Fates()));
    GrownTrans(old(w.shape), drained, w.shape);
    w.Places();
    OnlyRan(w.shape, contended);
  }

  lemma OnlyRan(sh: Shape, contended: bool)
    requires Located(sh.lists, sh.places) && Finished(sh, contended)
    ensures NoRepeat(At(sh.lists, Ran))
    ensures forall o <- sh.places :: o in At(sh.lists, Ran) || (contended && o in At(sh.lists, InReady))
    ensures forall p :: p != Ran && (p != InReady || !contended) ==> At(sh.lists, p) == []
  {
    forall p | p != Ran && (p != InReady || !contended) ensures At(sh.lists, p) == [] {
      VacantEmpty(sh.lists, sh.places, p);
    }
  }
}
