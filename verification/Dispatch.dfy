/**
 * Tiered dispatch of a batch of completions, for both native backends. A batch collected from
 * the kernel goes to the worker's own queue when it is small or within the budget of the pass,
 * and to the shared queue otherwise. The kqueue backend restores the report order before it
 * dispatches; the io_uring backend does not, so it runs every batch in reverse.
 */
module Dispatch {
  import opened OperationQueue
  import opened Sequences

  datatype Tier = Inline | Local | Shared

  ghost predicate Apart(a: seq<Operation>, b: seq<Operation>) {
    forall o <- a :: o !in b
  }

  /** Collects the completed operations of a batch in the order the kernel reports them. */
  method Collect(reported: seq<Operation>) returns (tasks: Operation?)
    requires NoRepeat(reported)
    modifies reported`next
    ensures Chain(tasks, Reverse(reported))
  {
    tasks := null;
    assert Reverse(reported[..0]) == [];
    for i := 0 to |reported|
      invariant Chain(tasks, Reverse(reported[..i]))
    {
      ReverseMembers(reported[..i]);
      tasks := Push(tasks, reported[i], Reverse(reported[..i]));
      ReverseAdd(reported[..i], reported[i]);
      assert reported[..i] + [reported[i]] == reported[..i + 1];
    }
    assert reported[..|reported|] == reported;
  }

  /** Collects a batch and restores the report order. */
  method CollectOrdered(reported: seq<Operation>) returns (tasks: Operation?)
    requires NoRepeat(reported)
    modifies reported`next
    ensures Chain(tasks, reported)
  {
    tasks := Collect(reported);
    ReverseMembers(reported);
    ReverseTwice(reported);
    tasks := ReverseTasks(tasks, Reverse(reported));
  }

  class Dispatcher {
    const inlineThreshold: nat
    const localThreshold: nat
    const local: TaskQueue
    const shared: TaskQueue
    var budget: nat
    /** How many operations this pass has put in the local queue against the budget. */
    ghost var spent: nat

    ghost predicate Valid()
      reads this, local, shared, local.arrivals`next, shared.arrivals`next
    {
      && local != shared && local.Valid() && shared.Valid() && Apart(local.arrivals, shared.arrivals)
      && spent + budget == localThreshold
    }

    constructor (inlineThreshold: nat, localThreshold: nat)
      ensures Valid() && this.inlineThreshold == inlineThreshold && this.localThreshold == localThreshold
      ensures local.arrivals == [] && shared.arrivals == [] && budget == localThreshold
      ensures fresh(local) && fresh(shared)
    {
      this.inlineThreshold, this.localThreshold := inlineThreshold, localThreshold;
      local := new TaskQueue();
      shared := new TaskQueue();
      budget, spent := localThreshold, 0;
    }

    /** A new pass of the run loop. */
    method ResetBudget()
      requires Valid()
      modifies this
      ensures Valid() && budget == localThreshold && local.arrivals == old(local.arrivals)
      ensures shared.arrivals == old(shared.arrivals)
    {
      budget, spent := localThreshold, 0;
    }

    /** The tier a batch of `count` takes with this budget left. */
    function TierAt(count: nat, left: nat): (tier: Tier)
      ensures tier.Inline? <==> count <= inlineThreshold
      ensures tier.Shared? <==> inlineThreshold < count && 0 < localThreshold && left < count
    {
      if count <= inlineThreshold then Inline
      else if localThreshold == 0 || (left > 0 && count <= left) then Local
      else Shared
    }

    method AddLocal(tasks: Operation?, ghost t: seq<Operation>)
      requires Valid() && Chain(tasks, t) && Apart(t, local.arrivals) && Apart(t, shared.arrivals)
      modifies local, t`next
      ensures Valid() && local.arrivals == old(local.arrivals) + t
    {
      local.AddAll(tasks, t);
      assert forall o <- shared.arrivals :: o.next == old(o.next);
    }

    method AddShared(tasks: Operation?, ghost t: seq<Operation>)
      requires Valid() && Chain(tasks, t) && Apart(t, local.arrivals) && Apart(t, shared.arrivals)
      modifies shared, t`next
      ensures Valid() && shared.arrivals == old(shared.arrivals) + t
    {
      shared.AddAll(tasks, t);
      assert forall o <- local.arrivals :: o.next == old(o.next);
    }

    /**
     * Puts an ordered list in a queue. Up to the inline threshold, or without a limit on local
     * work, it is the local one, free of charge. Otherwise it is the local one, charged to the
     * budget, if the budget covers the list, and else the shared one.
     */
    method Deliver(tasks: Operation?, count: nat, ghost t: seq<Operation>)
      requires Valid() && Chain(tasks, t) && |t| == count
      requires Apart(t, local.arrivals) && Apart(t, shared.arrivals)
      modifies this, local, shared, t`next
      ensures Valid()
      ensures count <= inlineThreshold || localThreshold == 0 || count <= old(budget) ==>
                local.arrivals == old(local.arrivals) + t && shared.arrivals == old(shared.arrivals)
      ensures inlineThreshold < count && 0 < localThreshold && old(budget) < count ==>
                shared.arrivals == old(shared.arrivals) + t && local.arrivals == old(local.arrivals)
      ensures budget == if inlineThreshold < count <= old(budget) && 0 < localThreshold then old(budget) - count
                        else old(budget)
      ensures spent - old(spent) == old(budget) - budget
    {
      if count <= inlineThreshold {
        AddLocal(tasks, t);
        return;
      }
      if localThreshold == 0 || (budget > 0 && count <= budget) {
        AddLocal(tasks, t);
        if localThreshold > 0 {
          budget, spent := budget - count, spent + count;
        }
        return;
      }
      AddShared(tasks, t);
    }

    /** Runs one batch: the worker's own queue if it has work, else the shared one. */
    method RunBatch() returns (ran: seq<Operation>)
      requires Valid()
      modifies local, shared, local.arrivals`next, shared.arrivals`next
      ensures Valid()
      ensures ran == old(if local.arrivals != [] then local.arrivals else shared.arrivals)
      ensures local.arrivals == []
      ensures shared.arrivals == old(if local.arrivals != [] then shared.arrivals else [])
    {
      ghost var mine, theirs := local.arrivals, shared.arrivals;
      var tasks := local.Fetch();
      if tasks != null {
        ran := ExecuteTasks(tasks, mine);
        assert forall o <- shared.arrivals :: o.next == old(o.next);
        return;
      }
      tasks := shared.Fetch();
      ran := ExecuteTasks(tasks, theirs);
    }

    /** The expired timers' operations, in staging order, run behind what was there before. */
    method RunTimeouts(operations: Operation?, ghost staged: seq<Operation>) returns (ran: seq<Operation>)
      requires Valid() && Chain(operations, staged) && staged != []
      requires Apart(staged, local.arrivals) && Apart(staged, shared.arrivals)
      modifies local, shared, staged`next, local.arrivals`next, shared.arrivals`next
      ensures Valid() && ran == old(local.arrivals) + staged
      ensures local.arrivals == [] && shared.arrivals == old(shared.arrivals)
    {
      AddLocal(operations, staged);
      ran := RunBatch();
    }

    /** Runs the local queue and then the shared one. */
    method RunBoth() returns (ran: seq<Operation>)
      requires Valid()
      modifies local, shared, local.arrivals`next, shared.arrivals`next
      ensures Valid() && local.arrivals == [] && shared.arrivals == []
      ensures ran == old(local.arrivals) + old(shared.arrivals)
    {
      ran := RunBatch();
      var more := RunBatch();
      ran := ran + more;
    }

    /** Dispatches a batch as kqueue reports it. */
    method DispatchOrdered(reported: seq<Operation>)
      requires Valid() && NoRepeat(reported) && Apart(reported, local.arrivals) && Apart(reported, shared.arrivals)
      modifies this, local, shared, reported`next
      ensures Valid() && budget == Charge(|reported|, old(budget))
      ensures |reported| <= inlineThreshold || localThreshold == 0 || |reported| <= old(budget) ==>
                local.arrivals == old(local.arrivals) + reported && shared.arrivals == old(shared.arrivals)
      ensures inlineThreshold < |reported| && 0 < localThreshold && old(budget) < |reported| ==>
                shared.arrivals == old(shared.arrivals) + reported && local.arrivals == old(local.arrivals)
    {
      var ordered := CollectOrdered(reported);
      assert forall o <- local.arrivals :: o.next == old(o.next);
      assert forall o <- shared.arrivals :: o.next == old(o.next);
      Deliver(ordered, |reported|, reported);
    }

    /** Dispatches a batch as io_uring reports it: the order is not restored. */
    method DispatchReversed(reported: seq<Operation>)
      requires Valid() && NoRepeat(reported) && Apart(reported, local.arrivals) && Apart(reported, shared.arrivals)
      modifies this, local, shared, reported`next
      ensures Valid() && budget == Charge(|reported|, old(budget))
      ensures |reported| <= inlineThreshold || localThreshold == 0 || |reported| <= old(budget) ==>
                local.arrivals == old(local.arrivals) + Reverse(reported) && shared.arrivals == old(shared.arrivals)
      ensures inlineThreshold < |reported| && 0 < localThreshold && old(budget) < |reported| ==>
                shared.arrivals == old(shared.arrivals) + Reverse(reported) && local.arrivals == old(local.arrivals)
    {
      ReverseMembers(reported);
      var tasks := Collect(reported);
      assert forall o <- local.arrivals :: o.next == old(o.next);
      assert forall o <- shared.arrivals :: o.next == old(o.next);
      Deliver(tasks, |reported|, Reverse(reported));
    }

    /** A round of the kqueue backend: whatever was queued, a batch runs in report order, behind it in its queue. */
    method KqueueRound(reported: seq<Operation>) returns (ran: seq<Operation>)
      requires Valid() && NoRepeat(reported) && Apart(reported, local.arrivals) && Apart(reported, shared.arrivals)
      modifies this, local, shared, reported`next, local.arrivals`next, shared.arrivals`next
      ensures Valid() && local.arrivals == [] && shared.arrivals == []
      ensures ran == if inlineThreshold < |reported| && 0 < localThreshold && old(budget) < |reported|
                     then old(local.arrivals) + old(shared.arrivals) + reported
                     else old(local.arrivals) + reported + old(shared.arrivals)
    {
      DispatchOrdered(reported);
      ran := RunBoth();
    }

    /** A round of the io_uring backend: the same with the batch in reverse. */
    method IoUringRound(reported: seq<Operation>) returns (ran: seq<Operation>)
      requires Valid() && NoRepeat(reported) && Apart(reported, local.arrivals) && Apart(reported, shared.arrivals)
      modifies this, local, shared, reported`next, local.arrivals`next, shared.arrivals`next
      ensures Valid() && local.arrivals == [] && shared.arrivals == []
      ensures ran == if inlineThreshold < |reported| && 0 < localThreshold && old(budget) < |reported|
                     then old(local.arrivals) + old(shared.arrivals) + Reverse(reported)
                     else old(local.arrivals) + Reverse(reported) + old(shared.arrivals)
    {
      DispatchReversed(reported);
      ran := RunBoth();
    }

    // ----- a whole pass -------------------------------------------------------------------

    /** The budget left after a batch of `count`. */
    function Charge(count: nat, left: nat): (left': nat)
      ensures left' == if inlineThreshold < count <= left && 0 < localThreshold then left - count else left
    {
      if TierAt(count, left).Local? && localThreshold > 0 then left - count else left
    }

    /** The budget left after these batches. */
    ghost function Left(batches: seq<seq<Operation>>): nat {
      if batches == [] then localThreshold
      else var n := |batches| - 1; Charge(|batches[n]|, Left(batches[..n]))
    }

    /** The completions of a pass that go to the local queue, and those that go to the shared one. */
    ghost function Locals(batches: seq<seq<Operation>>): seq<Operation> {
      if batches == [] then []
      else var n := |batches| - 1;
           Locals(batches[..n]) + if TierAt(|batches[n]|, Left(batches[..n])).Shared? then [] else batches[n]
    }

    ghost function Shareds(batches: seq<seq<Operation>>): seq<Operation> {
      if batches == [] then []
      else var n := |batches| - 1;
           Shareds(batches[..n]) + if TierAt(|batches[n]|, Left(batches[..n])).Shared? then batches[n] else []
    }

    /** What the batches of a pass put in the local queue against the budget. */
    ghost function Charged(batches: seq<seq<Operation>>): nat {
      if batches == [] then 0
      else var n := |batches| - 1;
           Charged(batches[..n]) +
           if localThreshold > 0 && TierAt(|batches[n]|, Left(batches[..n])).Local? then |batches[n]| else 0
    }

    /** However many batches a pass collects, their second tier stays within the threshold. */
    lemma {:induction false} PassWithinBudget(batches: seq<seq<Operation>>)
      ensures Charged(batches) + Left(batches) == localThreshold
      decreases |batches|
    {
      if batches != [] {
        PassWithinBudget(batches[..|batches| - 1]);
      }
    }

    ghost predicate Distinct(batches: seq<seq<Operation>>) {
      && (forall i :: 0 <= i < |batches| ==> NoRepeat(batches[i]))
      && (forall i, j :: 0 <= i < j < |batches| ==> Apart(batches[i], batches[j]))
    }

    /** What the first `i` batches put in a queue is in one of them. */
    lemma {:induction false} PassMembers(batches: seq<seq<Operation>>, i: nat, o: Operation)
      requires i <= |batches| && o in Locals(batches[..i]) + Shareds(batches[..i])
      ensures exists j :: 0 <= j < i && o in batches[j]
      decreases i
    {
      PassStep(batches, i - 1);
      if o !in batches[i - 1] {
        PassMembers(batches, i - 1, o);
      }
    }

    lemma PassStep(batches: seq<seq<Operation>>, i: nat)
      requires i < |batches|
      ensures var left := Left(batches[..i]); var shared := TierAt(|batches[i]|, left).Shared?;
              && Left(batches[..i + 1]) == Charge(|batches[i]|, left)
              && Locals(batches[..i + 1]) == Locals(batches[..i]) + (if shared then [] else batches[i])
              && Shareds(batches[..i + 1]) == Shareds(batches[..i]) + (if shared then batches[i] else [])
    {
      assert batches[..i + 1][..i] == batches[..i];
    }

    lemma PassApart(batches: seq<seq<Operation>>, i: nat)
      requires Distinct(batches) && i < |batches|
      ensures Apart(batches[i], Locals(batches[..i])) && Apart(batches[i], Shareds(batches[..i]))
    {
      forall o <- Locals(batches[..i]) + Shareds(batches[..i]) ensures o !in batches[i] {
        PassMembers(batches, i, o);
        var j :| 0 <= j < i && o in batches[j];
        assert Apart(batches[j], batches[i]);
      }
      assert forall o <- Locals(batches[..i]) :: o in Locals(batches[..i]) + Shareds(batches[..i]);
      assert forall o <- Shareds(batches[..i]) :: o in Locals(batches[..i]) + Shareds(batches[..i]);
    }

    /**
     * A pass of the kqueue backend that collects several batches: each queue gets its batches in
     * the order collected, every batch in report order, behind what was there.
     */
    method KqueuePass(batches: seq<seq<Operation>>, ghost all: set<Operation>)
      requires Valid() && Distinct(batches)
      requires forall i :: 0 <= i < |batches| ==> Within(batches[i], all)
      requires forall o <- all :: o !in local.arrivals && o !in shared.arrivals
      modifies this, local, shared, all`next
      ensures Valid() && budget == Left(batches)
      ensures local.arrivals == old(local.arrivals) + Locals(batches)
      ensures shared.arrivals == old(shared.arrivals) + Shareds(batches)
    {
      hide Valid, Locals, Shareds, Left, TierAt, Charge, Distinct, NoRepeat;
      ResetBudget();
      PassNone();
      assert batches[..0] == [];
      for i := 0 to |batches|
        invariant Valid() && budget == Left(batches[..i])
        invariant local.arrivals == old(local.arrivals) + Locals(batches[..i])
        invariant shared.arrivals == old(shared.arrivals) + Shareds(batches[..i])
      {
        PassStep(batches, i);
        PassApart(batches, i);
        Simple(batches, i);
        DispatchOrdered(batches[i]);
      }
      assert batches[..|batches|] == batches;
    }

    lemma PassNone()
      ensures Left([]) == localThreshold && Locals([]) == [] && Shareds([]) == []
    {
    }

    lemma Simple(batches: seq<seq<Operation>>, i: nat)
      requires Distinct(batches) && i < |batches|
      ensures NoRepeat(batches[i])
    {
    }
  }

  ghost predicate Within(s: seq<Operation>, all: set<Operation>) {
    forall o <- s :: o in all
  }

  /** Reversing a batch keeps the report order exactly when it has at most one completion. */
  lemma ReversedIsReported(reported: seq<Operation>)
    requires NoRepeat(reported)
    ensures Reverse(reported) == reported <==> |reported| <= 1
  {
    if |reported| > 1 {
      assert Reverse(reported)[0] == reported[|reported| - 1];
    }
  }
}
