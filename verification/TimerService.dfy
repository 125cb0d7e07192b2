/**
 * The timer entry points of io_context, as they run inside the timer mutex, on the intrusive
 * structures of TimerHeap. Each is proved to take the step of TimerModel that it stands for.
 */
module TimerService {
  import opened TimePoints
  import opened TimerHeap
  import opened Sequences
  import M = TimerModel
  import P = PairingTree

  type Model = M.State<TimerSlot>

  /** The slot is an active timer of `context` with these data. */
  ghost predicate Shows(s: TimerSlot, t: M.Timer, context: object)
    reads s`context, s`expiry, s`submitted, s`submittedSize
  {
    s.context == context && t == M.Timer(s.expiry, s.submitted) && s.submittedSize == |s.submitted|
  }

  /** The slots' data are those of the model's timers, and all belong to `context`. */
  ghost predicate Tracks(model: Model, sh: Shape, context: object)
    reads sh.All()`context, sh.All()`expiry, sh.All()`submitted, sh.All()`submittedSize
  {
    && model.active.Keys == sh.Active() && model.idle.Keys == sh.Idle()
    && (forall s <- model.active :: Shows(s, model.active[s], context))
    && (forall s <- model.idle :: Shows(s, M.Timer(model.idle[s], []), context))
  }

  ghost function Registered(model: Model): set<TimerSlot> {
    model.active.Keys + model.idle.Keys
  }

  ghost function Without(model: Model, timer: TimerSlot): Model {
    model.(active := model.active - {timer}, idle := model.idle - {timer})
  }

  /** The waits that a timer holds. */
  ghost function WaitsOf(model: Model, timer: TimerSlot): seq<nat> {
    if timer in model.active then model.active[timer].waits else []
  }

  /** The ready list after these waits were staged, the last of them in front. */
  ghost predicate Staged(before: seq<M.Staged>, after: seq<M.Staged>, waits: seq<nat>, kind: M.Kind) {
    after == M.Marked(Reverse(waits), kind) + before
  }

  ghost predicate Earliest(active: map<TimerSlot, M.Timer>, timer: TimerSlot) {
    timer in active && forall s <- active :: active[timer].expiry <= active[s].expiry
  }

  /** The earliest active expiry fell between the two sets of timers. */
  ghost predicate Dropped(before: map<TimerSlot, M.Timer>, after: map<TimerSlot, M.Timer>) {
    exists d, d' :: M.IsDeadline(before, d) && M.IsDeadline(after, d') && d' < d
  }

  class IoTimers {
    const timers: TimerState
    var ready: seq<M.Staged>
    ghost var model: Model

    ghost predicate Valid()
      reads this, timers, timers.shape.All()
    {
      timers.Valid() && Tracks(model, timers.shape, this) && ready == model.ready
    }

    /** A slot belongs to this context exactly while it is registered with it. */
    ghost predicate Known(timer: TimerSlot)
      reads this, timers, timer
    {
      (timer.context == this <==> timer in timers.shape.All()) && (timer.context == null ==> !timer.active)
    }

    constructor (ghost clock: int)
      ensures Valid() && model == M.Initial(clock)
    {
      timers := new TimerState();
      ready, model := [], M.Initial(clock);
    }

    method Deadline() returns (d: TimePoint)
      requires Valid()
      ensures Valid() && M.IsDeadline(model.active, d)
    {
      hide Formed, P.Elems;
      d := timers.HeapDeadline();
      if model.active != map[] {
        assert timers.shape.Active() != {} by {
          var s :| s in model.active;
          assert s in timers.shape.Active();
        }
        var s :| s in timers.shape.Active() && s.expiry == d;
        assert model.active[s].expiry == d;
      } else {
        assert timers.shape.Active() == {};
      }
    }

    /** Prepends the waits one by one to the ready list. */
    method Enqueue(waits: seq<nat>, kind: M.Kind)
      modifies this`ready
      ensures ready == M.Stage(waits, kind, old(ready))
    {
      var rest := waits;
      while rest != []
        invariant M.Stage(rest, kind, ready) == M.Stage(waits, kind, old(ready))
        decreases |rest|
      {
        var wait := rest[0];
        rest := rest[1..];
        ready := [M.Staged(wait, kind)] + ready;
      }
    }

    /** A slot of this context that is in neither structure and has no waits. */
    ghost predicate Loose(timer: TimerSlot)
      reads this, timers, timer
    {
      && timer !in timers.shape.All() && timer.context == this && !timer.active
      && timer.previous == null && timer.next == null && timer.submitted == [] && timer.submittedSize == 0
    }

    method PutInactive(timer: TimerSlot)
      requires Valid() && Loose(timer)
      modifies this`model, timers, timer`previous, timer`child, timer`next, timers.shape.All()`previous
      ensures Valid() && timers.shape.All() == old(timers.shape.All()) + {timer}
      ensures model == old(model).(idle := old(model).idle[timer := timer.expiry])
    {
      hide Live, Slots, P.Elems;
      model := model.(idle := model.idle[timer := timer.expiry]);
      timers.PushInactive(timer);
    }

    /** Puts a loose slot where its expiry belongs. */
    method Insert(timer: TimerSlot, now: TimePoint)
      requires Valid() && Loose(timer)
      modifies this`model, timers, timer`previous, timer`child, timer`next, timer`active
      modifies timers.shape.All()`previous, timers.shape.All()`child, timers.shape.All()`next
      ensures Valid() && timers.shape.All() == old(timers.shape.All()) + {timer}
      ensures model == M.Insert(old(model), timer, timer.expiry, now)
    {
      hide Live, Slots, P.Elems;
      if timer.expiry > now {
        model := model.(active := model.active[timer := M.Timer(timer.expiry, [])]);
        timers.PushHeap(timer);
      } else {
        PutInactive(timer);
      }
    }

    /** Takes a registered slot out of its structure, with its waits still on it. */
    method Remove(timer: TimerSlot)
      requires Valid() && timer in timers.shape.All()
      modifies this`model, timers, timer`active
      modifies timers.shape.All()`previous, timers.shape.All()`child, timers.shape.All()`next
      ensures Valid() && timer !in timers.shape.All() && !timer.active
      ensures timer.previous == null && timer.child == null && timer.next == null
      ensures timer.submittedSize == |timer.submitted|
      ensures model == Without(old(model), timer)
    {
      hide Live, Slots, P.Elems;
      timers.Split();
      model := Without(model, timer);
      if timer.active {
        timers.EraseHeap(timer);
      } else {
        timers.EraseInactive(timer);
      }
    }
  
    method Register(timer: TimerSlot, now: TimePoint, ghost clock: int) returns (wake: bool)
      requires Valid() && Known(timer) && now <= clock && model.clock <= clock
      modifies this`model, timers, timer, timers.shape.All()`previous, timers.shape.All()`child, timers.shape.All()`next
      ensures Valid() && Known(timer)
      ensures old(timer.context) != null ==> model == old(model).(clock := clock) && !wake
      ensures old(timer.context) == null ==>
                model == M.Step(old(model).(clock := clock), M.Register(timer, timer.expiry, now))
      ensures wake <==> Dropped(old(model.active), model.active)
    {
      hide Live, Slots, P.Elems, M.IsDeadline, Dropped;
      var previous := Deadline();
      model := model.(clock := clock);
      if timer.context != null {
        DropSince(model.active, model.active, previous, previous);
        return false;
      }
      Adopt(timer);
      Insert(timer, now);
      var current := Deadline();
      DropSince(old(model.active), model.active, previous, current);
      if timer.expiry > now {
        return current < previous;
      }
      SameDeadline(model.active, current, previous);
      return false;
    }

    /** Binds a slot that is registered nowhere to this context. */
    method Adopt(timer: TimerSlot)
      requires Valid() && timer.context == null && timer !in timers.shape.All()
      modifies timer`context, timer`submitted, timer`submittedSize, timer`previous, timer`child, timer`next
      ensures Valid() && timer.context == this && timer.submitted == [] && timer.submittedSize == 0
      ensures timer.previous == null && timer.child == null && timer.next == null
    {
      hide Live, Slots, P.Elems;
      timer.context := this;
      timer.submitted, timer.submittedSize := [], 0;
      timer.previous, timer.child, timer.next := null, null, null;
    }

    /** Stages waits that were taken off a timer. */
    method Dispatch(waits: seq<nat>, kind: M.Kind)
      requires Valid()
      modifies this`ready, this`model
      ensures Valid() && model == M.Move(old(model), waits, kind) && Staged(old(ready), ready, waits, kind)
    {
      StageMarked(waits, kind, ready);
      hide Formed, Slots, P.Elems;
      Enqueue(waits, kind);
      model := M.Move(model, waits, kind);
    }

    /** Empties the wait list of a slot. */
    method TakeOperations(timer: TimerSlot) returns (waits: seq<nat>, size: nat)
      modifies timer`submitted, timer`submittedSize
      ensures waits == old(timer.submitted) && size == old(timer.submittedSize)
      ensures timer.submitted == [] && timer.submittedSize == 0
    {
      waits, size := timer.submitted, timer.submittedSize;
      timer.submitted, timer.submittedSize := [], 0;
    }

    /** Takes a registered slot out of its structure and its waits off it. */
    method Release(timer: TimerSlot) returns (waits: seq<nat>, size: nat)
      requires Valid() && timer in timers.shape.All()
      modifies this`model, timers, timer`active, timer`submitted, timer`submittedSize
      modifies timers.shape.All()`previous, timers.shape.All()`child, timers.shape.All()`next
      ensures Valid() && timer !in timers.shape.All() && !timer.active
      ensures timer.previous == null && timer.child == null && timer.next == null
      ensures timer.submitted == [] && timer.submittedSize == 0
      ensures waits == WaitsOf(old(model), timer) && size == |waits|
      ensures model == Without(old(model), timer)
    {
      hide Live, Slots, P.Elems;
      Remove(timer);
      waits, size := TakeOperations(timer);
    }

    method Unregister(timer: TimerSlot) returns (wake: bool)
      requires Valid() && Known(timer)
      modifies this`model, this`ready, timers, timer
      modifies timers.shape.All()`previous, timers.shape.All()`child, timers.shape.All()`next
      ensures Valid() && Known(timer) && timer.context != this
      ensures model == M.Step(old(model), M.Unregister(timer))
      ensures Staged(old(ready), ready, WaitsOf(old(model), timer), M.Canceled)
      ensures wake <==> |old(ready)| < |ready|
    {
      hide Live, Slots, P.Elems, M.Move;
      StagedNone(ready, M.Canceled);
      if timer.context != this {
        assert timer !in model.active && timer !in model.idle;
        return false;
      }
      timers.Split();
      UnregisterStep(model, timer);
      var waits, _ := Release(timer);
      timer.context := null;
      Dispatch(waits, M.Canceled);
      return waits != [];
    }

    /** Takes the waits off a slot that stays registered. */
    method Strip(timer: TimerSlot) returns (waits: seq<nat>, size: nat)
      requires Valid() && timer in timers.shape.All()
      modifies this`model, timer`submitted, timer`submittedSize
      ensures Valid() && size == |waits|
      ensures old(timer in model.active) ==> waits == old(model.active[timer].waits)
      ensures old(timer in model.active) ==>
                model == old(model).(active := old(model.active)[timer := M.Timer(timer.expiry, [])])
      ensures old(timer !in model.active) ==> waits == [] && model == old(model)
    {
      hide Formed, Slots, P.Elems;
      timers.Split();
      if timer in model.active {
        model := model.(active := model.active[timer := M.Timer(timer.expiry, [])]);
      }
      waits, size := TakeOperations(timer);
    }

    /** Cancels the waits of a timer: how many, and whether a sleeping worker must be woken. */
    method Cancel(timer: TimerSlot) returns (count: nat, wake: bool)
      requires Valid() && Known(timer)
      modifies this`model, this`ready, timer`submitted, timer`submittedSize
      ensures Valid() && Known(timer)
      ensures model == M.Step(old(model), M.Cancel(timer))
      ensures Staged(old(ready), ready, WaitsOf(old(model), timer), M.Canceled)
      ensures count == |WaitsOf(old(model), timer)| && (wake <==> count > 0)
    {
      hide Formed, Slots, P.Elems, M.Move;
      StagedNone(ready, M.Canceled);
      if timer.context != this {
        assert timer !in model.active;
        return 0, false;
      }
      timers.Split();
      ghost var before := model;
      var waits, size := Strip(timer);
      Dispatch(waits, M.Canceled);
      if timer !in before.active {
        MoveNothing(before, M.Canceled);
      }
      return size, waits != [];
    }

    /** Moves a registered timer to where its new expiry belongs, cancelling its waits. */
    method Reschedule(timer: TimerSlot, expiry: TimePoint, now: TimePoint) returns (count: nat)
      requires Valid() && timer in timers.shape.All() && timer.context == this && now <= model.clock
      modifies this`model, this`ready, timers, timer
      modifies timers.shape.All()`previous, timers.shape.All()`child, timers.shape.All()`next
      ensures Valid() && timer in timers.shape.All() && timer.context == this
      ensures model == M.Step(old(model), M.SetExpiry(timer, expiry, now))
      ensures count == |WaitsOf(old(model), timer)| && timer.expiry == expiry
      ensures Staged(old(ready), ready, WaitsOf(old(model), timer), M.Canceled)
    {
      hide Live, Slots, P.Elems, M.Move, M.Insert, Staged, M.Step;
      timers.Split();
      ghost var before := model;
      var waits, size := Release(timer);
      SetExpiryStep(before, timer, expiry, now);
      timer.expiry := expiry;
      Dispatch(waits, M.Canceled);
      Insert(timer, now);
      return size;
    }

    /** Gives a timer a new expiry: how many waits that cancelled, and whether to wake a worker. */
    method SetExpiry(timer: TimerSlot, expiry: TimePoint, now: TimePoint, ghost clock: int)
      returns (count: nat, wake: bool)
      requires Valid() && Known(timer) && now <= clock && model.clock <= clock
      modifies this`model, this`ready, timers, timer
      modifies timers.shape.All()`previous, timers.shape.All()`child, timers.shape.All()`next
      ensures Valid() && Known(timer)
      ensures model == M.Step(old(model).(clock := clock), M.SetExpiry(timer, expiry, now))
      ensures count == |WaitsOf(old(model), timer)|
      ensures timer.expiry == if old(timer.context) == this then expiry else old(timer.expiry)
      ensures Staged(old(ready), ready, WaitsOf(old(model), timer), M.Canceled)
      ensures wake <==> count > 0 || Dropped(old(model.active), model.active)
    {
      hide Live, Slots, P.Elems, M.Move, M.Insert, M.IsDeadline, Dropped;
      StagedNone(ready, M.Canceled);
      var previous := Deadline();
      model := model.(clock := clock);
      if timer.context != this {
        assert timer !in model.active && timer !in model.idle;
        DropSince(model.active, model.active, previous, previous);
        return 0, false;
      }
      count := Reschedule(timer, expiry, now);
      var current := Deadline();
      DropSince(old(model.active), model.active, previous, current);
      return count, count > 0 || current < previous;
    }

    /** Starts a wait: on an active timer it is submitted, otherwise staged at once. */
    method StartWait(wait: nat, timer: TimerSlot) returns (wake: bool)
      requires Valid() && Known(timer) && wait !in model.place
      modifies this`model, this`ready, timer`submitted, timer`submittedSize
      ensures Valid() && Known(timer)
      ensures model == M.Step(old(model), M.StartWait(timer, wait))
      ensures timer in old(model).active ==> ready == old(ready) && timer.submitted == [wait] + old(timer.submitted)
      ensures timer !in old(model).active ==>
                ready == [M.Staged(wait, if timer in old(model).idle then M.Value else M.Canceled)] + old(ready)
      ensures wake <==> |old(ready)| < |ready|
    {
      hide Formed, Slots, P.Elems, M.Move;
      timers.Split();
      if timer.context != this {
        assert timer !in model.active && timer !in model.idle;
        Dispatch([wait], M.Canceled);
        return true;
      }
      if !timer.active {
        assert timer !in model.active && timer in model.idle && model.idle[timer] == timer.expiry;
        Dispatch([wait], M.Value);
        return true;
      }
      Submit(wait, timer);
      return false;
    }

    method Submit(wait: nat, timer: TimerSlot)
      requires Valid() && timer in model.active
      modifies this`model, timer`submitted, timer`submittedSize
      ensures Valid()
      ensures var t := old(model).active[timer];
              model == old(model).(active := old(model).active[timer := t.(waits := [wait] + t.waits)],
                                   place := old(model).place[wait := M.Waiting(timer)])
      ensures timer.submitted == [wait] + old(timer.submitted)
    {
      hide Formed, Slots, P.Elems;
      timers.Split();
      var t := model.active[timer];
      model := model.(active := model.active[timer := t.(waits := [wait] + t.waits)],
                      place := model.place[wait := M.Waiting(timer)]);
      timer.submitted := [wait] + timer.submitted;
      timer.submittedSize := timer.submittedSize + 1;
    }

    /** Takes an active timer with the earliest expiry out of the heap, with its waits. */
    method Pop() returns (timer: TimerSlot?, waits: seq<nat>)
      requires Valid()
      modifies this`model, timers, timers.shape.All()
      ensures Valid() && timers.shape.All() <= old(timers.shape.All())
      ensures timer == null <==> old(model.active) == map[]
      ensures timer == null ==> model == old(model) && timers.shape.All() == old(timers.shape.All())
      ensures timer != null ==>
                && timer in old(model.active) && old(model.active)[timer] == M.Timer(timer.expiry, waits)
                && (forall s <- old(model.active) :: timer.expiry <= old(model.active)[s].expiry)
                && model == old(model).(active := old(model.active) - {timer})
                && timers.shape.All() == old(timers.shape.All()) - {timer} && timer in old(timers.shape.All())
                && !timer.active && timer.context == this
                && timer.previous == null && timer.next == null && timer.submitted == [] && timer.submittedSize == 0
    {
      hide Live, Slots, P.Elems;
      waits := [];
      timer := PopSlot();
      if timer != null {
        var taken, _ := TakeOperations(timer);
        waits := taken;
      }
    }

    method PopSlot() returns (timer: TimerSlot?)
      requires Valid()
      modifies this`model, timers
      modifies timers.shape.All()`previous, timers.shape.All()`child, timers.shape.All()`next, timers.shape.All()`active
      ensures Valid() && timers.shape.All() <= old(timers.shape.All())
      ensures timer == null <==> old(model.active) == map[]
      ensures timer == null ==> model == old(model) && timers.shape.All() == old(timers.shape.All())
      ensures timer != null ==>
                && timer in old(model.active) && Shows(timer, old(model.active)[timer], this)
                && (forall s <- old(model.active) :: timer.expiry <= old(model.active)[s].expiry)
                && model == old(model).(active := old(model.active) - {timer})
                && timers.shape.All() == old(timers.shape.All()) - {timer} && timer in old(timers.shape.All())
                && !timer.active && timer.previous == null && timer.next == null
    {
      hide Live, Slots, P.Elems;
      timers.Split();
      assert timers.shape.Active() == model.active.Keys;
      timer := timers.PopHeap();
      assert timer != null ==> Shows(timer, model.active[timer], this);
      if timer != null {
        model := model.(active := model.active - {timer});
      }
    }

    /** Takes the earliest timer out of the heap, shelves it, and stages its waits as elapsed. */
    method ExpireNext() returns (timer: TimerSlot?)
      requires Valid()
      modifies this`model, this`ready, timers, timers.shape.All()
      ensures Valid() && timers.shape.All() <= old(timers.shape.All())
      ensures timer == null <==> old(model.active) == map[]
      ensures timer == null ==> model == old(model) && timers.shape.All() == old(timers.shape.All())
      ensures timer != null ==> Earliest(old(model.active), timer) && model == M.DrainOne(old(model), timer)
      ensures timer != null ==> Staged(old(ready), ready, WaitsOf(old(model), timer), M.Value)
    {
      hide Live, Slots, P.Elems, M.Move;
      var waits;
      timer, waits := Pop();
      if timer != null {
        PutInactive(timer);
        Dispatch(waits, M.Value);
      }
    }

    /** Expires timers until none is due; `order` is the order in which they were taken. */
    method DrainExpired(now: TimePoint) returns (ghost order: seq<TimerSlot>)
      requires Valid() && model.clock == now
      modifies this`model, this`ready, timers, timers.shape.All()
      ensures Valid() && timers.shape.All() <= old(timers.shape.All())
      ensures M.Enabled(old(model), M.Fetch(order)) && model == M.Drain(old(model), order)
    {
      hide Valid, Slots, P.Elems, M.DrainOne, M.IsDeadline, Draining, Earliest, M.Drain, M.Enabled;
      order := [];
      DrainingNone(model, now);
      var d := Deadline();
      while d <= now
        invariant Valid() && timers.shape.All() <= old(timers.shape.All())
        invariant Draining(old(model), order, model, now)
        invariant M.IsDeadline(model.active, d)
        decreases |model.active|
      {
        ghost var before := model;
        var timer := ExpireNext();
        if timer == null {
          break;
        }
        DrainingNext(old(model), order, before, timer, now, d);
        order := order + [timer];
        d := Deadline();
      }
      DrainingDone(old(model), order, model, now, d);
    }

    /** Turns the ready list, last staged first, into the list of operations to run. */
    method ReverseReady(taken: seq<M.Staged>) returns (operations: seq<M.Staged>)
      requires Valid()
      ensures Valid() && operations == Reverse(taken)
    {
      hide Valid;
      var rest := taken;
      operations := [];
      while rest != []
        invariant Reverse(rest) + operations == Reverse(taken)
        decreases |rest|
      {
        var operation := rest[0];
        rest := rest[1..];
        operations := [operation] + operations;
      }
    }

    /**
     * Drains the expired timers and takes everything staged, when both the gate and the
     * mutex are won. The clock is read inside the critical section.
     */
    method TryFetch(gate: bool, lock: bool, now: TimePoint)
      returns (fetched: bool, deadline: TimePoint, operations: seq<M.Staged>, ghost order: seq<TimerSlot>)
      requires Valid() && model.clock == now
      modifies this`model, this`ready, timers, timers.shape.All()
      ensures Valid() && (fetched <==> gate && lock)
      ensures !fetched ==> model == old(model) && ready == old(ready) && operations == []
      ensures fetched ==> M.Enabled(old(model), M.Fetch(order)) && model == M.Step(old(model), M.Fetch(order))
      ensures fetched ==> M.IsDeadline(model.active, deadline)
      ensures fetched ==> model.fetched == old(model).fetched + operations
      ensures fetched ==> operations == Reverse(old(ready)) + M.Marked(M.Batch(old(model).active, order), M.Value)
    {
      hide Valid, Slots, P.Elems, M.IsDeadline, M.Drain;
      deadline, operations, order := TIME_MAX, [], [];
      if !gate {
        return false, deadline, operations, order;
      }
      if !lock {
        return false, deadline, operations, order;
      }
      ReadyShown();
      order := DrainExpired(now);
      deadline := Deadline();
      M.DrainBatch(old(model), order);
      operations := TakeReady();
      fetched := true;
    }

    lemma ReadyShown()
      requires Valid()
      ensures ready == model.ready
    {
    }

    method TakeReady() returns (operations: seq<M.Staged>)
      requires Valid()
      modifies this`model, this`ready
      ensures Valid() && model == M.TakeReady(old(model))
      ensures operations == Reverse(old(ready)) && old(ready) == old(model).ready
    {
      hide Live, Slots, P.Elems;
      var taken := ready;
      operations := ReverseReady(taken);
      model := M.TakeReady(model);
      ready := [];
    }

    /** Drops the earliest active timer from the context, its waits staged as canceled. */
    method AbortNext() returns (timer: TimerSlot?)
      requires Valid()
      modifies this`model, this`ready, timers, timers.shape.All()
      ensures Valid() && timers.shape.All() <= old(timers.shape.All())
      ensures timer == null <==> old(model.active) == map[]
      ensures timer == null ==> model == old(model) && timers.shape.All() == old(timers.shape.All())
      ensures timer != null ==> Earliest(old(model.active), timer) && model == M.DismissOne(old(model), timer)
      ensures timer != null ==> Forgotten(timer) && Registered(model) == Registered(old(model)) - {timer}
      ensures timer != null ==> Staged(old(ready), ready, WaitsOf(old(model), timer), M.Canceled)
    {
      hide Valid, Slots, P.Elems, M.Stage, Shape.All;
      AllRegistered();
      var waits;
      timer, waits := Pop();
      if timer != null {
        Disown(timer);
        Dispatch(waits, M.Canceled);
      }
    }

    method Disown(timer: TimerSlot)
      requires Valid() && timer !in timers.shape.All()
      modifies timer`context
      ensures Valid() && timer.context == null
    {
      hide Live, Slots, P.Elems;
      timer.context := null;
    }

    /** Drops the first inactive timer from the context; it has no waits. */
    method AbortIdle() returns (timer: TimerSlot?)
      requires Valid()
      modifies this`model, this`ready, timers, timers.shape.All()
      ensures Valid() && timers.shape.All() <= old(timers.shape.All())
      ensures timer == null <==> old(model.idle) == map[]
      ensures timer == null ==> model == old(model) && timers.shape.All() == old(timers.shape.All())
      ensures timer != null ==> timer in old(model.idle) && model == old(model).(idle := old(model).idle - {timer})
      ensures timer != null ==> Forgotten(timer) && Registered(model) == Registered(old(model)) - {timer}
    {
      hide Live, Slots, P.Elems, M.Move;
      timers.Split();
      timers.InactiveHead();
      assert timers.shape.Idle() == model.idle.Keys;
      timer := timers.inactive;
      if timer != null {
        var waits, _ := Release(timer);
        timer.context := null;
        Enqueue(waits, M.Canceled);
      }
    }

    method AbortActive() returns (ghost order: seq<TimerSlot>)
      requires Valid()
      modifies this`model, this`ready, timers, timers.shape.All()
      ensures Valid() && model.active == map[] && Dismissing(old(model), order, model)
      ensures timers.shape.All() <= old(timers.shape.All())
      ensures forall s <- Registered(old(model)) :: s in Registered(model) || Forgotten(s)
    {
      hide Valid, Slots, P.Elems, M.DismissOne, Dismissing, Earliest, M.Dismiss, Shape.All, Staged, WaitsOf;
      order := [];
      DismissingNone(model);
      while true
        invariant Valid() && Dismissing(old(model), order, model)
        invariant timers.shape.All() <= old(timers.shape.All())
        invariant forall s <- Registered(old(model)) :: s in Registered(model) || Forgotten(s)
        decreases |model.active|
      {
        ghost var before := model;
        AllRegistered();
        var timer := AbortNext();
        if timer == null {
          break;
        }
        DismissingNext(old(model), order, before, timer);
        order := order + [timer];
      }
    }

    method AbortInactive()
      requires Valid()
      modifies this`model, this`ready, timers, timers.shape.All()
      ensures Valid() && model == old(model).(idle := map[])
      ensures timers.shape.All() <= old(timers.shape.All())
      ensures forall s <- Registered(old(model)) :: s in Registered(model) || Forgotten(s)
    {
      hide Valid, Slots, P.Elems, Shape.All, Forgotten, Shape.Active, Shape.Idle;
      while true
        invariant Valid() && model == old(model).(idle := model.idle)
        invariant timers.shape.All() <= old(timers.shape.All())
        invariant forall s <- Registered(old(model)) :: s in Registered(model) || Forgotten(s)
        decreases |model.idle|
      {
        ghost var before := model.idle;
        AllRegistered();
        var timer := AbortIdle();
        if timer == null {
          break;
        }
        assert model.idle.Keys == before.Keys - {timer};
      }
    }

    /** Forgets every timer, with all their waits staged as canceled. */
    method AbortPending() returns (ghost order: seq<TimerSlot>)
      requires Valid()
      modifies this`model, this`ready, timers, timers.shape.All()
      ensures Valid() && M.Enabled(old(model), M.Abort(order)) && model == M.Step(old(model), M.Abort(order))
      ensures timers.shape.All() == {} && forall s <- Registered(old(model)) :: Forgotten(s)
      ensures Reverse(ready) == Reverse(old(ready)) + M.Marked(M.Batch(old(model).active, order), M.Canceled)
    {
      hide Valid, Slots, P.Elems, Dismissing, M.Dismiss, Shape.All;
      ReadyShown();
      order := AbortActive();
      DismissingDone(old(model), order, model);
      M.DismissBatch(old(model), order);
      AllRegistered();
      AbortInactive();
      AllRegistered();
      ReadyShown();
    }

    lemma AllRegistered()
      requires Valid()
      ensures timers.shape.All() == Registered(model) && model.active.Keys !! model.idle.Keys
    {
      hide Formed, Slots;
      timers.Split();
    }
  }

  /** The timers in `order` are dismissed; those still active are no earlier. */
  ghost predicate Dismissing(start: Model, order: seq<TimerSlot>, model: Model) {
    && M.InOrder(start.active, order) && model == M.Dismiss(start, order)
    && (forall x <- order, s <- model.active :: start.active[x].expiry <= model.active[s].expiry)
  }

  lemma DismissingNone(start: Model)
    ensures Dismissing(start, [], start)
  {
  }

  lemma DismissingNext(start: Model, order: seq<TimerSlot>, model: Model, s: TimerSlot)
    requires Dismissing(start, order, model) && Earliest(model.active, s)
    ensures Dismissing(start, order + [s], M.DismissOne(model, s))
    ensures |M.DismissOne(model, s).active| < |model.active|
  {
    hide M.Dismiss, M.Stage;
    M.DismissExact(start, order);
    assert M.InOrder(start.active, order + [s]);
    M.DismissNext(start, order, s);
    assert M.DismissOne(model, s).active == model.active - {s};
    assert (model.active - {s}).Keys == model.active.Keys - {s};
  }

  lemma DismissingDone(start: Model, order: seq<TimerSlot>, model: Model)
    requires Dismissing(start, order, model) && model.active == map[]
    ensures M.Enabled(start, M.Abort(order)) && model == M.Dismiss(start, order)
  {
    M.DismissExact(start, order);
  }

  lemma {:induction false} StageMarked(waits: seq<nat>, kind: M.Kind, ready: seq<M.Staged>)
    ensures Staged(ready, M.Stage(waits, kind, ready), waits, kind)
    decreases |waits|
  {
    if waits == [] {
      StagedNone(ready, kind);
    } else {
      var first := [M.Staged(waits[0], kind)];
      StageMarked(waits[1..], kind, first + ready);
      MarkedLast(Reverse(waits[1..]), waits[0], kind);
      var rest := M.Marked(Reverse(waits[1..]), kind);
      assert rest + (first + ready) == rest + first + ready;
    }
  }

  lemma MarkedLast(waits: seq<nat>, wait: nat, kind: M.Kind)
    ensures M.Marked(waits + [wait], kind) == M.Marked(waits, kind) + [M.Staged(wait, kind)]
  {
  }

  lemma StagedNone(ready: seq<M.Staged>, kind: M.Kind)
    ensures Staged(ready, ready, [], kind)
  {
    assert M.Marked(Reverse([]), kind) == [];
  }

  ghost predicate Forgotten(s: TimerSlot)
    reads s
  {
    s.context == null && !s.active && s.submitted == [] && s.submittedSize == 0
  }

  /** The timers in `order` were due and are drained; those still active are no earlier. */
  ghost predicate Draining(start: Model, order: seq<TimerSlot>, model: Model, now: int) {
    && M.InOrder(start.active, order) && model == M.Drain(start, order)
    && (forall x <- order :: start.active[x].expiry <= now)
    && (forall x <- order, s <- model.active :: start.active[x].expiry <= model.active[s].expiry)
  }

  lemma DrainingNext(start: Model, order: seq<TimerSlot>, model: Model, s: TimerSlot, now: int, d: int)
    requires Draining(start, order, model, now) && Earliest(model.active, s)
    requires M.IsDeadline(model.active, d) && d <= now
    ensures Draining(start, order + [s], M.DrainOne(model, s), now)
    ensures |M.DrainOne(model, s).active| < |model.active|
  {
    hide M.Drain, M.Stage;
    M.DrainTimers(start, order);
    assert model.active[s].expiry == d;
    assert M.InOrder(start.active, order + [s]);
    M.DrainNext(start, order, s);
    assert M.DrainOne(model, s).active == model.active - {s};
    assert (model.active - {s}).Keys == model.active.Keys - {s};
  }

  lemma DrainingNone(start: Model, now: int)
    ensures Draining(start, [], start, now)
  {
  }

  lemma DrainingDone(start: Model, order: seq<TimerSlot>, model: Model, now: int, d: int)
    requires Draining(start, order, model, now) && start.clock == now
    requires M.IsDeadline(model.active, d) && (now < d || model.active == map[])
    ensures M.Enabled(start, M.Fetch(order)) && model == M.Drain(start, order)
  {
    M.DrainTimers(start, order);
  }

  lemma SetExpiryStep(model: Model, timer: TimerSlot, expiry: int, now: int)
    requires timer in model.active <==> timer !in model.idle
    requires now <= model.clock
    ensures M.Insert(M.Move(Without(model, timer), WaitsOf(model, timer), M.Canceled), timer, expiry, now)
         == M.Step(model, M.SetExpiry(timer, expiry, now))
  {
    if timer in model.active {
      assert model.idle - {timer} == model.idle;
    } else {
      assert model.active - {timer} == model.active;
      MoveNothing(model.(idle := model.idle - {timer}), M.Canceled);
    }
  }

  /** What removing a timer and staging its waits amounts to. */
  lemma UnregisterStep(model: Model, timer: TimerSlot)
    requires timer in model.active ==> timer !in model.idle
    ensures M.Move(Without(model, timer), WaitsOf(model, timer), M.Canceled) == M.Step(model, M.Unregister(timer))
  {
    if timer in model.active {
      assert model.idle - {timer} == model.idle;
    } else {
      assert model.active - {timer} == model.active;
      MoveNothing(model.(idle := model.idle - {timer}), M.Canceled);
    }
  }

  lemma MoveNothing(model: Model, kind: M.Kind)
    ensures M.Move(model, [], kind) == model
  {
    assert model.place == map w <- model.place.Keys + M.Members([]) :: if w in [] then M.Ready else model.place[w];
  }

  /** There is only one earliest expiry. */
  lemma SameDeadline(active: map<TimerSlot, M.Timer>, d: int, d': int)
    requires M.IsDeadline(active, d) && M.IsDeadline(active, d')
    ensures d == d'
  {
  }

  lemma DropSince(before: map<TimerSlot, M.Timer>, after: map<TimerSlot, M.Timer>, d: int, d': int)
    requires M.IsDeadline(before, d) && M.IsDeadline(after, d')
    ensures Dropped(before, after) <==> d' < d
  {
    if Dropped(before, after) {
      var e, e' :| M.IsDeadline(before, e) && M.IsDeadline(after, e') && e' < e;
      SameDeadline(before, d, e);
      SameDeadline(after, d', e');
    }
  }
}
