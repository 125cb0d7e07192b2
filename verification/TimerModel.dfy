/**
 * The timer service of an io_context as a state machine over abstract timers `S` and waits
 * (identified by numbers): registration, expiry changes, cancellation, waits, the expiry
 * drain and the abort at stop. Each command is one critical section of the timer mutex.
 */
module TimerModel {
  import opened TimePoints
  import opened Sequences

  /** timer_completion_kind of a staged wait. */
  datatype Kind = Value | Canceled

  datatype Staged = Staged(wait: nat, kind: Kind)

  /** An active timer: its expiry and its submitted waits, newest first. */
  datatype Timer = Timer(expiry: int, waits: seq<nat>)

  datatype Place<S> = Waiting(timer: S) | Ready | Fetched

  /**
   * `active` timers are in the heap and `idle` ones, with their expiries, in the inactive
   * list; `ready` is the list of staged waits, last staged first. The rest is history: the
   * clock, where each started wait is, and the waits handed out, in order.
   */
  datatype State<S> = State(
    active: map<S, Timer>,
    idle: map<S, int>,
    ready: seq<Staged>,
    clock: int,
    place: map<nat, Place<S>>,
    fetched: seq<Staged>)

  ghost function Initial<S>(clock: int): State<S> {
    State(map[], map[], [], clock, map[], [])
  }

  /** The expiry of the earliest active timer, or the end of time. */
  ghost predicate IsDeadline<S>(active: map<S, Timer>, d: int) {
    && (forall s <- active :: d <= active[s].expiry)
    && (if active == map[] then d == TIME_MAX else exists s <- active :: active[s].expiry == d)
  }

  ghost function Members(s: seq<nat>): set<nat> {
    set w | w in s
  }

  // ----- staging ------------------------------------------------------------------------

  /** Prepends each wait in turn to the ready list. */
  function Stage(waits: seq<nat>, kind: Kind, ready: seq<Staged>): seq<Staged> {
    if waits == [] then ready else Stage(waits[1..], kind, [Staged(waits[0], kind)] + ready)
  }

  function Marked(waits: seq<nat>, kind: Kind): seq<Staged> {
    seq(|waits|, i requires 0 <= i < |waits| => Staged(waits[i], kind))
  }

  /** Moves waits to the ready list. */
  ghost function Move<S>(st: State<S>, waits: seq<nat>, kind: Kind): State<S> {
    st.(ready := Stage(waits, kind, st.ready),
        place := map w <- st.place.Keys + Members(waits) :: if w in waits then Ready else st.place[w])
  }

  // ----- commands -----------------------------------------------------------------------

  datatype Command<S> =
    | Tick(to: int)
    | Register(timer: S, expiry: int, now: int)
    | Unregister(timer: S)
    | Cancel(timer: S)
    | SetExpiry(timer: S, expiry: int, now: int)
    | StartWait(timer: S, wait: nat)
    | Fetch(order: seq<S>)
    | Abort(order: seq<S>)

  /** The timers in `order` are distinct active ones, in the order of their expiries. */
  ghost predicate InOrder<S>(active: map<S, Timer>, order: seq<S>) {
    && (forall s <- order :: s in active)
    && (forall i, j :: 0 <= i < j < |order| ==> order[i] != order[j])
    && (forall i, j :: 0 <= i < j < |order| ==> active[order[i]].expiry <= active[order[j]].expiry)
  }

  /** `now` may have been read before the lock was taken, so it may lag behind the clock. */
  ghost predicate Enabled<S>(st: State<S>, c: Command<S>) {
    match c
    case Tick(to) => st.clock <= to
    case Register(s, e, now) => now <= st.clock
    case SetExpiry(s, e, now) => now <= st.clock
    case StartWait(s, w) => w !in st.place
    case Fetch(order) =>
      InOrder(st.active, order) && forall s <- st.active :: s in order <==> st.active[s].expiry <= st.clock
    case Abort(order) => InOrder(st.active, order) && forall s <- st.active :: s in order
    case _ => true
  }

  ghost function Insert<S>(st: State<S>, s: S, expiry: int, now: int): State<S> {
    if expiry > now then st.(active := st.active[s := Timer(expiry, [])])
    else st.(idle := st.idle[s := expiry])
  }

  /** Moves an expired timer to the inactive list and stages its waits as elapsed. */
  ghost function DrainOne<S>(st: State<S>, s: S): State<S>
    requires s in st.active
  {
    var t := st.active[s];
    Move(st.(active := st.active - {s}, idle := st.idle[s := t.expiry]), t.waits, Value)
  }

  /** Takes the expired timers out of the heap one by one. */
  ghost function Drain<S>(st: State<S>, order: seq<S>): State<S>
    requires InOrder(st.active, order)
    decreases |order|
  {
    if order == [] then st else Drain(DrainOne(st, order[0]), order[1..])
  }

  /** Forgets a timer and stages its waits as canceled. */
  ghost function DismissOne<S>(st: State<S>, s: S): State<S>
    requires s in st.active
  {
    var t := st.active[s];
    Move(st.(active := st.active - {s}), t.waits, Canceled)
  }

  ghost function Dismiss<S>(st: State<S>, order: seq<S>): State<S>
    requires InOrder(st.active, order)
    decreases |order|
  {
    if order == [] then st else Dismiss(DismissOne(st, order[0]), order[1..])
  }

  function Waits(ready: seq<Staged>): seq<nat> {
    seq(|ready|, i requires 0 <= i < |ready| => ready[i].wait)
  }

  /** Hands the ready list over, first staged first. */
  ghost function TakeReady<S>(st: State<S>): State<S> {
    st.(ready := [],
        fetched := st.fetched + Reverse(st.ready),
        place := map w <- st.place :: if st.place[w] == Ready then Fetched else st.place[w])
  }

  ghost function Step<S>(st: State<S>, c: Command<S>): State<S>
    requires Enabled(st, c)
  {
    match c
    case Tick(to) => st.(clock := to)
    case Register(s, e, now) =>
      if s in st.active || s in st.idle then st else Insert(st, s, e, now)
    case Unregister(s) =>
      if s in st.active then Move(st.(active := st.active - {s}), st.active[s].waits, Canceled)
      else st.(idle := st.idle - {s})
    case Cancel(s) =>
      if s in st.active then
        Move(st.(active := st.active[s := st.active[s].(waits := [])]), st.active[s].waits, Canceled)
      else st
    case SetExpiry(s, e, now) =>
      if s in st.active then
        Insert(Move(st.(active := st.active - {s}), st.active[s].waits, Canceled), s, e, now)
      else if s in st.idle then Insert(st.(idle := st.idle - {s}), s, e, now)
      else st
    case StartWait(s, w) =>
      if s in st.active then
        st.(active := st.active[s := st.active[s].(waits := [w] + st.active[s].waits)],
            place := st.place[w := Waiting(s)])
      else if s in st.idle then Move(st, [w], Value)
      else Move(st, [w], Canceled)
    case Fetch(order) => TakeReady(Drain(st, order))
    case Abort(order) => Dismiss(st, order).(idle := map[])
  }

  // ----- the invariant ------------------------------------------------------------------

  /** Registered timers are in one structure, and inactive ones have already expired. */
  ghost predicate Registry<S>(st: State<S>) {
    && (forall s <- st.active :: s !in st.idle)
    && (forall s <- st.idle :: st.idle[s] <= st.clock)
  }

  /** Every list has just the waits whose place it is; `moving` waits are between lists. */
  ghost predicate Placed<S>(st: State<S>, moving: set<nat>) {
    && (forall s <- st.active :: NoRepeat(st.active[s].waits))
    && (forall s <- st.active, w <- st.active[s].waits :: w !in moving && w in st.place && st.place[w] == Waiting(s))
    && (forall w <- st.place :: w !in moving && st.place[w].Waiting? ==>
          st.place[w].timer in st.active && w in st.active[st.place[w].timer].waits)
    && NoRepeat(Waits(st.ready)) && NoRepeat(Waits(st.fetched))
    && (forall w :: w in Waits(st.ready) <==> w in st.place && st.place[w] == Ready)
    && (forall w :: w in Waits(st.fetched) <==> w in st.place && st.place[w] == Fetched)
  }

  ghost predicate Inv<S>(st: State<S>) {
    Registry(st) && Placed(st, {})
  }

  lemma {:induction false} StageWaits(waits: seq<nat>, kind: Kind, ready: seq<Staged>)
    ensures Waits(Stage(waits, kind, ready)) == Reverse(waits) + Waits(ready)
    decreases |waits|
  {
    if waits != [] {
      var first := [Staged(waits[0], kind)];
      StageWaits(waits[1..], kind, first + ready);
      assert Waits(first + ready) == [waits[0]] + Waits(ready);
      assert Reverse(waits) + Waits(ready) == Reverse(waits[1..]) + ([waits[0]] + Waits(ready));
    }
  }

  /** Moving detached waits to the ready list gives every wait its place again. */
  lemma MovePlaced<S>(st: State<S>, waits: seq<nat>, kind: Kind)
    requires Placed(st, Members(waits)) && NoRepeat(waits)
    requires forall w <- waits :: w in st.place ==> st.place[w].Waiting?
    ensures Placed(Move(st, waits, kind), {})
  {
    MoveReady(st, waits, kind);
    MoveWaiting(st, waits, kind);
    MoveFetched(st, waits, kind);
    hide Stage, NoRepeat, Members;
  }

  lemma MoveReady<S>(st: State<S>, waits: seq<nat>, kind: Kind)
    requires Placed(st, Members(waits)) && NoRepeat(waits)
    requires forall w <- waits :: w in st.place ==> st.place[w].Waiting?
    ensures var st' := Move(st, waits, kind);
            NoRepeat(Waits(st'.ready)) && forall w :: w in Waits(st'.ready) <==> w in st'.place && st'.place[w] == Ready
  {
    var ready := Stage(waits, kind, st.ready);
    StageWaits(waits, kind, st.ready);
    ReverseMembers(waits);
    ReverseNoRepeat(waits);
    JoinNoRepeat(Reverse(waits), Waits(st.ready));
    hide Reverse, Stage, NoRepeat;
    assert forall w :: w in Waits(ready) <==> w in waits || w in Waits(st.ready);
  }

  lemma MoveFetched<S>(st: State<S>, waits: seq<nat>, kind: Kind)
    requires Placed(st, Members(waits)) && forall w <- waits :: w in st.place ==> st.place[w].Waiting?
    ensures var st' := Move(st, waits, kind);
            && NoRepeat(Waits(st'.fetched)) && (forall s <- st'.active :: NoRepeat(st'.active[s].waits))
            && forall w :: w in Waits(st'.fetched) <==> w in st'.place && st'.place[w] == Fetched
  {
    hide Stage, NoRepeat;
  }

  lemma MoveWaiting<S>(st: State<S>, waits: seq<nat>, kind: Kind)
    requires Placed(st, Members(waits))
    ensures var st' := Move(st, waits, kind);
            && (forall s <- st'.active, w <- st'.active[s].waits :: w in st'.place && st'.place[w] == Waiting(s))
            && (forall w <- st'.place :: st'.place[w].Waiting? ==>
                  st'.place[w].timer in st'.active && w in st'.active[st'.place[w].timer].waits)
  {
    hide Stage, NoRepeat;
  }

  lemma {:induction false} StageMembers(waits: seq<nat>, kind: Kind, ready: seq<Staged>)
    ensures forall r <- Stage(waits, kind, ready) :: r in ready || (r.kind == kind && r.wait in waits)
    decreases |waits|
  {
    if waits != [] {
      StageMembers(waits[1..], kind, [Staged(waits[0], kind)] + ready);
    }
  }

  /** When an active timer gives up its waits, those are between lists. */
  lemma DetachPlaced<S>(st: State<S>, s: S, st': State<S>)
    requires Placed(st, {}) && s in st.active
    requires st'.place == st.place && st'.ready == st.ready && st'.fetched == st.fetched
    requires forall x <- st'.active :: x in st.active
    requires forall x <- st.active :: x != s ==> x in st'.active && st'.active[x].waits == st.active[x].waits
    requires s in st'.active ==> st'.active[s].waits == []
    ensures Placed(st', Members(st.active[s].waits))
    ensures forall w <- st.active[s].waits :: w in st.place && st.place[w].Waiting?
  {
    var moving := Members(st.active[s].waits);
    forall x, w | x in st'.active && w in st'.active[x].waits
      ensures w !in moving && w in st'.place && st'.place[w] == Waiting(x)
    {
      assert st.place[w] == Waiting(x);
    }
    forall w | w in st'.place && w !in moving && st'.place[w].Waiting?
      ensures st'.place[w].timer in st'.active && w in st'.active[st'.place[w].timer].waits
    {
      assert st.place[w].timer != s;
    }
    assert forall x <- st'.active :: NoRepeat(st'.active[x].waits);
  }

  /** Taking a timer out of the heap with all its waits, and staging those. */
  lemma RemoveInv<S>(st: State<S>, s: S, idle: map<S, int>, kind: Kind)
    requires Inv(st) && s in st.active
    requires Registry(st.(active := st.active - {s}, idle := idle))
    ensures Inv(Move(st.(active := st.active - {s}, idle := idle), st.active[s].waits, kind))
    ensures Move(st.(active := st.active - {s}, idle := idle), st.active[s].waits, kind).place.Keys == st.place.Keys
  {
    var waits := st.active[s].waits;
    var st' := st.(active := st.active - {s}, idle := idle);
    DetachPlaced(st, s, st');
    MovePlaced(st', waits, kind);
  }

  lemma InsertInv<S>(st: State<S>, s: S, expiry: int, now: int)
    requires Inv(st) && s !in st.active && s !in st.idle && now <= st.clock
    ensures Inv(Insert(st, s, expiry, now))
  {
  }

  lemma CancelInv<S>(st: State<S>, s: S)
    requires Inv(st) && s in st.active
    ensures Inv(Step(st, Cancel(s)))
  {
    var t := st.active[s];
    var st' := st.(active := st.active[s := t.(waits := [])]);
    DetachPlaced(st, s, st');
    MovePlaced(st', t.waits, Canceled);
  }

  lemma SubmitPlaced<S>(st: State<S>, s: S, w: nat)
    requires Placed(st, {}) && s in st.active && w !in st.place
    ensures Placed(st.(active := st.active[s := st.active[s].(waits := [w] + st.active[s].waits)],
                       place := st.place[w := Waiting(s)]), {})
  {
    JoinNoRepeat([w], st.active[s].waits);
  }

  lemma StartInv<S>(st: State<S>, s: S, w: nat)
    requires Inv(st) && w !in st.place
    ensures Inv(Step(st, StartWait(s, w)))
  {
    if s in st.active {
      SubmitPlaced(st, s, w);
    } else {
      MovePlaced(st, [w], if s in st.idle then Value else Canceled);
    }
  }

  lemma {:induction false} DrainInv<S>(st: State<S>, order: seq<S>)
    requires Inv(st) && InOrder(st.active, order)
    requires forall s <- order :: st.active[s].expiry <= st.clock
    ensures Inv(Drain(st, order)) && Drain(st, order).place.Keys == st.place.Keys
    decreases |order|
  {
    if order != [] {
      var s, t := order[0], st.active[order[0]];
      RemoveInv(st, s, st.idle[s := t.expiry], Value);
      DrainInv(DrainOne(st, s), order[1..]);
    }
  }

  lemma {:induction false} DismissInv<S>(st: State<S>, order: seq<S>)
    requires Inv(st) && InOrder(st.active, order)
    ensures Inv(Dismiss(st, order)) && Dismiss(st, order).place.Keys == st.place.Keys
    decreases |order|
  {
    if order != [] {
      var s := order[0];
      RemoveInv(st, s, st.idle, Canceled);
      DismissInv(DismissOne(st, s), order[1..]);
    }
  }

  lemma TakeReadyInv<S>(st: State<S>)
    requires Inv(st)
    ensures Inv(TakeReady(st))
  {
    assert Waits([]) == [];
    TakeReadyFetched(st);
    TakeReadyWaiting(st);
  }

  lemma TakeReadyFetched<S>(st: State<S>)
    requires Placed(st, {})
    ensures var st' := TakeReady(st);
            && NoRepeat(Waits(st'.fetched))
            && forall w :: w in Waits(st'.fetched) <==> w in st'.place && st'.place[w] == Fetched
  {
    ReverseMembers(Waits(st.ready));
    ReverseNoRepeat(Waits(st.ready));
    JoinNoRepeat(Waits(st.fetched), Reverse(Waits(st.ready)));
    WaitsTaken(st);
    assert forall w :: w in Waits(TakeReady(st).fetched) <==> w in Waits(st.fetched) || w in Waits(st.ready);
  }

  lemma WaitsTaken<S>(st: State<S>)
    ensures Waits(TakeReady(st).fetched) == Waits(st.fetched) + Reverse(Waits(st.ready))
  {
    WaitsReverse(st.ready);
    WaitsJoin(st.fetched, Reverse(st.ready));
  }

  lemma WaitsReverse(ready: seq<Staged>)
    ensures Waits(Reverse(ready)) == Reverse(Waits(ready))
  {
  }

  lemma WaitsJoin(a: seq<Staged>, b: seq<Staged>)
    ensures Waits(a + b) == Waits(a) + Waits(b)
  {
  }

  lemma TakeReadyWaiting<S>(st: State<S>)
    requires Placed(st, {})
    ensures var st' := TakeReady(st);
            && (forall s <- st'.active, w <- st'.active[s].waits :: w in st'.place && st'.place[w] == Waiting(s))
            && (forall w <- st'.place :: st'.place[w].Waiting? ==>
                  st'.place[w].timer in st'.active && w in st'.active[st'.place[w].timer].waits)
  {
  }

  lemma WaitsPrefix(a: seq<Staged>, b: seq<Staged>)
    requires a <= b
    ensures forall w <- Waits(a) :: w in Waits(b)
  {
    WaitsJoin(a, b[|a|..]);
    assert a + b[|a|..] == b;
  }

  lemma StepInv<S>(st: State<S>, c: Command<S>)
    requires Inv(st) && Enabled(st, c)
    ensures Inv(Step(st, c))
  {
    match c
    case Tick(to) =>
    case Register(s, e, now) =>
      if s !in st.active && s !in st.idle {
        InsertInv(st, s, e, now);
      }
    case Unregister(s) =>
      if s in st.active {
        RemoveInv(st, s, st.idle, Canceled);
      }
    case Cancel(s) =>
      if s in st.active {
        CancelInv(st, s);
      }
    case SetExpiry(s, e, now) =>
      if s in st.active {
        RemoveInv(st, s, st.idle, Canceled);
        InsertInv(Move(st.(active := st.active - {s}), st.active[s].waits, Canceled), s, e, now);
      } else if s in st.idle {
        InsertInv(st.(idle := st.idle - {s}), s, e, now);
      }
    case StartWait(s, w) => StartInv(st, s, w);
    case Fetch(order) => FetchInv(st, order);
    case Abort(order) => AbortInv(st, order);
  }

  lemma FetchInv<S>(st: State<S>, order: seq<S>)
    requires Inv(st) && Enabled(st, Fetch(order))
    ensures Inv(Step(st, Fetch(order)))
  {
    DrainInv(st, order);
    TakeReadyInv(Drain(st, order));
  }

  lemma AbortInv<S>(st: State<S>, order: seq<S>)
    requires Inv(st) && Enabled(st, Abort(order))
    ensures Inv(Step(st, Abort(order)))
  {
    DismissInv(st, order);
    assert Placed(Dismiss(st, order).(idle := map[]), {});
  }

  // ----- runs ---------------------------------------------------------------------------

  /** A run: `trace[i]` is the state after `i` commands, from an empty service. */
  ghost predicate IsRun<S>(trace: seq<State<S>>, cs: seq<Command<S>>) {
    && |trace| == |cs| + 1
    && trace[0] == Initial(trace[0].clock)
    && (forall i :: 0 <= i < |cs| ==> Enabled(trace[i], cs[i]) && trace[i + 1] == Step(trace[i], cs[i]))
  }

  /** The service keeps its invariant, whatever the commands. */
  lemma {:induction false} RunInv<S>(trace: seq<State<S>>, cs: seq<Command<S>>, i: nat)
    requires IsRun(trace, cs) && i <= |cs|
    ensures Inv(trace[i])
  {
    if i == 0 {
      assert Waits([]) == [];
    } else {
      RunInv(trace, cs, i - 1);
      StepInv(trace[i - 1], cs[i - 1]);
    }
  }

  /** The active timers whose list has the wait. */
  ghost function Holders<S>(st: State<S>, w: nat): set<S> {
    set s | s in st.active && w in st.active[s].waits
  }

  /** How many times a wait occurs: in timers' lists, on the ready list, and handed out. */
  ghost function Copies<S>(st: State<S>, w: nat): nat {
    |Holders(st, w)| + multiset(Waits(st.ready))[w] + multiset(Waits(st.fetched))[w]
  }

  ghost predicate Started<S>(cs: seq<Command<S>>, w: nat) {
    exists c <- cs :: c.StartWait? && c.wait == w
  }

  lemma {:induction false} CountNoRepeat<T>(s: seq<T>, x: T)
    requires NoRepeat(s)
    ensures multiset(s)[x] == if x in s then 1 else 0
    decreases |s|
  {
    if s != [] {
      assert s == [s[0]] + s[1..];
      CountNoRepeat(s[1..], x);
      assert s[0] !in s[1..];
    }
  }

  /** The waits with a place are those that were started. */
  lemma StepStarts<S>(st: State<S>, c: Command<S>)
    requires Inv(st) && Enabled(st, c)
    ensures Step(st, c).place.Keys == st.place.Keys + if c.StartWait? then {c.wait} else {}
  {
    match c
    case Unregister(s) =>
      if s in st.active {
        RemoveInv(st, s, st.idle, Canceled);
      }
    case Cancel(s) =>
      if s in st.active {
        DetachPlaced(st, s, st.(active := st.active[s := st.active[s].(waits := [])]));
      }
    case SetExpiry(s, e, now) =>
      if s in st.active {
        RemoveInv(st, s, st.idle, Canceled);
      }
    case Fetch(order) => DrainInv(st, order);
    case Abort(order) => DismissInv(st, order);
    case _ =>
  }

  lemma {:induction false} RunStarts<S>(trace: seq<State<S>>, cs: seq<Command<S>>, i: nat, w: nat)
    requires IsRun(trace, cs) && i <= |cs|
    ensures w in trace[i].place <==> Started(cs[..i], w)
  {
    if i > 0 {
      RunStarts(trace, cs, i - 1, w);
      RunInv(trace, cs, i - 1);
      StepStarts(trace[i - 1], cs[i - 1]);
      assert cs[..i] == cs[..i - 1] + [cs[i - 1]];
    }
  }

  /**
   * Conservation: at every moment of every run, a wait that was started is in exactly one
   * place and once there, and a wait that was not started is nowhere.
   */
  lemma WaitConservation<S>(trace: seq<State<S>>, cs: seq<Command<S>>, i: nat, w: nat)
    requires IsRun(trace, cs) && i <= |cs|
    ensures Copies(trace[i], w) == if Started(cs[..i], w) then 1 else 0
    ensures forall s <- trace[i].active :: multiset(trace[i].active[s].waits)[w] <= 1
  {
    RunInv(trace, cs, i);
    RunStarts(trace, cs, i, w);
    CopiesPlaced(trace[i], w);
    forall s | s in trace[i].active
      ensures multiset(trace[i].active[s].waits)[w] <= 1
    {
      CountNoRepeat(trace[i].active[s].waits, w);
    }
  }

  lemma CopiesPlaced<S>(st: State<S>, w: nat)
    requires Placed(st, {})
    ensures Copies(st, w) == if w in st.place then 1 else 0
  {
    CountNoRepeat(Waits(st.ready), w);
    CountNoRepeat(Waits(st.fetched), w);
    if w in st.place && st.place[w].Waiting? {
      assert Holders(st, w) == {st.place[w].timer};
    } else {
      assert Holders(st, w) == {};
    }
  }

  /** What was handed out stays handed out: a wait leaves the ready list once and for all. */
  lemma {:induction false} FetchedGrows<S>(trace: seq<State<S>>, cs: seq<Command<S>>, i: nat, j: nat)
    requires IsRun(trace, cs) && i <= j <= |cs|
    ensures trace[i].fetched <= trace[j].fetched && NoRepeat(Waits(trace[j].fetched))
    decreases j - i
  {
    RunInv(trace, cs, j);
    if i < j {
      FetchedGrows(trace, cs, i, j - 1);
      StepFetched(trace[j - 1], cs[j - 1]);
    }
  }

  lemma StepFetched<S>(st: State<S>, c: Command<S>)
    requires Enabled(st, c)
    ensures st.fetched <= Step(st, c).fetched
  {
    match c
    case Fetch(order) => DrainBatch(st, order);
    case Abort(order) => DismissExact(st, order);
    case _ =>
  }

  // ----- the way of a wait ----------------------------------------------------------------

  /** No wait disappears, and none goes back to a timer. */
  ghost predicate Onward<S(!new)>(before: map<nat, Place<S>>, after: map<nat, Place<S>>) {
    forall w <- before :: w in after && (after[w].Waiting? ==> before[w].Waiting?)
  }

  lemma {:induction false} DrainOnward<S(!new)>(st: State<S>, order: seq<S>)
    requires InOrder(st.active, order)
    ensures Onward(st.place, Drain(st, order).place)
    decreases |order|
  {
    if order != [] {
      DrainOnward(DrainOne(st, order[0]), order[1..]);
    }
  }

  lemma {:induction false} DismissOnward<S(!new)>(st: State<S>, order: seq<S>)
    requires InOrder(st.active, order)
    ensures Onward(st.place, Dismiss(st, order).place)
    decreases |order|
  {
    if order != [] {
      DismissOnward(DismissOne(st, order[0]), order[1..]);
    }
  }

  lemma StepOnward<S(!new)>(st: State<S>, c: Command<S>)
    requires Enabled(st, c)
    ensures Onward(st.place, Step(st, c).place)
  {
    match c
    case Fetch(order) => DrainOnward(st, order);
    case Abort(order) => DismissOnward(st, order);
    case _ =>
  }

  // ----- the drain ----------------------------------------------------------------------

  /** The waits of the timers in `order`, newest first within each timer. */
  ghost function Batch<S>(active: map<S, Timer>, order: seq<S>): seq<nat>
    requires forall s <- order :: s in active
  {
    if order == [] then [] else active[order[0]].waits + Batch(active, order[1..])
  }

  lemma {:induction false} BatchFrame<S>(active: map<S, Timer>, active': map<S, Timer>, order: seq<S>)
    requires forall s <- order :: s in active && s in active' && active'[s] == active[s]
    ensures Batch(active', order) == Batch(active, order)
  {
    if order != [] {
      BatchFrame(active, active', order[1..]);
    }
  }

  /** Staging appends to the ready list, read first staged first. */
  lemma {:induction false} StageOrder(waits: seq<nat>, kind: Kind, ready: seq<Staged>)
    ensures Reverse(Stage(waits, kind, ready)) == Reverse(ready) + Marked(waits, kind)
    decreases |waits|
  {
    if waits != [] {
      var first := [Staged(waits[0], kind)];
      StageOrder(waits[1..], kind, first + ready);
      assert (first + ready)[1..] == ready;
      assert first + Marked(waits[1..], kind) == Marked(waits, kind);
    }
  }

  /** A drain moves exactly the timers in `order` to the inactive list. */
  lemma {:induction false} DrainTimers<S>(st: State<S>, order: seq<S>)
    requires InOrder(st.active, order)
    ensures var st' := Drain(st, order);
            && (forall s <- st.active :: s in order || (s in st'.active && st'.active[s] == st.active[s]))
            && (forall s <- st'.active :: s in st.active && s !in order)
            && (forall s <- st'.idle :: s in st.idle || s in order)
            && (forall s <- st.idle :: s in st'.idle)
            && (forall s <- order :: s in st'.idle)
    decreases |order|
  {
    if order != [] {
      var s := order[0];
      assert order == [s] + order[1..];
      DrainTimers(DrainOne(st, s), order[1..]);
    }
  }

  /** A drain stages the waits of the timers in the order given. */
  lemma {:induction false} DrainBatch<S>(st: State<S>, order: seq<S>)
    requires InOrder(st.active, order)
    ensures Drain(st, order).fetched == st.fetched && Drain(st, order).clock == st.clock
    ensures Reverse(Drain(st, order).ready) == Reverse(st.ready) + Marked(Batch(st.active, order), Value)
    decreases |order|
  {
    if order != [] {
      var s, t := order[0], st.active[order[0]];
      var mid := DrainOne(st, s);
      DrainBatch(mid, order[1..]);
      calc {
        Reverse(Drain(st, order).ready);
        Reverse(mid.ready) + Marked(Batch(mid.active, order[1..]), Value);
      == { BatchFrame(st.active, mid.active, order[1..]); StageOrder(t.waits, Value, st.ready); }
        (Reverse(st.ready) + Marked(t.waits, Value)) + Marked(Batch(st.active, order[1..]), Value);
        Reverse(st.ready) + Marked(Batch(st.active, order), Value);
      }
    }
  }

  /** An abort stages the waits of the dismissed timers in the same order. */
  lemma {:induction false} DismissBatch<S>(st: State<S>, order: seq<S>)
    requires InOrder(st.active, order)
    ensures Reverse(Dismiss(st, order).ready) == Reverse(st.ready) + Marked(Batch(st.active, order), Canceled)
    decreases |order|
  {
    if order != [] {
      var s, t := order[0], st.active[order[0]];
      var mid := DismissOne(st, s);
      DismissBatch(mid, order[1..]);
      calc {
        Reverse(Dismiss(st, order).ready);
        Reverse(mid.ready) + Marked(Batch(mid.active, order[1..]), Canceled);
      == { BatchFrame(st.active, mid.active, order[1..]); StageOrder(t.waits, Canceled, st.ready); }
        (Reverse(st.ready) + Marked(t.waits, Canceled)) + Marked(Batch(st.active, order[1..]), Canceled);
        Reverse(st.ready) + Marked(Batch(st.active, order), Canceled);
      }
    }
  }

  /** An abort stages everything as canceled. */
  lemma {:induction false} DismissKind<S>(st: State<S>, order: seq<S>)
    requires InOrder(st.active, order)
    ensures forall r <- Dismiss(st, order).ready :: r in st.ready || r.kind == Canceled
    decreases |order|
  {
    if order != [] {
      DismissKind(DismissOne(st, order[0]), order[1..]);
      StageMembers(st.active[order[0]].waits, Canceled, st.ready);
    }
  }

  lemma {:induction false} DismissExact<S>(st: State<S>, order: seq<S>)
    requires InOrder(st.active, order)
    ensures var st' := Dismiss(st, order);
            && (forall s <- st'.active :: s in st.active && s !in order && st'.active[s] == st.active[s])
            && (forall s <- st.active :: s in st'.active || s in order)
            && st'.fetched == st.fetched && st'.idle == st.idle
    decreases |order|
  {
    if order != [] {
      var s := order[0];
      assert order == [s] + order[1..];
      DismissExact(DismissOne(st, s), order[1..]);
    }
  }

  /**
   * A fetch moves exactly the active timers that have expired to the inactive list, leaves
   * the others as they are, empties the ready list, and hands out first what was staged
   * before, in staging order, then the waits of the expired timers, as elapsed, by expiry.
   */
  lemma FetchExact<S>(st: State<S>, order: seq<S>)
    requires Enabled(st, Fetch(order))
    ensures var st' := Step(st, Fetch(order));
            && (forall s <- st.active :: s in st'.active <==> st.clock < st.active[s].expiry)
            && (forall s <- st'.active :: s in st.active && st'.active[s] == st.active[s])
            && (forall s <- st'.idle :: s in st.idle || (s in st.active && st.active[s].expiry <= st.clock))
            && (forall s <- st.active :: st.active[s].expiry <= st.clock ==> s in st'.idle)
            && st'.ready == []
            && st'.fetched == st.fetched + Reverse(st.ready) + Marked(Batch(st.active, order), Value)
  {
    var drained := Drain(st, order);
    DrainTimers(st, order);
    DrainBatch(st, order);
    assert Step(st, Fetch(order)) == TakeReady(drained);
    assert TakeReady(drained).fetched == drained.fetched + Reverse(drained.ready);
  }

  // ----- the order of a timer's waits -----------------------------------------------------

  ghost predicate Earlier(s: seq<nat>, a: nat, b: nat) {
    exists i, j :: 0 <= i < j < |s| && s[i] == a && s[j] == b
  }

  /** Waits kept newest first come out in the order of their submission. */
  ghost predicate OldestFirst(out: seq<nat>, waits: seq<nat>) {
    forall i, j :: 0 <= i < j < |waits| ==> Earlier(out, waits[j], waits[i])
  }

  lemma {:induction false} BatchHas<S>(active: map<S, Timer>, order: seq<S>, s: S) returns (a: seq<nat>, b: seq<nat>)
    requires (forall x <- order :: x in active) && s in order
    ensures Batch(active, order) == a + active[s].waits + b
  {
    if order[0] == s {
      a, b := [], Batch(active, order[1..]);
    } else {
      a, b := BatchHas(active, order[1..], s);
      a := active[order[0]].waits + a;
    }
  }

  lemma NewestFirst(out: seq<nat>, a: seq<nat>, waits: seq<nat>, b: seq<nat>)
    requires NoRepeat(out) && out == a + waits + b
    ensures OldestFirst(out, waits) <==> |waits| <= 1
  {
    if |waits| > 1 {
      var p := |a|;
      assert out[p] == waits[0] && out[p + 1] == waits[1];
      assert !Earlier(out, waits[1], waits[0]);
    }
  }

  lemma FetchBatch<S>(st: State<S>, order: seq<S>)
    requires Enabled(st, Fetch(order))
    ensures forall s <- order :: s in st.active
    ensures Waits(Step(st, Fetch(order)).fetched)
         == Waits(st.fetched) + Waits(Reverse(st.ready)) + Batch(st.active, order)
  {
    hide Step;
    FetchExact(st, order);
    WaitsMarked(Batch(st.active, order), Value);
    WaitsJoin(st.fetched + Reverse(st.ready), Marked(Batch(st.active, order), Value));
    WaitsJoin(st.fetched, Reverse(st.ready));
  }

  lemma WaitsMarked(waits: seq<nat>, kind: Kind)
    ensures Waits(Marked(waits, kind)) == waits
  {
  }

  /** The waits of an expired timer are handed out together. */
  lemma FetchHas<S>(st: State<S>, order: seq<S>, s: S) returns (a: seq<nat>, b: seq<nat>)
    requires Enabled(st, Fetch(order)) && s in order
    ensures s in st.active
    ensures Waits(Step(st, Fetch(order)).fetched) == Waits(st.fetched) + (a + st.active[s].waits + b)
  {
    hide Step, Enabled, Inv;
    FetchBatch(st, order);
    var c, d := BatchHas(st.active, order, s);
    a, b := Waits(Reverse(st.ready)) + c, d;
    assert Waits(st.fetched) + Waits(Reverse(st.ready)) + (c + st.active[s].waits + d)
        == Waits(st.fetched) + (a + st.active[s].waits + b);
  }

  /** A fetch hands the waits of a timer out in submission order exactly when it has at most one. */
  lemma SubmissionOrderExactly<S>(st: State<S>, order: seq<S>, s: S) returns (out: seq<nat>)
    requires Inv(st) && Enabled(st, Fetch(order)) && s in order
    ensures s in st.active && Waits(Step(st, Fetch(order)).fetched) == Waits(st.fetched) + out
    ensures OldestFirst(out, st.active[s].waits) <==> |st.active[s].waits| <= 1
  {
    hide Inv, Enabled, Step, OldestFirst;
    var a, b := FetchHas(st, order, s);
    out := a + st.active[s].waits + b;
    FetchSimple(st, order, out);
    NewestFirst(out, a, st.active[s].waits, b);
  }

  lemma FetchSimple<S>(st: State<S>, order: seq<S>, out: seq<nat>)
    requires Inv(st) && Enabled(st, Fetch(order))
    requires Waits(Step(st, Fetch(order)).fetched) == Waits(st.fetched) + out
    ensures NoRepeat(out)
  {
    hide Step, Enabled;
    StepInv(st, Fetch(order));
    assert forall i :: 0 <= i < |out| ==> out[i] == (Waits(st.fetched) + out)[|st.fetched| + i];
  }

  /** A timer with two waits, the second submitted last, at its expiry. */
  ghost function TwoWaits(i: nat): State<nat> {
    var t := Timer(10, if i < 2 then [] else if i == 2 then [1] else [2, 1]);
    State(if i == 0 then map[] else map[0 := t], map[], [], if i == 4 then 10 else 0,
          if i < 2 then map[] else if i == 2 then map[1 := Waiting(0)] else map[1 := Waiting(0), 2 := Waiting(0)],
          [])
  }

  ghost function TwoCommands(): seq<Command<nat>> {
    [Register(0, 10, 0), StartWait(0, 1), StartWait(0, 2), Tick(10), Fetch([0])]
  }

  lemma TwoWaitsStep(i: nat)
    requires i < 4
    ensures Enabled(TwoWaits(i), TwoCommands()[i]) && Step(TwoWaits(i), TwoCommands()[i]) == TwoWaits(i + 1)
  {
    assert [1] + [] == [1] && [2] + [1] == [2, 1];
  }

  lemma TwoWaitsFetch()
    ensures Enabled(TwoWaits(4), Fetch([0])) && Step(TwoWaits(4), Fetch([0])).fetched == Marked([2, 1], Value)
  {
    var st := TwoWaits(4);
    FetchExact(st, [0]);
    assert [0][1..] == [];
    assert Batch(st.active, [0]) == [2, 1] + Batch(st.active, []);
    assert Reverse<Staged>([]) == [];
  }

  /** A run in which two waits on one timer come out newest first. */
  lemma TwoWaitsRun() returns (trace: seq<State<nat>>)
    ensures IsRun(trace, TwoCommands()) && trace[5].fetched == Marked([2, 1], Value)
  {
    hide Enabled, Step, TwoWaits;
    TwoWaitsFetch();
    trace := [TwoWaits(0), TwoWaits(1), TwoWaits(2), TwoWaits(3), TwoWaits(4), Step(TwoWaits(4), Fetch([0]))];
    TwoWaitsStart();
    TwoWaitsStep(0);
    TwoWaitsStep(1);
    TwoWaitsStep(2);
    TwoWaitsStep(3);
  }

  lemma TwoWaitsStart()
    ensures TwoWaits(0) == Initial(TwoWaits(0).clock)
  {
  }

  /** An abort leaves no timer registered and every wait of one staged. */
  lemma AbortClears<S>(st: State<S>, order: seq<S>)
    requires Inv(st) && Enabled(st, Abort(order))
    ensures var st' := Step(st, Abort(order));
            && st'.active == map[] && st'.idle == map[]
            && (forall w <- st.place :: w in Waits(st'.ready) <==> st.place[w] != Fetched)
  {
    StepInv(st, Abort(order));
    StepStarts(st, Abort(order));
    DismissExact(st, order);
    var st' := Step(st, Abort(order));
    assert forall w <- st'.place :: !st'.place[w].Waiting?;
  }

  /** Draining in order is draining one timer after the other. */
  lemma {:induction false} DrainNext<S>(st: State<S>, order: seq<S>, s: S)
    requires InOrder(st.active, order + [s])
    ensures InOrder(st.active, order) && s in Drain(st, order).active && Drain(st, order).active[s] == st.active[s]
    ensures Drain(st, order + [s]) == DrainOne(Drain(st, order), s)
    decreases |order|
  {
    assert InOrder(st.active, order) by {
      assert forall i :: 0 <= i < |order| ==> order[i] == (order + [s])[i] && (order + [s])[i] in order + [s];
    }
    var x := (order + [s])[0];
    if order == [] {
      assert (order + [s])[1..] == [];
    } else {
      assert (order + [s])[1..] == order[1..] + [s];
      assert s != x by {
        assert (order + [s])[|order|] == s;
      }
      DrainNext(DrainOne(st, x), order[1..], s);
    }
  }

  lemma {:induction false} DismissNext<S>(st: State<S>, order: seq<S>, s: S)
    requires InOrder(st.active, order + [s])
    ensures InOrder(st.active, order) && s in Dismiss(st, order).active && Dismiss(st, order).active[s] == st.active[s]
    ensures Dismiss(st, order + [s]) == DismissOne(Dismiss(st, order), s)
    decreases |order|
  {
    assert InOrder(st.active, order) by {
      assert forall i :: 0 <= i < |order| ==> order[i] == (order + [s])[i] && (order + [s])[i] in order + [s];
    }
    var x := (order + [s])[0];
    if order == [] {
      assert (order + [s])[1..] == [];
    } else {
      assert (order + [s])[1..] == order[1..] + [s];
      assert s != x by {
        assert (order + [s])[|order|] == s;
      }
      DismissNext(DismissOne(st, x), order[1..], s);
    }
  }
}
