/**
 * What a command of the timer service does, said per timer and per wait, and what that means
 * for whole runs: the dates of the timers are those that the commands gave them, and a wait
 * ends as elapsed exactly when its timer's date had come.
 */
module TimerLaws {
  import opened Sequences
  import opened TimerModel

  // ----- timers ---------------------------------------------------------------------------

  ghost function Registered<S>(st: State<S>): set<S> {
    st.active.Keys + st.idle.Keys
  }

  ghost function Date<S>(st: State<S>, s: S): int
    requires s in Registered(st)
  {
    if s in st.active then st.active[s].expiry else st.idle[s]
  }

  /** The command gives the timer a date: a registration only a new one, a change only a known one. */
  ghost predicate Dates<S>(st: State<S>, c: Command<S>, s: S) {
    || (c.Register? && c.timer == s && s !in Registered(st))
    || (c.SetExpiry? && c.timer == s && s in Registered(st))
  }

  ghost predicate Drops<S>(c: Command<S>, s: S) {
    c.Abort? || (c.Unregister? && c.timer == s)
  }

  /** A fetch finds the timer's date come. */
  ghost predicate Due<S>(st: State<S>, c: Command<S>, s: S) {
    c.Fetch? && s in st.active && st.active[s].expiry <= st.clock
  }

  /** What becomes of a timer. */
  lemma StepTimers<S>(st: State<S>, c: Command<S>, s: S)
    requires Inv(st) && Enabled(st, c)
    ensures var st' := Step(st, c);
            && (s in Registered(st') <==> Dates(st, c, s) || (s in Registered(st) && !Drops(c, s)))
            && (s in Registered(st') ==>
                  && Date(st', s) == (if Dates(st, c, s) then c.expiry else Date(st, s))
                  && (s in st'.active <==>
                        if Dates(st, c, s) then c.now < c.expiry else s in st.active && !Due(st, c, s)))
            && st'.clock == if c.Tick? then c.to else st.clock
  {
    hide Placed, Stage, Members;
    match c
    case Fetch(order) =>
      FetchExact(st, order);
      DrainDates(st, order);
    case Abort(order) =>
      AbortClears(st, order);
      DismissClock(st, order);
    case _ =>
  }

  lemma {:induction false} DrainDates<S>(st: State<S>, order: seq<S>)
    requires InOrder(st.active, order) && forall s <- st.active :: s !in st.idle
    ensures var st' := Drain(st, order);
            && st'.clock == st.clock
            && (forall s <- st.idle :: s in st'.idle && st'.idle[s] == st.idle[s])
            && (forall s <- order :: s in st'.idle && st'.idle[s] == st.active[s].expiry)
            && (forall s <- st'.active :: s !in st'.idle)
    decreases |order|
  {
    if order != [] {
      var s := order[0];
      assert order == [s] + order[1..];
      DrainDates(DrainOne(st, s), order[1..]);
    }
  }

  lemma {:induction false} DismissClock<S>(st: State<S>, order: seq<S>)
    requires InOrder(st.active, order)
    ensures Dismiss(st, order).clock == st.clock
    decreases |order|
  {
    if order != [] {
      DismissClock(DismissOne(st, order[0]), order[1..]);
    }
  }

  /** The waits of a timer: a new one goes in front, and only a cancellation empties the list. */
  lemma StepWaits<S>(st: State<S>, c: Command<S>, s: S)
    requires Inv(st) && Enabled(st, c) && s in Step(st, c).active
    ensures Step(st, c).active[s].waits ==
            if s !in st.active || Cancels(c, s) then []
            else if c.StartWait? && c.timer == s then [c.wait] + st.active[s].waits
            else st.active[s].waits
  {
    hide Stage, Members;
    match c
    case Fetch(order) => FetchExact(st, order);
    case Abort(order) => AbortClears(st, order);
    case _ =>
  }

  // ----- waits ----------------------------------------------------------------------------

  /** The command cancels the waits of the timer. */
  ghost predicate Cancels<S>(c: Command<S>, s: S) {
    c.Abort? || ((c.Unregister? || c.Cancel? || c.SetExpiry?) && c.timer == s)
  }

  /** Where a wait is after a command. */
  ghost function NextPlace<S>(st: State<S>, c: Command<S>, w: nat): Place<S>
    requires w !in st.place ==> c.StartWait?
  {
    if w !in st.place then if c.timer in st.active then Waiting(c.timer) else Ready
    else match st.place[w]
         case Waiting(s) => if Due(st, c, s) then Fetched else if Cancels(c, s) then Ready else Waiting(s)
         case Ready => if c.Fetch? then Fetched else Ready
         case Fetched => Fetched
  }

  /** What becomes of a wait. */
  lemma StepPlace<S>(st: State<S>, c: Command<S>, w: nat)
    requires Inv(st) && Enabled(st, c) && w in Step(st, c).place
    ensures w !in st.place ==> c.StartWait? && c.wait == w
    ensures Step(st, c).place[w] == NextPlace(st, c, w)
  {
    StepStarts(st, c);
    if w in st.place {
      StepPlaced(st, c, w);
    }
  }

  lemma StepPlaced<S>(st: State<S>, c: Command<S>, w: nat)
    requires Inv(st) && Enabled(st, c) && w in st.place
    ensures w in Step(st, c).place && Step(st, c).place[w] == NextPlace(st, c, w)
  {
    hide Step, Enabled;
    var st' := Step(st, c);
    StepStarts(st, c);
    StepInv(st, c);
    StepOut(st, c, w);
    if st.place[w].Waiting? {
      var s := st.place[w].timer;
      StepTimers(st, c, s);
      if s in st'.active {
        StepWaits(st, c, s);
      }
    }
    if st'.place[w].Waiting? {
      StepWaits(st, c, st'.place[w].timer);
      NotStarted(st, c, w);
    }
  }

  lemma NotStarted<S>(st: State<S>, c: Command<S>, w: nat)
    requires Enabled(st, c) && w in st.place
    ensures c.StartWait? ==> c.wait != w
  {
  }

  /** Only a fetch hands out, and it hands out everything staged. */
  lemma StepOut<S>(st: State<S>, c: Command<S>, w: nat)
    requires Inv(st) && Enabled(st, c)
    ensures var st' := Step(st, c);
            && (c.Fetch? ==> st'.ready == [] && (w in Waits(st.ready) ==> w in Waits(st'.fetched)))
            && (!c.Fetch? ==> st'.fetched == st.fetched)
            && (w in Waits(st.fetched) ==> w in Waits(st'.fetched))
  {
    match c
    case Fetch(order) =>
      FetchBatch(st, order);
      FetchExact(st, order);
      WaitsReverse(st.ready);
      ReverseMembers(Waits(st.ready));
    case Abort(order) => DismissExact(st, order);
    case _ =>
  }

  // ----- how a wait ends ------------------------------------------------------------------

  /** The waits that are staged or handed out. */
  ghost predicate Ended<S>(st: State<S>, r: Staged) {
    r in st.ready || r in st.fetched
  }

  /** The command finds the date of the wait's timer come. */
  ghost predicate Elapses<S>(st: State<S>, c: Command<S>, w: nat) {
    || (exists s <- st.active :: w in st.active[s].waits && Due(st, c, s))
    || (c.StartWait? && c.wait == w && c.timer in st.idle)
  }

  /** A wait ends as elapsed exactly when its timer's date has come, and stays as it ended. */
  lemma StepKinds<S>(st: State<S>, c: Command<S>, r: Staged)
    requires Inv(st) && Enabled(st, c)
    ensures Ended(st, r) ==> Ended(Step(st, c), r)
    ensures !Ended(st, r) && Ended(Step(st, c), r) ==> (r.kind == Value <==> Elapses(st, c, r.wait))
  {
    match c
    case Unregister(s) => CancelKinds(st, s, r);
    case Cancel(s) => CancelKinds(st, s, r);
    case SetExpiry(s, e, now) => CancelKinds(st, s, r);
    case StartWait(s, w) =>
      assert Stage([w], Value, st.ready) == [Staged(w, Value)] + st.ready;
      assert Stage([w], Canceled, st.ready) == [Staged(w, Canceled)] + st.ready;
    case Fetch(order) => FetchKinds(st, order, r);
    case Abort(order) =>
      DismissKind(st, order);
      DismissExact(st, order);
      DismissBatch(st, order);
      ReverseMembers(st.ready);
      ReverseMembers(Dismiss(st, order).ready);
    case _ =>
  }

  lemma CancelKinds<S>(st: State<S>, s: S, r: Staged)
    ensures s in st.active ==>
              var ready := Stage(st.active[s].waits, Canceled, st.ready);
              (r in st.ready ==> r in ready) && (r in ready ==> r in st.ready || r.kind == Canceled)
  {
    if s in st.active {
      StageMembers(st.active[s].waits, Canceled, st.ready);
      StageOrder(st.active[s].waits, Canceled, st.ready);
      ReverseMembers(st.ready);
      ReverseMembers(Stage(st.active[s].waits, Canceled, st.ready));
    }
  }

  lemma FetchKinds<S>(st: State<S>, order: seq<S>, r: Staged)
    requires Inv(st) && Enabled(st, Fetch(order))
    ensures Ended(st, r) ==> Ended(Step(st, Fetch(order)), r)
    ensures !Ended(st, r) && Ended(Step(st, Fetch(order)), r) ==> r.kind == Value && Elapses(st, Fetch(order), r.wait)
  {
    hide Step, Inv;
    FetchExact(st, order);
    ReverseMembers(st.ready);
    if !Ended(st, r) && Ended(Step(st, Fetch(order)), r) {
      assert r in Marked(Batch(st.active, order), Value);
      assert r.wait in Batch(st.active, order);
      BatchFrom(st.active, order, r.wait);
    }
  }

  lemma {:induction false} BatchFrom<S>(active: map<S, Timer>, order: seq<S>, w: nat)
    requires (forall s <- order :: s in active) && w in Batch(active, order)
    ensures exists s <- order :: w in active[s].waits
    decreases |order|
  {
    if w in active[order[0]].waits {
      assert order[0] in order;
    } else {
      BatchFrom(active, order[1..], w);
      var s :| s in order[1..] && w in active[s].waits;
      assert s in order;
    }
  }

  // ----- runs -----------------------------------------------------------------------------

  /** The dates of the registered timers, as the commands alone tell. */
  ghost function Calendar<S>(cs: seq<Command<S>>): map<S, int> {
    if cs == [] then map[]
    else
      var m := Calendar(cs[..|cs| - 1]);
      match cs[|cs| - 1]
      case Register(s, e, now) => if s in m then m else m[s := e]
      case SetExpiry(s, e, now) => if s in m then m[s := e] else m
      case Unregister(s) => m - {s}
      case Abort(order) => map[]
      case _ => m
  }

  lemma {:induction false} RunDates<S>(trace: seq<State<S>>, cs: seq<Command<S>>, i: nat, s: S)
    requires IsRun(trace, cs) && i <= |cs|
    ensures s in Registered(trace[i]) <==> s in Calendar(cs[..i])
    ensures s in Registered(trace[i]) ==> Date(trace[i], s) == Calendar(cs[..i])[s]
  {
    hide Inv, Step, Enabled, Calendar, Date, Registered;
    if i == 0 {
      NoDates(trace[0].clock, s);
      assert cs[..0] == [];
    } else {
      var j := i - 1;
      RunDates(trace, cs, j, s);
      RunInv(trace, cs, j);
      assert cs[..i][..j] == cs[..j] && cs[..i][j] == cs[j];
      DateNext(trace[j], cs[..i], s);
    }
  }

  lemma NoDates<S>(clock: int, s: S)
    ensures s !in Registered(Initial<S>(clock)) && s !in Calendar<S>([])
  {
  }

  /** The last command, as the calendar has it. */
  lemma DateNext<S>(st: State<S>, cs: seq<Command<S>>, s: S)
    requires cs != [] && Inv(st) && Enabled(st, cs[|cs| - 1])
    requires var m := Calendar(cs[..|cs| - 1]);
             (s in Registered(st) <==> s in m) && (s in Registered(st) ==> Date(st, s) == m[s])
    ensures var st' := Step(st, cs[|cs| - 1]);
            && (s in Registered(st') <==> s in Calendar(cs))
            && (s in Registered(st') ==> Date(st', s) == Calendar(cs)[s])
  {
    hide Inv, Step, Enabled, Date, Registered;
    StepTimers(st, cs[|cs| - 1], s);
  }

  /** A wait is with the timer it was started on. */
  lemma {:induction false} RunWaiting<S>(trace: seq<State<S>>, cs: seq<Command<S>>, i: nat, w: nat)
    requires IsRun(trace, cs) && i <= |cs| && w in trace[i].place && trace[i].place[w].Waiting?
    ensures StartWait(trace[i].place[w].timer, w) in cs[..i]
  {
    RunInv(trace, cs, i - 1);
    StepPlace(trace[i - 1], cs[i - 1], w);
    assert cs[..i] == cs[..i - 1] + [cs[i - 1]];
    if w in trace[i - 1].place {
      RunWaiting(trace, cs, i - 1, w);
    }
  }

  /**
   * No early fire, and no late cancellation: a wait that has ended did so at some command `j`.
   * It ended as elapsed exactly when that command found the date of its timer come; then the
   * wait was started on a timer whose date, as the commands before tell, was not after the
   * clock of that moment. This holds although registrations decide on a clock read before.
   */
  lemma {:induction false} NeverEarly<S>(trace: seq<State<S>>, cs: seq<Command<S>>, i: nat, r: Staged) returns (j: nat)
    requires IsRun(trace, cs) && i <= |cs| && Ended(trace[i], r)
    ensures j < i && !Ended(trace[j], r) && Ended(trace[j + 1], r)
    ensures r.kind == Value <==> Elapses(trace[j], cs[j], r.wait)
    ensures r.kind == Value ==>
              exists s <- Calendar(cs[..j]) ::
                StartWait(s, r.wait) in cs[..j + 1] && Calendar(cs[..j])[s] <= trace[j].clock
    decreases i
  {
    if Ended(trace[i - 1], r) {
      j := NeverEarly(trace, cs, i - 1, r);
    } else {
      j := i - 1;
      RunInv(trace, cs, j);
      StepKinds(trace[j], cs[j], r);
      if r.kind == Value {
        ElapsedDate(trace, cs, j, r.wait);
      }
    }
  }

  lemma ElapsedDate<S>(trace: seq<State<S>>, cs: seq<Command<S>>, j: nat, w: nat)
    requires IsRun(trace, cs) && j < |cs| && Inv(trace[j]) && Elapses(trace[j], cs[j], w)
    ensures exists s <- Calendar(cs[..j]) ::
              StartWait(s, w) in cs[..j + 1] && Calendar(cs[..j])[s] <= trace[j].clock
  {
    hide Step, Enabled, Calendar;
    var st := trace[j];
    assert cs[..j + 1] == cs[..j] + [cs[j]];
    if s :| s in st.active && w in st.active[s].waits && Due(st, cs[j], s) {
      RunDates(trace, cs, j, s);
      RunWaiting(trace, cs, j, w);
    } else {
      RunDates(trace, cs, j, cs[j].timer);
    }
  }
}
