/**
 * The workers of one io_context, the publishers that hand them operations and the thread that
 * stops them, as a machine whose steps are the atomic accesses and critical sections of the
 * code: any number of threads inside run(), the shared CPU and I/O queues, the submit lock,
 * the two counters read by the wake shortcut, directed wakes, and the stop protocol.
 */
module WorkerGroup {
  datatype Queue = Cpu | Io

  /**
   * Where a thread is in run(). `counted` tells whether a finishing worker has added itself to
   * awake_workers.
   *
   * Out: not inside run(). Starting: counted in running_workers only. Entering: past the check
   * of the life state. Active: awake in the loop. Linked: in the suspend list, still counted as
   * awake. Polling, CheckCpu, CheckIo, CheckStop, Arming: marked sleeping, making the last
   * checks in this order. Blocked: in the kernel wait. Unlinking, Waking: the two halves of
   * end_wait. Finishing: in the final drain. Closing: its last look at the CPU queue found
   * nothing. Done: its last look at the I/O queue neither. Leaving: out of the native loop.
   */
  datatype Pc =
    | Out | Starting | Entering
    | Active | Linked
    | Polling | CheckCpu | CheckIo | CheckStop | Arming | Blocked
    | Unlinking | Waking
    | Finishing(counted: bool) | Closing(counted: bool) | Done(counted: bool)
    | Leaving

  /**
   * `held` are the operations in the worker's own places: local queues, retry slot, inflight
   * list and the batch being run. `signal` is its own wake channel.
   */
  datatype Worker = Worker(pc: Pc, held: multiset<nat>, signal: bool)

  /** The submit lock, with the progress of the critical section that holds it. */
  datatype Lock = Free | Pushed | Loaded(awake: int) | Searching

  /** The thread that won the stop election: none of the workers, or one of them. */
  datatype Stopper = External | Within(worker: nat)

  datatype Stop =
    | Never
    | Requested(owner: Stopper)
    | Closed(owner: Stopper)
    | Draining(owner: Stopper)
    | Stopped(owner: Stopper)

  /**
   * `closing` is life_state; `taken` are the operations the stopping thread is running;
   * `accepted`, `rejected` and `executed` are history.
   */
  datatype State = State(
    workers: seq<Worker>,
    cpu: multiset<nat>, io: multiset<nat>,
    awake: int, running: int,
    closing: bool,
    lock: Lock,
    stop: Stop, taken: multiset<nat>,
    accepted: set<nat>, rejected: set<nat>, executed: multiset<nat>)

  const IDLE := Worker(Out, multiset{}, false)

  ghost function Initial(n: nat): State {
    State(seq(n, _ => IDLE), multiset{}, multiset{}, 0, 0, false, Free, Never, multiset{}, {}, {}, multiset{})
  }

  // ----- where a worker counts ----------------------------------------------------------

  /** Counted in awake_workers. */
  predicate Awake(w: Worker) {
    w.pc.Active? || w.pc.Linked? || ((w.pc.Finishing? || w.pc.Closing? || w.pc.Done?) && w.pc.counted)
  }

  /** Counted in running_workers. */
  predicate Inside(w: Worker) {
    !w.pc.Out?
  }

  predicate InLoop(w: Worker) {
    && !w.pc.Out? && !w.pc.Starting? && !w.pc.Entering?
    && !w.pc.Finishing? && !w.pc.Closing? && !w.pc.Done? && !w.pc.Leaving?
  }

  /** In the suspend list. */
  predicate Suspended(w: Worker) {
    InLoop(w) && !w.pc.Active? && !w.pc.Waking?
  }

  /** In the last phase of run(), or not in run() at all: it will not touch a queue again. */
  predicate Away(w: Worker) {
    w.pc.Out? || w.pc.Starting? || w.pc.Entering? || w.pc.Done? || w.pc.Leaving?
  }

  // ----- a worker's own steps -----------------------------------------------------------

  /**
   * Admit: the check of the life state. Refuse: the native context did not open. Late: the
   * context was closed after the check, and is drained by its destructor; what its callbacks
   * publish is rejected in the code, which the machine covers by Publish. FailEnter: the ring
   * or a wake poll could not be set up. Take: a bulk pop of a shared queue. Fetch: staged timer
   * waits come to the worker's own queue. Execute runs one held operation, whose callbacks
   * publish CPU and I/O operations on this thread. Spill: completions go to the shared CPU
   * queue. Link, Doze: the two halves of begin_wait. Poll collects completions;
   * the Look steps are the last checks, `found` telling whether the worker's own places or the
   * timers had work and `full` whether the submission queue filled up before the shared queue
   * was reached; Relook repeats a check while the timeout is prepared. LastCpu, LastIo: the
   * empty passes that end the final drain.
   */
  datatype Move =
    | Start | Admit | Refuse | Late | Enter | FailEnter(added: bool)
    | Take(queue: Queue) | Fetch(waits: set<nat>)
    | Execute(op: nat, cpu: set<nat>, io: set<nat>) | Spill(ops: multiset<nat>)
    | Link | Doze | Poll(found: bool)
    | LookCpu(found: bool) | LookIo(found: bool, full: bool) | LookStop
    | Relook(queue: Queue) | GiveUp | Block | Return
    | Unlink | Rise
    | Finish | LastCpu | LastIo | Retire | Release

  /** What a worker sees of the shared state. */
  datatype View = View(cpu: bool, io: bool, closing: bool)

  /** `fatal`: whether a worker that counted itself awake may leave the loop of an open context. */
  predicate May(w: Worker, m: Move, v: View, fatal: bool) {
    match m
    case Start => w.pc.Out?
    case Admit => w.pc.Starting?
    case Refuse => w.pc.Entering?
    case Late => w.pc.Entering? && v.closing
    case Enter => w.pc.Entering?
    case FailEnter(added) => w.pc.Entering? && (added ==> fatal || v.closing)
    case Take(q) => w.pc.Active? || w.pc.Finishing?
    case Fetch(waits) => InLoop(w) || w.pc.Finishing?
    case Execute(op, cpu, io) => (InLoop(w) || w.pc.Finishing?) && op in w.held && cpu !! io
    case Spill(ops) => (w.pc.Active? || w.pc.Polling? || w.pc == Finishing(true)) && ops <= w.held
    case Link => w.pc.Active?
    case Doze => w.pc.Linked?
    case Poll(found) => w.pc.Polling?
    case LookCpu(found) => w.pc.CheckCpu?
    case LookIo(found, full) => w.pc.CheckIo? && (full ==> found)
    case LookStop => w.pc.CheckStop?
    case Relook(q) => w.pc.Arming?
    case GiveUp => w.pc.Arming?
    case Block => w.pc.Arming?
    case Return => w.pc.Blocked?
    case Unlink => w.pc.Unlinking?
    case Rise => w.pc.Waking?
    case Finish => w.pc.Active? && (fatal || v.closing)
    case LastCpu => w.pc.Finishing? && !v.cpu
    case LastIo => w.pc.Closing?
    case Retire => w.pc.Done?
    case Release => w.pc.Leaving?
  }

  /** Whether the step pops queue `q` as a whole. */
  predicate Pops(w: Worker, m: Move, v: View, q: Queue) {
    match m
    case Take(q') => q == q'
    case Relook(q') => q == q'
    case LookCpu(found) => !found && q == Cpu
    case LookIo(found, full) => !full && q == Io
    case LastIo => q == Io && (v.io || w.held != multiset{})
    case _ => false
  }

  function NextPc(w: Worker, m: Move, v: View): Pc {
    match m
    case Start => Starting
    case Admit => if v.closing then Leaving else Entering
    case Refuse => Leaving
    case Late => Finishing(false)
    case Enter => Active
    case FailEnter(added) => Finishing(added)
    case Spill(ops) => if w.pc.Polling? then Unlinking else w.pc
    case Link => Linked
    case Doze => Polling
    case Poll(found) => if found then Unlinking else CheckCpu
    case LookCpu(found) => if found || v.cpu then Unlinking else CheckIo
    case LookIo(found, full) => if found || v.io then Unlinking else CheckStop
    case LookStop => if v.closing then Unlinking else Arming
    case Relook(q) => if (q == Cpu && v.cpu) || (q == Io && v.io) then Unlinking else Arming
    case GiveUp => Unlinking
    case Block => Blocked
    case Return => Unlinking
    case Unlink => Waking
    case Rise => Active
    case Finish => Finishing(true)
    case LastCpu => if w.pc.Finishing? then Closing(w.pc.counted) else w.pc
    case LastIo =>
      if !w.pc.Closing? then w.pc
      else if v.io || w.held != multiset{} then Finishing(w.pc.counted)
      else Done(w.pc.counted)
    case Retire => Leaving
    case Release => Out
    case _ => w.pc
  }

  /** The change of awake_workers. */
  function AwakeChange(w: Worker, m: Move): int {
    match m
    case Enter => 1
    case FailEnter(added) => if added then 1 else 0
    case Doze => -1
    case Rise => 1
    case Retire => if w.pc == Done(true) then -1 else 0
    case _ => 0
  }

  /** The change of running_workers. */
  function RunningChange(m: Move): int {
    match m
    case Start => 1
    case Release => -1
    case _ => 0
  }

  /** The operations the worker passes on, to the shared CPU queue or by running them. */
  function Gives(m: Move): multiset<nat> {
    match m
    case Execute(op, cpu, io) => multiset{op}
    case Spill(ops) => ops
    case _ => multiset{}
  }

  /** The operations that are new with this step. */
  function Spawns(m: Move): set<nat> {
    match m
    case Execute(op, cpu, io) => cpu + io
    case Fetch(waits) => waits
    case _ => {}
  }

  /**
   * A worker that drains without having entered is not known as the context's own thread: what
   * its callbacks publish goes to the shared queues.
   */
  predicate Outside(w: Worker, m: Move) {
    m.Execute? && w.pc == Finishing(false)
  }

  function Keeps(w: Worker, m: Move): set<nat> {
    if Outside(w, m) then {} else Spawns(m)
  }

  /** What the worker adds to a shared queue. */
  function Adds(w: Worker, m: Move, q: Queue): multiset<nat> {
    if m.Spill? && q == Cpu then m.ops
    else if Outside(w, m) then multiset(if q == Cpu then m.cpu else m.io)
    else multiset{}
  }

  /** A step that neither passes on nor publishes anything. */
  predicate Plain(m: Move) {
    !m.Execute? && !m.Spill? && !m.Fetch?
  }

  lemma PlainAdds(w: Worker, m: Move)
    requires Plain(m)
    ensures Gives(m) == multiset{} && Spawns(m) == {} && Keeps(w, m) == {}
    ensures Adds(w, m, Cpu) == multiset{} && Adds(w, m, Io) == multiset{}
  {
  }

  // ----- all steps ----------------------------------------------------------------------

  datatype Action =
    // a publisher or a timer thread, inside the submit lock
    | Publish(op: nat, queue: Queue)
    | TimerWake
    | LoadAwake
    | LoadRunning
    | WakeOne(target: nat)
    | Broadcast
    // a thread in run()
    | Work(worker: nat, move: Move)
    // the stopping thread
    | RequestStop(owner: Stopper)
    | PublishStop
    | AllGone
    | DrainTake(queue: Queue)
    | DrainTimers(waits: set<nat>)
    | DrainExecute(op: nat, spawned: set<nat>)
    | SetStopped

  ghost function Queued(st: State, q: Queue): multiset<nat> {
    if q == Cpu then st.cpu else st.io
  }

  ghost function Seen(st: State): View {
    View(st.cpu != multiset{}, st.io != multiset{}, st.closing)
  }

  /** The worker is inside a call of stop() that it made itself, and takes no step of its own. */
  predicate Stopping(st: State, i: nat) {
    (st.stop.Requested? || st.stop.Closed? || st.stop.Draining?) && st.stop.owner == Within(i)
  }

  /** May call stop(): it runs callbacks, or a signal handler in its wait. */
  predicate MayStop(w: Worker) {
    InLoop(w) || w.pc.Finishing?
  }

  /**
   * Operations not seen before. What a callback on a worker thread publishes takes part in that
   * worker's step; any other thread takes the Publish step.
   */
  predicate New(st: State, ops: set<nat>) {
    ops !! st.accepted && ops !! st.rejected
  }

  ghost predicate Enabled(st: State, a: Action, fatal: bool) {
    match a
    case Publish(op, q) => st.lock.Free? && New(st, {op})
    case TimerWake => st.lock.Free?
    case LoadAwake => st.lock.Pushed?
    case LoadRunning => st.lock.Loaded?
    case WakeOne(j) => st.lock.Searching? && j < |st.workers| && Suspended(st.workers[j])
    case Broadcast => st.lock.Searching? && forall w <- st.workers :: !Suspended(w)
    case Work(i, m) =>
      && i < |st.workers| && !Stopping(st, i)
      && May(st.workers[i], m, Seen(st), fatal) && New(st, Spawns(m))
    case RequestStop(owner) =>
      st.stop.Never? && (owner.Within? ==> owner.worker < |st.workers| && MayStop(st.workers[owner.worker]))
    case PublishStop => st.lock.Free? && st.stop.Requested?
    case AllGone => st.stop.Closed? && st.running <= (if st.stop.owner.Within? then 1 else 0)
    case DrainTake(q) => st.stop.Draining?
    case DrainTimers(waits) => st.stop.Draining? && New(st, waits)
    case DrainExecute(op, spawned) =>
      && st.stop.Draining? && op in st.taken && New(st, spawned)
      && (spawned != {} ==> st.stop.owner.Within? && st.stop.owner.worker < |st.workers|)
    case SetStopped => st.stop.Draining? && st.cpu == multiset{} && st.io == multiset{} && st.taken == multiset{}
  }

  ghost function Popped(st: State, i: nat, m: Move, q: Queue): multiset<nat>
    requires i < |st.workers|
  {
    if Pops(st.workers[i], m, Seen(st), q) then Queued(st, q) else multiset{}
  }

  ghost function Moved(st: State, i: nat, m: Move): Worker
    requires i < |st.workers|
  {
    var w := st.workers[i];
    Worker(NextPc(w, m, Seen(st)),
           w.held - Gives(m) + multiset(Keeps(w, m)) + Popped(st, i, m, Cpu) + Popped(st, i, m, Io),
           w.signal && !m.Poll?)
  }

  ghost function WorkerStep(st: State, i: nat, m: Move): State
    requires i < |st.workers|
  {
    st.(workers := st.workers[i := Moved(st, i, m)],
        cpu := st.cpu - Popped(st, i, m, Cpu) + Adds(st.workers[i], m, Cpu),
        io := st.io - Popped(st, i, m, Io) + Adds(st.workers[i], m, Io),
        awake := st.awake + AwakeChange(st.workers[i], m),
        running := st.running + RunningChange(m),
        accepted := st.accepted + Spawns(m),
        executed := st.executed + (if m.Execute? then multiset{m.op} else multiset{}))
  }

  /** Callbacks of a drained operation run on the stopping worker publish to its own queues. */
  ghost function Spawned(st: State, spawned: set<nat>): State
    requires spawned != {} ==> (st.stop.Draining? && st.stop.owner.Within? && st.stop.owner.worker < |st.workers|)
  {
    if spawned == {} then st
    else
      var i := st.stop.owner.worker;
      st.(workers := st.workers[i := st.workers[i].(held := st.workers[i].held + multiset(spawned))],
          accepted := st.accepted + spawned)
  }

  ghost function Accepted(st: State, op: nat, q: Queue): State {
    if q == Cpu then st.(cpu := st.cpu + multiset{op}, accepted := st.accepted + {op}, lock := Pushed)
    else st.(io := st.io + multiset{op}, accepted := st.accepted + {op}, lock := Pushed)
  }

  ghost function Signalled(st: State, j: nat): State
    requires j < |st.workers|
  {
    st.(workers := st.workers[j := st.workers[j].(signal := true)], lock := Free)
  }

  ghost function Drained(st: State, q: Queue): State {
    if q == Cpu then st.(cpu := multiset{}, taken := st.taken + st.cpu)
    else st.(io := multiset{}, taken := st.taken + st.io)
  }

  ghost function Step(st: State, a: Action, fatal: bool): State
    requires Enabled(st, a, fatal)
  {
    match a
    case Publish(op, q) => if st.closing then st.(rejected := st.rejected + {op}) else Accepted(st, op, q)
    case TimerWake => if st.awake != 0 || st.closing then st else st.(lock := Pushed)
    case LoadAwake => st.(lock := Loaded(st.awake))
    case LoadRunning => st.(lock := if st.lock.awake >= st.running then Free else Searching)
    case WakeOne(j) => Signalled(st, j)
    case Broadcast => st.(lock := Free)
    case Work(i, m) => WorkerStep(st, i, m)
    case RequestStop(owner) => st.(stop := Requested(owner))
    case PublishStop => st.(stop := Closed(st.stop.owner), closing := true)
    case AllGone => st.(stop := Draining(st.stop.owner))
    case DrainTake(q) => Drained(st, q)
    case DrainTimers(waits) => st.(taken := st.taken + multiset(waits), accepted := st.accepted + waits)
    case DrainExecute(op, spawned) =>
      Spawned(st.(taken := st.taken - multiset{op}, executed := st.executed + multiset{op}), spawned)
    case SetStopped => st.(stop := Stopped(st.stop.owner))
  }

  // ----- runs ---------------------------------------------------------------------------

  ghost predicate Legal(st: State, acts: seq<Action>, fatal: bool)
    decreases |acts|, 0
  {
    acts == [] ||
    (var k := |acts| - 1; Legal(st, acts[..k], fatal) && Enabled(After(st, acts[..k], fatal), acts[k], fatal))
  }

  ghost function After(st: State, acts: seq<Action>, fatal: bool): State
    requires Legal(st, acts, fatal)
    decreases |acts|, 1
  {
    if acts == [] then st
    else var k := |acts| - 1; Step(After(st, acts[..k], fatal), acts[k], fatal)
  }

  ghost predicate Reachable(st: State, n: nat, fatal: bool) {
    exists acts :: Legal(Initial(n), acts, fatal) && After(Initial(n), acts, fatal) == st
  }

  // ----- counting workers ---------------------------------------------------------------

  ghost function Count(ws: seq<Worker>, f: Worker -> bool): nat {
    if ws == [] then 0
    else Count(ws[..|ws| - 1], f) + if f(ws[|ws| - 1]) then 1 else 0
  }

  lemma {:induction false} CountPut(ws: seq<Worker>, f: Worker -> bool, i: nat, w: Worker)
    requires i < |ws|
    ensures Count(ws[i := w], f) == Count(ws, f) + (if f(w) then 1 else 0) - (if f(ws[i]) then 1 else 0)
    decreases |ws|
  {
    var k := |ws| - 1;
    if i < k {
      assert ws[i := w][..k] == ws[..k][i := w];
      CountPut(ws[..k], f, i, w);
    } else {
      assert ws[i := w][..k] == ws[..k];
    }
  }

  lemma {:induction false} CountNone(ws: seq<Worker>, f: Worker -> bool)
    ensures Count(ws, f) == 0 <==> forall i :: 0 <= i < |ws| ==> !f(ws[i])
    decreases |ws|
  {
    if ws != [] {
      var k := |ws| - 1;
      CountNone(ws[..k], f);
      assert forall i :: 0 <= i < k ==> ws[..k][i] == ws[i];
    }
  }

  /** The two counters are the numbers of workers they are meant to count. */
  ghost predicate Counted(st: State) {
    st.awake == Count(st.workers, Awake) && st.running == Count(st.workers, Inside)
  }

  /** The counters change with the worker. */
  lemma MoveCounts(w: Worker, m: Move, v: View, fatal: bool, w': Worker)
    requires May(w, m, v, fatal) && w'.pc == NextPc(w, m, v)
    ensures AwakeChange(w, m) == (if Awake(w') then 1 else 0) - (if Awake(w) then 1 else 0)
    ensures RunningChange(m) == (if Inside(w') then 1 else 0) - (if Inside(w) then 1 else 0)
  {
  }

  lemma CountedStep(st: State, a: Action, fatal: bool)
    requires Counted(st) && Enabled(st, a, fatal)
    ensures Counted(Step(st, a, fatal)) && |Step(st, a, fatal).workers| == |st.workers|
  {
    hide May, NextPc, Pops, AwakeChange, RunningChange, Count, Gives, Spawns, Keeps, Adds, Suspended, New;
    if a.Work? {
      var w := Moved(st, a.worker, a.move);
      MoveCounts(st.workers[a.worker], a.move, Seen(st), fatal, w);
      CountPut(st.workers, Awake, a.worker, w);
      CountPut(st.workers, Inside, a.worker, w);
    } else if a.WakeOne? {
      CountPut(st.workers, Awake, a.target, st.workers[a.target].(signal := true));
      CountPut(st.workers, Inside, a.target, st.workers[a.target].(signal := true));
    } else if a.DrainExecute? && a.spawned != {} {
      var i := st.stop.owner.worker;
      var w := Step(st, a, fatal).workers[i];
      CountPut(st.workers, Awake, i, w);
      CountPut(st.workers, Inside, i, w);
    }
  }

  /** The only worker counted. */
  lemma CountOnly(ws: seq<Worker>, f: Worker -> bool, i: nat)
    requires i < |ws| && f(ws[i]) && Count(ws, f) <= 1
    ensures forall j :: 0 <= j < |ws| && j != i ==> !f(ws[j])
  {
    forall j | 0 <= j < |ws| && j != i ensures !f(ws[j]) {
      if f(ws[j]) {
        CountTwo(ws, f, i, j);
      }
    }
  }

  lemma {:induction false} CountTwo(ws: seq<Worker>, f: Worker -> bool, i: nat, j: nat)
    requires i < |ws| && j < |ws| && i != j && f(ws[i]) && f(ws[j])
    ensures Count(ws, f) >= 2
    decreases |ws|
  {
    var k := |ws| - 1;
    if i == k || j == k {
      var x := if i == k then j else i;
      CountNone(ws[..k], f);
      assert ws[..k][x] == ws[x];
    } else {
      CountTwo(ws[..k], f, i, j);
    }
  }
}
