/**
 * The lock-free shared queue: producers push by loading the head, linking their operation to
 * it and exchanging the head if it has not changed; consumers exchange the head for null and
 * walk what they got. Every interleaving of these accesses refines a stack with an atomic push
 * and an atomic take-all, also when an operation is taken, run and pushed again between
 * another producer's load and its exchange.
 */
module SharedQueue {
  datatype Option<T> = None | Some(value: T)

  /** A producer owns `op` from the call of push until its exchange succeeds. */
  datatype Producer = Idle | Loaded(op: nat, seen: Option<nat>) | Linked(op: nat, seen: Option<nat>)

  type Nexts = map<nat, Option<nat>>

  /** `walks` holds, for each consumer, the first operation it has not yet detached. */
  datatype State = State(head: Option<nat>, next: Nexts, producers: seq<Producer>, walks: seq<Option<nat>>)

  datatype Step =
    | Load(producer: nat, op: nat)
    | Link(producer: nat)
    | Exchange(producer: nat, spurious: bool)
    | TakeAll(consumer: nat)
    | Detach(consumer: nat)

  /** The stack, what each consumer took and has left, and what was delivered, in order. */
  datatype Abstract = Abstract(stack: seq<nat>, batches: seq<seq<nat>>, delivered: seq<nat>)

  datatype Event = Nothing | Push(op: nat) | Take(consumer: nat) | Deliver(consumer: nat)

  /** The next field of an operation, initially null. */
  function Next(next: Nexts, op: nat): Option<nat> {
    if op in next then next[op] else None
  }

  // ----- the code -----------------------------------------------------------------------

  /** The thread is where it can take this step. */
  ghost predicate Ready(st: State, s: Step) {
    match s
    case Load(p, op) => p < |st.producers| && st.producers[p].Idle?
    case Link(p) => p < |st.producers| && st.producers[p].Loaded?
    case Exchange(p, spurious) => p < |st.producers| && st.producers[p].Linked?
    case TakeAll(c) => c < |st.walks| && st.walks[c].None?
    case Detach(c) => c < |st.walks| && st.walks[c].Some?
  }

  /** An operation is pushed only by its owner, so not while somebody has it. */
  ghost predicate Enabled(st: State, s: Step, owned: set<nat>) {
    Ready(st, s) && (s.Load? ==> s.op !in owned)
  }

  ghost predicate Succeeds(st: State, s: Step) {
    s.Exchange? && s.producer < |st.producers| && st.producers[s.producer].Linked?
    && !s.spurious && st.head == st.producers[s.producer].seen
  }

  ghost function Performed(st: State, s: Step): State
    requires Ready(st, s)
  {
    match s
    case Load(p, op) => st.(producers := st.producers[p := Loaded(op, st.head)])
    case Link(p) =>
      var x := st.producers[p];
      st.(next := st.next[x.op := x.seen], producers := st.producers[p := Linked(x.op, x.seen)])
    case Exchange(p, spurious) =>
      var x := st.producers[p];
      if Succeeds(st, s) then st.(head := Some(x.op), producers := st.producers[p := Idle])
      else st.(producers := st.producers[p := Loaded(x.op, st.head)])
    case TakeAll(c) => st.(head := None, walks := st.walks[c := st.head])
    case Detach(c) =>
      var op := st.walks[c].value;
      st.(next := st.next[op := None], walks := st.walks[c := Next(st.next, op)])
  }

  // ----- the stack ----------------------------------------------------------------------

  ghost predicate Possible(a: Abstract, e: Event) {
    match e
    case Take(c) => c < |a.batches| && a.batches[c] == []
    case Deliver(c) => c < |a.batches| && a.batches[c] != []
    case _ => true
  }

  ghost function Apply(a: Abstract, e: Event): Abstract
    requires Possible(a, e)
  {
    match e
    case Nothing => a
    case Push(op) => a.(stack := [op] + a.stack)
    case Take(c) => a.(stack := [], batches := a.batches[c := a.stack])
    case Deliver(c) => a.(batches := a.batches[c := a.batches[c][1..]], delivered := a.delivered + [a.batches[c][0]])
  }

  /** What a step of the code is for the stack: a push takes effect at the exchange. */
  ghost function Meaning(st: State, s: Step): Event {
    match s
    case Exchange(p, spurious) => if Succeeds(st, s) then Push(st.producers[p].op) else Nothing
    case TakeAll(c) => Take(c)
    case Detach(c) => Deliver(c)
    case _ => Nothing
  }

  // ----- the refinement relation --------------------------------------------------------

  /** Following the links from `p` gives exactly `s`, and ends. */
  ghost predicate Spells(next: Nexts, p: Option<nat>, s: seq<nat>)
    decreases |s|
  {
    if s == [] then p == None
    else p == Some(s[0]) && Spells(next, Next(next, s[0]), s[1..])
  }

  ghost function Owns(p: Producer): multiset<nat> {
    if p.Idle? then multiset{} else multiset{p.op}
  }

  ghost function Producing(ps: seq<Producer>): multiset<nat> {
    if ps == [] then multiset{} else Producing(ps[..|ps| - 1]) + Owns(ps[|ps| - 1])
  }

  ghost function Walking(bs: seq<seq<nat>>): multiset<nat> {
    if bs == [] then multiset{} else Walking(bs[..|bs| - 1]) + multiset(bs[|bs| - 1])
  }

  /** Every operation somebody owns: a producer, the stack, or a consumer. */
  ghost function Places(st: State, a: Abstract): multiset<nat> {
    multiset(a.stack) + Walking(a.batches) + Producing(st.producers)
  }

  ghost function Owned(st: State, a: Abstract): set<nat> {
    set x | x in Places(st, a)
  }

  /** The chains spell the stack and the batches, and nothing is in two places. */
  ghost predicate Refines(st: State, a: Abstract) {
    && Spells(st.next, st.head, a.stack)
    && |a.batches| == |st.walks|
    && (forall c :: 0 <= c < |st.walks| ==> Spells(st.next, st.walks[c], a.batches[c]))
    && (forall p :: 0 <= p < |st.producers| && st.producers[p].Linked? ==>
          Next(st.next, st.producers[p].op) == st.producers[p].seen)
    && (forall x :: Places(st, a)[x] <= 1)
  }

  // ----- lemmas about chains and places -------------------------------------------------

  /** Relinking an operation outside a chain leaves the chain alone. */
  lemma {:induction false} SpellsFrame(next: Nexts, p: Option<nat>, s: seq<nat>, op: nat, to: Option<nat>)
    requires Spells(next, p, s) && op !in s
    ensures Spells(next[op := to], p, s)
    decreases |s|
  {
    if s != [] {
      SpellsFrame(next, Next(next, s[0]), s[1..], op, to);
    }
  }

  lemma {:induction false} ProducingPut(ps: seq<Producer>, i: nat, p: Producer)
    requires i < |ps|
    ensures Producing(ps[i := p]) + Owns(ps[i]) == Producing(ps) + Owns(p)
    decreases |ps|
  {
    var k := |ps| - 1;
    if i < k {
      assert ps[i := p][..k] == ps[..k][i := p] && ps[i := p][k] == ps[k];
      ProducingPut(ps[..k], i, p);
      Swap(Producing(ps[..k][i := p]), Owns(ps[i]), Producing(ps[..k]), Owns(p), Owns(ps[k]));
    } else {
      assert ps[i := p][..k] == ps[..k];
    }
  }

  lemma {:induction false} WalkingPut(bs: seq<seq<nat>>, i: nat, b: seq<nat>)
    requires i < |bs|
    ensures Walking(bs[i := b]) + multiset(bs[i]) == Walking(bs) + multiset(b)
    decreases |bs|
  {
    var k := |bs| - 1;
    if i < k {
      assert bs[i := b][..k] == bs[..k][i := b] && bs[i := b][k] == bs[k];
      WalkingPut(bs[..k], i, b);
      Swap(Walking(bs[..k][i := b]), multiset(bs[i]), Walking(bs[..k]), multiset(b), multiset(bs[k]));
    } else {
      assert bs[i := b][..k] == bs[..k];
    }
  }

  lemma Swap(a: multiset<nat>, b: multiset<nat>, c: multiset<nat>, d: multiset<nat>, e: multiset<nat>)
    requires a + b == c + d
    ensures (a + e) + b == (c + e) + d
  {
    forall x ensures ((a + e) + b)[x] == ((c + e) + d)[x] {
      assert (a + b)[x] == (c + d)[x];
    }
  }

  lemma {:induction false} ProducingHas(ps: seq<Producer>, i: nat)
    requires i < |ps|
    ensures Owns(ps[i]) <= Producing(ps)
    decreases |ps|
  {
    if i < |ps| - 1 {
      ProducingHas(ps[..|ps| - 1], i);
    }
  }

  lemma {:induction false} WalkingHas(bs: seq<seq<nat>>, i: nat)
    requires i < |bs|
    ensures multiset(bs[i]) <= Walking(bs)
    decreases |bs|
  {
    if i < |bs| - 1 {
      WalkingHas(bs[..|bs| - 1], i);
    }
  }

  /** What a producer holds is in no chain, and held by no other producer. */
  lemma ProducerApart(st: State, a: Abstract, p: nat)
    requires (forall x :: Places(st, a)[x] <= 1) && p < |st.producers| && !st.producers[p].Idle?
    ensures st.producers[p].op !in a.stack
    ensures forall c :: 0 <= c < |a.batches| ==> st.producers[p].op !in a.batches[c]
    ensures forall q :: 0 <= q < |st.producers| && q != p && !st.producers[q].Idle? ==>
              st.producers[q].op != st.producers[p].op
  {
    var op := st.producers[p].op;
    ProducingHas(st.producers, p);
    assert op in Owns(st.producers[p]) && Places(st, a)[op] <= 1;
    forall c | 0 <= c < |a.batches| ensures op !in a.batches[c] {
      WalkingHas(a.batches, c);
      assert op !in multiset(a.batches[c]);
    }
    forall q | 0 <= q < |st.producers| && q != p && !st.producers[q].Idle? ensures st.producers[q].op != op {
      ProducingPut(st.producers, p, Idle);
      ProducingHas(st.producers[p := Idle], q);
      assert (Producing(st.producers[p := Idle]) + Owns(st.producers[p]))[op]
          == (Producing(st.producers) + Owns(Idle))[op];
    }
  }

  /** The first operation of a batch is nowhere else. */
  lemma BatchApart(st: State, a: Abstract, c: nat)
    requires (forall x :: Places(st, a)[x] <= 1) && c < |a.batches| && a.batches[c] != []
    ensures a.batches[c][0] !in a.stack && a.batches[c][0] !in a.batches[c][1..]
    ensures forall d :: 0 <= d < |a.batches| && d != c ==> a.batches[c][0] !in a.batches[d]
    ensures forall p :: 0 <= p < |st.producers| && !st.producers[p].Idle? ==> st.producers[p].op != a.batches[c][0]
  {
    var b := a.batches[c];
    WalkingHas(a.batches, c);
    assert b == [b[0]] + b[1..];
    assert multiset(b) == multiset{b[0]} + multiset(b[1..]);
    assert Places(st, a)[b[0]] <= 1;
    forall d | 0 <= d < |a.batches| && d != c ensures b[0] !in a.batches[d] {
      WalkingPut(a.batches, c, []);
      WalkingHas(a.batches[c := []], d);
      assert (Walking(a.batches[c := []]) + multiset(b))[b[0]] == (Walking(a.batches) + multiset([]))[b[0]];
      assert a.batches[c := []][d] == a.batches[d];
      assert b[0] !in multiset(a.batches[d]);
    }
    forall p | 0 <= p < |st.producers| && !st.producers[p].Idle? ensures st.producers[p].op != b[0] {
      ProducerApart(st, a, p);
    }
  }

  // ----- the simulation -----------------------------------------------------------------

  lemma LoadRefines(st: State, a: Abstract, p: nat, op: nat)
    requires Refines(st, a) && Enabled(st, Load(p, op), Owned(st, a))
    ensures Refines(Performed(st, Load(p, op)), a)
  {
    hide Producing, Walking, Spells;
    var st' := Performed(st, Load(p, op));
    ProducingPut(st.producers, p, Loaded(op, st.head));
    forall x ensures Places(st', a)[x] <= 1 {
      assert (Producing(st'.producers) + multiset{})[x] == (Producing(st.producers) + multiset{op})[x];
      assert Places(st, a)[x] <= 1 && op !in Places(st, a);
    }
  }

  lemma LinkRefines(st: State, a: Abstract, p: nat)
    requires Refines(st, a) && Enabled(st, Link(p), Owned(st, a))
    ensures Refines(Performed(st, Link(p)), a)
  {
    var st' := Performed(st, Link(p));
    var x := st.producers[p];
    ProducerApart(st, a, p);
    SpellsFrame(st.next, st.head, a.stack, x.op, x.seen);
    forall c | 0 <= c < |st.walks| ensures Spells(st'.next, st.walks[c], a.batches[c]) {
      SpellsFrame(st.next, st.walks[c], a.batches[c], x.op, x.seen);
    }
    SamePlaces(st, st', a, p);
  }

  lemma SamePlaces(st: State, st': State, a: Abstract, p: nat)
    requires p < |st.producers| && |st'.producers| == |st.producers| && Owns(st'.producers[p]) == Owns(st.producers[p])
    requires st'.producers == st.producers[p := st'.producers[p]]
    ensures Places(st', a) == Places(st, a)
  {
    ProducingPut(st.producers, p, st'.producers[p]);
    forall x ensures Producing(st'.producers)[x] == Producing(st.producers)[x] {
      assert (Producing(st'.producers) + Owns(st.producers[p]))[x]
          == (Producing(st.producers) + Owns(st'.producers[p]))[x];
    }
  }

  /** A successful exchange pushes, whatever happened since the head was loaded. */
  lemma PushRefines(st: State, a: Abstract, p: nat)
    requires Refines(st, a) && Enabled(st, Exchange(p, false), Owned(st, a)) && Succeeds(st, Exchange(p, false))
    ensures Refines(Performed(st, Exchange(p, false)), Apply(a, Push(st.producers[p].op)))
  {
    hide Producing, Walking, Owned;
    var op := st.producers[p].op;
    var st', a' := Performed(st, Exchange(p, false)), Apply(a, Push(op));
    assert a'.stack[1..] == a.stack;
    PushPlaces(st, st', a, a', p);
  }

  lemma PushPlaces(st: State, st': State, a: Abstract, a': Abstract, p: nat)
    requires p < |st.producers| && !st.producers[p].Idle? && st'.producers == st.producers[p := Idle]
    requires a' == a.(stack := [st.producers[p].op] + a.stack)
    ensures Places(st', a') == Places(st, a)
  {
    var op := st.producers[p].op;
    ProducingPut(st.producers, p, Idle);
    forall x ensures Places(st', a')[x] == Places(st, a)[x] {
      assert (Producing(st'.producers) + multiset{op})[x] == (Producing(st.producers) + multiset{})[x];
      assert multiset(a'.stack) == multiset{op} + multiset(a.stack);
    }
  }

  lemma FailedRefines(st: State, a: Abstract, p: nat, spurious: bool)
    requires Refines(st, a) && Enabled(st, Exchange(p, spurious), Owned(st, a)) && !Succeeds(st, Exchange(p, spurious))
    ensures Refines(Performed(st, Exchange(p, spurious)), a)
  {
    hide Producing, Walking, Owned, Spells;
    SamePlaces(st, Performed(st, Exchange(p, spurious)), a, p);
  }

  lemma TakeRefines(st: State, a: Abstract, c: nat)
    requires Refines(st, a) && Enabled(st, TakeAll(c), Owned(st, a))
    ensures Possible(a, Take(c)) && Refines(Performed(st, TakeAll(c)), Apply(a, Take(c)))
  {
    assert Spells(st.next, st.walks[c], a.batches[c]);
    assert a.batches[c] == [];
    var st', a' := Performed(st, TakeAll(c)), Apply(a, Take(c));
    WalkingPut(a.batches, c, a.stack);
    forall x ensures Places(st', a')[x] == Places(st, a)[x] {
      assert (Walking(a'.batches) + multiset([]))[x] == (Walking(a.batches) + multiset(a.stack))[x];
    }
  }

  lemma DetachRefines(st: State, a: Abstract, c: nat)
    requires Refines(st, a) && Enabled(st, Detach(c), Owned(st, a))
    ensures Possible(a, Deliver(c)) && Refines(Performed(st, Detach(c)), Apply(a, Deliver(c)))
  {
    assert Spells(st.next, st.walks[c], a.batches[c]);
    var b := a.batches[c];
    var st', a' := Performed(st, Detach(c)), Apply(a, Deliver(c));
    hide Producing, Walking, Owned;
    BatchApart(st, a, c);
    SpellsFrame(st.next, st.head, a.stack, b[0], None);
    forall d | 0 <= d < |st.walks| ensures Spells(st'.next, st'.walks[d], a'.batches[d]) {
      if d == c {
        SpellsFrame(st.next, Next(st.next, b[0]), b[1..], b[0], None);
      } else {
        SpellsFrame(st.next, st.walks[d], a.batches[d], b[0], None);
      }
    }
    DetachPlaces(st, st', a, a', c);
  }

  lemma DetachPlaces(st: State, st': State, a: Abstract, a': Abstract, c: nat)
    requires c < |a.batches| && a.batches[c] != [] && st'.producers == st.producers
    requires a' == Apply(a, Deliver(c)) && forall x :: Places(st, a)[x] <= 1
    ensures forall x :: Places(st', a')[x] <= 1
  {
    var b := a.batches[c];
    WalkingPut(a.batches, c, b[1..]);
    assert multiset(b) == multiset{b[0]} + multiset(b[1..]) by {
      assert b == [b[0]] + b[1..];
    }
    forall x ensures Places(st', a')[x] <= 1 {
      assert (Walking(a'.batches) + multiset(b))[x] == (Walking(a.batches) + multiset(b[1..]))[x];
      assert Places(st, a)[x] <= 1;
    }
  }

  /** Every step of the code is one step of the stack, or none. */
  lemma StepRefines(st: State, a: Abstract, s: Step)
    requires Refines(st, a) && Enabled(st, s, Owned(st, a))
    ensures Possible(a, Meaning(st, s)) && Refines(Performed(st, s), Apply(a, Meaning(st, s)))
  {
    hide Refines, Owned;
    match s {
      case Load(p, op) => LoadRefines(st, a, p, op);
      case Link(p) => LinkRefines(st, a, p);
      case Exchange(p, spurious) =>
        if Succeeds(st, s) {
          PushRefines(st, a, p);
        } else {
          FailedRefines(st, a, p, spurious);
        }
      case TakeAll(c) => TakeRefines(st, a, c);
      case Detach(c) => DetachRefines(st, a, c);
    }
  }

  // ----- runs ---------------------------------------------------------------------------

  ghost function Empty(producers: nat, consumers: nat): State {
    State(None, map[], seq(producers, _ => Idle), seq(consumers, _ => None))
  }

  ghost function EmptyStack(consumers: nat): Abstract {
    Abstract([], seq(consumers, _ => []), [])
  }

  /**
   * A run of the code together with the stack operations it stands for: `trace` are the
   * states, `log` the events, one for each step.
   */
  ghost predicate IsRun(steps: seq<Step>, trace: seq<State>, ghosts: seq<Abstract>, log: seq<Event>) {
    && |trace| == |ghosts| == |steps| + 1 && |log| == |steps|
    && trace[0] == Empty(|trace[0].producers|, |trace[0].walks|) && ghosts[0] == EmptyStack(|trace[0].walks|)
    && forall i :: 0 <= i < |steps| ==>
         && Enabled(trace[i], steps[i], Owned(trace[i], ghosts[i]))
         && trace[i + 1] == Performed(trace[i], steps[i])
         && log[i] == Meaning(trace[i], steps[i])
         && (Possible(ghosts[i], log[i]) ==> ghosts[i + 1] == Apply(ghosts[i], log[i]))
  }

  lemma {:induction false} NoneProducing(n: nat)
    ensures Producing(seq(n, _ => Idle)) == multiset{}
    decreases n
  {
    if n > 0 {
      assert seq(n, _ => Idle)[..n - 1] == seq(n - 1, _ => Idle);
      NoneProducing(n - 1);
    }
  }

  lemma {:induction false} NoneWalking(bs: seq<seq<nat>>)
    requires forall i :: 0 <= i < |bs| ==> |bs[i]| == 0
    ensures Walking(bs) == multiset{}
    decreases |bs|
  {
    if bs != [] {
      NoneWalking(bs[..|bs| - 1]);
    }
  }

  /** The chains of the code spell the stack and the batches at every point of every run. */
  lemma {:induction false} RunRefines(steps: seq<Step>, trace: seq<State>, ghosts: seq<Abstract>, log: seq<Event>,
      i: nat)
    requires IsRun(steps, trace, ghosts, log) && i <= |steps|
    ensures Refines(trace[i], ghosts[i]) && (i < |steps| ==> Possible(ghosts[i], log[i]))
    decreases i
  {
    if i == 0 {
      NoneProducing(|trace[0].producers|);
      NoneWalking(ghosts[0].batches);
    } else {
      RunRefines(steps, trace, ghosts, log, i - 1);
      StepRefines(trace[i - 1], ghosts[i - 1], steps[i - 1]);
    }
    if i < |steps| {
      StepRefines(trace[i], ghosts[i], steps[i]);
    }
  }

  /** A chain has only one reading, so following the links from the head ends, at the stack. */
  lemma {:induction false} OneReading(next: Nexts, p: Option<nat>, s: seq<nat>, t: seq<nat>)
    requires Spells(next, p, s) && Spells(next, p, t)
    ensures s == t
    decreases |s|
  {
    if s != [] && t != [] {
      OneReading(next, Next(next, s[0]), s[1..], t[1..]);
      assert s == [s[0]] + s[1..] && t == [t[0]] + t[1..];
    }
  }

  /** No chain comes back to an operation. */
  lemma NoCycle(st: State, a: Abstract, i: nat, j: nat)
    requires Refines(st, a) && i < j < |a.stack|
    ensures a.stack[i] != a.stack[j]
  {
    var s := a.stack;
    assert s == s[..j] + s[j..];
    assert multiset(s) == multiset(s[..j]) + multiset(s[j..]);
    assert s[i] in s[..j] && s[j] in s[j..];
    assert Places(st, a)[s[i]] <= 1;
  }

  // ----- conservation -------------------------------------------------------------------

  ghost function Pushed(log: seq<Event>): multiset<nat> {
    if log == [] then multiset{}
    else Pushed(log[..|log| - 1]) + (if log[|log| - 1].Push? then multiset{log[|log| - 1].op} else multiset{})
  }

  ghost function Everything(a: Abstract): multiset<nat> {
    multiset(a.stack) + Walking(a.batches) + multiset(a.delivered)
  }

  lemma ApplyConserves(a: Abstract, e: Event)
    requires Possible(a, e)
    ensures Everything(Apply(a, e)) == Everything(a) + (if e.Push? then multiset{e.op} else multiset{})
  {
    var a' := Apply(a, e);
    if e.Take? {
      WalkingPut(a.batches, e.consumer, a.stack);
      forall x ensures Everything(a')[x] == Everything(a)[x] {
        assert (Walking(a'.batches) + multiset([]))[x] == (Walking(a.batches) + multiset(a.stack))[x];
      }
    } else if e.Deliver? {
      var b := a.batches[e.consumer];
      assert b == [b[0]] + b[1..];
      WalkingPut(a.batches, e.consumer, b[1..]);
      forall x ensures Everything(a')[x] == Everything(a)[x] {
        assert (Walking(a'.batches) + multiset(b))[x] == (Walking(a.batches) + multiset(b[1..]))[x];
        assert multiset(b) == multiset{b[0]} + multiset(b[1..]);
      }
    }
  }

  lemma EmptyHasNothing(consumers: nat)
    ensures Everything(EmptyStack(consumers)) == multiset{}
  {
    NoneWalking(EmptyStack(consumers).batches);
  }

  /** Every push is in the stack, in one batch, or delivered: nothing is lost or duplicated. */
  lemma {:induction false} RunConserves(steps: seq<Step>, trace: seq<State>, ghosts: seq<Abstract>, log: seq<Event>,
      i: nat)
    requires IsRun(steps, trace, ghosts, log) && i <= |steps|
    ensures Everything(ghosts[i]) == Pushed(log[..i])
    decreases i
  {
    hide Refines, Owned, Enabled, Performed, Meaning, Apply, Everything;
    if i == 0 {
      EmptyHasNothing(|trace[0].walks|);
    } else {
      RunConserves(steps, trace, ghosts, log, i - 1);
      RunRefines(steps, trace, ghosts, log, i - 1);
      ApplyConserves(ghosts[i - 1], log[i - 1]);
      assert log[..i][..i - 1] == log[..i - 1];
    }
  }

  // ----- single accesses ------------------------------------------------------------------

  /**
   * An exchange that failed, also spuriously, is repeated on the head as it is then: linking
   * again and exchanging succeeds unless somebody changes the head meanwhile, and puts the
   * operation in front of what is there.
   */
  lemma RetrySucceeds(st: State, p: nat, spurious: bool)
    requires Ready(st, Exchange(p, spurious)) && !Succeeds(st, Exchange(p, spurious))
    ensures var failed := Performed(st, Exchange(p, spurious));
            && failed.head == st.head && failed.next == st.next && failed.walks == st.walks
            && Ready(failed, Link(p))
            && var linked := Performed(failed, Link(p));
               && Ready(linked, Exchange(p, false)) && Succeeds(linked, Exchange(p, false))
               && var done := Performed(linked, Exchange(p, false));
                  && done.head == Some(st.producers[p].op) && Next(done.next, st.producers[p].op) == st.head
                  && done.producers[p] == Idle
  {
  }

  /** A consumer unlinks an operation before it goes on to the one behind it. */
  lemma DetachUnlinks(st: State, c: nat)
    requires Ready(st, Detach(c))
    ensures var st' := Performed(st, Detach(c)); var op := st.walks[c].value;
            && Next(st'.next, op) == None && st'.walks[c] == Next(st.next, op)
            && (forall x :: x != op ==> Next(st'.next, x) == Next(st.next, x))
            && st'.head == st.head && st'.producers == st.producers
  {
  }
}
