/**
 * The wait queues of the kqueue backend: for each descriptor and filter, the registrations
 * waiting for it form a doubly linked list through the registrations themselves, in the order
 * of registration. There is no list head; the tail is found by scanning the operations in
 * flight. The first registration, and only it, is armed in the kernel.
 */
module WaitQueue {
  import opened Sequences

  datatype Filter = Read | Write

  datatype Key = Key(ident: nat, filter: Filter)

  /** An I/O operation with its current registrations: at most one for each key. */
  class Operation {
    var nodes: seq<Node>
    var result: int

    constructor ()
      ensures nodes == []
    {
      nodes, result := [], 0;
    }
  }

  /** One registration of an operation. */
  class Node {
    const owner: Operation
    const key: Key
    const sequence: nat
    var prev: Node?
    var next: Node?
    var armed: bool

    constructor (owner: Operation, key: Key, sequence: nat)
      ensures this.owner == owner && this.key == key && this.sequence == sequence
      ensures prev == null && next == null && !armed
    {
      this.owner, this.key, this.sequence := owner, key, sequence;
      prev, next, armed := null, null, false;
    }
  }

  /** The links and the armed flag of a node. */
  datatype Wire = Wire(prev: Node?, next: Node?, armed: bool)

  type Wires = map<Node, Wire>
  type Queues = map<Key, seq<Node>>

  ghost function Queue(queues: Queues, k: Key): seq<Node> {
    if k in queues then queues[k] else []
  }

  ghost function First(s: seq<Node>, after: Node?): Node? {
    if s == [] then after else s[0]
  }

  ghost function Last(back: Node?, s: seq<Node>): Node? {
    if s == [] then back else s[|s| - 1]
  }

  /** The links spell `s`, between `back` and `after`. */
  ghost predicate Spelled(wires: Wires, back: Node?, s: seq<Node>, after: Node?)
    decreases |s|
  {
    s == [] ||
    (&& s[0] in wires && wires[s[0]].prev == back && wires[s[0]].next == First(s[1..], after)
     && Spelled(wires, s[0], s[1..], after))
  }

  // ----- changing a list ----------------------------------------------------------------

  lemma {:induction false} SpelledFrame(wires: Wires, back: Node?, s: seq<Node>, after: Node?, n: Node, w: Wire)
    requires Spelled(wires, back, s, after) && n !in s
    ensures Spelled(wires[n := w], back, s, after)
    decreases |s|
  {
    if s != [] {
      SpelledFrame(wires, s[0], s[1..], after, n, w);
    }
  }

  lemma {:induction false} Split(wires: Wires, back: Node?, a: seq<Node>, b: seq<Node>, after: Node?)
    requires Spelled(wires, back, a + b, after)
    ensures Spelled(wires, back, a, First(b, after)) && Spelled(wires, Last(back, a), b, after)
    decreases |a|
  {
    if a == [] {
      assert a + b == b;
    } else {
      assert (a + b)[1..] == a[1..] + b;
      Split(wires, a[0], a[1..], b, after);
      assert Last(back, a) == Last(a[0], a[1..]);
      assert First(a[1..] + b, after) == First(a[1..], First(b, after));
    }
  }

  lemma {:induction false} Join(wires: Wires, back: Node?, a: seq<Node>, b: seq<Node>, after: Node?)
    requires Spelled(wires, back, a, First(b, after)) && Spelled(wires, Last(back, a), b, after)
    ensures Spelled(wires, back, a + b, after)
    decreases |a|
  {
    if a == [] {
      assert a + b == b;
    } else {
      assert (a + b)[1..] == a[1..] + b;
      assert Last(back, a) == Last(a[0], a[1..]);
      assert First(a[1..] + b, after) == First(a[1..], First(b, after));
      Join(wires, a[0], a[1..], b, after);
    }
  }

  /** A wire with another successor, and one with another predecessor. */
  function Ahead(w: Wire, next: Node?): Wire { w.(next := next) }
  function Behind(w: Wire, prev: Node?): Wire { w.(prev := prev) }

  /** The last node of a list gets another successor. */
  lemma LastAhead(wires: Wires, back: Node?, s: seq<Node>, after: Node?, to: Node?)
    requires Spelled(wires, back, s, after) && NoRepeat(s) && s != []
    ensures var n := s[|s| - 1]; n in wires && Spelled(wires[n := Ahead(wires[n], to)], back, s, to)
  {
    var k := |s| - 1;
    var n, a := s[k], s[..k];
    assert s == a + [n];
    Split(wires, back, a, [n], after);
    var wires' := wires[n := Ahead(wires[n], to)];
    assert n !in a;
    SpelledFrame(wires, back, a, n, n, Ahead(wires[n], to));
    Join(wires', back, a, [n], to);
  }

  /** The first node of a list gets another predecessor. */
  lemma FirstBehind(wires: Wires, back: Node?, s: seq<Node>, after: Node?, to: Node?)
    requires Spelled(wires, back, s, after) && NoRepeat(s) && s != []
    ensures s[0] in wires && Spelled(wires[s[0] := Behind(wires[s[0]], to)], to, s, after)
  {
    assert s[0] !in s[1..];
    SpelledFrame(wires, s[0], s[1..], after, s[0], Behind(wires[s[0]], to));
  }

  lemma {:induction false} SpelledSame(wires: Wires, wires': Wires, back: Node?, s: seq<Node>, after: Node?)
    requires Spelled(wires, back, s, after) && forall n <- s :: n in wires && n in wires' && wires'[n] == wires[n]
    ensures Spelled(wires', back, s, after)
    decreases |s|
  {
    if s != [] {
      SpelledSame(wires, wires', s[0], s[1..], after);
    }
  }

  /** Takes a node out of its list, as the code does it: through its two links. */
  ghost function Unlinked(wires: Wires, n: Node): Wires
    requires n in wires
  {
    var w := wires[n];
    var w1 := if w.prev != null && w.prev in wires then wires[w.prev := Ahead(wires[w.prev], w.next)] else wires;
    var w2 := if w.next != null && w.next in w1 then w1[w.next := Behind(w1[w.next], w.prev)] else w1;
    w2[n := Wire(null, null, w.armed)]
  }

  lemma NodeWire(wires: Wires, a: seq<Node>, n: Node, b: seq<Node>)
    requires Spelled(wires, null, a + [n] + b, null)
    ensures n in wires && wires[n].prev == Last(null, a) && wires[n].next == First(b, null)
    ensures Spelled(wires, null, a, n) && Spelled(wires, n, b, null)
  {
    assert a + [n] + b == a + ([n] + b);
    Split(wires, null, a, [n] + b, null);
    assert ([n] + b)[1..] == b;
  }

  lemma UnlinkedSpelled(wires: Wires, a: seq<Node>, n: Node, b: seq<Node>)
    requires Spelled(wires, null, a + [n] + b, null) && NoRepeat(a + [n] + b)
    ensures n in wires && Spelled(Unlinked(wires, n), null, a + b, null)
  {
    NodeWire(wires, a, n, b);
    Parts(a, n, b);
    var w, w1 := wires[n], wires;
    if a != [] {
      LastAhead(wires, null, a, n, w.next);
      SpelledFrame(wires, n, b, null, w.prev, Ahead(wires[w.prev], w.next));
      w1 := wires[w.prev := Ahead(wires[w.prev], w.next)];
    }
    assert Spelled(w1, null, a, w.next) && Spelled(w1, n, b, null);
    var w2 := w1;
    if b != [] {
      FirstBehind(w1, n, b, null, w.prev);
      SpelledFrame(w1, null, a, w.next, w.next, Behind(w1[w.next], w.prev));
      w2 := w1[w.next := Behind(w1[w.next], w.prev)];
    }
    assert Spelled(w2, null, a, w.next) && Spelled(w2, w.prev, b, null);
    SpelledFrame(w2, null, a, w.next, n, Wire(null, null, w.armed));
    SpelledFrame(w2, w.prev, b, null, n, Wire(null, null, w.armed));
    Join(Unlinked(wires, n), null, a, b, null);
  }

  /** The parts of a list without repetitions. */
  lemma Parts(a: seq<Node>, n: Node, b: seq<Node>)
    requires NoRepeat(a + [n] + b)
    ensures NoRepeat(a) && NoRepeat(b) && NoRepeat(a + b) && n !in a && n !in b && forall x <- a :: x !in b
    ensures a != [] ==> a[|a| - 1] in a && a[|a| - 1] !in b
    ensures b != [] ==> b[0] in b && b[0] !in a
  {
    var s := a + [n] + b;
    assert forall i :: 0 <= i < |a| ==> s[i] == a[i];
    assert s[|a|] == n;
    assert forall i :: 0 <= i < |b| ==> s[|a| + 1 + i] == b[i];
  }

  // ----- all queues ---------------------------------------------------------------------

  /** The queues, and the wires of every registration. */
  datatype Shape = Shape(queues: Queues, wires: Wires)

  ghost predicate Ascending(s: seq<Node>) {
    forall i, j :: 0 <= i < j < |s| ==> s[i].sequence < s[j].sequence
  }

  /** The queue of a key is linked, in the order of registration, and at most its head is armed. */
  ghost predicate Orderly(sh: Shape, k: Key) {
    var s := Queue(sh.queues, k);
    && Spelled(sh.wires, null, s, null) && NoRepeat(s) && Ascending(s)
    && (forall n <- s :: n.key == k && n in sh.wires)
    && (forall i :: 0 < i < |s| ==> s[i] in sh.wires && !sh.wires[s[i]].armed)
  }

  ghost predicate Formed(sh: Shape) {
    && (forall k :: Orderly(sh, k))
    && (forall n <- sh.wires :: n !in Queue(sh.queues, n.key) ==> sh.wires[n] == Wire(null, null, false))
  }

  /** A non-empty queue has its head armed. */
  ghost predicate HeadArmed(sh: Shape, k: Key) {
    var s := Queue(sh.queues, k);
    s != [] ==> s[0] in sh.wires && sh.wires[s[0]].armed
  }

  /** Only the wires of nodes of key `k` may differ. */
  ghost predicate OnlyKey(wires: Wires, wires': Wires, k: Key) {
    forall n <- wires :: n in wires' && (n.key != k ==> wires'[n] == wires[n])
  }

  /** The other queues are as they were. */
  lemma OtherOrderly(sh: Shape, sh': Shape, k: Key, other: Key)
    requires Orderly(sh, other) && other != k && OnlyKey(sh.wires, sh'.wires, k)
    requires Queue(sh'.queues, other) == Queue(sh.queues, other)
    ensures Orderly(sh', other) && (HeadArmed(sh, other) <==> HeadArmed(sh', other))
  {
    SpelledSame(sh.wires, sh'.wires, null, Queue(sh.queues, other), null);
  }

  lemma {:induction false} LessParts(a: seq<Node>, n: Node, b: seq<Node>)
    requires n !in a
    ensures Less(a + [n] + b, n) == a + b
    decreases |a|
  {
    if a == [] {
      assert a + [n] + b == [n] + b && ([n] + b)[1..] == b && a + b == b;
    } else {
      assert (a + [n] + b)[1..] == a[1..] + [n] + b;
      LessParts(a[1..], n, b);
      assert a + b == [a[0]] + (a[1..] + b);
    }
  }

  /** A member with what is before and behind it. */
  lemma Around(s: seq<Node>, n: Node) returns (a: seq<Node>, b: seq<Node>)
    requires n in s && NoRepeat(s)
    ensures s == a + [n] + b && n !in a && Less(s, n) == a + b
  {
    var i :| 0 <= i < |s| && s[i] == n;
    a, b := s[..i], s[i + 1..];
    assert s == a + [n] + b;
    LessParts(a, n, b);
  }

  /** The registration leaves its queue and is reset. */
  ghost function Removed(sh: Shape, n: Node): Shape
    requires n in sh.wires
  {
    Shape(sh.queues[n.key := Less(Queue(sh.queues, n.key), n)], Unlinked(sh.wires, n)[n := Wire(null, null, false)])
  }

  lemma RemovedWires(sh: Shape, a: seq<Node>, n: Node, b: seq<Node>)
    requires Orderly(sh, n.key) && Queue(sh.queues, n.key) == a + [n] + b
    ensures n in sh.wires && OnlyKey(sh.wires, Removed(sh, n).wires, n.key)
    ensures forall x <- sh.wires :: x != n ==> Removed(sh, n).wires[x].armed == sh.wires[x].armed
    ensures forall x <- sh.wires :: x !in a && x !in b && x != n ==> Removed(sh, n).wires[x] == sh.wires[x]
    ensures forall x <- Removed(sh, n).wires :: x in sh.wires
  {
    NodeWire(sh.wires, a, n, b);
    hide Spelled, Ascending, NoRepeat;
    var s := Queue(sh.queues, n.key);
    assert a != [] ==> a[|a| - 1] == s[|a| - 1] && a[|a| - 1] in s;
    assert b != [] ==> b[0] == s[|a| + 1] && b[0] in s;
    assert s[|a|] == n && n in s;
  }

  lemma RemovedOrderly(sh: Shape, a: seq<Node>, n: Node, b: seq<Node>)
    requires Orderly(sh, n.key) && Queue(sh.queues, n.key) == a + [n] + b
    ensures n in sh.wires && Orderly(Removed(sh, n), n.key) && Queue(Removed(sh, n).queues, n.key) == a + b
  {
    RemovedWires(sh, a, n, b);
    Parts(a, n, b);
    UnlinkedSpelled(sh.wires, a, n, b);
    SpelledFrame(Unlinked(sh.wires, n), null, a + b, null, n, Wire(null, null, false));
    LessParts(a, n, b);
    RemovedRest(sh, a, n, b);
  }

  lemma RemovedRest(sh: Shape, a: seq<Node>, n: Node, b: seq<Node>)
    requires Orderly(sh, n.key) && Queue(sh.queues, n.key) == a + [n] + b
    ensures n in sh.wires && Ascending(a + b) && (forall x <- a + b :: x.key == n.key && x in Removed(sh, n).wires)
    ensures forall i :: 0 < i < |a + b| ==>
              (a + b)[i] in Removed(sh, n).wires && !Removed(sh, n).wires[(a + b)[i]].armed
  {
    hide Removed, Spelled, Queue, NoRepeat;
    RemovedWires(sh, a, n, b);
    Parts(a, n, b);
    SkipsOne(a, n, b);
    var s := a + [n] + b;
    forall i | 0 < i < |a + b| ensures (a + b)[i] in Removed(sh, n).wires && !Removed(sh, n).wires[(a + b)[i]].armed {
      var j := if i < |a| then i else i + 1;
      assert (a + b)[i] == s[j] && s[j] in s && s[j] != n;
    }
  }

  /** Leaving one out keeps the order. */
  lemma SkipsOne(a: seq<Node>, n: Node, b: seq<Node>)
    requires Ascending(a + [n] + b)
    ensures Ascending(a + b) && forall x <- a + b :: x in a + [n] + b
  {
    var s := a + [n] + b;
    forall i, j | 0 <= i < j < |a + b| ensures (a + b)[i].sequence < (a + b)[j].sequence {
      assert (a + b)[i] == s[if i < |a| then i else i + 1] && (a + b)[j] == s[if j < |a| then j else j + 1];
    }
  }

  lemma RemovedFormed(sh: Shape, n: Node)
    requires Formed(sh) && n in Queue(sh.queues, n.key)
    ensures n in sh.wires && Formed(Removed(sh, n))
    ensures forall k :: k != n.key ==> (HeadArmed(sh, k) <==> HeadArmed(Removed(sh, n), k))
  {
    hide Removed, HeadArmed, Orderly;
    var k := n.key;
    assert Orderly(sh, k);
    var a, b := Between(sh, n);
    RemovedOrderly(sh, a, n, b);
    RemovedWires(sh, a, n, b);
    var sh' := Removed(sh, n);
    forall other | other != k ensures Orderly(sh', other) && (HeadArmed(sh, other) <==> HeadArmed(sh', other)) {
      OtherQueue(sh, n, other);
      OtherOrderly(sh, sh', k, other);
    }
    forall x <- sh'.wires | x !in Queue(sh'.queues, x.key) ensures sh'.wires[x] == Wire(null, null, false) {
      RemovedDetached(sh, a, n, b, x);
    }
  }

  lemma Between(sh: Shape, n: Node) returns (a: seq<Node>, b: seq<Node>)
    requires Orderly(sh, n.key) && n in Queue(sh.queues, n.key)
    ensures Queue(sh.queues, n.key) == a + [n] + b
  {
    a, b := Around(Queue(sh.queues, n.key), n);
  }

  lemma OtherQueue(sh: Shape, n: Node, other: Key)
    requires n in sh.wires && other != n.key
    ensures Queue(Removed(sh, n).queues, other) == Queue(sh.queues, other)
  {
  }

  lemma RemovedDetached(sh: Shape, a: seq<Node>, n: Node, b: seq<Node>, x: Node)
    requires Formed(sh) && Queue(sh.queues, n.key) == a + [n] + b && n in sh.wires
    requires x in Removed(sh, n).wires && x !in Queue(Removed(sh, n).queues, x.key)
    ensures Removed(sh, n).wires[x] == Wire(null, null, false)
  {
    assert Orderly(sh, n.key);
    RemovedWires(sh, a, n, b);
    RemovedOrderly(sh, a, n, b);
    if x != n {
      if x.key == n.key {
        assert x !in a + b;
      } else {
        OtherQueue(sh, n, x.key);
        assert forall y <- a + [n] + b :: y.key == n.key;
      }
      assert x !in a && x !in b;
    }
  }

  /** A registration queues behind the last one of its key. */
  ghost function Appended(sh: Shape, n: Node): Shape {
    var s := Queue(sh.queues, n.key);
    var t := Last(null, s);
    var behind := if t != null && t in sh.wires then sh.wires[t := Ahead(sh.wires[t], n)] else sh.wires;
    Shape(sh.queues[n.key := s + [n]], behind[n := Wire(t, null, false)])
  }

  lemma AppendedOrderly(sh: Shape, n: Node)
    requires Orderly(sh, n.key) && n !in Queue(sh.queues, n.key)
    requires forall x <- Queue(sh.queues, n.key) :: x.sequence < n.sequence
    ensures Orderly(Appended(sh, n), n.key) && Queue(Appended(sh, n).queues, n.key) == Queue(sh.queues, n.key) + [n]
    ensures Queue(sh.queues, n.key) != [] ==> (HeadArmed(sh, n.key) <==> HeadArmed(Appended(sh, n), n.key))
  {
    hide Spelled;
    var s := Queue(sh.queues, n.key);
    AppendedSpelled(sh, n);
    AppendedWires(sh, n);
    assert forall i :: 0 <= i < |s| ==> (s + [n])[i] == s[i] && s[i] in s;
    hide Appended;
  }

  lemma AppendedSpelled(sh: Shape, n: Node)
    requires Orderly(sh, n.key) && n !in Queue(sh.queues, n.key)
    ensures Spelled(Appended(sh, n).wires, null, Queue(sh.queues, n.key) + [n], null)
  {
    var s, sh' := Queue(sh.queues, n.key), Appended(sh, n);
    if s != [] {
      var t := s[|s| - 1];
      assert t in s;
      LastAhead(sh.wires, null, s, null, n);
      SpelledFrame(sh.wires[t := Ahead(sh.wires[t], n)], null, s, n, n, Wire(t, null, false));
    }
    Join(sh'.wires, null, s, [n], null);
  }

  /** Appending arms and disarms nobody. */
  lemma AppendedWires(sh: Shape, n: Node)
    requires Orderly(sh, n.key) && n !in Queue(sh.queues, n.key)
    ensures n in Appended(sh, n).wires && !Appended(sh, n).wires[n].armed
    ensures forall x <- Queue(sh.queues, n.key) ::
              x in sh.wires && x in Appended(sh, n).wires && Appended(sh, n).wires[x].armed == sh.wires[x].armed
    ensures Queue(Appended(sh, n).queues, n.key) == Queue(sh.queues, n.key) + [n]
  {
    hide Spelled;
  }

  lemma AppendedFormed(sh: Shape, n: Node)
    requires Formed(sh) && n !in Queue(sh.queues, n.key)
    requires forall x <- Queue(sh.queues, n.key) :: x.sequence < n.sequence
    ensures Formed(Appended(sh, n))
    ensures forall k :: k != n.key || Queue(sh.queues, k) != [] ==>
              (HeadArmed(sh, k) <==> HeadArmed(Appended(sh, n), k))
  {
    var k, sh' := n.key, Appended(sh, n);
    assert Orderly(sh, k);
    AppendedOrderly(sh, n);
    assert OnlyKey(sh.wires, sh'.wires, k) by {
      var s := Queue(sh.queues, k);
      assert s != [] ==> s[|s| - 1] in s;
    }
    forall other | other != k ensures Orderly(sh', other) && (HeadArmed(sh, other) <==> HeadArmed(sh', other)) {
      assert Orderly(sh, other);
      OtherOrderly(sh, sh', k, other);
    }
    AppendedDetached(sh, n);
  }

  lemma AppendedDetached(sh: Shape, n: Node)
    requires Formed(sh) && n !in Queue(sh.queues, n.key)
    ensures var sh' := Appended(sh, n);
            forall x <- sh'.wires :: x !in Queue(sh'.queues, x.key) ==> sh'.wires[x] == Wire(null, null, false)
  {
    var sh', s := Appended(sh, n), Queue(sh.queues, n.key);
    assert Orderly(sh, n.key);
    assert s != [] ==> s[|s| - 1] in s;
    forall x <- sh'.wires | x !in Queue(sh'.queues, x.key) ensures sh'.wires[x] == Wire(null, null, false) {
      assert x.key == n.key ==> x !in s + [n];
      assert x !in s && x != n;
    }
  }

  /** The head of a queue is armed. */
  ghost function Primed(sh: Shape, n: Node): Shape
    requires n in sh.wires
  {
    sh.(wires := sh.wires[n := sh.wires[n].(armed := true)])
  }

  lemma {:induction false} SpelledArmed(wires: Wires, back: Node?, s: seq<Node>, after: Node?, n: Node, armed: bool)
    requires Spelled(wires, back, s, after) && n in wires
    ensures Spelled(wires[n := wires[n].(armed := armed)], back, s, after)
    decreases |s|
  {
    if s != [] {
      SpelledArmed(wires, s[0], s[1..], after, n, armed);
    }
  }

  lemma PrimedFormed(sh: Shape, n: Node)
    requires Formed(sh) && Queue(sh.queues, n.key) != [] && n == Queue(sh.queues, n.key)[0]
    ensures n in sh.wires && Formed(Primed(sh, n)) && HeadArmed(Primed(sh, n), n.key)
    ensures forall k :: HeadArmed(sh, k) ==> HeadArmed(Primed(sh, n), k)
  {
    var k := n.key;
    assert Orderly(sh, k) && n in Queue(sh.queues, k);
    var sh' := Primed(sh, n);
    forall other ensures Orderly(sh', other) && (HeadArmed(sh, other) ==> HeadArmed(sh', other)) {
      assert Orderly(sh, other);
      SpelledArmed(sh.wires, null, Queue(sh.queues, other), null, n, true);
      var s := Queue(sh.queues, other);
      assert forall i :: 0 < i < |s| ==> s[i] != n by {
        assert other != k ==> forall x <- s :: x.key != k;
      }
    }
  }

  /** A registration that is in no queue yet. */
  ghost function Created(sh: Shape, n: Node): Shape {
    sh.(wires := sh.wires[n := Wire(null, null, false)])
  }

  lemma CreatedFormed(sh: Shape, n: Node)
    requires Formed(sh) && n !in sh.wires
    ensures Formed(Created(sh, n)) && n !in Queue(sh.queues, n.key)
    ensures forall k :: HeadArmed(sh, k) <==> HeadArmed(Created(sh, n), k)
  {
    var sh' := Created(sh, n);
    forall k ensures Orderly(sh', k) && (HeadArmed(sh, k) <==> HeadArmed(sh', k)) && n !in Queue(sh.queues, k) {
      assert Orderly(sh, k);
      assert n !in Queue(sh.queues, k);
      SpelledFrame(sh.wires, null, Queue(sh.queues, k), null, n, Wire(null, null, false));
    }
  }

  // ----- losing the head ----------------------------------------------------------------

  /**
   * Dropping a registration without arming its successor leaves the queue with an armed head
   * exactly when it was not the head, or nobody waits behind it.
   */
  lemma DroppedHead(sh: Shape, n: Node)
    requires Formed(sh) && n in Queue(sh.queues, n.key) && HeadArmed(sh, n.key)
    ensures n in sh.wires
    ensures HeadArmed(Removed(sh, n), n.key) <==> n != Queue(sh.queues, n.key)[0] || |Queue(sh.queues, n.key)| == 1
  {
    var s := Queue(sh.queues, n.key);
    assert Orderly(sh, n.key);
    var a, b := Around(s, n);
    RemovedOrderly(sh, a, n, b);
    RemovedWires(sh, a, n, b);
    if a == [] && b != [] {
      assert b[0] == s[1];
    } else if a != [] {
      assert a[0] == s[0] && a[0] != n;
    }
  }
}
