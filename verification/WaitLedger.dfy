/**
 * Operations of the kqueue backend and their registrations: what the records of the poller
 * say about each other, and how removing, appending, failing and forgetting change them.
 */
module WaitLedger {
  import opened WaitQueue
  import opened Sequences

  ghost predicate DistinctKeys(nodes: seq<Node>) {
    forall i, j :: 0 <= i < j < |nodes| ==> nodes[i].key != nodes[j].key
  }

  /** A queued registration without a successor is the last of its queue. */
  lemma EndsList(sh: Shape, n: Node)
    requires Formed(sh) && n in Queue(sh.queues, n.key) && n in sh.wires && sh.wires[n].next == null
    ensures n == Last(null, Queue(sh.queues, n.key))
  {
    assert Orderly(sh, n.key);
    var a, b := Around(Queue(sh.queues, n.key), n);
    NodeWire(sh.wires, a, n, b);
  }

  lemma LastEnds(sh: Shape, k: Key)
    requires Formed(sh) && Queue(sh.queues, k) != []
    ensures var s := Queue(sh.queues, k);
            var n := s[|s| - 1]; n in sh.wires && sh.wires[n].next == null && n.key == k
  {
    var s := Queue(sh.queues, k);
    assert Orderly(sh, k);
    assert s[|s| - 1] in s;
    assert s == s[..|s| - 1] + [s[|s| - 1]] + [];
    NodeWire(sh.wires, s[..|s| - 1], s[|s| - 1], []);
  }

  /** The registration behind `n`, which becomes the head if `n` was. */
  ghost function After(sh: Shape, n: Node): Node?
    requires n in sh.wires
  {
    sh.wires[n].next
  }

  lemma RemovedAfter(sh: Shape, n: Node)
    requires Formed(sh) && Queue(sh.queues, n.key) != [] && n == Queue(sh.queues, n.key)[0]
    ensures n in sh.wires && After(sh, n) == First(Queue(Removed(sh, n).queues, n.key), null)
  {
    var s := Queue(sh.queues, n.key);
    assert Orderly(sh, n.key);
    assert s == [] + [n] + s[1..];
    NodeWire(sh.wires, [], n, s[1..]);
    assert Less(s, n) == s[1..];
  }

  /** The neighbours of a queued registration are registrations too. */
  lemma Neighbours(sh: Shape, n: Node)
    requires Formed(sh) && n in Queue(sh.queues, n.key)
    ensures n in sh.wires
    ensures sh.wires[n].prev != null ==> sh.wires[n].prev in sh.wires && sh.wires[n].prev != n
    ensures sh.wires[n].next != null ==>
              sh.wires[n].next in sh.wires && sh.wires[n].next != n && sh.wires[n].next != sh.wires[n].prev
  {
    var s := Queue(sh.queues, n.key);
    assert Orderly(sh, n.key);
    var a, b := Around(s, n);
    Parts(a, n, b);
    NodeWire(sh.wires, a, n, b);
    assert a != [] ==> a[|a| - 1] in s;
    assert b != [] ==> b[0] in s;
  }

  // ----- operations and their registrations ---------------------------------------------

  type Ledger = map<Operation, seq<Node>>

  /**
   * Registrations belong to operations in flight, and operations in flight are registered, for
   * each key once. The `busy` operations are being registered or completed: not all of their
   * registrations are queued.
   */
  ghost predicate Registered(sh: Shape, ledger: Ledger, inflight: seq<Operation>, busy: set<Operation>) {
    && (forall k, n :: n in Queue(sh.queues, k) ==> OwnedBy(n, ledger) && (n.owner in inflight || n.owner in busy))
    && (forall o <- ledger, n :: n in ledger[o] ==> n.owner == o && n in sh.wires)
    && (forall o <- inflight :: o in ledger && (o !in busy ==> AllQueued(sh.queues, ledger[o])))
    && (forall o <- ledger :: DistinctKeys(ledger[o]))
  }

  ghost predicate OwnedBy(n: Node, ledger: Ledger) {
    n.owner in ledger && n in ledger[n.owner]
  }

  ghost predicate AllQueued(queues: Queues, nodes: seq<Node>) {
    forall n <- nodes :: n in Queue(queues, n.key)
  }

  /** All of `nodes` are queued, except for `fired`. */
  ghost predicate QueuedBut(queues: Queues, nodes: seq<Node>, fired: Node?) {
    forall n <- nodes :: n == fired || n in Queue(queues, n.key)
  }

  ghost predicate Sane(sh: Shape, ledger: Ledger, inflight: seq<Operation>, busy: set<Operation>, nextSequence: nat) {
    && Formed(sh) && Registered(sh, ledger, inflight, busy) && NoRepeat(inflight)
    && (forall n <- sh.wires :: n.sequence < nextSequence)
  }

  lemma RemovedRegistered(sh: Shape, ledger: Ledger, inflight: seq<Operation>, busy: set<Operation>, n: Node)
    requires Formed(sh) && Registered(sh, ledger, inflight, busy) && n in Queue(sh.queues, n.key) && n.owner in busy
    ensures n in sh.wires && Registered(Removed(sh, n), ledger, inflight, busy)
  {
    hide Formed, Removed, Queue, DistinctKeys;
    RemovedQueues(sh, n);
    var sh' := Removed(sh, n);
    forall o <- inflight | o !in busy ensures AllQueued(sh'.queues, ledger[o]) {
      forall x <- ledger[o] ensures x in Queue(sh'.queues, x.key) {
        assert x.owner == o && x in Queue(sh.queues, x.key) && WithoutAt(sh.queues, sh'.queues, n, x.key);
      }
    }
    forall k, x | x in Queue(sh'.queues, k) ensures OwnedBy(x, ledger) && (x.owner in inflight || x.owner in busy) {
      assert WithoutAt(sh.queues, sh'.queues, n, k) && x in Queue(sh.queues, k);
    }
  }

  lemma RemovedSane(sh: Shape, ledger: Ledger, inflight: seq<Operation>, busy: set<Operation>, nextSequence: nat,
      n: Node)
    requires Sane(sh, ledger, inflight, busy, nextSequence) && n in Queue(sh.queues, n.key) && n.owner in busy
    ensures n in sh.wires && Sane(Removed(sh, n), ledger, inflight, busy, nextSequence)
  {
    hide Formed, Removed, Queue, Registered;
    RemovedFormed(sh, n);
    RemovedQueues(sh, n);
    RemovedRegistered(sh, ledger, inflight, busy, n);
  }

  lemma SaneFormed(sh: Shape, ledger: Ledger, inflight: seq<Operation>, busy: set<Operation>, nextSequence: nat)
    requires Sane(sh, ledger, inflight, busy, nextSequence)
    ensures Formed(sh)
  {
  }

  /** The wires after a removal. */
  lemma RemovedWire(sh: Shape, n: Node)
    requires Formed(sh) && n in Queue(sh.queues, n.key)
    ensures n in sh.wires
    ensures forall x <- Removed(sh, n).wires :: x in sh.wires
    ensures forall x <- sh.wires :: x in Removed(sh, n).wires && Removed(sh, n).wires[x] ==
              if x == n then Wire(null, null, false)
              else if x == sh.wires[n].prev then Ahead(sh.wires[x], sh.wires[n].next)
              else if x == sh.wires[n].next then Behind(sh.wires[x], sh.wires[n].prev)
              else sh.wires[x]
  {
    Neighbours(sh, n);
    hide Formed, Queue, Less;
  }

  /** Removing one registration leaves the others where they were. */
  lemma RemovedQueues(sh: Shape, n: Node)
    requires Formed(sh) && n in Queue(sh.queues, n.key)
    ensures n in sh.wires && Without(sh.queues, Removed(sh, n).queues, n)
    ensures forall x <- Removed(sh, n).wires :: x in sh.wires
    ensures forall x <- sh.wires :: x in Removed(sh, n).wires
  {
    assert Orderly(sh, n.key);
    var a, b := Around(Queue(sh.queues, n.key), n);
    Parts(a, n, b);
    RemovedWires(sh, a, n, b);
    forall k ensures WithoutAt(sh.queues, Removed(sh, n).queues, n, k) {
      assert Orderly(sh, k);
    }
  }

  ghost predicate Without(queues: Queues, queues': Queues, n: Node) {
    forall k :: WithoutAt(queues, queues', n, k)
  }

  ghost predicate WithoutAt(queues: Queues, queues': Queues, n: Node, k: Key) {
    && (forall x <- Queue(queues', k) :: x in Queue(queues, k) && x != n)
    && (forall x <- Queue(queues, k) :: x != n ==> x in Queue(queues', k))
  }

  /** An operation that is not in flight gets ready to be registered. */
  lemma AdmittedSane(sh: Shape, ledger: Ledger, inflight: seq<Operation>, nextSequence: nat, o: Operation)
    requires Sane(sh, ledger, inflight, {}, nextSequence) && o !in inflight
    ensures Sane(sh, ledger[o := []], inflight, {o}, nextSequence)
  {
    hide Formed, Queue;
    var ledger' := ledger[o := []];
    forall k, n | n in Queue(sh.queues, k) ensures OwnedBy(n, ledger') && n.owner in inflight {
      assert OwnedBy(n, ledger) && n.owner in inflight;
    }
  }

  /** A fully registered operation joins those in flight. */
  lemma LaunchedSane(sh: Shape, ledger: Ledger, inflight: seq<Operation>, nextSequence: nat, o: Operation)
    requires Sane(sh, ledger, inflight, {o}, nextSequence) && o !in inflight
    requires o in ledger && AllQueued(sh.queues, ledger[o])
    ensures Sane(sh, ledger, [o] + inflight, {}, nextSequence)
  {
    hide Formed, Queue;
    forall k, n | n in Queue(sh.queues, k) ensures n.owner in [o] + inflight {
      assert OwnedBy(n, ledger) && (n.owner in inflight || n.owner in {o});
    }
  }

  /** The fields of the registrations are as recorded. */
  ghost predicate Match(wires: Wires)
    reads wires.Keys
  {
    forall n <- wires :: Wire(n.prev, n.next, n.armed) == wires[n]
  }

  /** Closes a queue up over a registration and resets it. */
  method Rewire(n: Node, ghost wires: Wires, ghost wires': Wires) returns (next: Node?)
    requires Match(wires) && n in wires
    requires wires[n].prev != null ==> wires[n].prev in wires && wires[n].prev != n
    requires wires[n].next != null ==> wires[n].next in wires && wires[n].next != n && wires[n].next != wires[n].prev
    requires forall x <- wires' :: x in wires
    requires forall x <- wires :: x in wires' && wires'[x] ==
               if x == n then Wire(null, null, false)
               else if x == wires[n].prev then Ahead(wires[x], wires[n].next)
               else if x == wires[n].next then Behind(wires[x], wires[n].prev)
               else wires[x]
    modifies wires.Keys
    ensures Match(wires') && next == wires[n].next
  {
    var prev := n.prev;
    next := n.next;
    n.armed := false;
    if prev != null {
      prev.next := next;
    }
    if next != null {
      next.prev := prev;
    }
    n.prev, n.next := null, null;
  }

  /** Wires a registration behind the last one of a queue, if there is one. */
  method WireBehind(n: Node, tail: Node?, ghost wires: Wires, ghost wires': Wires)
    requires Match(wires) && n in wires && (tail != null ==> tail in wires && tail != n)
    requires forall x <- wires' :: x in wires
    requires forall x <- wires :: x in wires' && wires'[x] ==
               if x == n then Wire(tail, null, false) else if x == tail then Ahead(wires[x], n) else wires[x]
    modifies wires.Keys
    ensures Match(wires')
  {
    if tail != null {
      tail.next := n;
    }
    n.prev, n.next, n.armed := tail, null, false;
  }

  // ----- dropping an operation ----------------------------------------------------------

  /** The queue without those of `nodes` that are in it. */
  ghost function Purged(s: seq<Node>, nodes: seq<Node>): seq<Node>
    decreases |nodes|
  {
    if nodes == [] then s else Purged(Less(s, nodes[0]), nodes[1..])
  }

  /** The registrations `nodes` are gone; everything else is as it was. */
  ghost predicate Dropped(sh: Shape, sh': Shape, nodes: seq<Node>) {
    && (forall k :: Queue(sh'.queues, k) == Purged(Queue(sh.queues, k), nodes))
    && (forall n <- sh.wires :: n in sh'.wires && (n !in nodes ==> sh'.wires[n].armed == sh.wires[n].armed))
    && (forall n <- sh'.wires :: n in sh.wires)
  }

  lemma DroppedOne(sh: Shape, n: Node)
    requires Formed(sh) && n in Queue(sh.queues, n.key)
    ensures n in sh.wires && Dropped(sh, Removed(sh, n), [n])
  {
    hide Removed, Orderly, Purged;
    assert Orderly(sh, n.key);
    var a, b := Between(sh, n);
    RemovedWires(sh, a, n, b);
    forall k ensures Queue(Removed(sh, n).queues, k) == Purged(Queue(sh.queues, k), [n]) {
      PurgedOne(Queue(sh.queues, k), n);
      assert Orderly(sh, k);
      RemovedQueue(sh, n, k);
    }
  }

  lemma RemovedQueue(sh: Shape, n: Node, k: Key)
    requires Orderly(sh, k) && n in sh.wires
    ensures Queue(Removed(sh, n).queues, k) == Less(Queue(sh.queues, k), n)
  {
    if k != n.key {
      LessAbsent(Queue(sh.queues, k), n);
    }
  }

  lemma PurgedOne(s: seq<Node>, n: Node)
    ensures Purged(s, [n]) == Less(s, n)
  {
    assert [n][1..] == [];
  }

  lemma {:induction false} PurgedJoin(s: seq<Node>, a: seq<Node>, b: seq<Node>)
    ensures Purged(s, a + b) == Purged(Purged(s, a), b)
    decreases |a|
  {
    if a == [] {
      assert a + b == b;
    } else {
      assert (a + b)[1..] == a[1..] + b;
      PurgedJoin(Less(s, a[0]), a[1..], b);
    }
  }

  lemma DroppedMore(sh: Shape, sh1: Shape, sh2: Shape, a: seq<Node>, b: seq<Node>)
    requires Dropped(sh, sh1, a) && Dropped(sh1, sh2, b)
    ensures Dropped(sh, sh2, a + b)
  {
    forall k ensures Queue(sh2.queues, k) == Purged(Queue(sh.queues, k), a + b) {
      PurgedJoin(Queue(sh.queues, k), a, b);
    }
  }

  lemma DroppedNone(sh: Shape)
    ensures Dropped(sh, sh, [])
  {
  }

  /** A queue none of whose registrations is dropped. */
  lemma {:induction false} PurgedAbsent(s: seq<Node>, nodes: seq<Node>)
    requires forall n <- nodes :: n !in s
    ensures Purged(s, nodes) == s
    decreases |nodes|
  {
    if nodes != [] {
      assert nodes[0] in nodes;
      LessAbsent(s, nodes[0]);
      PurgedAbsent(s, nodes[1..]);
    }
  }

  /** Queues of keys that the dropped registrations do not have keep their heads. */
  lemma DroppedKeeps(sh: Shape, sh': Shape, nodes: seq<Node>, k: Key)
    requires Formed(sh) && Dropped(sh, sh', nodes) && forall n <- nodes :: n.key != k
    ensures Queue(sh'.queues, k) == Queue(sh.queues, k) && (HeadArmed(sh, k) <==> HeadArmed(sh', k))
  {
    var s := Queue(sh.queues, k);
    assert Orderly(sh, k);
    assert forall n <- nodes :: n !in s;
    PurgedAbsent(s, nodes);
    assert s != [] ==> s[0] in s;
  }

  lemma {:induction false} PurgedFirst(s: seq<Node>, nodes: seq<Node>)
    requires s != [] && s[0] !in nodes
    ensures Purged(s, nodes) != [] && Purged(s, nodes)[0] == s[0]
    decreases |nodes|
  {
    if nodes != [] {
      assert nodes[0] != s[0] && forall n <- nodes[1..] :: n in nodes;
      PurgedFirst(Less(s, nodes[0]), nodes[1..]);
    }
  }

  /**
   * Dropping registrations without arming anybody leaves a queue with an armed head exactly
   * when its head was not among them, or nobody is left.
   */
  lemma DroppedExactly(sh: Shape, sh': Shape, nodes: seq<Node>, k: Key)
    requires Formed(sh) && Dropped(sh, sh', nodes) && HeadArmed(sh, k)
    ensures HeadArmed(sh', k) <==> !Bereft(sh, nodes, k)
  {
    var s := Queue(sh.queues, k);
    assert Orderly(sh, k);
    PurgedMembers(s, nodes);
    if s != [] && s[0] !in nodes {
      PurgedFirst(s, nodes);
      assert s[0] in s;
    }
  }

  /** The head of the queue is dropped and somebody behind it is not. */
  ghost predicate Bereft(sh: Shape, nodes: seq<Node>, k: Key) {
    var s := Queue(sh.queues, k);
    s != [] && s[0] in nodes && Purged(s, nodes) != []
  }

  /** The operation of the head fails and somebody behind it does not. */
  ghost predicate Stranded(sh: Shape, failed: seq<Operation>, k: Key) {
    var s := Queue(sh.queues, k);
    s != [] && s[0].owner in failed && exists n <- s :: n.owner !in failed
  }

  /** No registration for a key outside `keys` became armed. */
  ghost predicate Quiet(sh: Shape, sh': Shape, keys: set<Key>) {
    forall n <- sh.wires :: n in sh'.wires && (n.key !in keys && sh'.wires[n].armed ==> sh.wires[n].armed)
  }

  lemma QuietMore(a: Shape, b: Shape, c: Shape, keys: set<Key>)
    requires Quiet(a, b, keys) && Quiet(b, c, keys)
    ensures Quiet(a, c, keys)
  {
  }

  lemma QuietNone(sh: Shape, keys: set<Key>)
    ensures Quiet(sh, sh, keys)
  {
  }

  lemma DroppedQuiet(sh: Shape, sh': Shape, nodes: seq<Node>, keys: set<Key>)
    requires Formed(sh) && Formed(sh') && Dropped(sh, sh', nodes)
    ensures Quiet(sh, sh', keys)
  {
    forall n <- sh.wires ensures n in sh'.wires && (sh'.wires[n].armed ==> sh.wires[n].armed) {
      if n in nodes {
        assert Orderly(sh, n.key);
        PurgedMembers(Queue(sh.queues, n.key), nodes);
      }
    }
  }

  /** Outside `keys` only registrations of failed operations left, and nobody became armed. */
  ghost predicate Apart(sh: Shape, sh': Shape, failed: seq<Operation>, keys: set<Key>) {
    && Quiet(sh, sh', keys)
    && (forall k :: k !in keys ==> forall n <- Queue(sh.queues, k) :: n in Queue(sh'.queues, k) || n.owner in failed)
  }

  lemma ApartNone(sh: Shape, keys: set<Key>)
    ensures Apart(sh, sh, [], keys)
  {
  }

  lemma ApartMore(a: Shape, b: Shape, c: Shape, f: seq<Operation>, g: seq<Operation>, keys: set<Key>)
    requires Apart(a, b, f, keys) && Apart(b, c, g, keys)
    ensures Apart(a, c, g + f, keys)
  {
    QuietMore(a, b, c, keys);
    hide Quiet;
  }

  lemma ApartWider(sh: Shape, sh': Shape, failed: seq<Operation>, keys: set<Key>, more: set<Key>)
    requires Apart(sh, sh', failed, keys) && keys <= more
    ensures Apart(sh, sh', failed, more)
  {
  }

  lemma StayApart(sh: Shape, sh': Shape, failed: seq<Operation>, keys: set<Key>)
    requires Stay(sh, sh', failed, []) && Quiet(sh, sh', keys)
    ensures Apart(sh, sh', failed, keys)
  {
    hide Quiet;
  }

  /** Which queues outside `keys` still have an armed head. */
  ghost predicate Exactly(sh: Shape, sh': Shape, failed: seq<Operation>, keys: set<Key>) {
    forall k :: k !in keys && HeadArmed(sh, k) ==> (HeadArmed(sh', k) <==> !Stranded(sh, failed, k))
  }

  /** The keys the registrations wait for. */
  ghost function KeysOf(nodes: seq<Node>): set<Key> {
    set n <- nodes :: n.key
  }

  /** What is left of a queue none of whose waiters became armed. */
  lemma StrandedExactly(sh: Shape, sh': Shape, failed: seq<Operation>, keys: set<Key>, k: Key)
    requires Formed(sh) && Formed(sh') && Shrunk(sh, sh') && Apart(sh, sh', failed, keys) && k !in keys
    requires (forall n <- Queue(sh'.queues, k) :: n.owner !in failed) && HeadArmed(sh, k)
    ensures HeadArmed(sh', k) <==> !Stranded(sh, failed, k)
  {
    var s, t := Queue(sh.queues, k), Queue(sh'.queues, k);
    assert Orderly(sh, k) && Orderly(sh', k);
    if s != [] && s[0].owner !in failed {
      assert s[0] in s && s[0] in t;
      var i :| 0 <= i < |t| && t[i] == s[0];
    } else if t != [] {
      assert t[0] in t && t[0] in s;
      var i :| 0 <= i < |s| && s[i] == t[0];
    }
  }

  /** Registrations with other keys stay queued. */
  lemma StillQueued(sh: Shape, n: Node, rest: seq<Node>)
    requires Formed(sh) && n in Queue(sh.queues, n.key) && AllQueued(sh.queues, rest) && n !in rest
    ensures n in sh.wires && AllQueued(Removed(sh, n).queues, rest)
  {
    hide Formed, Removed, Queue;
    RemovedQueues(sh, n);
    forall x <- rest ensures x in Queue(Removed(sh, n).queues, x.key) {
      assert WithoutAt(sh.queues, Removed(sh, n).queues, n, x.key);
    }
  }

  /** No queue holds a registration of `o`. */
  ghost predicate Absent(queues: Queues, o: Operation) {
    forall k :: forall n <- Queue(queues, k) :: n.owner != o
  }

  /** With all its registrations dropped, an operation is in no queue. */
  lemma DroppedAbsent(sh: Shape, sh': Shape, ledger: Ledger, inflight: seq<Operation>, busy: set<Operation>,
      o: Operation)
    requires Registered(sh, ledger, inflight, busy) && o in ledger && Dropped(sh, sh', ledger[o])
    requires forall k :: NoRepeat(Queue(sh.queues, k))
    ensures Absent(sh'.queues, o)
  {
    forall k ensures forall n <- Queue(sh'.queues, k) :: n.owner != o {
      PurgedMembers(Queue(sh.queues, k), ledger[o]);
    }
  }

  lemma {:induction false} PurgedMembers(s: seq<Node>, nodes: seq<Node>)
    requires NoRepeat(s)
    ensures forall n <- Purged(s, nodes) :: n in s && n !in nodes
    ensures NoRepeat(Purged(s, nodes))
    decreases |nodes|
  {
    if nodes != [] {
      LessMembers(s, nodes[0]);
      PurgedMembers(Less(s, nodes[0]), nodes[1..]);
      assert nodes == [nodes[0]] + nodes[1..];
    }
  }

  /** Operations that left `before` are in `out`, once; the others are in `after`. */
  ghost predicate Settled(before: seq<Operation>, after: seq<Operation>, out: seq<Operation>) {
    && NoRepeat(out) && (forall o <- before :: o in after || o in out)
    && (forall o <- after :: o in before && o !in out) && (forall o <- out :: o in before)
  }

  lemma SettledMore(a: seq<Operation>, b: seq<Operation>, c: seq<Operation>, out: seq<Operation>, more: seq<Operation>)
    requires Settled(a, b, out) && Settled(b, c, more)
    ensures Settled(a, c, more + out)
  {
    forall i, j | 0 <= i < j < |more + out| ensures (more + out)[i] != (more + out)[j] {
      if i < |more| <= j {
        assert more[i] in more && out[j - |more|] in out;
      }
    }
  }

  lemma SettledNone(s: seq<Operation>)
    ensures Settled(s, s, [])
  {
  }

  /** An operation that has only one registration, or none for `k`. */
  ghost predicate Harmless(nodes: seq<Node>, k: Key) {
    |nodes| == 1 || forall n <- nodes :: n.key != k
  }

  /** No operation in `failed` has several registrations, one of them for `k`. */
  ghost predicate Spares(ledger: Ledger, failed: seq<Operation>, k: Key) {
    forall o <- failed :: o in ledger && Harmless(ledger[o], k)
  }

  /** Only registrations of failed operations, or in `gone`, left their queues. */
  ghost predicate Stay(sh: Shape, sh': Shape, failed: seq<Operation>, gone: seq<Node>) {
    forall k :: forall n <- Queue(sh.queues, k) :: n in Queue(sh'.queues, k) || n.owner in failed || n in gone
  }

  lemma StayNone(sh: Shape)
    ensures Stay(sh, sh, [], [])
  {
  }

  lemma StayMore(a: Shape, b: Shape, c: Shape, f: seq<Operation>, g: seq<Operation>)
    requires Stay(a, b, f, []) && Stay(b, c, g, [])
    ensures Stay(a, c, g + f, [])
  {
  }

  lemma DroppedStay(sh: Shape, sh': Shape, nodes: seq<Node>, o: Operation)
    requires Formed(sh) && Dropped(sh, sh', nodes) && forall n <- nodes :: n.owner == o
    ensures Stay(sh, sh', [o], [])
  {
    forall k ensures forall n <- Queue(sh.queues, k) :: n in Queue(sh'.queues, k) || n.owner in [o] {
      assert Orderly(sh, k);
      PurgedRest(Queue(sh.queues, k), nodes);
    }
  }

  lemma {:induction false} PurgedRest(s: seq<Node>, nodes: seq<Node>)
    requires NoRepeat(s)
    ensures forall n <- s :: n in Purged(s, nodes) || n in nodes
    decreases |nodes|
  {
    if nodes != [] {
      LessMembers(s, nodes[0]);
      PurgedRest(Less(s, nodes[0]), nodes[1..]);
      assert nodes == [nodes[0]] + nodes[1..];
    }
  }

  /** Queues only shrink, and what was armed and is still queued is still armed. */
  ghost predicate Shrunk(sh: Shape, sh': Shape) {
    && (forall k :: forall n <- Queue(sh'.queues, k) :: n in Queue(sh.queues, k))
    && (forall n <- sh.wires ::
          n in sh'.wires && (sh.wires[n].armed && n in Queue(sh'.queues, n.key) ==> sh'.wires[n].armed))
    && (forall n <- sh'.wires :: n in sh.wires)
  }

  lemma ShrunkMore(a: Shape, b: Shape, c: Shape)
    requires Shrunk(a, b) && Shrunk(b, c)
    ensures Shrunk(a, c)
  {
  }

  lemma ShrunkNone(sh: Shape)
    ensures Shrunk(sh, sh)
  {
  }

  lemma DroppedShrunk(sh: Shape, sh': Shape, nodes: seq<Node>)
    requires Formed(sh) && Dropped(sh, sh', nodes)
    ensures Shrunk(sh, sh')
  {
    forall k ensures forall n <- Queue(sh'.queues, k) :: n in Queue(sh.queues, k) && n !in nodes {
      assert Orderly(sh, k);
      PurgedMembers(Queue(sh.queues, k), nodes);
    }
    hide Formed;
  }

  lemma PrimedShrunk(sh: Shape, n: Node)
    requires n in sh.wires
    ensures Shrunk(sh, Primed(sh, n)) && Stay(sh, Primed(sh, n), [], []) && Quiet(sh, Primed(sh, n), {n.key})
  {
  }

  /** The head of a queue fails: the next registration is the new head. */
  lemma FailedHead(sh: Shape, sh': Shape, nodes: seq<Node>, n: Node)
    requires Formed(sh) && Dropped(sh, sh', nodes) && DistinctKeys(nodes) && n in nodes
    requires Queue(sh.queues, n.key) != [] && n == Queue(sh.queues, n.key)[0]
    ensures n in sh.wires && After(sh, n) == First(Queue(sh'.queues, n.key), null)
  {
    var s := Queue(sh.queues, n.key);
    assert Orderly(sh, n.key);
    RemovedAfter(sh, n);
    var i :| 0 <= i < |nodes| && nodes[i] == n;
    PurgedAt(s, nodes, i);
    assert forall j :: 0 <= j < |nodes| && j != i ==> nodes[j] !in s;
  }

  lemma {:induction false} PurgedAt(s: seq<Node>, nodes: seq<Node>, i: nat)
    requires i < |nodes| && forall j :: 0 <= j < |nodes| && j != i ==> nodes[j] !in s
    requires NoRepeat(s)
    ensures Purged(s, nodes) == Less(s, nodes[i])
    decreases |nodes|
  {
    if i == 0 {
      LessMembers(s, nodes[0]);
      assert forall n <- nodes[1..] :: n !in s;
      PurgedAbsent(Less(s, nodes[0]), nodes[1..]);
    } else {
      LessAbsent(s, nodes[0]);
      assert forall j :: 0 <= j < |nodes| - 1 ==> nodes[1..][j] == nodes[j + 1];
      PurgedAt(s, nodes[1..], i - 1);
    }
  }

  lemma SettledOne(s: seq<Operation>, o: Operation)
    requires NoRepeat(s) && o in s
    ensures Settled(s, Less(s, o), [o])
  {
    LessMembers(s, o);
  }

  /** An operation without registrations leaves the operations in flight. */
  lemma RetiredSane(sh: Shape, ledger: Ledger, inflight: seq<Operation>, busy: set<Operation>, nextSequence: nat,
      o: Operation)
    requires Sane(sh, ledger, inflight, busy, nextSequence) && Absent(sh.queues, o)
    ensures Sane(sh, ledger[o := []], Less(inflight, o), busy - {o}, nextSequence)
  {
    hide Formed, Queue, Less, NoRepeat;
    LessMembers(inflight, o);
    var ledger', inflight', busy' := ledger[o := []], Less(inflight, o), busy - {o};
    forall k, n | n in Queue(sh.queues, k) ensures OwnedBy(n, ledger') && (n.owner in inflight' || n.owner in busy') {
      assert n.owner != o && OwnedBy(n, ledger);
    }
    forall x <- inflight' ensures x in ledger' && (x !in busy' ==> AllQueued(sh.queues, ledger'[x])) {
      assert x != o && x in inflight;
    }
  }

  // ----- registering --------------------------------------------------------------------

  /** A new registration of a busy operation, in no queue yet. */
  lemma CreatedSane(sh: Shape, ledger: Ledger, inflight: seq<Operation>, busy: set<Operation>, nextSequence: nat,
      n: Node)
    requires Sane(sh, ledger, inflight, busy, nextSequence) && n !in sh.wires && n.sequence == nextSequence
    requires n.owner in busy && n.owner in ledger && n.owner !in inflight
    requires forall x <- ledger[n.owner] :: x.key != n.key
    ensures Sane(Created(sh, n), ledger[n.owner := ledger[n.owner] + [n]], inflight, busy, nextSequence + 1)
  {
    hide Formed, Queue;
    CreatedFormed(sh, n);
    var ledger' := ledger[n.owner := ledger[n.owner] + [n]];
    forall k, x | x in Queue(sh.queues, k) ensures OwnedBy(x, ledger') {
      assert OwnedBy(x, ledger);
    }
    assert DistinctKeys(ledger[n.owner]);
    assert DistinctKeys(ledger'[n.owner]);
  }

  lemma AppendedSane(sh: Shape, ledger: Ledger, inflight: seq<Operation>, busy: set<Operation>, nextSequence: nat,
      n: Node)
    requires Sane(sh, ledger, inflight, busy, nextSequence) && OwnedBy(n, ledger) && n.owner in busy
    requires n !in Queue(sh.queues, n.key) && forall x <- Queue(sh.queues, n.key) :: x.sequence < n.sequence
    ensures Sane(Appended(sh, n), ledger, inflight, busy, nextSequence)
  {
    hide Formed, Queue, Appended;
    assert n in sh.wires;
    AppendedFormed(sh, n);
    AppendedQueues(sh, n);
    var sh' := Appended(sh, n);
    forall k, x | x in Queue(sh'.queues, k) ensures OwnedBy(x, ledger) && (x.owner in inflight || x.owner in busy) {
      assert x == n || x in Queue(sh.queues, k);
    }
    forall o <- inflight | o !in busy ensures AllQueued(sh'.queues, ledger[o]) {
      assert AllQueued(sh.queues, ledger[o]);
    }
  }

  lemma AppendedQueues(sh: Shape, n: Node)
    requires Formed(sh) && n in sh.wires
    ensures forall k :: Queue(Appended(sh, n).queues, k) == if k == n.key then Queue(sh.queues, k) + [n]
              else Queue(sh.queues, k)
    ensures forall x <- Appended(sh, n).wires :: x in sh.wires
    ensures forall x <- sh.wires :: x in Appended(sh, n).wires && Appended(sh, n).wires[x] ==
              if x == n then Wire(Last(null, Queue(sh.queues, n.key)), null, false)
              else if x == Last(null, Queue(sh.queues, n.key)) then Ahead(sh.wires[x], n)
              else sh.wires[x]
  {
    var s := Queue(sh.queues, n.key);
    assert Orderly(sh, n.key);
    assert s != [] ==> s[|s| - 1] in s;
  }

  // ----- aborting -----------------------------------------------------------------------

  ghost function Blank(wires: Wires, nodes: seq<Node>): Wires {
    map n <- wires :: if n in nodes then Wire(null, null, false) else wires[n]
  }

  /** The registrations of the operations in `left` are blank, the others as they were. */
  ghost predicate Blanked(start: Wires, wires: Wires, ledger: Ledger, left: seq<Operation>) {
    && (forall n <- start :: n in wires) && (forall n <- wires :: n in start)
    && (forall n <- start ::
          wires[n] == if n.owner in left && OwnedBy(n, ledger) then Wire(null, null, false) else start[n])
  }

  /** The operations in `left` have no registrations any more. */
  ghost predicate Unregistered(ledger: Ledger, left: seq<Operation>)
    reads ledger.Keys`nodes
  {
    forall o <- ledger :: o.nodes == if o in left then [] else ledger[o]
  }

  lemma BlankedNone(wires: Wires, ledger: Ledger)
    ensures Blanked(wires, wires, ledger, [])
  {
  }

  lemma UnregisteredNone(ledger: Ledger)
    requires forall o <- ledger :: o.nodes == ledger[o]
    ensures Unregistered(ledger, [])
  {
  }

  lemma BlankedMore(start: Wires, wires: Wires, ledger: Ledger, left: seq<Operation>, o: Operation)
    requires Blanked(start, wires, ledger, left) && o in ledger && forall n <- ledger[o] :: n.owner == o && n in start
    ensures Blanked(start, Blank(wires, ledger[o]), ledger, [o] + left) && forall n <- ledger[o] :: n in wires
  {
    var wires' := Blank(wires, ledger[o]);
    forall n <- start
      ensures wires'[n] == if n.owner in [o] + left && OwnedBy(n, ledger) then Wire(null, null, false) else start[n]
    {
      assert n.owner == o && OwnedBy(n, ledger) <==> n in ledger[o];
    }
  }

  lemma BlankKeys(wires: Wires, nodes: seq<Node>)
    ensures Blank(wires, nodes).Keys == wires.Keys
  {
  }

  /** Resets an operation with its registrations, without unlinking them. */
  method ResetOne(o: Operation, result: int, ghost ledger: Ledger, ghost left: seq<Operation>, ghost wires: Wires)
    returns (ghost wires': Wires)
    requires Match(wires) && Unregistered(ledger, left) && o in ledger
    requires o !in left && forall n <- ledger[o] :: n in wires
    modifies wires.Keys, o
    ensures wires' == Blank(wires, ledger[o]) && Match(wires') && Unregistered(ledger, [o] + left)
    ensures o.result == result
  {
    ResetNodes(o.nodes, wires);
    wires' := Blank(wires, o.nodes);
    o.nodes := [];
    o.result := result;
  }

  method ResetNodes(nodes: seq<Node>, ghost wires: Wires)
    requires Match(wires) && forall n <- nodes :: n in wires
    modifies wires.Keys
    ensures Match(Blank(wires, nodes))
  {
    for i := 0 to |nodes|
      invariant Match(Blank(wires, nodes[..i]))
    {
      var n := nodes[i];
      assert nodes[..i + 1] == nodes[..i] + [n];
      n.prev, n.next, n.armed := null, null, false;
    }
    assert nodes[..|nodes|] == nodes;
  }

  /** With every operation reset, every registration is blank. */
  lemma AllBlank(sh: Shape, wires: Wires, ledger: Ledger, all: seq<Operation>, nextSequence: nat, left: seq<Operation>)
    requires Sane(sh, ledger, all, {}, nextSequence) && Settled(all, [], left) && Blanked(sh.wires, wires, ledger, left)
    ensures wires == map n <- sh.wires :: Wire(null, null, false)
  {
    forall n <- sh.wires ensures wires[n] == Wire(null, null, false) {
      if n in Queue(sh.queues, n.key) {
        assert OwnedBy(n, ledger) && n.owner in all && n.owner in left;
      }
    }
  }

  lemma NoneRegistered(ledger: Ledger, all: seq<Operation>, left: seq<Operation>)
    requires Unregistered(ledger, left) && Settled(all, [], left) && forall o <- ledger :: o !in all ==> ledger[o] == []
    ensures forall o <- ledger :: o.nodes == []
  {
  }

  /** What a step leaves of an operation that did not fail. */
  lemma AdvancedFacts(a: Snap, b: Snap, failed: seq<Operation>, o: Operation, gone: seq<Node>)
    requires Advanced(a, b, failed) && o in a.ledger && o !in failed
    requires forall n <- gone :: n !in Queue(a.shape.queues, n.key)
    ensures b.ledger.Keys == a.ledger.Keys && b.ledger[o] == a.ledger[o] && (o in a.inflight ==> o in b.inflight)
    ensures forall n <- gone :: n !in Queue(b.shape.queues, n.key)
  {
  }

  datatype Event = Event(operation: Operation, filter: Filter, result: int)

  /** The registrations for a filter are armed. */
  ghost predicate Armed(sh: Shape, nodes: seq<Node>, filter: Filter) {
    forall n <- nodes :: n.key.filter == filter ==> n in sh.wires && sh.wires[n].armed
  }

  /** An operation that did not fail keeps its registrations, and its place in flight. */
  lemma AdvancedGoes(a: Snap, b: Snap, out: seq<Operation>, o: Operation)
    requires Advanced(a, b, out) && o in a.ledger && o !in b.inflight
    ensures o in out || (o !in a.inflight && b.ledger[o] == a.ledger[o])
  {
  }

  lemma AdvancedGone(a: Snap, b: Snap, failed: seq<Operation>, n: Node?)
    requires Advanced(a, b, failed)
    ensures n != null && n !in Queue(a.shape.queues, n.key) ==> n !in Queue(b.shape.queues, n.key)
  {
  }

  lemma OneQueued(queues: Queues, nodes: seq<Node>, n: Node)
    requires AllQueued(queues, nodes) && n in nodes
    ensures n in Queue(queues, n.key)
  {
  }

  lemma NextQueued(queues: Queues, nodes: seq<Node>, i: nat, fired: Node?)
    requires i < |nodes| && QueuedBut(queues, nodes[i..], fired)
    ensures nodes[i] != fired ==> nodes[i] in Queue(queues, nodes[i].key)
    ensures QueuedBut(queues, nodes[i + 1..], fired)
  {
    assert nodes[i] == nodes[i..][0];
    assert forall n <- nodes[i + 1..] :: n in nodes[i..];
  }

  /** After the fired registration is released the others are still queued. */
  lemma ReleasedRest(sh: Shape, sh': Shape, failed: seq<Operation>, nodes: seq<Node>, fired: Node, o: Operation)
    requires Stay(sh, sh', failed, [fired]) && AllQueued(sh.queues, nodes)
    requires o !in failed && forall n <- nodes :: n.owner == o
    ensures QueuedBut(sh'.queues, nodes, fired)
  {
    forall n <- nodes | n != fired ensures n in Queue(sh'.queues, n.key) {
      assert n in Queue(sh.queues, n.key);
    }
  }

  lemma RetireFacts(a: Snap, b: Snap, c: Snap, failed: seq<Operation>, o: Operation)
    requires Advanced(a, b, failed) && Keeps(a, b, failed) && o !in failed
    requires c.shape == b.shape && Settled(b.inflight, c.inflight, [o])
    requires c.ledger == b.ledger[o := []] && o in b.ledger
    ensures Advanced(a, c, [o] + failed) && Keeps(a, c, failed)
  {
    hide Shrunk, Settled;
    SettledMore(a.inflight, b.inflight, c.inflight, failed, [o]);
    OutlivedMore(a.ledger, b.ledger, failed, o);
  }

  lemma AdvancedNone(a: Snap)
    ensures Advanced(a, a, []) && Keeps(a, a, [])
  {
    SettledNone(a.inflight);
    ShrunkNone(a.shape);
    OutlivedNone(a.ledger);
  }

  /** The registrations of `o` behind position `i` are untouched by failures of others. */
  lemma StillThere(sh: Shape, sh': Shape, failed: seq<Operation>, nodes: seq<Node>, i: nat, o: Operation, fired: Node?)
    requires i < |nodes| && Stay(sh, sh', failed, [nodes[i]]) && QueuedBut(sh.queues, nodes[i + 1..], fired)
    requires o !in failed && (forall n <- nodes :: n.owner == o)
    requires forall x, y :: 0 <= x < y < |nodes| ==> nodes[x] != nodes[y]
    ensures QueuedBut(sh'.queues, nodes[i + 1..], fired)
  {
    forall n <- nodes[i + 1..] | n != fired ensures n in Queue(sh'.queues, n.key) {
      var j :| 0 <= j < |nodes[i + 1..]| && nodes[i + 1..][j] == n;
      assert n == nodes[i + 1 + j] && n in nodes && n in Queue(sh.queues, n.key);
    }
  }

  lemma SettledFirst(s: seq<Operation>)
    requires NoRepeat(s) && s != []
    ensures Settled(s, s[1..], [s[0]]) && NoRepeat(s[1..])
  {
    assert s == [s[0]] + s[1..];
    assert forall i :: 0 < i < |s| ==> s[i] == s[1..][i - 1];
  }

  lemma KnownNodes(sh: Shape, ledger: Ledger, inflight: seq<Operation>, nextSequence: nat, o: Operation)
    requires Sane(sh, ledger, inflight, {}, nextSequence) && o in inflight
    ensures o in ledger && forall n <- ledger[o] :: n.owner == o && n in sh.wires
  {
  }

  /** Nothing registered, nothing in flight. */
  lemma EmptySane(sh: Shape, ledger: Ledger, inflight: seq<Operation>, nextSequence: nat)
    requires Sane(sh, ledger, inflight, {}, nextSequence)
    ensures Sane(Shape(map[], map n <- sh.wires :: Wire(null, null, false)),
                 map o <- ledger :: [], [], {}, nextSequence)
  {
    var sh' := Shape(map[], map n <- sh.wires :: Wire(null, null, false));
    forall k ensures Orderly(sh', k) {
    }
  }

  /** Everybody queued is in flight and was registered before `base`. */
  ghost predicate Waits(queues: Queues, inflight: seq<Operation>, base: nat) {
    forall k :: forall n <- Queue(queues, k) :: n.owner in inflight && n.sequence < base
  }

  /** The first `i` of `nodes` are at the ends of their queues. */
  ghost predicate Joining(start: Queues, queues: Queues, nodes: seq<Node>, i: nat) {
    forall k :: JoiningAt(start, queues, nodes, i, k)
  }

  ghost predicate JoiningAt(start: Queues, queues: Queues, nodes: seq<Node>, i: nat, k: Key) {
    && ((forall j :: 0 <= j < i && j < |nodes| ==> nodes[j].key != k) ==> Queue(queues, k) == Queue(start, k))
    && (forall j :: 0 <= j < i && j < |nodes| && nodes[j].key == k ==> Queue(queues, k) == Queue(start, k) + [nodes[j]])
  }

  /** New registrations are in no queue. */
  lemma Unqueued(sh: Shape, nodes: seq<Node>)
    requires Formed(sh) && forall n <- nodes :: n !in sh.wires
    ensures Joining(sh.queues, sh.queues, nodes, 0) && forall n <- nodes :: n !in Queue(sh.queues, n.key)
  {
    forall n <- nodes ensures n !in Queue(sh.queues, n.key) {
      assert Orderly(sh, n.key);
    }
  }

  lemma Appendable(start: Queues, queues: Queues, inflight: seq<Operation>, nodes: seq<Node>, i: nat, base: nat)
    requires Waits(start, inflight, base) && Joining(start, queues, nodes, i)
    requires i < |nodes| && nodes[i].sequence >= base
    requires forall x, y :: 0 <= x < y < |nodes| ==> nodes[x].key != nodes[y].key
    ensures forall n <- Queue(queues, nodes[i].key) :: n.owner in inflight && n.sequence < nodes[i].sequence
    ensures Queue(queues, nodes[i].key) == Queue(start, nodes[i].key)
  {
    assert JoiningAt(start, queues, nodes, i, nodes[i].key);
  }

  lemma JoiningMore(start: Queues, before: Queues, after: Queues, nodes: seq<Node>, i: nat)
    requires Joining(start, before, nodes, i) && i < |nodes|
    requires forall x, y :: 0 <= x < y < |nodes| ==> nodes[x].key != nodes[y].key
    requires forall k :: Queue(after, k) == if k == nodes[i].key then Queue(before, k) + [nodes[i]]
              else Queue(before, k)
    requires forall n <- nodes[i..] :: n !in Queue(before, n.key)
    ensures Joining(start, after, nodes, i + 1) && forall n <- nodes[i + 1..] :: n !in Queue(after, n.key)
  {
    hide Queue;
    var m := i + 1;
    forall k ensures JoiningAt(start, after, nodes, m, k) {
      assert JoiningAt(start, before, nodes, i, k);
    }
    forall n <- nodes[i + 1..] ensures n !in Queue(after, n.key) {
      var j :| 0 <= j < |nodes[i + 1..]| && nodes[i + 1..][j] == n;
      assert n == nodes[i + 1 + j] && n == nodes[i..][j + 1];
    }
  }

  lemma JoiningAll(start: Queues, queues: Queues, nodes: seq<Node>, i: nat)
    requires Joining(start, queues, nodes, i) && i <= |nodes|
    ensures QueuedBut(queues, nodes[..i], null) && forall n <- nodes[..i] :: Last(null, Queue(queues, n.key)) == n
    ensures i == |nodes| ==> nodes[..i] == nodes && AllQueued(queues, nodes)
  {
    hide Queue;
    forall n <- nodes[..i] ensures n in Queue(queues, n.key) && Last(null, Queue(queues, n.key)) == n {
      var j :| 0 <= j < |nodes[..i]| && nodes[..i][j] == n;
      assert nodes[j] == n && JoiningAt(start, queues, nodes, i, n.key);
    }
  }

  lemma CreatedHeads(sh: Shape, n: Node)
    requires Formed(sh) && n !in sh.wires
    ensures Created(sh, n).queues == sh.queues && forall k :: HeadArmed(sh, k) ==> HeadArmed(Created(sh, n), k)
  {
    CreatedFormed(sh, n);
  }

  lemma NewHead(sh: Shape, n: Node)
    requires Formed(sh) && n in sh.wires && Queue(sh.queues, n.key) == []
    ensures Queue(Appended(sh, n).queues, n.key) == [n]
    ensures forall k :: k != n.key && HeadArmed(sh, k) ==> HeadArmed(Appended(sh, n), k)
  {
    AppendedFormed(sh, n);
    AppendedQueues(sh, n);
  }

  lemma OldHead(sh: Shape, n: Node)
    requires Formed(sh) && n in sh.wires && Queue(sh.queues, n.key) != [] && n !in Queue(sh.queues, n.key)
    requires forall x <- Queue(sh.queues, n.key) :: x.sequence < n.sequence
    ensures forall k :: HeadArmed(sh, k) ==> HeadArmed(Appended(sh, n), k)
  {
    AppendedFormed(sh, n);
  }

  // ----- results --------------------------------------------------------------------------

  type Results = map<Operation, int>

  /** Failed operations have an error, and no other result changed. */
  ghost predicate Blamed(before: Results, after: Results, failed: seq<Operation>) {
    forall o <- before :: o in after && if o in failed then after[o] < 0 else after[o] == before[o]
  }

  lemma BlamedNone(results: Results)
    ensures Blamed(results, results, [])
  {
  }

  lemma BlamedMore(a: Results, b: Results, c: Results, f: seq<Operation>, g: seq<Operation>)
    requires Blamed(a, b, f) && Blamed(b, c, g)
    ensures Blamed(a, c, g + f)
  {
  }

  lemma BlamedOne(results: Results, o: Operation, result: int)
    requires result < 0
    ensures Blamed(results, results[o := result], [o])
  {
  }

  /** One more operation completes with its own result. */
  lemma BlamedDone(a: Results, b: Results, c: Results, f: seq<Operation>, g: seq<Operation>, o: Operation, result: int)
    requires Blamed(a, b, f) && Blamed(b[o := result], c, g) && o !in f
    ensures Blamed(a[o := result], c, g + f)
  {
  }

  /** An operation that did not fail completes. */
  lemma BlamedPut(a: Results, b: Results, failed: seq<Operation>, o: Operation, result: int)
    requires Blamed(a, b, failed) && o !in failed
    ensures Blamed(a[o := result], b[o := result], failed)
  {
  }

  /** Some event is for the operation, with this result. */
  ghost predicate Reports(events: seq<Event>, o: Operation, result: int) {
    exists e <- events :: e.operation == o && e.result == result
  }

  /** What a step of the poller may change. */
  datatype Snap = Snap(shape: Shape, ledger: Ledger, inflight: seq<Operation>)

  /** Exactly the failed operations left, with their registrations, and nothing was disarmed. */
  ghost predicate Advanced(a: Snap, b: Snap, failed: seq<Operation>) {
    && Settled(a.inflight, b.inflight, failed) && Shrunk(a.shape, b.shape)
    && Outlived(a.ledger, b.ledger, failed) && b.ledger.Keys == a.ledger.Keys
  }

  /** Queues in which no failed operation was registered keep an armed head. */
  ghost predicate Keeps(a: Snap, b: Snap, failed: seq<Operation>) {
    forall k :: Spares(a.ledger, failed, k) && HeadArmed(a.shape, k) ==> HeadArmed(b.shape, k)
  }

  /** Operations in the queue of `k` failed, without arming anybody who waits for another key. */
  ghost predicate Failing(a: Snap, b: Snap, failed: seq<Operation>, k: Key) {
    && Advanced(a, b, failed) && Stay(a.shape, b.shape, failed, []) && Quiet(a.shape, b.shape, {k})
    && (forall other :: other != k && Spares(a.ledger, failed, other) && HeadArmed(a.shape, other) ==>
          HeadArmed(b.shape, other))
  }

  lemma FailingNone(a: Snap, k: Key)
    ensures Failing(a, a, [], k)
  {
    AdvancedNone(a);
    StayNone(a.shape);
    QuietNone(a.shape, {k});
  }

  lemma FailingArmed(a: Snap, b: Snap, n: Node)
    requires n in a.shape.wires && b == a.(shape := Primed(a.shape, n))
    requires forall k :: HeadArmed(a.shape, k) ==> HeadArmed(b.shape, k)
    ensures Failing(a, b, [], n.key)
  {
    hide HeadArmed;
    AdvancedNone(a);
    PrimedShrunk(a.shape, n);
  }

  lemma FailingMore(a: Snap, b: Snap, c: Snap, f: seq<Operation>, g: seq<Operation>, k: Key)
    requires Failing(a, b, f, k) && Failing(b, c, g, k) && forall o <- b.inflight :: o in b.ledger
    ensures Failing(a, c, g + f, k)
  {
    hide HeadArmed, Quiet, Stay, Harmless, Shrunk;
    AdvancedMore(a, b, c, f, g);
    StayMore(a.shape, b.shape, c.shape, f, g);
    QuietMore(a.shape, b.shape, c.shape, {k});
    forall other | other != k && Spares(a.ledger, g + f, other) && HeadArmed(a.shape, other)
      ensures HeadArmed(c.shape, other)
    {
      assert forall o <- f :: o in g + f;
      assert Spares(a.ledger, f, other);
      forall o <- g ensures o in b.ledger && Harmless(b.ledger[o], other) {
        assert o in g + f && o in b.inflight && o !in f;
      }
      assert Spares(b.ledger, g, other);
    }
  }

  lemma AdvancedMore(a: Snap, b: Snap, c: Snap, f: seq<Operation>, g: seq<Operation>)
    requires Advanced(a, b, f) && Advanced(b, c, g)
    ensures Advanced(a, c, g + f)
  {
    SettledMore(a.inflight, b.inflight, c.inflight, f, g);
    ShrunkMore(a.shape, b.shape, c.shape);
    hide Settled, Shrunk;
  }

  lemma KeepsMore(a: Snap, b: Snap, c: Snap, left: seq<Operation>, f: seq<Operation>, g: seq<Operation>)
    requires Advanced(a, b, left) && Keeps(a, b, f) && Keeps(b, c, g)
    requires (forall o <- b.inflight :: o in b.ledger) && (forall o <- g :: o in b.inflight)
    ensures Keeps(a, c, g + f)
  {
    hide HeadArmed, Shrunk, Harmless;
    forall k | Spares(a.ledger, g + f, k) && HeadArmed(a.shape, k) ensures HeadArmed(c.shape, k) {
      assert forall o <- f :: o in g + f;
      assert Spares(a.ledger, f, k);
      forall o <- g ensures o in b.ledger && Harmless(b.ledger[o], k) {
        assert o in g + f && o in b.inflight && o !in left;
      }
      assert Spares(b.ledger, g, k);
    }
  }

  lemma AdvancedOut(a: Snap, b: Snap, failed: seq<Operation>)
    requires Advanced(a, b, failed)
    ensures Settled(a.inflight, b.inflight, failed) && (forall o <- failed :: o in a.inflight)
    ensures forall o <- b.inflight :: o in a.inflight && o !in failed
    ensures b.ledger.Keys == a.ledger.Keys
  {
  }

  /** Nobody leaves twice. */
  lemma LeftOnce(a: Snap, b: Snap, c: Snap, left: seq<Operation>, f: seq<Operation>, o: Operation)
    requires Advanced(a, b, left) && Advanced(b, c, [o] + f)
    ensures o !in left && forall x <- f :: x !in left
  {
    assert forall x <- f :: x in [o] + f;
    assert o in [o] + f;
  }

  /**
   * A batch of events so far: `left` completed, those in `failed` with an error of their own and
   * those in `reported` with the result of an event; nothing else changed outside `keys`.
   */
  ghost predicate Batched(a: Snap, b: Snap, before: Results, after: Results, events: seq<Event>,
                          left: seq<Operation>, failed: seq<Operation>, reported: Results, keys: set<Key>) {
    && Advanced(a, b, left) && Keeps(a, b, failed) && Apart(a.shape, b.shape, failed, keys)
    && Blamed(before + reported, after, failed)
    && (forall o <- failed :: o in left)
    && (forall o <- reported :: o in left && o !in failed && Reports(events, o, reported[o]))
    && (forall o <- left :: o in failed || o in reported)
  }

  lemma BatchedNone(a: Snap, results: Results, events: seq<Event>, keys: set<Key>)
    ensures Batched(a, a, results, results, events, [], [], map[], keys)
  {
    AdvancedNone(a);
    ApartNone(a.shape, keys);
    BlamedNone(results);
    assert results + map[] == results;
  }

  lemma BatchedMore(a: Snap, b: Snap, c: Snap, r0: Results, r: Results, r': Results, events: seq<Event>, i: nat,
                    left: seq<Operation>, failed: seq<Operation>, f: seq<Operation>, reported: Results)
    requires i < |events| && events[i].operation in a.ledger && events[i].operation in b.inflight
    requires Batched(a, b, r0, r, events, left, failed, reported, EventKeys(events, a.ledger))
    requires var o := events[i].operation;
             && Advanced(b, c, [o] + f) && Keeps(b, c, f) && o in b.ledger && o !in f
             && Apart(b.shape, c.shape, f, KeysOf(b.ledger[o])) && Blamed(r[o := events[i].result], r', f)
    requires forall x <- b.inflight :: x in b.ledger
    ensures var o := events[i].operation;
            Batched(a, c, r0, r', events, [o] + f + left, f + failed, reported[o := events[i].result],
                    EventKeys(events, a.ledger))
  {
    hide Advanced, Keeps, Apart, Blamed, Reports, EventKeys, KeysOf;
    var e := events[i];
    var o, keys := e.operation, EventKeys(events, a.ledger);
    LeftOnce(a, b, c, left, f, o);
    AdvancedMore(a, b, c, left, [o] + f);
    AdvancedOut(b, c, [o] + f);
    KeepsMore(a, b, c, left, failed, f);
    AdvancedLedger(a, b, left, o);
    EventKeysOf(events, a.ledger, i);
    ApartWider(b.shape, c.shape, f, KeysOf(b.ledger[o]), keys);
    ApartMore(a.shape, b.shape, c.shape, failed, f, keys);
    BlamedDone(r0 + reported, r, r', failed, f, o, e.result);
    assert (r0 + reported)[o := e.result] == r0 + reported[o := e.result];
    EventReports(events, i);
  }

  lemma BatchedLedger(a: Snap, b: Snap, left: seq<Operation>, o: Operation, before: Results, after: Results,
                      events: seq<Event>, failed: seq<Operation>, reported: Results, keys: set<Key>)
    requires Batched(a, b, before, after, events, left, failed, reported, keys) && o in a.ledger
    ensures b.ledger.Keys == a.ledger.Keys && (o in b.inflight ==> b.ledger[o] == a.ledger[o])
    ensures o in left ==> b.ledger[o] == []
  {
    AdvancedLedger(a, b, left, o);
  }

  lemma EventReports(events: seq<Event>, i: nat)
    requires i < |events|
    ensures Reports(events, events[i].operation, events[i].result)
  {
    assert events[i] in events;
  }

  /** What is still in flight has its registrations. */
  lemma AdvancedLedger(a: Snap, b: Snap, left: seq<Operation>, o: Operation)
    requires Advanced(a, b, left) && o in a.ledger
    ensures o in b.inflight ==> b.ledger[o] == a.ledger[o]
    ensures o in left ==> b.ledger[o] == []
  {
  }

  /** A registration that was armed still is, unless its operation is gone. */
  lemma StillArmed(a: Snap, b: Snap, out: seq<Operation>, o: Operation, filter: Filter)
    requires Advanced(a, b, out) && o in a.ledger && Armed(a.shape, a.ledger[o], filter)
    requires o !in a.inflight ==> a.ledger[o] == []
    requires forall x <- b.inflight :: x in b.ledger && AllQueued(b.shape.queues, b.ledger[x])
    ensures o in b.ledger && Armed(b.shape, b.ledger[o], filter)
  {
    if o in b.inflight {
      AdvancedLedger(a, b, out, o);
    }
  }

  /** The facts needed to release a registration of the only busy operation. */
  lemma Releasable(sh: Shape, ledger: Ledger, inflight: seq<Operation>, busy: set<Operation>, nextSequence: nat,
      n: Node)
    requires Sane(sh, ledger, inflight, busy, nextSequence) && busy == {n.owner} && n in Queue(sh.queues, n.key)
    ensures n in sh.wires && Formed(sh) && forall x <- Removed(sh, n).wires :: x in sh.wires
    ensures sh.wires[n].armed ==> Queue(sh.queues, n.key) != [] && n == Queue(sh.queues, n.key)[0]
    ensures sh.wires[n].armed ==> After(sh, n) == First(Queue(Removed(sh, n).queues, n.key), null)
    ensures forall x <- Queue(Removed(sh, n).queues, n.key) :: x.owner !in busy
  {
    assert Orderly(sh, n.key);
    RemovedQueues(sh, n);
    if sh.wires[n].armed {
      RemovedAfter(sh, n);
    }
    forall x <- Queue(Removed(sh, n).queues, n.key) ensures x.owner !in busy {
      assert WithoutAt(sh.queues, Removed(sh, n).queues, n, n.key);
      assert x in Queue(sh.queues, n.key) && x.key == n.key && x != n;
      assert OwnedBy(x, ledger) && OwnedBy(n, ledger);
      assert DistinctKeys(ledger[n.owner]);
    }
  }

  lemma ReleaseFacts(a: Snap, d: Snap, c: Snap, failed: seq<Operation>, n: Node, wasArmed: bool)
    requires Formed(a.shape) && n in Queue(a.shape.queues, n.key) && n in a.shape.wires
    requires d.shape == Removed(a.shape, n) && d.ledger == a.ledger && d.inflight == a.inflight
    requires wasArmed == a.shape.wires[n].armed && Failing(d, c, failed, n.key)
    requires if wasArmed then HeadArmed(c.shape, n.key) else c == d
    ensures Advanced(a, c, failed) && Keeps(a, c, failed) && n !in Queue(c.shape.queues, n.key)
    ensures Stay(a.shape, c.shape, failed, [n])
  {
    assert Stay(a.shape, c.shape, failed, [n]) by {
      RemovedQueues(a.shape, n);
      forall k
        ensures forall x <- Queue(a.shape.queues, k) ::
                  x in Queue(c.shape.queues, k) || x.owner in failed || x in [n]
      {
        assert WithoutAt(a.shape.queues, d.shape.queues, n, k);
      }
    }
    hide Formed, Queue, Removed, Settled, Outlived, Spares, Dropped;
    RemovedQueues(a.shape, n);
    RemovedFormed(a.shape, n);
    DroppedOne(a.shape, n);
    DroppedShrunk(a.shape, d.shape, [n]);
    ShrunkMore(a.shape, d.shape, c.shape);
    assert WithoutAt(a.shape.queues, d.shape.queues, n, n.key);
    if !wasArmed && HeadArmed(a.shape, n.key) {
      DroppedHead(a.shape, n);
    }
  }

  /** A release touches only the queue of its key, apart from failures, and that one stays armed. */
  lemma ReleaseApart(a: Shape, d: Shape, c: Shape, failed: seq<Operation>, n: Node, wasArmed: bool)
    requires Formed(a) && Formed(d) && n in Queue(a.queues, n.key) && n in a.wires && d == Removed(a, n)
    requires Apart(d, c, failed, {n.key}) && wasArmed == a.wires[n].armed
    requires if wasArmed then HeadArmed(c, n.key) else c == d
    ensures Apart(a, c, failed, {n.key}) && (HeadArmed(a, n.key) ==> HeadArmed(c, n.key))
  {
    hide Formed, Removed, Quiet, HeadArmed;
    DroppedOne(a, n);
    DroppedQuiet(a, d, [n], {n.key});
    forall k | k != n.key ensures Queue(d.queues, k) == Queue(a.queues, k) {
      DroppedKeeps(a, d, [n], k);
    }
    assert Apart(a, d, [], {n.key});
    ApartMore(a, d, c, [], failed, {n.key});
    assert failed + [] == failed;
    if !wasArmed && HeadArmed(a, n.key) {
      DroppedHead(a, n);
      NotHead(a, n);
    }
  }

  lemma NotHead(sh: Shape, n: Node)
    requires HeadArmed(sh, n.key) && n in Queue(sh.queues, n.key) && n in sh.wires && !sh.wires[n].armed
    ensures Queue(sh.queues, n.key)[0] != n
  {
  }

  /** Only the registrations of failed operations are forgotten. */
  ghost predicate Outlived(ledger: Ledger, ledger': Ledger, failed: seq<Operation>) {
    forall o <- ledger :: o in ledger' && (if o in failed then ledger'[o] == [] else ledger'[o] == ledger[o])
  }

  lemma OutlivedNone(ledger: Ledger)
    ensures Outlived(ledger, ledger, [])
  {
  }

  lemma OutlivedMore(start: Ledger, ledger: Ledger, failed: seq<Operation>, o: Operation)
    requires Outlived(start, ledger, failed)
    ensures Outlived(start, ledger[o := []], [o] + failed)
  {
  }

  lemma SettledIn(before: seq<Operation>, after: seq<Operation>, out: seq<Operation>, o: Operation)
    requires Settled(before, after, out) && o in after
    ensures o in before && o !in out
  {
  }

  lemma EmptyArmed(sh: Shape, k: Key)
    ensures First(Queue(sh.queues, k), null) == null ==> HeadArmed(sh, k)
  {
  }

  lemma PrimedSane(sh: Shape, ledger: Ledger, inflight: seq<Operation>, busy: set<Operation>, nextSequence: nat,
      n: Node)
    requires Sane(sh, ledger, inflight, busy, nextSequence)
    requires Queue(sh.queues, n.key) != [] && n == Queue(sh.queues, n.key)[0]
    ensures n in sh.wires && Sane(Primed(sh, n), ledger, inflight, busy, nextSequence)
    ensures HeadArmed(Primed(sh, n), n.key)
    ensures forall k :: HeadArmed(sh, k) ==> HeadArmed(Primed(sh, n), k)
  {
    hide Formed, HeadArmed;
    PrimedFormed(sh, n);
  }

  /** The head of a queue and its operation, which is in flight. */
  lemma HeadNode(sh: Shape, ledger: Ledger, inflight: seq<Operation>, busy: set<Operation>, nextSequence: nat, k: Key,
      n: Node)
    requires Sane(sh, ledger, inflight, busy, nextSequence) && n == First(Queue(sh.queues, k), null)
    requires forall x <- Queue(sh.queues, k) :: x.owner !in busy
    ensures n.key == k && Queue(sh.queues, k) != [] && n == Queue(sh.queues, k)[0]
    ensures n in sh.wires && n.owner in inflight && n.owner in ledger && n in ledger[n.owner] && n.owner !in busy
  {
    assert Orderly(sh, k);
    assert n in Queue(sh.queues, k);
    assert OwnedBy(n, ledger);
  }

  lemma FailureFacts(sh: Shape, sh': Shape, ledger: Ledger, inflight: seq<Operation>, busy: set<Operation>,
      nextSequence: nat, o: Operation, n: Node)
    requires Sane(sh, ledger, inflight, busy, nextSequence) && o in ledger && Dropped(sh, sh', ledger[o])
    requires n in ledger[o] && Queue(sh.queues, n.key) != [] && n == Queue(sh.queues, n.key)[0]
    ensures n in sh.wires && After(sh, n) == First(Queue(sh'.queues, n.key), null) && Shrunk(sh, sh')
    ensures forall k :: k != n.key && Harmless(ledger[o], k) && HeadArmed(sh, k) ==> HeadArmed(sh', k)
    ensures forall x <- Queue(sh'.queues, n.key) :: x in Queue(sh.queues, n.key)
    ensures Stay(sh, sh', [o], [])
    ensures Formed(sh') ==> forall keys :: Quiet(sh, sh', keys)
  {
    assert DistinctKeys(ledger[o]);
    hide Formed, HeadArmed, Dropped, Quiet;
    forall keys | Formed(sh') ensures Quiet(sh, sh', keys) {
      DroppedQuiet(sh, sh', ledger[o], keys);
    }
    DroppedStay(sh, sh', ledger[o], o);
    FailedHead(sh, sh', ledger[o], n);
    DroppedShrunk(sh, sh', ledger[o]);
    forall k | k != n.key && Harmless(ledger[o], k) && HeadArmed(sh, k) ensures HeadArmed(sh', k) {
      assert |ledger[o]| == 1 ==> ledger[o] == [n];
      DroppedKeeps(sh, sh', ledger[o], k);
    }
  }

  lemma SaneSimple(sh: Shape, ledger: Ledger, inflight: seq<Operation>, busy: set<Operation>, nextSequence: nat)
    requires Sane(sh, ledger, inflight, busy, nextSequence)
    ensures NoRepeat(inflight) && Formed(sh)
  {
  }

  /** An operation in flight may become busy. */
  lemma BusySane(sh: Shape, ledger: Ledger, inflight: seq<Operation>, busy: set<Operation>, nextSequence: nat,
      o: Operation)
    requires Sane(sh, ledger, inflight, busy, nextSequence) && o in inflight && o !in busy
    ensures o in ledger && AllQueued(sh.queues, ledger[o]) && Sane(sh, ledger, inflight, busy + {o}, nextSequence)
  {
    hide Formed, Queue;
  }

  lemma FirstQueued(queues: Queues, nodes: seq<Node>, i: nat)
    requires i < |nodes| && AllQueued(queues, nodes[i..])
    ensures nodes[i] in Queue(queues, nodes[i].key) && AllQueued(queues, nodes[i + 1..])
  {
    assert nodes[i] == nodes[i..][0];
    assert forall n <- nodes[i + 1..] :: n in nodes[i..];
  }

  lemma SaneNodes(sh: Shape, ledger: Ledger, inflight: seq<Operation>, busy: set<Operation>, nextSequence: nat,
      o: Operation)
    requires Sane(sh, ledger, inflight, busy, nextSequence) && o in ledger
    ensures forall n <- ledger[o] :: n.owner == o
    ensures forall i, j :: 0 <= i < j < |ledger[o]| ==>
              ledger[o][i] != ledger[o][j] && ledger[o][i].key != ledger[o][j].key
  {
    assert DistinctKeys(ledger[o]);
  }

  lemma SaneAbsent(sh: Shape, sh': Shape, ledger: Ledger, inflight: seq<Operation>, busy: set<Operation>,
      nextSequence: nat, o: Operation)
    requires Sane(sh, ledger, inflight, busy, nextSequence) && o in ledger && Dropped(sh, sh', ledger[o])
    ensures Absent(sh'.queues, o)
  {
    forall k ensures NoRepeat(Queue(sh.queues, k)) {
      assert Orderly(sh, k);
    }
    hide Formed, Dropped;
    DroppedAbsent(sh, sh', ledger, inflight, busy, o);
  }

  /** If only operations with a single registration fail, every queue keeps an armed head. */
  lemma SingleKeeps(a: Snap, b: Snap, failed: seq<Operation>)
    requires Keeps(a, b, failed) && (forall k :: HeadArmed(a.shape, k))
    requires forall o <- failed :: o in a.ledger && |a.ledger[o]| == 1
    ensures forall k :: HeadArmed(b.shape, k)
  {
    forall k ensures HeadArmed(b.shape, k) {
      assert Spares(a.ledger, failed, k);
    }
  }

  lemma SingleSpares(a: Snap, failed: seq<Operation>)
    requires forall o <- failed :: o in a.ledger && |a.ledger[o]| == 1
    ensures forall k :: Spares(a.ledger, failed, k)
  {
  }

  /** A step in which only operations with a single registration fail. */
  lemma SingleSteps(a: Snap, b: Snap, left: seq<Operation>, failed: seq<Operation>)
    requires Advanced(a, b, left) && Keeps(a, b, failed)
    requires (forall o <- failed :: o in left) && (forall k :: HeadArmed(a.shape, k))
    requires forall o <- a.inflight :: o in a.ledger && |a.ledger[o]| == 1
    ensures forall k :: HeadArmed(b.shape, k)
    ensures forall o <- b.inflight :: o in b.ledger && |b.ledger[o]| == 1
  {
    hide HeadArmed, Keeps;
    SingleKeeps(a, b, failed);
  }

  /** Only the queues matter for the heads. */
  lemma KeepsShape(a: Snap, b: Snap, failed: seq<Operation>)
    requires Keeps(a, b, failed)
    ensures forall l, i :: Keeps(a, Snap(b.shape, l, i), failed)
  {
  }

  /** An undone registration harms only what its failures harm. */
  lemma UndoneFacts(a: Snap, joined: Snap, b: Snap, failed: seq<Operation>, o: Operation)
    requires Keeps(joined, b, failed) && Settled(joined.inflight, b.inflight, failed)
    requires joined.inflight == a.inflight && o !in a.inflight
    requires forall x <- a.ledger :: x != o ==> x in joined.ledger && joined.ledger[x] == a.ledger[x]
    requires forall k :: HeadArmed(a.shape, k) ==> HeadArmed(joined.shape, k)
    ensures forall k :: Spares(a.ledger, failed, k) && HeadArmed(a.shape, k) ==> HeadArmed(b.shape, k)
  {
    hide HeadArmed, Harmless;
    forall k | Spares(a.ledger, failed, k) && HeadArmed(a.shape, k) ensures HeadArmed(b.shape, k) {
      assert Spares(joined.ledger, failed, k);
    }
  }

  /** Registrations at the ends of queues for `keys` change nothing about the others. */
  lemma JoinedExactly(a: Shape, joined: Shape, b: Shape, failed: seq<Operation>, nodes: seq<Node>, i: nat)
    requires Joining(a.queues, joined.queues, nodes, i) && Exactly(joined, b, failed, KeysOf(nodes))
    requires forall k :: HeadArmed(a, k) ==> HeadArmed(joined, k)
    ensures Exactly(a, b, failed, KeysOf(nodes))
  {
    hide HeadArmed, Queue;
    forall k | k !in KeysOf(nodes) && HeadArmed(a, k) ensures HeadArmed(b, k) <==> !Stranded(a, failed, k) {
      assert JoiningAt(a.queues, joined.queues, nodes, i, k);
      assert forall j :: 0 <= j < |nodes| ==> nodes[j] in nodes;
    }
  }

  /** The keys of the operations that events are for. */
  ghost function EventKeys(events: seq<Event>, ledger: Ledger): set<Key> {
    set e <- events | e.operation in ledger, n <- ledger[e.operation] :: n.key
  }

  lemma EventKeysOf(events: seq<Event>, ledger: Ledger, i: nat)
    requires i < |events| && events[i].operation in ledger
    ensures KeysOf(ledger[events[i].operation]) <= EventKeys(events, ledger)
  {
    assert events[i] in events;
  }

  lemma SameKeys(nodes: seq<Node>, keys: seq<Key>)
    requires |nodes| == |keys| && forall i :: 0 <= i < |keys| ==> nodes[i].key == keys[i]
    ensures KeysOf(nodes) == set k <- keys
  {
    assert forall i :: 0 <= i < |keys| ==> nodes[i] in nodes;
    forall k <- keys ensures k in KeysOf(nodes) {
      var i :| 0 <= i < |keys| && keys[i] == k;
    }
    forall n <- nodes ensures n.key in keys {
      var i :| 0 <= i < |nodes| && nodes[i] == n;
      assert keys[i] == n.key;
    }
  }

  lemma SettledOut(before: seq<Operation>, after: seq<Operation>, out: seq<Operation>)
    requires Settled(before, after, out)
    ensures (forall o <- out :: o in before) && (forall o <- after :: o in before)
  {
  }

  lemma UndoLedger(a: Snap, b: Snap, failed: seq<Operation>, o: Operation)
    requires Advanced(a, b, failed) && forall x <- a.ledger :: x != o && x !in a.inflight ==> a.ledger[x] == []
    requires forall x <- a.inflight :: x in a.ledger
    ensures forall x <- b.inflight :: x in a.ledger && x in b.ledger && b.ledger[x] == a.ledger[x] && x in a.inflight
    ensures forall x <- b.ledger :: x != o && x !in b.inflight ==> b.ledger[x] == []
    ensures b.ledger.Keys == a.ledger.Keys
  {
    hide Shrunk;
  }

  // ----- a waiter left behind -----------------------------------------------------------

  /**
   * An operation waits to read behind `c`, and to write with `b` behind it; `ar` and `aw` are
   * its registrations.
   */
  ghost function Crossing(c: Node, ar: Node, aw: Node, b: Node): Shape {
    Shape(map[c.key := [c, ar], aw.key := [aw, b]],
          map[c := Wire(null, ar, true), ar := Wire(c, null, false),
              aw := Wire(null, b, true), b := Wire(aw, null, false)])
  }

  ghost predicate Crossed(c: Node, ar: Node, aw: Node, b: Node) {
    && c.key == Key(7, Read) && ar.key == c.key && aw.key == Key(7, Write) && b.key == aw.key
    && ar.owner == aw.owner && c.owner != ar.owner && b.owner != ar.owner && b.owner != c.owner
    && c.sequence == 0 && ar.sequence == 1 && aw.sequence == 2 && b.sequence == 3
  }

  ghost function CrossingLedger(c: Node, ar: Node, aw: Node, b: Node): Ledger {
    map[c.owner := [c], ar.owner := [ar, aw], b.owner := [b]]
  }

  lemma CrossingOrderly(c: Node, ar: Node, aw: Node, b: Node, k: Key)
    requires Crossed(c, ar, aw, b)
    ensures Orderly(Crossing(c, ar, aw, b), k) && HeadArmed(Crossing(c, ar, aw, b), k)
  {
    assert [c, ar][1..] == [ar] && [aw, b][1..] == [b] && [ar][1..] == [] && [b][1..] == [];
  }

  lemma CrossingFormed(c: Node, ar: Node, aw: Node, b: Node)
    requires Crossed(c, ar, aw, b)
    ensures Formed(Crossing(c, ar, aw, b)) && forall k :: HeadArmed(Crossing(c, ar, aw, b), k)
  {
    hide Orderly, HeadArmed;
    forall k ensures Orderly(Crossing(c, ar, aw, b), k) && HeadArmed(Crossing(c, ar, aw, b), k) {
      CrossingOrderly(c, ar, aw, b, k);
    }
    assert c in [c, ar] && ar in [c, ar] && aw in [aw, b] && b in [aw, b];
  }

  lemma CrossingSane(c: Node, ar: Node, aw: Node, b: Node)
    requires Crossed(c, ar, aw, b)
    ensures Sane(Crossing(c, ar, aw, b), CrossingLedger(c, ar, aw, b), [b.owner, ar.owner, c.owner], {}, 4)
    ensures forall k :: HeadArmed(Crossing(c, ar, aw, b), k)
  {
    hide Formed, HeadArmed;
    CrossingFormed(c, ar, aw, b);
    var ledger := CrossingLedger(c, ar, aw, b);
    assert ledger[c.owner] == [c] && ledger[ar.owner] == [ar, aw] && ledger[b.owner] == [b];
  }

  lemma DropBoth(sh: Shape, x: Node, y: Node) returns (sh': Shape)
    requires Formed(sh) && x in Queue(sh.queues, x.key) && y in Queue(sh.queues, y.key) && x != y
    ensures Dropped(sh, sh', [x, y])
  {
    hide Formed, Dropped, Removed, Queue;
    DroppedOne(sh, x);
    StillQueued(sh, x, [y]);
    RemovedFormed(sh, x);
    var once := Removed(sh, x);
    DroppedOne(once, y);
    sh' := Removed(once, y);
    DroppedMore(sh, once, sh', [x], [y]);
    assert [x] + [y] == [x, y];
  }

  /**
   * When `c` fires its operation completes and the kernel is asked to arm `ar`. If it refuses,
   * the operation of `ar` fails, its other registration is dropped, and `b` waits unarmed for
   * good, although every queue had an armed head before.
   */
  lemma FailureStrands(c: Node, ar: Node, aw: Node, b: Node) returns (sh: Shape)
    requires Crossed(c, ar, aw, b)
    ensures c in Crossing(c, ar, aw, b).wires && Dropped(Removed(Crossing(c, ar, aw, b), c), sh, [ar, aw])
    ensures Sane(Crossing(c, ar, aw, b), CrossingLedger(c, ar, aw, b), [b.owner, ar.owner, c.owner], {}, 4)
    ensures forall k :: HeadArmed(Crossing(c, ar, aw, b), k)
    ensures Queue(sh.queues, b.key) == [b] && !HeadArmed(sh, b.key)
  {
    CrossingSane(c, ar, aw, b);
    var start := Crossing(c, ar, aw, b);
    var released := Removed(start, c);
    RemovedFormed(start, c);
    OtherQueue(start, c, aw.key);
    assert Queue(released.queues, aw.key) == [aw, b] && Queue(released.queues, ar.key) == [ar];
    sh := DropBoth(released, ar, aw);
    assert Purged([aw, b], [ar, aw]) == [b] by {
      assert [ar, aw][1..] == [aw];
      LessAbsent([aw, b], ar);
      PurgedOne([aw, b], aw);
    }
    DroppedExactly(released, sh, [ar, aw], aw.key);
  }
}
