/**
 * Queueing a fired registration again after its I/O step would have blocked. Its operation is
 * still in flight, so the scan for the end of the queue can come to the registration itself;
 * that is then linked to itself and never armed again.
 */
module WaitRearm {
  import opened WaitQueue
  import opened Sequences
  import opened WaitLedger

  /** Registration `n` has fired and left its queue; its operation is still in flight. */
  ghost predicate Fired(sh: Shape, ledger: Ledger, inflight: seq<Operation>, n: Node) {
    && Formed(sh) && Registered(sh, ledger, inflight, {n.owner}) && NoRepeat(inflight)
    && n.owner in inflight && OwnedBy(n, ledger) && n !in Queue(sh.queues, n.key)
  }

  /** Somebody waits for the key of `n`, and whoever waits last comes before its operation in flight. */
  ghost predicate Followed(sh: Shape, inflight: seq<Operation>, n: Node) {
    var s := Queue(sh.queues, n.key);
    s != [] && exists i, j :: 0 <= i < j < |inflight| && inflight[i] == s[|s| - 1].owner && inflight[j] == n.owner
  }

  /** What the scan for the end of the queue comes to. */
  ghost function Found(sh: Shape, inflight: seq<Operation>, n: Node): Node {
    var s := Queue(sh.queues, n.key);
    if Followed(sh, inflight, n) && s != [] then s[|s| - 1] else n
  }

  /** A registration that the scan takes for the end of the queue of `k`. */
  ghost predicate Ends(wires: Wires, x: Node, k: Key) {
    x.key == k && x in wires && wires[x].next == null
  }

  /** The scan can only stop at the fired registration or at the end of the queue. */
  lemma OnlyEnds(sh: Shape, ledger: Ledger, inflight: seq<Operation>, n: Node, x: Node)
    requires Fired(sh, ledger, inflight, n) && Ends(sh.wires, x, n.key)
    requires x.owner in inflight && OwnedBy(x, ledger)
    ensures x == n || (Queue(sh.queues, n.key) != [] && x == Last(null, Queue(sh.queues, n.key)))
  {
    if x.owner == n.owner {
      assert DistinctKeys(ledger[n.owner]);
    } else {
      assert AllQueued(sh.queues, ledger[x.owner]);
      EndsList(sh, x);
    }
  }

  lemma BothEnd(sh: Shape, ledger: Ledger, inflight: seq<Operation>, n: Node)
    requires Fired(sh, ledger, inflight, n)
    ensures Ends(sh.wires, n, n.key)
    ensures var s := Queue(sh.queues, n.key); s != [] ==>
              var t := s[|s| - 1];
              Ends(sh.wires, t, n.key) && OwnedBy(t, ledger) && t.owner in inflight && t.owner != n.owner
  {
    var s := Queue(sh.queues, n.key);
    assert n in sh.wires;
    if s != [] {
      LastEnds(sh, n.key);
      var t := s[|s| - 1];
      assert t in Queue(sh.queues, n.key);
      assert DistinctKeys(ledger[n.owner]);
    }
  }

  /** The operations before position `i` have no registration at which the scan stops. */
  ghost predicate Passed(wires: Wires, ledger: Ledger, inflight: seq<Operation>, k: Key, i: int) {
    forall j :: 0 <= j < i && j < |inflight| ==>
      inflight[j] in ledger && forall x <- ledger[inflight[j]] :: !Ends(wires, x, k)
  }

  lemma StopsAt(sh: Shape, ledger: Ledger, inflight: seq<Operation>, n: Node, i: nat, x: Node)
    requires Fired(sh, ledger, inflight, n) && i < |inflight| && Passed(sh.wires, ledger, inflight, n.key, i)
    requires x.owner == inflight[i] && OwnedBy(x, ledger) && Ends(sh.wires, x, n.key)
    ensures x == Found(sh, inflight, n)
  {
    OnlyEnds(sh, ledger, inflight, n, x);
    BothEnd(sh, ledger, inflight, n);
    var j :| 0 <= j < |inflight| && inflight[j] == n.owner;
    assert j >= i;
  }

  lemma Stops(sh: Shape, ledger: Ledger, inflight: seq<Operation>, n: Node)
    requires Fired(sh, ledger, inflight, n)
    ensures !Passed(sh.wires, ledger, inflight, n.key, |inflight|)
  {
    BothEnd(sh, ledger, inflight, n);
  }

  /** The scan over the operations in flight, while the event of `n` is being handled. */
  method FindEnd(inflight: seq<Operation>, n: Node, ghost sh: Shape, ghost ledger: Ledger) returns (tail: Node)
    requires Fired(sh, ledger, inflight, n) && Match(sh.wires) && forall o <- ledger :: o.nodes == ledger[o]
    ensures tail == Found(sh, inflight, n)
  {
    hide Fired, Found, Ends;
    Known(sh, ledger, inflight, n);
    Stops(sh, ledger, inflight, n);
    var i := 0;
    while true
      invariant 0 <= i < |inflight| && Passed(sh.wires, ledger, inflight, n.key, i)
      invariant !Passed(sh.wires, ledger, inflight, n.key, |inflight|)
      decreases |inflight| - i
    {
      var nodes := inflight[i].nodes;
      for j := 0 to |nodes|
        invariant forall m :: 0 <= m < j ==> !Ends(sh.wires, nodes[m], n.key)
      {
        EndsAs(sh.wires, nodes[j], n.key);
        if nodes[j].key == n.key && nodes[j].next == null {
          StopsAt(sh, ledger, inflight, n, i, nodes[j]);
          return nodes[j];
        }
      }
      i := i + 1;
    }
  }

  lemma Known(sh: Shape, ledger: Ledger, inflight: seq<Operation>, n: Node)
    requires Fired(sh, ledger, inflight, n)
    ensures inflight != [] && n in sh.wires
    ensures forall o <- inflight :: o in ledger && forall x <- ledger[o] :: x.owner == o && x in sh.wires
  {
  }

  lemma EndsAs(wires: Wires, x: Node, k: Key)
    requires Match(wires) && x in wires
    ensures Ends(wires, x, k) <==> x.key == k && x.next == null
  {
  }

  // ----- the result -----------------------------------------------------------------------

  /** The wires after the registration was linked behind what the scan came to. */
  ghost function Rearmed(sh: Shape, inflight: seq<Operation>, n: Node): Wires {
    var t := Found(sh, inflight, n);
    var behind := if t in sh.wires then sh.wires[t := Ahead(sh.wires[t], n)] else sh.wires;
    behind[n := Wire(t, null, false)]
  }

  /** The links spell `s`, which has `n` in it. */
  ghost predicate Lists(older s: seq<Node>, wires: Wires, n: Node) {
    (forall i :: 0 <= i < |s| ==> s[i] in wires) && n in s && NoRepeat(s) && Spelled(wires, null, s, null)
  }

  /** The links make `n` part of some queue. */
  ghost predicate Linked(wires: Wires, n: Node) {
    exists s :: Lists(s, wires, n)
  }

  /** Queues the fired registration again. Nothing is armed. */
  method Rearm(inflight: seq<Operation>, n: Node, ghost sh: Shape, ghost ledger: Ledger)
    requires Fired(sh, ledger, inflight, n) && Match(sh.wires) && forall o <- ledger :: o.nodes == ledger[o]
    modifies sh.wires.Keys
    ensures Match(Rearmed(sh, inflight, n)) && !n.armed
    ensures n.prev == Found(sh, inflight, n)
  {
    hide Fired;
    Known(sh, ledger, inflight, n);
    BothEnd(sh, ledger, inflight, n);
    var tail := FindEnd(inflight, n, sh, ledger);
    tail.next := n;
    n.prev, n.next, n.armed := tail, null, false;
  }

  /** A node that is its own predecessor is in no list. */
  lemma {:induction false} SelfLinked(wires: Wires, back: Node?, s: seq<Node>, n: Node)
    requires n in wires && wires[n].prev == n && NoRepeat(s) && n in s && back != n
    ensures !Spelled(wires, back, s, null)
    decreases |s|
  {
    if s[0] != n && Spelled(wires, back, s, null) {
      SelfLinked(wires, s[0], s[1..], n);
    }
  }

  /** When somebody is found behind whom to queue, the queue grows and its head stays armed. */
  lemma RearmQueues(sh: Shape, ledger: Ledger, inflight: seq<Operation>, n: Node)
    requires Fired(sh, ledger, inflight, n) && Followed(sh, inflight, n)
    ensures var s := Queue(sh.queues, n.key);
            && Lists(s + [n], Rearmed(sh, inflight, n), n)
            && forall x <- s :: x in sh.wires && Rearmed(sh, inflight, n)[x].armed == sh.wires[x].armed
  {
    var s := Queue(sh.queues, n.key);
    assert Orderly(sh, n.key);
    var t := s[|s| - 1];
    assert t in s;
    LastAhead(sh.wires, null, s, null, n);
    SpelledFrame(sh.wires[t := Ahead(sh.wires[t], n)], null, s, n, n, Wire(t, null, false));
    Join(Rearmed(sh, inflight, n), null, s, [n], null);
    JoinNoRepeat(s, [n]);
  }

  /**
   * A registration queued again after it would have blocked is in a queue exactly when somebody
   * else waits for its key, the last of them ahead of its operation in flight. It is not armed
   * in either case, so otherwise no event will reach its operation.
   */
  lemma RearmedExactly(sh: Shape, ledger: Ledger, inflight: seq<Operation>, n: Node)
    requires Fired(sh, ledger, inflight, n)
    ensures n in Rearmed(sh, inflight, n) && !Rearmed(sh, inflight, n)[n].armed
    ensures Linked(Rearmed(sh, inflight, n), n) <==> Followed(sh, inflight, n)
  {
    var wires := Rearmed(sh, inflight, n);
    if Followed(sh, inflight, n) {
      RearmQueues(sh, ledger, inflight, n);
    } else {
      forall s | Lists(s, wires, n) ensures false {
        SelfLinked(wires, null, s, n);
      }
    }
  }

  /** An operation alone in flight whose step would have blocked is never reported again. */
  lemma AloneIsStranded(n: Node)
    ensures var sh := Shape(map[], map[n := Wire(null, null, false)]);
            && Fired(sh, map[n.owner := [n]], [n.owner], n)
            && !Linked(Rearmed(sh, [n.owner], n), n) && !Rearmed(sh, [n.owner], n)[n].armed
  {
    var sh := Shape(map[], map[n := Wire(null, null, false)]);
    assert forall k :: Orderly(sh, k);
    RearmedExactly(sh, map[n.owner := [n]], [n.owner], n);
  }
}
