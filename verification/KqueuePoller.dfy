/**
 * Registration, firing, failure and abort in the kqueue backend, on the wait queues of
 * WaitQueue. Whether arming a registration succeeds is arbitrary.
 */
module KqueuePoller {
  import opened WaitQueue
  import opened Sequences
  import opened WaitLedger
  import opened WaitRearm

  class Poller {
    var inflight: seq<Operation>
    /** Completed operations, last first. */
    var done: seq<Operation>
    var nextSequence: nat
    ghost var shape: Shape
    ghost var ledger: Ledger
    ghost var busy: set<Operation>

    /** The fields of the registrations and operations are as recorded. */
    ghost predicate Agree()
      reads this, shape.wires.Keys, ledger.Keys`nodes
    {
      && Match(shape.wires)
      && (forall o <- ledger :: o.nodes == ledger[o])
    }

    ghost predicate Valid()
      reads this, shape.wires.Keys, ledger.Keys`nodes
    {
      Sane(shape, ledger, inflight, busy, nextSequence) && Agree()
    }

    /** The results of the operations known. */
    ghost function Answers(): Results
      reads this`ledger, ledger.Keys`result
    {
      map o <- ledger :: o.result
    }

    /** The operations in flight have all their registrations queued, and they are all of `k`. */
    ghost predicate Searchable(k: Key)
      reads this
    {
      (forall o <- inflight :: o !in busy) && (forall n <- Queue(shape.queues, k) :: n.owner in inflight)
    }

    lemma NoTail(k: Key)
      requires Valid() && Searchable(k)
      requires forall i :: 0 <= i < |inflight| ==> forall n <- inflight[i].nodes :: n.key == k ==> n.next != null
      ensures Queue(shape.queues, k) == []
    {
      if Queue(shape.queues, k) != [] {
        HasTail(k);
      }
    }

    lemma HasTail(k: Key)
      requires Valid() && Searchable(k) && Queue(shape.queues, k) != []
      ensures exists i :: 0 <= i < |inflight| && exists n <- inflight[i].nodes :: n.key == k && n.next == null
    {
      hide Formed;
      var s := Queue(shape.queues, k);
      LastEnds(shape, k);
      var n := s[|s| - 1];
      assert n in Queue(shape.queues, k);
      var i :| 0 <= i < |inflight| && inflight[i] == n.owner;
      assert n in inflight[i].nodes;
    }

    /** The last registration waiting for a key, by a scan of the operations in flight. */
    method FindTail(k: Key) returns (tail: Node?)
      requires Valid() && Searchable(k)
      ensures Valid() && tail == Last(null, Queue(shape.queues, k))
    {
      hide Formed;
      for i := 0 to |inflight|
        invariant forall j :: 0 <= j < i ==> forall n <- inflight[j].nodes :: n.key == k ==> n.next != null
      {
        var nodes := inflight[i].nodes;
        for j := 0 to |nodes|
          invariant forall m :: 0 <= m < j && nodes[m].key == k ==> nodes[m].next != null
        {
          if nodes[j].key == k && nodes[j].next == null {
            assert nodes[j] in inflight[i].nodes;
            EndsList(shape, nodes[j]);
            return nodes[j];
          }
        }
      }
      tail := null;
      NoTail(k);
    }

    /** Takes a registration out of its queue and resets it; the next one is handed back. */
    method Detach(n: Node) returns (next: Node?)
      requires Valid() && n in Queue(shape.queues, n.key) && n.owner in busy
      modifies this`shape, shape.wires.Keys
      ensures Valid() && n in old(shape.wires) && shape == Removed(old(shape), n) && next == After(old(shape), n)
    {
      hide Sane, Queue, Less, Removed, Match;
      SaneFormed(shape, ledger, inflight, busy, nextSequence);
      RemovedWire(shape, n);
      Neighbours(shape, n);
      RemovedSane(shape, ledger, inflight, busy, nextSequence, n);
      ghost var sh := Removed(shape, n);
      next := Rewire(n, shape.wires, sh.wires);
      shape := sh;
    }

    /** Takes all registrations of an operation out of their queues, arming nothing. */
    method DropNodes(o: Operation)
      requires Valid() && o in busy && o in ledger && AllQueued(shape.queues, ledger[o])
      modifies this`shape, shape.wires.Keys
      ensures Valid() && Dropped(old(shape), shape, ledger[o]) && Absent(shape.queues, o)
      ensures forall n <- shape.wires :: n in old(shape.wires)
    {
      hide Sane, Queue, Removed, Dropped, Match, Absent, AllQueued;
      ghost var nodes := ledger[o];
      SaneNodes(shape, ledger, inflight, busy, nextSequence, o);
      DroppedNone(shape);
      assert nodes[0..] == nodes && nodes[..0] == [];
      for i := 0 to |o.nodes|
        invariant Valid() && o.nodes == nodes == ledger[o] && Dropped(old(shape), shape, nodes[..i])
        invariant AllQueued(shape.queues, nodes[i..])
        invariant forall n <- shape.wires :: n in old(shape.wires)
      {
        ghost var before := shape;
        FirstQueued(shape.queues, nodes, i);
        SaneFormed(shape, ledger, inflight, busy, nextSequence);
        DroppedOne(shape, nodes[i]);
        StillQueued(shape, nodes[i], nodes[i + 1..]);
        RemovedQueues(shape, nodes[i]);
        var next := Detach(o.nodes[i]);
        DroppedMore(old(shape), before, shape, nodes[..i], [nodes[i]]);
        assert nodes[..i] + [nodes[i]] == nodes[..i + 1];
      }
      assert nodes[..|nodes|] == nodes;
      SaneAbsent(old(shape), shape, ledger, inflight, busy, nextSequence, o);
    }

    /** Removes an operation, now without registrations, from those in flight, and queues it to run. */
    method Retire(o: Operation, result: int)
      requires Valid() && o in inflight && Absent(shape.queues, o)
      modifies this`inflight, this`done, this`ledger, this`busy, o
      ensures Valid() && Settled(old(inflight), inflight, [o]) && |inflight| == |old(inflight)| - 1
      ensures done == [o] + old(done) && busy == old(busy) - {o} && ledger == old(ledger)[o := []] && o.result == result
      ensures o in old(ledger) && Answers() == old(Answers())[o := result]
    {
      hide Sane, Absent, Match, Less, Settled;
      Knows();
      RetiredSane(shape, ledger, inflight, busy, nextSequence, o);
      SaneSimple(shape, ledger, inflight, busy, nextSequence);
      SettledOne(inflight, o);
      LessMembers(inflight, o);
      var i :| 0 <= i < |inflight| && inflight[i] == o;
      LessAt(inflight, i);
      inflight := inflight[..i] + inflight[i + 1..];
      o.nodes := [];
      o.result := result;
      ledger := ledger[o := []];
      busy := busy - {o};
      done := [o] + done;
      assert ledger.Keys == old(ledger).Keys;
    }

    /** Tears an operation down without arming anybody else. */
    method FailOperation(o: Operation, result: int)
      requires Valid() && o in inflight && o !in busy
      modifies this, shape.wires.Keys, o
      ensures Valid() && Settled(old(inflight), inflight, [o]) && |inflight| == |old(inflight)| - 1
      ensures o in old(ledger) && Dropped(old(shape), shape, old(ledger)[o])
      ensures done == [o] + old(done) && busy == old(busy)
      ensures ledger == old(ledger)[o := []] && nextSequence == old(nextSequence)
      ensures o.result == result && Answers() == old(Answers())[o := result]
      ensures forall n <- shape.wires :: n in old(shape.wires)
      ensures forall k :: HeadArmed(old(shape), k) ==> (HeadArmed(shape, k) <==> !Bereft(old(shape), old(ledger)[o], k))
    {
      hide Sane, Absent, Match, Dropped, Settled, AllQueued, HeadArmed, Bereft;
      SaneFormed(shape, ledger, inflight, busy, nextSequence);
      BusySane(shape, ledger, inflight, busy, nextSequence, o);
      ghost var outside := busy;
      busy := busy + {o};
      DropNodes(o);
      Retire(o, result);
      assert outside + {o} - {o} == outside;
      forall k | HeadArmed(old(shape), k) ensures HeadArmed(shape, k) <==> !Bereft(old(shape), old(ledger)[o], k) {
        DroppedExactly(old(shape), shape, old(ledger)[o], k);
      }
    }

    lemma Recorded(n: Node)
      requires Valid() && n in shape.wires
      ensures n.next == After(shape, n) && n.armed == shape.wires[n].armed
    {
    }

    /** Tries to arm a registration that heads its queue; the kernel may refuse. */
    method Arm(n: Node) returns (armed: bool, error: int)
      requires Valid() && Queue(shape.queues, n.key) != [] && n == Queue(shape.queues, n.key)[0]
      modifies this`shape, n`armed
      ensures Valid() && n in old(shape.wires) && shape == if armed then Primed(old(shape), n) else old(shape)
      ensures armed ==> HeadArmed(shape, n.key) && forall k :: HeadArmed(old(shape), k) ==> HeadArmed(shape, k)
      ensures !armed ==> error < 0
    {
      hide Sane, Queue, HeadArmed;
      PrimedSane(shape, ledger, inflight, busy, nextSequence, n);
      armed := *;
      error :| error < 0;
      if armed {
        Prime(n);
      }
    }

    /** Tears down the operation of a queue's head, and hands back the next registration. */
    method FailHead(candidate: Node, k: Key, error: int) returns (next: Node?)
      requires Valid() && candidate == First(Queue(shape.queues, k), null)
      requires forall n <- Queue(shape.queues, k) :: n.owner !in busy
      modifies this, shape.wires.Keys, ledger.Keys
      ensures Valid() && next == First(Queue(shape.queues, k), null)
      ensures busy == old(busy) && nextSequence == old(nextSequence)
      ensures forall n <- Queue(shape.queues, k) :: n.owner !in busy
      ensures candidate.owner in old(inflight) && candidate.owner in old(ledger) && |inflight| < |old(inflight)|
      ensures done == [candidate.owner] + old(done) && candidate.owner.result == error && candidate.owner !in busy
      ensures Failing(old(Now()), Now(), [candidate.owner], k) && ledger == old(ledger)[candidate.owner := []]
      ensures Answers() == old(Answers())[candidate.owner := error]
      ensures forall n <- shape.wires :: n in old(shape.wires)
      ensures forall other :: HeadArmed(old(shape), other) ==>
                (HeadArmed(shape, other) <==> !Bereft(old(shape), old(ledger)[candidate.owner], other))
    {
      hide Sane, Match, Settled, Shrunk, Dropped, HeadArmed, First, Stay, Bereft, Quiet;
      HeadNode(shape, ledger, inflight, busy, nextSequence, k, candidate);
      Recorded(candidate);
      next := candidate.next;
      FailOperation(candidate.owner, error);
      FailureFacts(old(shape), shape, old(ledger), old(inflight), busy, nextSequence, candidate.owner, candidate);
      SaneFormed(shape, ledger, inflight, busy, nextSequence);
      OutlivedNone(old(ledger));
      OutlivedMore(old(ledger), old(ledger), [], candidate.owner);
      assert [candidate.owner] + [] == [candidate.owner];
    }

    /**
     * Arms the first registration of a queue whose head has gone. An operation whose
     * registration cannot be armed fails, and the next one is tried.
     */
    method ArmQueueHead(first: Node?, k: Key) returns (ghost failed: seq<Operation>)
      requires Valid() && first == First(Queue(shape.queues, k), null)
      requires forall n <- Queue(shape.queues, k) :: n.owner !in busy
      modifies this, shape.wires.Keys, ledger.Keys
      ensures Valid() && HeadArmed(shape, k) && busy == old(busy) && nextSequence == old(nextSequence)
      ensures done == failed + old(done) && Failing(old(Now()), Now(), failed, k) && forall o <- failed :: o !in busy
      ensures forall n <- shape.wires :: n in old(shape.wires)
      ensures Apart(old(shape), shape, failed, {k}) && Exactly(old(shape), shape, failed, {k})
      ensures Blamed(old(Answers()), Answers(), failed)
    {
      hide Valid, Failing, HeadArmed, First, Queue, Apart, Exactly, Formed, Bereft, Answers, Blamed;
      BlamedNone(Answers());
      IsFormed();
      Knows();
      failed := [];
      var candidate := first;
      FailingNone(Now(), k);
      while candidate != null
        invariant Valid() && candidate == First(Queue(shape.queues, k), null)
        invariant forall n <- Queue(shape.queues, k) :: n.owner !in busy
        invariant busy == old(busy) && nextSequence == old(nextSequence)
        invariant done == failed + old(done) && Failing(old(Now()), Now(), failed, k)
        invariant forall o <- failed :: o !in busy
        invariant (forall n <- shape.wires :: n in old(shape.wires)) && ledger.Keys == old(ledger).Keys
        invariant Blamed(old(Answers()), Answers(), failed)
        decreases |inflight|
      {
        ghost var before, o, results := Now(), candidate.owner, Answers();
        IsHead(k, candidate);
        Knows();
        var armed, error := Arm(candidate);
        if armed {
          FailingArmed(before, Now(), candidate);
          FailingMore(old(Now()), before, Now(), failed, [], k);
          assert [] + failed == failed;
          FailedExact(old(Now()), failed, k);
          return;
        }
        candidate := FailHead(candidate, k, error);
        FailingMore(old(Now()), before, Now(), failed, [o], k);
        BlamedOne(results, o, error);
        BlamedMore(old(Answers()), results, Answers(), failed, [o]);
        failed := [o] + failed;
      }
      EmptyArmed(shape, k);
      FailedExact(old(Now()), failed, k);
    }

    lemma FailedExact(start: Snap, failed: seq<Operation>, k: Key)
      requires Valid() && Formed(start.shape) && Failing(start, Now(), failed, k)
      requires forall o <- start.inflight :: o in start.ledger
      ensures Apart(start.shape, shape, failed, {k}) && Exactly(start.shape, shape, failed, {k})
    {
      hide Valid, Formed, Apart, Exactly, Advanced;
      StayApart(start.shape, shape, failed, {k});
      AdvancedExact(start, failed, failed, {k});
    }

    lemma IsFormed()
      requires Valid()
      ensures Formed(shape)
    {
    }

    /** Exactly which queues outside `keys` lost an armed head since `start`. */
    lemma OthersExact(start: Shape, failed: seq<Operation>, keys: set<Key>)
      requires Valid() && Formed(start) && Shrunk(start, shape) && Apart(start, shape, failed, keys)
      requires forall o <- failed :: o in ledger && ledger[o] == []
      ensures Exactly(start, shape, failed, keys)
    {
      hide Formed, Shrunk, Apart, HeadArmed, Stranded;
      IsFormed();
      forall k | k !in keys && HeadArmed(start, k) ensures HeadArmed(shape, k) <==> !Stranded(start, failed, k) {
        assert forall n <- Queue(shape.queues, k) :: OwnedBy(n, ledger);
        StrandedExactly(start, shape, failed, keys, k);
      }
    }

    lemma AdvancedExact(start: Snap, left: seq<Operation>, failed: seq<Operation>, keys: set<Key>)
      requires Valid() && Formed(start.shape) && Advanced(start, Now(), left) && Apart(start.shape, shape, failed, keys)
      requires (forall o <- failed :: o in left) && (forall o <- start.inflight :: o in start.ledger)
      ensures Exactly(start.shape, shape, failed, keys)
    {
      hide Valid, Formed, Shrunk, Apart, Exactly;
      OthersExact(start.shape, failed, keys);
    }

    lemma AllNodesQueued()
      requires Valid() && busy == {}
      ensures forall o <- inflight :: o in ledger && AllQueued(shape.queues, ledger[o])
    {
    }

    lemma Knows()
      requires Valid()
      ensures forall o <- inflight :: o in ledger
    {
    }

    lemma IsHead(k: Key, n: Node)
      requires Valid() && n == First(Queue(shape.queues, k), null)
      ensures n.key == k && Queue(shape.queues, k) != [] && n == Queue(shape.queues, k)[0] && n in shape.wires
    {
      assert Orderly(shape, k);
      assert n in Queue(shape.queues, k);
    }

    ghost function Now(): Snap
      reads this
    {
      Snap(shape, ledger, inflight)
    }

    /** The registration of an operation for a filter, if it has one. */
    method FindFired(o: Operation, filter: Filter) returns (node: Node?)
      requires Valid() && o in ledger
      ensures Valid() && (node == null <==> forall n <- ledger[o] :: n.key.filter != filter)
      ensures node != null ==> node in ledger[o] && node.key.filter == filter
    {
      hide Sane;
      for i := 0 to |o.nodes|
        invariant forall m :: 0 <= m < i ==> o.nodes[m].key.filter != filter
      {
        if o.nodes[i].key.filter == filter {
          return o.nodes[i];
        }
      }
      return null;
    }

    /** Puts a registration at the end of its queue; the first of a queue has to be armed. */
    method AppendNode(n: Node) returns (ok: bool, error: int)
      requires Valid() && Searchable(n.key) && OwnedBy(n, ledger) && n.owner in busy
      requires n !in Queue(shape.queues, n.key) && forall x <- Queue(shape.queues, n.key) :: x.sequence < n.sequence
      modifies this`shape, shape.wires.Keys
      ensures Valid() && forall x <- shape.wires :: x in old(shape.wires)
      ensures !ok ==> shape == old(shape) && error < 0
      ensures ok ==> forall k :: Queue(shape.queues, k) == if k == n.key then Queue(old(shape.queues), k) + [n]
                else Queue(old(shape.queues), k)
      ensures ok ==> forall k :: HeadArmed(old(shape), k) ==> HeadArmed(shape, k)
    {
      hide Sane, Queue, HeadArmed, Match, Appended;
      Linkable(n);
      AppendedQueues(shape, n);
      var tail := FindTail(n.key);
      error :| error < 0;
      if tail == null {
        var armed: bool := *;
        if !armed {
          return false, error;
        }
      }
      Link(n, tail);
      if tail == null {
        NewHead(old(shape), n);
        Prime(n);
      } else {
        OldHead(old(shape), n);
      }
      ok := true;
    }

    /** Links a registration behind the last one of its queue. */
    method Link(n: Node, tail: Node?)
      requires Valid() && OwnedBy(n, ledger) && n.owner in busy && tail == Last(null, Queue(shape.queues, n.key))
      requires n !in Queue(shape.queues, n.key) && forall x <- Queue(shape.queues, n.key) :: x.sequence < n.sequence
      modifies this`shape, shape.wires.Keys
      ensures Valid() && shape == Appended(old(shape), n) && forall x <- shape.wires :: x in old(shape.wires)
    {
      hide Sane, Queue, Appended, Match;
      Linkable(n);
      AppendedSane(shape, ledger, inflight, busy, nextSequence, n);
      AppendedQueues(shape, n);
      ghost var sh := Appended(shape, n);
      WireBehind(n, tail, shape.wires, sh.wires);
      shape := sh;
    }

    lemma Linkable(n: Node)
      requires Valid() && OwnedBy(n, ledger) && n !in Queue(shape.queues, n.key)
      ensures n in shape.wires && Formed(shape)
      ensures var t := Last(null, Queue(shape.queues, n.key)); t != null ==> t in shape.wires && t != n
    {
      var s := Queue(shape.queues, n.key);
      assert Orderly(shape, n.key);
      assert s != [] ==> s[|s| - 1] in s;
    }

    /** Arms the head of a queue. */
    method Prime(n: Node)
      requires Valid() && Queue(shape.queues, n.key) != [] && n == Queue(shape.queues, n.key)[0]
      modifies this`shape, n`armed
      ensures Valid() && n in old(shape.wires) && shape == Primed(old(shape), n) && HeadArmed(shape, n.key)
      ensures forall k :: HeadArmed(old(shape), k) ==> HeadArmed(shape, k)
    {
      hide Sane, Queue, HeadArmed;
      PrimedSane(shape, ledger, inflight, busy, nextSequence, n);
      n.armed := true;
      shape := Primed(shape, n);
    }

    /** One more registration for the operation being registered. */
    method AddNode(o: Operation, key: Key) returns (n: Node)
      requires Valid() && o in busy && o in ledger && o !in inflight && forall x <- ledger[o] :: x.key != key
      modifies this`shape, this`ledger, this`nextSequence, o`nodes
      ensures Valid() && ledger == old(ledger)[o := old(ledger)[o] + [n]]
      ensures fresh(n) && n !in old(shape.wires) && n.key == key && n.sequence == old(nextSequence)
      ensures shape == Created(old(shape), n) && nextSequence == old(nextSequence) + 1
      ensures forall k :: HeadArmed(old(shape), k) ==> HeadArmed(shape, k)
    {
      hide Sane, HeadArmed, Queue;
      n := new Node(o, key, nextSequence);
      SaneFormed(shape, ledger, inflight, busy, nextSequence);
      assert n !in shape.wires;
      CreatedSane(shape, ledger, inflight, busy, nextSequence, n);
      CreatedHeads(shape, n);
      shape := Created(shape, n);
      ledger := ledger[o := ledger[o] + [n]];
      o.nodes := o.nodes + [n];
      nextSequence := nextSequence + 1;
    }

    /** Starts the registration of an operation. */
    method Admit(o: Operation)
      requires Valid() && busy == {} && o !in inflight
      modifies this`ledger, this`busy, o`nodes
      ensures Valid() && busy == {o} && ledger == old(ledger)[o := []]
    {
      hide Sane;
      AdmittedSane(shape, ledger, inflight, nextSequence, o);
      o.nodes := [];
      ledger, busy := ledger[o := []], {o};
    }

    /** Gives an operation a registration for each key, in no queue yet. */
    method Prepare(o: Operation, keys: seq<Key>)
      requires Valid() && busy == {} && o !in inflight && forall i, j :: 0 <= i < j < |keys| ==> keys[i] != keys[j]
      modifies this`shape, this`ledger, this`busy, this`nextSequence, o`nodes
      ensures Valid() && busy == {o} && o in ledger && ledger.Keys == old(ledger).Keys + {o}
      ensures |ledger[o]| == |keys| && forall i :: 0 <= i < |keys| ==> ledger[o][i].key == keys[i]
      ensures forall n <- ledger[o] :: fresh(n) && n !in old(shape.wires) && n.sequence >= old(nextSequence)
      ensures shape.queues == old(shape.queues) && forall k :: HeadArmed(old(shape), k) ==> HeadArmed(shape, k)
      ensures forall n <- shape.wires :: n in old(shape.wires) || fresh(n)
      ensures forall x <- old(ledger) :: x != o ==> ledger[x] == old(ledger)[x]
      ensures Blamed(old(Answers()), Answers(), [])
    {
      hide Valid, HeadArmed, Queue;
      Admit(o);
      for i := 0 to |keys|
        invariant Valid() && busy == {o} && o in ledger && ledger.Keys == old(ledger).Keys + {o}
        invariant |ledger[o]| == i && forall j :: 0 <= j < i ==> ledger[o][j].key == keys[j]
        invariant forall n <- ledger[o] :: fresh(n) && n !in old(shape.wires) && n.sequence >= old(nextSequence)
        invariant shape.queues == old(shape.queues) && forall k :: HeadArmed(old(shape), k) ==> HeadArmed(shape, k)
        invariant forall n <- old(shape.wires) :: n in shape.wires
        invariant forall n <- shape.wires :: n in old(shape.wires) || fresh(n)
        invariant nextSequence >= old(nextSequence)
        invariant forall x <- old(ledger) :: x != o ==> ledger[x] == old(ledger)[x]
      {
        var n := AddNode(o, keys[i]);
      }
    }

    /** Takes one registration of the busy operation out; if it was armed, the next one is armed. */
    method Release(n: Node) returns (ghost failed: seq<Operation>)
      requires Valid() && busy == {n.owner} && n in Queue(shape.queues, n.key)
      modifies this, shape.wires.Keys, ledger.Keys
      ensures Valid() && busy == old(busy) && nextSequence == old(nextSequence) && done == failed + old(done)
      ensures Advanced(old(Now()), Now(), failed) && Keeps(old(Now()), Now(), failed)
      ensures n !in Queue(shape.queues, n.key) && Stay(old(shape), shape, failed, [n])
      ensures forall o <- failed :: o !in busy
      ensures Apart(old(shape), shape, failed, {n.key}) && Exactly(old(shape), shape, failed, {n.key})
      ensures HeadArmed(old(shape), n.key) ==> HeadArmed(shape, n.key)
      ensures forall x <- shape.wires :: x in old(shape.wires)
      ensures Blamed(old(Answers()), Answers(), failed)
    {
      hide Sane, Match, Failing, Dropped, HeadArmed, Advanced, Keeps, Removed, Queue, First, Stay, Apart, Exactly;
      hide Answers, Blamed;
      BlamedNone(Answers());
      Releasable(shape, ledger, inflight, busy, nextSequence, n);
      Recorded(n);
      Knows();
      failed := [];
      var wasArmed := n.armed;
      var next := Detach(n);
      IsFormed();
      ghost var detached := Now();
      if wasArmed {
        failed := ArmQueueHead(next, n.key);
      } else {
        FailingNone(Now(), n.key);
        ApartNone(shape, {n.key});
      }
      ReleaseFacts(old(Now()), detached, Now(), failed, n, wasArmed);
      ReleaseApart(old(shape), detached.shape, shape, failed, n, wasArmed);
      AdvancedExact(old(Now()), failed, failed, {n.key});
    }

    /**
     * Takes the first `count` registrations of the busy operation out, except one that is out
     * already, and arms the successors of those that were armed. The rest are in no queue.
     */
    method Unregister(o: Operation, count: nat, fired: Node?) returns (ghost failed: seq<Operation>)
      requires Valid() && busy == {o} && o in ledger && count <= |ledger[o]|
      requires QueuedBut(shape.queues, ledger[o][..count], fired)
      requires fired != null ==> fired !in Queue(shape.queues, fired.key)
      requires forall n <- ledger[o][count..] :: n !in Queue(shape.queues, n.key)
      modifies this, shape.wires.Keys, ledger.Keys
      ensures Valid() && busy == old(busy) && nextSequence == old(nextSequence) && done == failed + old(done)
      ensures Advanced(old(Now()), Now(), failed) && Keeps(old(Now()), Now(), failed)
      ensures Absent(shape.queues, o) && o in ledger && ledger[o] == old(ledger)[o]
      ensures o in old(inflight) ==> o in inflight
      ensures Apart(old(shape), shape, failed, KeysOf(ledger[o]))
      ensures Exactly(old(shape), shape, failed, KeysOf(ledger[o]))
      ensures forall x <- shape.wires :: x in old(shape.wires)
      ensures forall x <- failed :: x != o
      ensures Blamed(old(Answers()), Answers(), failed)
    {
      hide Valid, Match, Advanced, Keeps, Queue, QueuedBut, Absent, Apart, Exactly, Formed, Answers, Blamed;
      BlamedNone(Answers());
      IsFormed();
      Knows();
      ghost var keys := KeysOf(ledger[o]);
      failed := [];
      var nodes := o.nodes;
      NodesOf(o);
      AdvancedNone(Now());
      ApartNone(shape, keys);
      assert nodes[..count][0..] == nodes[..count];
      var i := 0;
      while i < count
        invariant Valid() && busy == {o} && nextSequence == old(nextSequence) && done == failed + old(done)
        invariant Advanced(old(Now()), Now(), failed) && Keeps(old(Now()), Now(), failed)
        invariant 0 <= i <= count <= |nodes| && o in ledger && nodes == ledger[o]
        invariant QueuedBut(shape.queues, nodes[..count][i..], fired)
        invariant forall n <- nodes[..i] + nodes[count..] :: n !in Queue(shape.queues, n.key)
        invariant fired != null ==> fired !in Queue(shape.queues, fired.key)
        invariant o in old(inflight) ==> o in inflight
        invariant forall x <- shape.wires :: x in old(shape.wires)
        invariant ledger.Keys == old(ledger).Keys && forall x <- failed :: x != o
        invariant Apart(old(shape), shape, failed, keys) && Blamed(old(Answers()), Answers(), failed)
      {
        ghost var before, results := Now(), Answers();
        NextQueued(shape.queues, nodes[..count], i, fired);
        if nodes[i] != fired {
          Knows();
          ghost var f := Release(nodes[i]);
          AdvancedFacts(before, Now(), f, o, nodes[..i] + nodes[count..]);
          AdvancedGone(before, Now(), f, fired);
          StillThere(before.shape, shape, f, nodes[..count], i, o, fired);
          AdvancedMore(old(Now()), before, Now(), failed, f);
          AdvancedOut(before, Now(), f);
          KeepsMore(old(Now()), before, Now(), failed, failed, f);
          assert nodes[i] in nodes;
          ApartWider(before.shape, shape, f, {nodes[i].key}, keys);
          ApartMore(old(shape), before.shape, shape, failed, f, keys);
          BlamedMore(old(Answers()), results, Answers(), failed, f);
          failed := f + failed;
        }
        assert nodes[..i + 1] == nodes[..i] + [nodes[i]];
        i := i + 1;
      }
      assert nodes[..i] + nodes[count..] == nodes;
      NoneQueued(o);
      AdvancedExact(old(Now()), failed, failed, keys);
    }

    /** An operation in flight is being completed. */
    ghost method Occupy(o: Operation)
      requires Valid() && busy == {} && o in inflight
      modifies this`busy
      ensures Valid() && busy == {o} && o in ledger && AllQueued(shape.queues, ledger[o])
    {
      hide Sane;
      BusySane(shape, ledger, inflight, busy, nextSequence, o);
      busy := busy + {o};
      assert busy == {o};
    }

    /** Completes an operation one of whose registrations fired. */
    method CompleteFired(o: Operation, node: Node, result: int) returns (ghost failed: seq<Operation>)
      requires Valid() && busy == {} && o in inflight && o in ledger && node in ledger[o]
      modifies this, shape.wires.Keys, ledger.Keys
      ensures Valid() && busy == {} && nextSequence == old(nextSequence) && done == [o] + failed + old(done)
      ensures o.result == result
      ensures Advanced(old(Now()), Now(), [o] + failed) && Keeps(old(Now()), Now(), failed)
      ensures Apart(old(shape), shape, failed, KeysOf(old(ledger)[o]))
      ensures Exactly(old(shape), shape, failed, KeysOf(old(ledger)[o]))
      ensures forall x <- shape.wires :: x in old(shape.wires)
      ensures o !in failed && Blamed(old(Answers())[o := result], Answers(), failed)
    {
      hide Answers, Blamed;
      hide Valid, Advanced, Keeps, Queue, QueuedBut, AllQueued;
      hide Absent, Settled, Apart, Exactly, Formed, HeadArmed, Stay;
      IsFormed();
      Knows();
      ghost var keys := KeysOf(ledger[o]);
      Occupy(o);
      OneQueued(shape.queues, ledger[o], node);
      ghost var start := Now();
      NodesOf(o);
      failed := Release(node);
      ghost var released, results := Now(), Answers();
      AdvancedFacts(start, released, failed, o, []);
      ReleasedRest(start.shape, shape, failed, ledger[o], node, o);
      Knows();
      NodesOf(o);
      assert ledger[o][..|ledger[o]|] == ledger[o];
      ghost var more := Unregister(o, |o.nodes|, node);
      AdvancedMore(start, released, Now(), failed, more);
      AdvancedOut(released, Now(), more);
      KeepsMore(start, released, Now(), failed, failed, more);
      ApartWider(start.shape, released.shape, failed, {node.key}, keys);
      ApartMore(start.shape, released.shape, shape, failed, more, keys);
      BlamedMore(old(Answers()), results, Answers(), failed, more);
      failed := more + failed;
      ghost var unregistered, blamed := Now(), Answers();
      Retire(o, result);
      BlamedPut(old(Answers()), blamed, failed, o, result);
      RetireFacts(start, unregistered, Now(), failed, o);
      AdvancedExact(start, [o] + failed, failed, keys);
    }

    /**
     * The event of a registration whose I/O step would have blocked: it is released like any
     * other, and then queued again behind what the scan over the operations in flight finds.
     * The operation stays in flight, unarmed, and is in a queue exactly when it was followed.
     */
    method RearmFired(o: Operation, node: Node) returns (ghost failed: seq<Operation>)
      requires Valid() && busy == {} && o in inflight && o in ledger && node in ledger[o]
      modifies this, shape.wires.Keys, ledger.Keys
      ensures done == failed + old(done) && o in inflight && !node.armed
      ensures Advanced(old(Now()), Now(), failed) && Keeps(old(Now()), Now(), failed)
      ensures Fired(shape, ledger, inflight, node) && Match(Rearmed(shape, inflight, node))
      ensures Linked(Rearmed(shape, inflight, node), node) <==> Followed(shape, inflight, node)
      ensures Exactly(old(shape), shape, failed, {node.key})
      ensures HeadArmed(old(shape), node.key) ==> HeadArmed(shape, node.key)
      ensures Blamed(old(Answers()), Answers(), failed)
    {
      hide Sane, Match, Advanced, Keeps, Queue, QueuedBut, Absent;
      hide Settled, Shrunk, Outlived, Fired, Followed, Rearmed, Linked;
      hide Apart, Exactly, HeadArmed;
      Occupy(o);
      OneQueued(shape.queues, ledger[o], node);
      ghost var start := Now();
      NodesOf(o);
      failed := Release(node);
      AdvancedFacts(start, Now(), failed, o, []);
      FiredNow(o, node);
      Rearm(inflight, node, shape, ledger);
      RearmedExactly(shape, ledger, inflight, node);
    }

    lemma FiredNow(o: Operation, node: Node)
      requires Valid() && busy == {o} && o in inflight && o in ledger && node in ledger[o]
      requires node !in Queue(shape.queues, node.key)
      ensures Fired(shape, ledger, inflight, node)
    {
    }

    /**
     * One event of the kernel, which reports only armed registrations. It completes the
     * operation unless that is already complete; its registrations leave their queues and
     * their successors are armed.
     */
    method ProcessEvent(o: Operation, filter: Filter, result: int)
      returns (enqueued: bool, ghost failed: seq<Operation>)
      requires Valid() && busy == {} && o in ledger && (o !in inflight ==> ledger[o] == [])
      requires Armed(shape, ledger[o], filter)
      modifies this, shape.wires.Keys, ledger.Keys
      ensures Valid() && busy == {} && nextSequence == old(nextSequence)
      ensures enqueued <==> o in old(inflight) && exists n <- old(ledger)[o] :: n.key.filter == filter
      ensures !enqueued ==> Now() == old(Now()) && done == old(done) && failed == []
      ensures enqueued ==> done == [o] + failed + old(done) && Advanced(old(Now()), Now(), [o] + failed)
      ensures enqueued ==> o.result == result
      ensures Keeps(old(Now()), Now(), failed)
      ensures Apart(old(shape), shape, failed, KeysOf(old(ledger)[o]))
      ensures enqueued ==> Exactly(old(shape), shape, failed, KeysOf(old(ledger)[o]))
      ensures forall x <- shape.wires :: x in old(shape.wires)
      ensures if enqueued then o !in failed && Blamed(old(Answers())[o := result], Answers(), failed)
              else Answers() == old(Answers())
    {
      hide Sane, Match, Keeps, Advanced, Armed, Apart, Exactly, Answers, Blamed;
      failed := [];
      AdvancedNone(Now());
      ApartNone(shape, KeysOf(ledger[o]));
      enqueued := false;
      var node := FindFired(o, filter);
      if node != null {
        failed := CompleteFired(o, node, result);
        enqueued := true;
      }
    }

    /** Queues the registrations of the busy operation until the kernel refuses one. */
    method AppendNodes(o: Operation, ghost first: Shape, ghost base: nat) returns (count: nat, error: int)
      requires Valid() && busy == {o} && o in ledger && o !in inflight && first.queues == shape.queues
      requires Waits(first.queues, inflight, base) && Joining(first.queues, shape.queues, ledger[o], 0)
      requires forall n <- ledger[o] :: n !in Queue(shape.queues, n.key) && n.sequence >= base
      modifies this`shape, shape.wires.Keys
      ensures Valid() && count <= |ledger[o]| && Joining(first.queues, shape.queues, ledger[o], count)
      ensures count < |ledger[o]| ==> error < 0
      ensures forall n <- ledger[o][count..] :: n !in Queue(shape.queues, n.key)
      ensures forall k :: HeadArmed(old(shape), k) ==> HeadArmed(shape, k)
      ensures forall n <- shape.wires :: n in old(shape.wires)
    {
      hide Valid, HeadArmed, Queue, Waits, Joining;
      NodesOf(o);
      var nodes := o.nodes;
      count, error := 0, 0;
      assert nodes[0..] == nodes;
      while count < |nodes|
        invariant Valid() && ledger[o] == nodes && count <= |nodes| && Joining(first.queues, shape.queues, nodes, count)
        invariant forall n <- nodes[count..] :: n !in Queue(shape.queues, n.key)
        invariant forall k :: HeadArmed(old(shape), k) ==> HeadArmed(shape, k)
        invariant forall n <- shape.wires :: n in old(shape.wires)
      {
        assert nodes[count] == nodes[count..][0] && nodes[count] in nodes;
        Appendable(first.queues, shape.queues, inflight, nodes, count, base);
        ghost var before := shape;
        var linked;
        linked, error := AppendNode(nodes[count]);
        if !linked {
          break;
        }
        JoiningMore(first.queues, before.queues, shape.queues, nodes, count);
        count := count + 1;
      }
    }

    /**
     * Registers an operation for its keys, each behind those already waiting. If the kernel
     * refuses one, the registrations made so far are undone and the operation completes.
     */
    method Register(o: Operation, keys: seq<Key>) returns (ok: bool, error: int, ghost failed: seq<Operation>)
      requires Valid() && Idle() && o !in inflight && forall i, j :: 0 <= i < j < |keys| ==> keys[i] != keys[j]
      modifies this, shape.wires.Keys, ledger.Keys, o
      ensures Valid() && Idle()
      ensures ok ==> inflight == [o] + old(inflight) && done == old(done) && failed == []
      ensures ok ==> o in ledger && |ledger[o]| == |keys|
      ensures ok ==> forall i :: 0 <= i < |keys| ==> ledger[o][i].key == keys[i]
      ensures ok ==> forall n <- ledger[o] :: Last(null, Queue(shape.queues, n.key)) == n
      ensures ok ==> forall k :: HeadArmed(old(shape), k) ==> HeadArmed(shape, k)
      ensures !ok ==> o !in inflight && done == [o] + failed + old(done) && Settled(old(inflight), inflight, failed)
      ensures !ok ==> error < 0 && o.result == error
      ensures !ok ==> forall k :: Spares(old(ledger), failed, k) && HeadArmed(old(shape), k) ==> HeadArmed(shape, k)
      ensures !ok ==> Exactly(old(shape), shape, failed, set k <- keys)
      ensures if ok then Blamed(old(Answers()), Answers(), [])
              else o !in failed && Blamed(old(Answers())[o := error], Answers(), failed)
      ensures forall x <- inflight :: x != o ==> x in old(ledger) && x in ledger && ledger[x] == old(ledger)[x]
      ensures (forall n <- shape.wires :: n in old(shape.wires) || fresh(n)) && ledger.Keys == old(ledger).Keys + {o}
    {
      hide Valid, HeadArmed, Queue, Settled, Waits, Joining, Keeps, Outlived, Spares, Exactly;
      failed := [];
      hide Answers, Blamed;
      ghost var first, base := shape, nextSequence;
      Waiting();
      Knows();
      Prepare(o, keys);
      NodesOf(o);
      Unqueued(first, ledger[o]);
      var count;
      count, error := AppendNodes(o, first, base);
      ok := count == |o.nodes|;
      JoiningAll(first.queues, shape.queues, ledger[o], count);
      if ok {
        Launch(o);
      } else {
        ghost var joined, nodes, results := Now(), ledger[o], Answers();
        failed := Undo(o, count, error);
        UndoneFacts(old(Now()), joined, Now(), failed, o);
        BlamedDone(old(Answers()), results, Answers(), [], failed, o, error);
        assert failed + [] == failed;
        JoinedExactly(old(shape), joined.shape, shape, failed, nodes, count);
        SameKeys(nodes, keys);
      }
    }

    /** Completes the first operation in flight, blanking its registrations. */
    method CompleteFirst(result: int, ghost all: seq<Operation>, ghost left: seq<Operation>, ghost wires: Wires)
      returns (ghost wires': Wires)
      requires inflight != [] && NoRepeat(inflight) && Settled(all, inflight, left)
      requires Sane(shape, ledger, all, {}, nextSequence)
      requires Match(wires) && Blanked(shape.wires, wires, ledger, left)
      requires Unregistered(ledger, left) && wires.Keys == shape.wires.Keys
      requires forall x <- left :: x.result == result
      modifies this`inflight, this`done, shape.wires.Keys, ledger.Keys
      ensures inflight == old(inflight)[1..] && NoRepeat(inflight) && done == [old(inflight)[0]] + old(done)
      ensures Settled(all, inflight, [old(inflight)[0]] + left) && wires'.Keys == shape.wires.Keys && Match(wires')
      ensures Blanked(shape.wires, wires', ledger, [old(inflight)[0]] + left)
      ensures Unregistered(ledger, [old(inflight)[0]] + left)
      ensures forall x <- [old(inflight)[0]] + left :: x.result == result
      ensures forall x <- ledger :: x != old(inflight)[0] ==> x.result == old(x.result)
    {
      hide Sane, Settled, Match, Blanked, Unregistered, Blank, NoRepeat;
      var o := inflight[0];
      SettledIn(all, inflight, left, o);
      KnownNodes(shape, ledger, all, nextSequence, o);
      BlankedMore(shape.wires, wires, ledger, left, o);
      BlankKeys(wires, ledger[o]);
      SettledFirst(inflight);
      SettledMore(all, inflight, inflight[1..], left, [o]);
      inflight := inflight[1..];
      done := [o] + done;
      wires' := ResetOne(o, result, ledger, left, wires);
    }

    /** Completes every operation in flight, blanking its registrations one by one. */
    method CompleteAll(result: int) returns (ghost left: seq<Operation>, ghost wires: Wires)
      requires Valid() && busy == {}
      modifies this`inflight, this`done, shape.wires.Keys, ledger.Keys
      ensures inflight == [] && done == left + old(done) && Settled(old(inflight), [], left)
      ensures Match(wires) && Blanked(shape.wires, wires, ledger, left) && Unregistered(ledger, left)
      ensures forall o <- left :: o.result == result
      ensures forall o <- ledger :: o !in left ==> o.result == old(o.result)
    {
      hide Sane, Settled, Match, Blanked, Unregistered, Blank, NoRepeat;
      left, wires := [], shape.wires;
      SettledNone(inflight);
      BlankedNone(shape.wires, ledger);
      UnregisteredNone(ledger);
      SaneSimple(shape, ledger, inflight, busy, nextSequence);
      while inflight != []
        invariant Settled(old(inflight), inflight, left) && done == left + old(done) && NoRepeat(inflight)
        invariant Match(wires) && Blanked(shape.wires, wires, ledger, left) && Unregistered(ledger, left)
        invariant wires.Keys == shape.wires.Keys && forall o <- left :: o.result == result
        invariant forall o <- ledger :: o !in left ==> o.result == old(o.result)
        decreases |inflight|
      {
        ghost var o := inflight[0];
        wires := CompleteFirst(result, old(inflight), left, wires);
        left := [o] + left;
      }
    }

    /** Forgets every registration and completes every operation in flight. */
    method AbortInflight(result: int) returns (ghost left: seq<Operation>)
      requires Valid() && Idle()
      modifies this, shape.wires.Keys, ledger.Keys
      ensures Valid() && Idle() && inflight == [] && (forall k :: Queue(shape.queues, k) == [])
      ensures done == left + old(done) && Settled(old(inflight), [], left) && forall k :: HeadArmed(shape, k)
      ensures forall o <- left :: o.result == result
      ensures forall o <- old(ledger) :: o !in left ==> o.result == old(o.result)
      ensures shape.wires.Keys == old(shape.wires).Keys && ledger.Keys == old(ledger).Keys
    {
      hide Sane, Settled, Match, Blanked, Unregistered;
      ghost var wires;
      left, wires := CompleteAll(result);
      AllBlank(shape, wires, ledger, old(inflight), nextSequence, left);
      NoneRegistered(ledger, old(inflight), left);
      EmptySane(shape, ledger, old(inflight), nextSequence);
      shape := Shape(map[], wires);
      ledger := map o <- ledger :: [];
    }

    /** The operation is fully registered. */
    method Launch(o: Operation)
      requires Valid() && busy == {o} && o !in inflight && o in ledger && AllQueued(shape.queues, ledger[o])
      requires forall x <- ledger :: x != o && x !in inflight ==> ledger[x] == []
      modifies this`inflight, this`busy
      ensures Valid() && Idle() && inflight == [o] + old(inflight)
    {
      hide Sane, AllQueued;
      LaunchedSane(shape, ledger, inflight, nextSequence, o);
      inflight := [o] + inflight;
      busy := {};
    }

    /** Completes the busy operation, which is not in flight and in no queue. */
    method Forget(o: Operation, result: int)
      requires Valid() && busy == {o} && o !in inflight && o in ledger && Absent(shape.queues, o)
      requires forall x <- ledger :: x != o && x !in inflight ==> ledger[x] == []
      modifies this`ledger, this`busy, this`done, o
      ensures Valid() && Idle() && done == [o] + old(done) && ledger == old(ledger)[o := []] && o.result == result
      ensures Answers() == old(Answers())[o := result]
    {
      hide Sane, Absent;
      RetiredSane(shape, ledger, inflight, busy, nextSequence, o);
      LessAbsent(inflight, o);
      o.nodes, o.result := [], result;
      ledger := ledger[o := []];
      busy := busy - {o};
      done := [o] + done;
      assert ledger.Keys == old(ledger).Keys;
    }

    /** Undoes the first `count` registrations of an operation and completes it. */
    method Undo(o: Operation, count: nat, result: int) returns (ghost failed: seq<Operation>)
      requires Valid() && busy == {o} && o !in inflight && o in ledger && count <= |ledger[o]|
      requires QueuedBut(shape.queues, ledger[o][..count], null)
      requires forall n <- ledger[o][count..] :: n !in Queue(shape.queues, n.key)
      requires forall x <- ledger :: x != o && x !in inflight ==> ledger[x] == []
      modifies this, shape.wires.Keys, ledger.Keys
      ensures Valid() && Idle() && o !in inflight && done == [o] + failed + old(done)
      ensures Settled(old(inflight), inflight, failed)
      ensures Keeps(old(Now()), Now(), failed) && (forall x <- shape.wires :: x in old(shape.wires))
      ensures ledger.Keys == old(ledger).Keys
      ensures o.result == result && Exactly(old(shape), shape, failed, KeysOf(old(ledger)[o]))
      ensures o !in failed && Blamed(old(Answers())[o := result], Answers(), failed)
      ensures forall x <- inflight :: x in old(ledger) && x in ledger && ledger[x] == old(ledger)[x]
    {
      hide Valid, Queue, QueuedBut, Settled, Advanced, Keeps, Absent, Apart, Exactly, Answers, Blamed;
      Knows();
      failed := Unregister(o, count, null);
      AdvancedOut(old(Now()), Now(), failed);
      KeepsShape(old(Now()), Now(), failed);
      UndoLedger(old(Now()), Now(), failed, o);
      ghost var blamed := Answers();
      Forget(o, result);
      BlamedPut(old(Answers()), blamed, failed, o, result);
    }

    lemma Waiting()
      requires Valid() && busy == {}
      ensures Waits(shape.queues, inflight, nextSequence) && Formed(shape)
    {
      forall k ensures forall n <- Queue(shape.queues, k) :: n.owner in inflight && n.sequence < nextSequence {
        assert Orderly(shape, k);
      }
    }

    /** Operations without a registration that are not in flight, and so complete. */
    ghost predicate Idle()
      reads this
    {
      busy == {} && forall o <- ledger :: o !in inflight ==> ledger[o] == []
    }

    /**
     * Decodes a batch of events: each operation is completed at most once, and leaves the
     * operations in flight exactly when it is.
     */
    method ProcessBatch(events: seq<Event>)
      returns (ghost left: seq<Operation>, ghost failed: seq<Operation>, ghost reported: Results)
      requires Valid() && Idle()
      requires forall e <- events :: e.operation in ledger && Armed(shape, ledger[e.operation], e.filter)
      modifies this, shape.wires.Keys, ledger.Keys
      ensures Valid() && Idle() && done == left + old(done) && Settled(old(inflight), inflight, left)
      ensures Advanced(old(Now()), Now(), left) && Keeps(old(Now()), Now(), failed) && forall o <- failed :: o in left
      ensures Exactly(old(shape), shape, failed, EventKeys(events, old(ledger)))
      ensures Blamed(old(Answers()) + reported, Answers(), failed)
      ensures forall o <- reported :: o !in failed && Reports(events, o, reported[o])
      ensures forall o <- left :: o in failed || o in reported
      ensures forall x <- shape.wires :: x in old(shape.wires)
      ensures forall e <- events :: (exists n <- old(ledger)[e.operation] :: n.key.filter == e.filter) ==>
                e.operation !in inflight
    {
      hide Valid, Settled, Armed, Formed, Answers, Batched, Advanced, EventKeys, Exactly, Apart, Keeps, Blamed;
      IsFormed();
      Knows();
      ghost var start, keys := Now(), EventKeys(events, ledger);
      left, failed, reported := [], [], map[];
      BatchedNone(Now(), Answers(), events, keys);
      var i := 0;
      while i < |events|
        invariant 0 <= i <= |events| && Valid() && Idle() && done == left + old(done)
        invariant Batched(start, Now(), old(Answers()), Answers(), events, left, failed, reported, keys)
        invariant forall e <- events :: e.operation in ledger && Armed(shape, ledger[e.operation], e.filter)
        invariant forall e <- events[..i] :: (exists n <- old(ledger)[e.operation] :: n.key.filter == e.filter) ==>
                  e.operation !in inflight
        invariant forall x <- shape.wires :: x in old(shape.wires)
        invariant ledger.Keys == old(ledger).Keys
      {
        var e := events[i];
        ghost var before, results := Now(), Answers();
        Knows();
        ghost var f;
        var enqueued;
        enqueued, f := ProcessEvent(e.operation, e.filter, e.result);
        BatchedLedger(start, before, left, e.operation, old(Answers()), results, events, failed, reported, keys);
        if enqueued {
          AllNodesQueued();
          BatchedMore(start, before, Now(), old(Answers()), results, Answers(), events, i, left, failed, f, reported);
          AdvancedOut(before, Now(), [e.operation] + f);
          forall o <- ledger | o !in inflight ensures ledger[o] == [] {
            AdvancedLedger(before, Now(), [e.operation] + f, o);
            AdvancedGoes(before, Now(), [e.operation] + f, o);
          }
          forall x <- events ensures x.operation in ledger && Armed(shape, ledger[x.operation], x.filter) {
            StillArmed(before, Now(), [e.operation] + f, x.operation, x.filter);
          }
          reported := reported[e.operation := e.result];
          left, failed := [e.operation] + f + left, f + failed;
        }
        assert events[..i + 1] == events[..i] + [e];
        i := i + 1;
      }
      assert events[..i] == events;
      BatchEnds(start, left, failed, reported, old(Answers()), events, keys);
    }

    lemma BatchEnds(start: Snap, left: seq<Operation>, failed: seq<Operation>, reported: Results, results: Results,
                    events: seq<Event>, keys: set<Key>)
      requires Valid() && Formed(start.shape) && (forall o <- start.inflight :: o in start.ledger)
      requires Batched(start, Now(), results, Answers(), events, left, failed, reported, keys)
      ensures Settled(start.inflight, inflight, left) && Exactly(start.shape, shape, failed, keys)
      ensures Advanced(start, Now(), left) && Keeps(start, Now(), failed)
      ensures Blamed(results + reported, Answers(), failed)
      ensures (forall o <- failed :: o in left) && (forall o <- left :: o in failed || o in reported)
      ensures forall o <- reported :: o !in failed && Reports(events, o, reported[o])
    {
      hide Valid, Formed, Settled, Advanced, Keeps, Apart, Exactly, Blamed, Reports, Answers;
      AdvancedOut(start, Now(), left);
      AdvancedExact(start, left, failed, keys);
    }

    lemma NodesOf(o: Operation)
      requires Valid() && o in ledger
      ensures o.nodes == ledger[o] && forall n <- ledger[o] :: n.owner == o
      ensures forall i, j :: 0 <= i < j < |ledger[o]| ==>
                ledger[o][i] != ledger[o][j] && ledger[o][i].key != ledger[o][j].key
    {
      SaneNodes(shape, ledger, inflight, busy, nextSequence, o);
    }

    /** An operation none of whose registrations is queued. */
    lemma NoneQueued(o: Operation)
      requires Valid() && o in ledger
      requires forall n <- ledger[o] :: n !in Queue(shape.queues, n.key)
      ensures Absent(shape.queues, o)
    {
      forall k ensures forall n <- Queue(shape.queues, k) :: n.owner != o {
        assert Orderly(shape, k);
        assert forall n <- Queue(shape.queues, k) :: OwnedBy(n, ledger) && n.key == k;
      }
    }

    constructor ()
      ensures Valid() && Idle() && inflight == [] && forall k :: HeadArmed(shape, k)
    {
      inflight, done, nextSequence := [], [], 0;
      shape, ledger, busy := Shape(map[], map[]), map[], {};
      new;
      assert forall k :: Orderly(shape, k);
    }

    /** Each operation in flight waits for one key. */
    ghost predicate Single()
      reads this
    {
      forall o <- inflight :: o in ledger && |ledger[o]| == 1
    }

    lemma OnlyNode(o: Operation)
      requires Valid() && Single() && o in inflight
      ensures |o.nodes| == 1 && (o.nodes[0].armed ==> Armed(shape, ledger[o], o.nodes[0].key.filter))
    {
      hide Formed;
    }

    /** Some batch of events the kernel may report: each for an armed registration. */
    method SomeBatch(size: nat) returns (events: seq<Event>)
      requires Valid() && Idle() && Single()
      ensures Valid()
      ensures forall e <- events ::
                e.operation in inflight && e.operation in ledger && Armed(shape, ledger[e.operation], e.filter)
    {
      hide Valid, Armed;
      events := [];
      Knows();
      for i := 0 to size
        invariant Valid() && Single()
        invariant forall e <- events ::
                  e.operation in inflight && e.operation in ledger && Armed(shape, ledger[e.operation], e.filter)
      {
        if inflight != [] {
          var j :| 0 <= j < |inflight|;
          OnlyNode(inflight[j]);
          if inflight[j].nodes[0].armed {
            var result: int := *;
            events := events + [Event(inflight[j], inflight[j].nodes[0].key.filter, result)];
          }
        }
      }
    }

    method NewOperation() returns (o: Operation)
      requires Valid() && Idle() && Single() && forall k :: HeadArmed(shape, k)
      ensures Valid() && Idle() && Single() && (forall k :: HeadArmed(shape, k)) && fresh(o)
    {
      hide Sane, HeadArmed;
      o := new Operation();
    }

    /** One registration for one key, of an operation that is not in flight. */
    method RegisterStep(o: Operation, key: Key)
      requires Valid() && Idle() && Single() && (forall k :: HeadArmed(shape, k)) && o !in inflight
      modifies this, shape.wires.Keys, ledger.Keys, o
      ensures Valid() && Idle() && Single() && forall k :: HeadArmed(shape, k)
      ensures (forall n <- shape.wires :: n in old(shape.wires) || fresh(n)) && ledger.Keys == old(ledger).Keys + {o}
    {
      hide Valid, HeadArmed, Keeps, Advanced, Queue, Settled, Spares;
      ghost var before := Now();
      var ok, error;
      ghost var failed;
      ok, error, failed := Register(o, [key]);
      if !ok {
        SettledOut(before.inflight, inflight, failed);
      }
      SingleSpares(before, failed);
    }

    /** One batch of events. */
    method BatchStep(size: nat)
      requires Valid() && Idle() && Single() && forall k :: HeadArmed(shape, k)
      modifies this, shape.wires.Keys, ledger.Keys
      ensures Valid() && Idle() && Single() && forall k :: HeadArmed(shape, k)
      ensures (forall n <- shape.wires :: n in old(shape.wires)) && ledger.Keys == old(ledger).Keys
    {
      hide Valid, HeadArmed, Keeps, Advanced, Queue, Settled, Spares, Armed;
      var events := SomeBatch(size);
      ghost var left, failed;
      ghost var reported;
      left, failed, reported := ProcessBatch(events);
      AdvancedOut(old(Now()), Now(), left);
      SingleSteps(old(Now()), Now(), left, failed);
    }

    /**
     * Any run of registrations, of new operations or of ones that have completed, batches of
     * events and aborts, with operations that wait for one key: every queue stays linked in
     * registration order with its head, and only its head, armed.
     */
    method Run(steps: nat)
      requires Valid() && Idle() && Single() && forall k :: HeadArmed(shape, k)
      modifies this, shape.wires.Keys, ledger.Keys
      ensures Valid() && Idle() && Single() && forall k :: HeadArmed(shape, k)
    {
      hide Valid, HeadArmed, Settled, Single, Idle;
      var known: seq<Operation> := [];
      for i := 0 to steps
        invariant Valid() && Idle() && Single() && forall k :: HeadArmed(shape, k)
        invariant forall n <- shape.wires :: n in old(shape.wires) || fresh(n)
        invariant forall o <- ledger :: o in old(ledger) || fresh(o)
        invariant forall j :: 0 <= j < |known| ==> fresh(known[j])
      {
        var choice: int, again: bool, key: Key, size: nat := *, *, *, *;
        if choice == 0 {
          var o := NewOperation();
          known := known + [o];
          if again {
            var j :| 0 <= j < |known|;
            o := known[j];
          }
          if o !in inflight {
            RegisterStep(o, key);
          }
        } else if choice == 1 {
          BatchStep(size);
        } else if choice == 2 {
          var result: int := *;
          ghost var left := AbortInflight(result);
          NothingLeft();
        }
      }
    }

    lemma NothingLeft()
      requires inflight == []
      ensures Single()
    {
    }
  }
}
