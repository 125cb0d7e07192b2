/**
 * The intrusive task queues: operations linked through `next`, pushed at the front one by one
 * or list by list, popped as a whole, and reversed before they run. As a pair of push and fetch
 * the queue is first-in first-out, which the order of every batch rests on.
 */
module OperationQueue {
  import opened Sequences

  /** The completion an operation will deliver when it runs. */
  datatype Fate = Pending | Failed | Stopped

  /** `budget` bounds the operations its callbacks will publish, and those in turn. */
  class Operation {
    var next: Operation?
    var result: int
    var fate: Fate
    const budget: nat

    constructor (budget: nat)
      ensures next == null && fate == Pending && this.budget == budget
    {
      next, result, fate := null, 0, Pending;
      this.budget := budget;
    }
  }

  /** Following `next` from `p` gives `s`, and ends. */
  ghost predicate Chain(p: Operation?, s: seq<Operation>)
    reads s`next
    decreases |s|
  {
    if s == [] then p == null
    else p == s[0] && s[0] !in s[1..] && Chain(s[0].next, s[1..])
  }

  /** Pushes one operation. */
  method Push(head: Operation?, operation: Operation, ghost s: seq<Operation>) returns (head': Operation)
    requires Chain(head, s) && operation !in s
    modifies operation`next
    ensures head' == operation && Chain(head', [operation] + s)
  {
    operation.next := head;
    head' := operation;
    assert ([operation] + s)[1..] == s;
  }

  /** A chain that starts like `s` goes on like it, as long as the links of `s` hold. */
  lemma {:induction false} ChainFollows(p: Operation?, t: seq<Operation>, s: seq<Operation>, i: nat)
    requires Chain(p, t) && i < |s| && p == s[0] && forall j, k :: 0 <= j < i && k == j + 1 ==> s[j].next == s[k]
    ensures i < |t| && t[i] == s[i]
    decreases i
  {
    if i > 0 {
      var rest := s[1..];
      assert s[0].next == s[1];
      forall j, k | 0 <= j < i - 1 && k == j + 1 ensures rest[j].next == rest[k] {
        assert s[j + 1].next == s[k + 1];
      }
      ChainFollows(p.next, t[1..], rest, i - 1);
    }
  }

  lemma {:induction false} ChainLinks(p: Operation?, s: seq<Operation>, i: nat)
    requires Chain(p, s) && i + 1 < |s|
    ensures s[i].next == s[i + 1] && s[i] !in s[i + 1..]
    decreases i
  {
    if i > 0 {
      ChainLinks(p.next, s[1..], i - 1);
    }
  }

  /**
   * Pushes an operation that may be on the queue already, as a second completion does. The
   * queue stays a list exactly when it is not: otherwise its links never end, whatever `t`
   * they are taken to spell.
   */
  method PushAgain(head: Operation?, operation: Operation, ghost s: seq<Operation>, ghost t: seq<Operation>)
    returns (head': Operation)
    requires Chain(head, s)
    modifies operation`next
    ensures head' == operation
    ensures operation !in s ==> Chain(head', [operation] + s)
    ensures operation in s ==> !Chain(head', t)
  {
    forall i, j, k | 0 <= j < i < |s| && k == j + 1 && s[i] == operation
      ensures s[j].next == s[k] && s[j] != operation
    {
      ChainLinks(head, s, j);
      assert operation == s[k..][i - k];
    }
    operation.next := head;
    head' := operation;
    if operation !in s {
      assert ([operation] + s)[1..] == s;
    } else if Chain(head', t) {
      ghost var i :| 0 <= i < |s| && s[i] == operation;
      ChainFollows(head, t[1..], s, i);
    }
  }

  /** Moves a list, one operation after the other, to the front of a queue. */
  method PushAll(head: Operation?, operations: Operation?, ghost s: seq<Operation>, ghost t: seq<Operation>)
    returns (head': Operation?)
    requires Chain(head, s) && Chain(operations, t) && forall o <- t :: o !in s
    modifies t`next
    ensures Chain(head', Reverse(t) + s)
  {
    hide Reverse;
    head' := head;
    var rest := operations;
    ghost var moved: seq<Operation>, left: seq<Operation> := s, t;
    PushedNone(s, t);
    while rest != null
      invariant Chain(rest, left) && Chain(head', moved) && Reverse(left) + moved == Reverse(t) + s
      invariant forall o <- left :: o !in moved && o in t
      decreases |left|
    {
      var operation: Operation := rest;
      assert operation == left[0] && operation in left;
      rest := rest.next;
      operation.next := null;
      head' := Push(head', operation, moved);
      PushedOne(left, moved);
      moved, left := [operation] + moved, left[1..];
    }
    PushedNone(moved, left);
  }

  lemma PushedNone<T>(s: seq<T>, t: seq<T>)
    ensures t == [] ==> Reverse(t) + s == s
  {
  }

  lemma PushedOne<T>(left: seq<T>, moved: seq<T>)
    requires left != []
    ensures Reverse(left[1..]) + ([left[0]] + moved) == Reverse(left) + moved
  {
  }

  /** Reverses a list in place. */
  method ReverseTasks(tasks: Operation?, ghost s: seq<Operation>) returns (reversed: Operation?)
    requires Chain(tasks, s)
    modifies s`next
    ensures Chain(reversed, Reverse(s))
  {
    hide Reverse;
    reversed := null;
    var rest := tasks;
    ghost var moved: seq<Operation>, left: seq<Operation> := [], s;
    assert Reverse(s) + [] == Reverse(s);
    while rest != null
      invariant Chain(rest, left) && Chain(reversed, moved) && Reverse(left) + moved == Reverse(s)
      invariant forall o <- left :: o !in moved && o in s
      decreases |left|
    {
      var next := rest.next;
      rest.next := reversed;
      reversed := rest;
      PushedOne(left, moved);
      assert ([rest] + moved)[1..] == moved;
      moved, left := [rest] + moved, left[1..];
      rest := next;
    }
    PushedNone(moved, left);
  }

  /** Runs a list front to back, detaching each operation before it runs. */
  method ExecuteTasks(tasks: Operation?, ghost s: seq<Operation>) returns (ran: seq<Operation>)
    requires Chain(tasks, s)
    modifies s`next
    ensures ran == s && forall o <- s :: o.next == null
  {
    ran := [];
    var rest := tasks;
    ghost var k := 0;
    assert s[0..] == s;
    while rest != null
      invariant k <= |s| && Chain(rest, s[k..]) && ran == s[..k]
      invariant forall j :: 0 <= j < k ==> s[j].next == null
      decreases |s| - k
    {
      var operation: Operation := rest;
      ghost var after := s[k..][1..];
      assert operation == s[k] && operation !in after && after == s[k + 1..];
      rest := rest.next;
      operation.next := null;
      assert Chain(rest, after);
      ran, k := ran + [operation], k + 1;
    }
  }

  /**
   * A task queue with its push and fetch. `arrivals` are the operations in it, first come
   * first; the links hold them the other way round.
   */
  class TaskQueue {
    var head: Operation?
    ghost var arrivals: seq<Operation>

    ghost predicate Valid()
      reads this, arrivals`next
    {
      Chain(head, Reverse(arrivals))
    }

    constructor ()
      ensures Valid() && arrivals == []
    {
      head, arrivals := null, [];
    }

    method Add(operation: Operation)
      requires Valid() && operation !in arrivals
      modifies this, operation`next
      ensures Valid() && arrivals == old(arrivals) + [operation]
    {
      hide Reverse;
      ReverseMembers(arrivals);
      head := Push(head, operation, Reverse(arrivals));
      ReverseAdd(arrivals, operation);
      arrivals := arrivals + [operation];
    }

    /** Adds a list, whose first operation arrives first. */
    method AddAll(operations: Operation?, ghost t: seq<Operation>)
      requires Valid() && Chain(operations, t) && forall o <- t :: o !in arrivals
      modifies this, t`next
      ensures Valid() && arrivals == old(arrivals) + t
    {
      hide Reverse;
      ReverseMembers(arrivals);
      head := PushAll(head, operations, Reverse(arrivals), t);
      ReverseJoin(arrivals, t);
      arrivals := arrivals + t;
    }

    method PopAll() returns (operations: Operation?)
      requires Valid()
      modifies this
      ensures Valid() && arrivals == [] && Chain(operations, Reverse(old(arrivals)))
    {
      operations := head;
      head, arrivals := null, [];
    }

    /** Takes everything, in the order of arrival. */
    method Fetch() returns (operations: Operation?)
      requires Valid()
      modifies this, arrivals`next
      ensures Valid() && arrivals == [] && Chain(operations, old(arrivals))
      ensures operations == null <==> old(arrivals) == []
    {
      hide Reverse;
      ghost var all := arrivals;
      ReverseMembers(all);
      ReverseTwice(all);
      var taken := PopAll();
      operations := ReverseTasks(taken, Reverse(all));
    }
  }

  lemma ReverseAdd<T>(s: seq<T>, x: T)
    ensures Reverse(s + [x]) == [x] + Reverse(s)
  {
  }
}
