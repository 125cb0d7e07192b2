/**
 * The intrusive doubly linked lists: the inflight operations of a worker and the suspend list.
 * A hook is the pair of links embedded in a list member; membership is read off the links.
 */
module HookList {
  class Hook {
    var prev: Hook?
    var next: Hook?

    constructor ()
      ensures prev == null && next == null
    {
      prev, next := null, null;
    }
  }

  /** From `p`, which is preceded by `back`, the links spell `s` in both directions, up to `after`. */
  ghost predicate Spells(p: Hook?, back: Hook?, s: seq<Hook>, after: Hook?)
    reads s`prev, s`next
    decreases |s|
  {
    if s == [] then p == after
    else p == s[0] && s[0] !in s[1..] && s[0].prev == back && Spells(s[0].next, s[0], s[1..], after)
  }

  ghost function First(s: seq<Hook>, after: Hook?): Hook? {
    if s == [] then after else s[0]
  }

  ghost function Last(back: Hook?, s: seq<Hook>): Hook? {
    if s == [] then back else s[|s| - 1]
  }

  ghost predicate Apart(a: seq<Hook>, b: seq<Hook>) {
    forall h <- a :: h !in b
  }

  lemma {:induction false} Split(p: Hook?, back: Hook?, a: seq<Hook>, b: seq<Hook>, after: Hook?)
    requires Spells(p, back, a + b, after)
    ensures Spells(p, back, a, First(b, after)) && Spells(First(b, after), Last(back, a), b, after)
    ensures Apart(a, b)
    decreases |a|
  {
    if a == [] {
      assert a + b == b;
    } else {
      assert (a + b)[1..] == a[1..] + b;
      Split(a[0].next, a[0], a[1..], b, after);
      assert Last(back, a) == Last(a[0], a[1..]);
    }
  }

  lemma {:induction false} Join(p: Hook?, back: Hook?, a: seq<Hook>, b: seq<Hook>, after: Hook?)
    requires Spells(p, back, a, First(b, after)) && Spells(First(b, after), Last(back, a), b, after)
    requires Apart(a, b)
    ensures Spells(p, back, a + b, after)
    decreases |a|
  {
    if a == [] {
      assert a + b == b;
    } else {
      assert (a + b)[1..] == a[1..] + b;
      assert Last(back, a) == Last(a[0], a[1..]);
      Join(a[0].next, a[0], a[1..], b, after);
    }
  }

  /** Inserts at the front. */
  method LinkFront(head: Hook?, node: Hook, ghost s: seq<Hook>) returns (head': Hook)
    requires Spells(head, null, s, null) && node !in s
    modifies node, s`prev
    ensures head' == node && Spells(head', null, [node] + s, null)
  {
    node.prev := null;
    node.next := head;
    assert s != [] ==> s == [s[0]] + s[1..];
    if head != null {
      head.prev := node;
    }
    head' := node;
    assert ([node] + s)[1..] == s;
  }

  /** The stretch before a node, closed up over it. */
  method CloseBefore(head: Hook?, node: Hook, ghost a: seq<Hook>, ghost to: Hook?) returns (head': Hook?)
    requires Spells(head, null, a, node) && node !in a && node.prev == Last(null, a) && node.next == to
    modifies a`next
    ensures Spells(head', null, a, to)
  {
    head' := head;
    if node.prev != null {
      ghost var k := |a| - 1;
      assert a == a[..k] + [a[k]];
      Split(head, null, a[..k], [a[k]], node);
      assert a[k] !in a[..k] by {
        assert a[k] in [a[k]];
      }
      node.prev.next := node.next;
      assert Spells(a[k], Last(null, a[..k]), [a[k]], to);
      Join(head, null, a[..k], [a[k]], to);
    } else {
      head' := node.next;
    }
  }

  /** The stretch after a node, closed up over it. */
  method CloseAfter(node: Hook, ghost b: seq<Hook>, ghost back: Hook?)
    requires Spells(node.next, node, b, null) && node !in b && node.prev == back
    modifies b`prev
    ensures Spells(First(b, null), back, b, null)
  {
    if node.next != null {
      assert b == [b[0]] + b[1..];
      node.next.prev := node.prev;
    }
  }

  /** Closes the list up over a node on both sides. */
  method Bypass(head: Hook?, node: Hook, ghost a: seq<Hook>, ghost b: seq<Hook>) returns (head': Hook?)
    requires Spells(head, null, a, node) && Spells(node.next, node, b, null) && node.prev == Last(null, a)
    requires node !in a && node !in b && Apart(a, b)
    modifies a`next, b`prev
    ensures Spells(head', null, a, First(b, null)) && Spells(First(b, null), Last(null, a), b, null)
  {
    assert b != [] ==> node.next == b[0];
    head' := CloseBefore(head, node, a, First(b, null));
    assert forall h <- b :: h.next == old(h.next) && h.prev == old(h.prev);
    label Before:
    CloseAfter(node, b, Last(null, a));
    assert forall h <- a :: h.prev == old@Before(h.prev) && h.next == old@Before(h.next);
  }

  /** Takes a member out of its list. */
  method Unlink(head: Hook?, node: Hook, ghost a: seq<Hook>, ghost b: seq<Hook>) returns (head': Hook?)
    requires Spells(head, null, a + [node] + b, null)
    modifies a`next, b`prev, node
    ensures Spells(head', null, a + b, null) && node.prev == null && node.next == null
  {
    assert a + [node] + b == a + ([node] + b);
    Split(head, null, a, [node] + b, null);
    assert ([node] + b)[1..] == b;
    assert node in [node] + b && node !in a && node !in b && Apart(a, b);
    head' := Bypass(head, node, a, b);
    node.prev := null;
    node.next := null;
    Join(head', null, a, b, null);
  }

  /** The links of the member at position `i`. */
  lemma {:induction false} LinksAt(p: Hook?, back: Hook?, s: seq<Hook>, i: nat)
    requires Spells(p, back, s, null) && i < |s|
    ensures s[i].next == (if i + 1 < |s| then s[i + 1] else null)
    ensures forall j :: i < j < |s| ==> s[i] != s[j]
    decreases |s|
  {
    if i == 0 {
      assert |s| > 1 ==> s[1..][0] == s[1];
      assert forall j :: 0 < j < |s| ==> s[j] == s[1..][j - 1] && s[j] in s[1..];
    } else {
      LinksAt(s[0].next, s[0], s[1..], i - 1);
      assert forall j :: i < j < |s| ==> s[j] == s[1..][j - 1];
    }
  }

  /** Every member but the first has a predecessor. */
  lemma {:induction false} MemberLinks(p: Hook?, back: Hook?, s: seq<Hook>, h: Hook)
    requires Spells(p, back, s, null) && h in s
    ensures h == p || h.prev != null
    decreases |s|
  {
    if h != s[0] {
      MemberLinks(s[0].next, s[0], s[1..], h);
      if h == s[0].next {
        assert h == s[1..][0];
      }
    }
  }

  /** Membership as the code tests it: a node outside the list must have no predecessor. */
  method InList(head: Hook?, node: Hook, ghost s: seq<Hook>) returns (linked: bool)
    requires Spells(head, null, s, null) && (node in s || node.prev == null)
    ensures linked <==> node in s
  {
    linked := node.prev != null || head == node;
    if node in s {
      MemberLinks(head, null, s, node);
    }
  }
}
