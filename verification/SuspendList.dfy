/**
 * The suspend list of sleeping workers and the directed wake that rotates through it with a
 * saved cursor. The cursor is not maintained when a worker leaves the list, so it may name a
 * worker that is gone.
 */
module SuspendList {
  import opened HookList
  import opened Sequences

  /** The position of `h` in the list, or 0 when it is not there. */
  ghost function Position(items: seq<Hook>, h: Hook?): nat
    ensures Position(items, h) < |items| || (items == [] && Position(items, h) == 0)
  {
    if exists i :: 0 <= i < |items| && items[i] == h then
      var i :| 0 <= i < |items| && items[i] == h;
      i
    else 0
  }

  /** The worker whose turn it is, and the cursor left behind. */
  ghost function Turn(items: seq<Hook>, cursor: Hook?): Hook
    requires items != []
  {
    items[Position(items, cursor)]
  }

  ghost function Following(items: seq<Hook>, cursor: Hook?): Hook?
    requires items != []
  {
    var i := Position(items, cursor);
    if i + 1 < |items| then items[i + 1] else null
  }

  /** A member has one position; anything else counts as being at the front. */
  lemma Located(head: Hook?, items: seq<Hook>, h: Hook?)
    requires Spells(head, null, items, null)
    ensures forall i :: 0 <= i < |items| && items[i] == h ==> Position(items, h) == i
    ensures (forall i :: 0 <= i < |items| ==> items[i] != h) ==> Position(items, h) == 0
  {
    forall i | 0 <= i < |items| && items[i] == h ensures Position(items, h) == i {
      LinksAt(head, null, items, i);
      LinksAt(head, null, items, Position(items, h));
    }
  }

  class Suspended {
    var head: Hook?
    var cursor: Hook?
    ghost var items: seq<Hook>

    ghost predicate Valid()
      reads this, items`prev, items`next
    {
      Spells(head, null, items, null)
    }

    constructor ()
      ensures Valid() && items == []
    {
      head, cursor, items := null, null, [];
    }

    method LinkNode(node: Hook)
      requires Valid() && node !in items
      modifies this, node, items`prev
      ensures Valid() && items == [node] + old(items) && cursor == old(cursor)
    {
      head := LinkFront(head, node, items);
      items := [node] + items;
    }

    /** Unlinks the node if it is in the list; the cursor stays as it is. */
    method UnlinkNode(node: Hook)
      requires Valid() && (node in items || node.prev == null)
      modifies this, node, items
      ensures Valid() && cursor == old(cursor)
      ensures node in old(items) ==>
                exists i :: 0 <= i < |old(items)| && old(items)[i] == node &&
                            items == old(items)[..i] + old(items)[i + 1..]
      ensures node !in old(items) ==> items == old(items)
    {
      var linked := InList(head, node, items);
      if linked {
        ghost var i :| 0 <= i < |items| && items[i] == node;
        ghost var a, b := items[..i], items[i + 1..];
        assert items == a + [node] + b;
        head := Unlink(head, node, a, b);
        items := a + b;
      }
    }

    /** Signals exactly one worker of a non-empty list, the one at the cursor or the first. */
    method WakeOne() returns (woken: Hook?)
      requires Valid()
      modifies this`cursor
      ensures Valid()
      ensures woken == null <==> items == []
      ensures items != [] ==> woken == Turn(items, old(cursor)) && cursor == Following(items, old(cursor))
    {
      var start := head;
      if cursor != null {
        var scan := start;
        ghost var i := 0;
        assert items[..0] == [];
        while scan != null && scan != cursor
          invariant i <= |items| && Spells(scan, Last(null, items[..i]), items[i..], null)
          invariant cursor !in items[..i]
          decreases |items| - i
        {
          assert items[i..][1..] == items[i + 1..];
          assert items[..i + 1] == items[..i] + [items[i]];
          scan := scan.next;
          i := i + 1;
        }
        if scan != null {
          start := cursor;
        } else {
          cursor := null;
        }
      }
      if start == null {
        return null;
      }
      woken := start;
      Located(head, items, old(cursor));
      LinksAt(head, null, items, Position(items, old(cursor)));
      cursor := start.next;
    }
  }

  // ----- fairness -----------------------------------------------------------------------

  /** The workers woken by `k` wakes in a row while the list does not change. */
  ghost function Wakes(items: seq<Hook>, cursor: Hook?, k: nat): seq<Hook>
    requires items != []
    decreases k
  {
    if k == 0 then [] else [Turn(items, cursor)] + Wakes(items, Following(items, cursor), k - 1)
  }

  lemma PositionOf(items: seq<Hook>, i: nat)
    requires NoRepeat(items) && i < |items|
    ensures Position(items, items[i]) == i
  {
  }

  /** Wakes run up to the end of the list in order. */
  lemma {:induction false} WakesToEnd(items: seq<Hook>, cursor: Hook?, k: nat)
    requires NoRepeat(items) && items != [] && k <= |items| - Position(items, cursor)
    ensures var i := Position(items, cursor); Wakes(items, cursor, k) == items[i..i + k]
    decreases k
  {
    var i := Position(items, cursor);
    if k > 1 {
      PositionOf(items, i + 1);
      WakesToEnd(items, items[i + 1], k - 1);
      assert items[i..i + k] == [items[i]] + items[i + 1..i + k];
    } else if k == 1 {
      assert Wakes(items, Following(items, cursor), 0) == [];
      assert items[i..i + 1] == [items[i]];
    }
  }

  /** Wakes that go past the end start again at the front. */
  lemma {:induction false} WakesSplit(items: seq<Hook>, cursor: Hook?, k: nat, m: nat)
    requires NoRepeat(items) && items != [] && k == |items| - Position(items, cursor) && Position(items, null) == 0
    ensures Wakes(items, cursor, k + m) == Wakes(items, cursor, k) + Wakes(items, null, m)
    decreases k
  {
    var i := Position(items, cursor);
    if k == 1 {
      assert Following(items, cursor) == null;
      assert Wakes(items, cursor, 1) == [Turn(items, cursor)] + Wakes(items, null, 0);
    } else {
      PositionOf(items, i + 1);
      WakesSplit(items, items[i + 1], k - 1, m);
    }
  }

  /**
   * While the list does not change, as many wakes in a row as it has members signal each of
   * them exactly once, wherever the cursor was and even if it named nobody in the list.
   */
  lemma FairWakes(items: seq<Hook>, cursor: Hook?)
    requires NoRepeat(items) && items != []
    ensures var i := Position(items, cursor); Wakes(items, cursor, |items|) == items[i..] + items[..i]
    ensures multiset(Wakes(items, cursor, |items|)) == multiset(items)
  {
    NullIsFirst(items);
    hide Wakes, Position, NoRepeat;
    var i := Position(items, cursor);
    WakesToEnd(items, cursor, |items| - i);
    WakesToEnd(items, null, i);
    WakesSplit(items, cursor, |items| - i, i);
    assert items[0..i] == items[..i];
    assert items == items[..i] + items[i..];
  }

  lemma NullIsFirst(items: seq<Hook>)
    ensures Position(items, null) == 0
  {
  }
}
