/**
 * The timer queue's intrusive structures: a pairing heap of the active timers and a doubly
 * linked list of the inactive (already expired) ones, both threaded through the timer slots.
 */
module TimerHeap {
  import P = PairingTree
  import opened TimePoints

  class TimerSlot {
    /** The io_context the timer is registered with, if any. */
    var context: object?
    var expiry: TimePoint
    /** The waits submitted on this timer, head of the list first, and their counter. */
    var submitted: seq<nat>
    var submittedSize: nat
    /** In the heap: the parent of a first child, the left sibling of any other node. */
    var previous: TimerSlot?
    var child: TimerSlot?
    var next: TimerSlot?
    var active: bool

    constructor (expiry: TimePoint)
      ensures context == null && this.expiry == expiry && submitted == [] && submittedSize == 0
      ensures previous == null && child == null && next == null && !active
    {
      this.context, this.expiry, this.submitted, this.submittedSize := null, expiry, [], 0;
      this.previous, this.child, this.next, this.active := null, null, null, false;
    }
  }

  type Tree = P.Tree<TimerSlot>

  ghost function Slots(t: Tree): set<TimerSlot> {
    P.Elems(t)
  }

  // ----- links as a value ---------------------------------------------------------------

  /** The three link fields of a slot. */
  datatype Link = Link(previous: TimerSlot?, child: TimerSlot?, next: TimerSlot?)

  type Links = map<TimerSlot, Link>
  type Expiries = map<TimerSlot, int>

  /** The slots `all` have the links that `m` says. */
  ghost predicate Agree(m: Links, all: set<TimerSlot>)
    reads all`previous, all`child, all`next
  {
    forall s <- all :: s in m && m[s] == Link(s.previous, s.child, s.next)
  }

  /** The slots `all` have the expiries that `e` says. */
  ghost predicate Dated(e: Expiries, all: set<TimerSlot>)
    reads all`expiry
  {
    forall s <- all :: s in e && e[s] == s.expiry
  }

  /** The links starting at `p`, whose first node hangs off `prev`, spell out the forest `t`. */
  ghost predicate Spells(t: Tree, m: Links, p: TimerSlot?, prev: TimerSlot?) {
    match t
    case Leaf => p == null
    case Node(x, k, c, n) =>
      && p == x && x in m && m[x].previous == prev
      && Spells(c, m, m[x].child, x) && Spells(n, m, m[x].next, x)
  }

  ghost predicate SameOn(m: Links, m': Links, slots: set<TimerSlot>) {
    forall s <- slots :: s in m ==> s in m' && m'[s] == m[s]
  }

  lemma {:induction false} SpellsFrame(t: Tree, m: Links, m': Links, p: TimerSlot?, prev: TimerSlot?)
    requires Spells(t, m, p, prev) && SameOn(m, m', Slots(t))
    ensures Spells(t, m', p, prev)
  {
    if t.Node? {
      SpellsFrame(t.child, m, m', m[t.elem].child, t.elem);
      SpellsFrame(t.next, m, m', m[t.elem].next, t.elem);
    }
  }

  /** A forest is moved to another place by redirecting the back link of its first node. */
  lemma SpellsReroot(t: Tree, m: Links, m': Links, p: TimerSlot?, prev: TimerSlot?, prev': TimerSlot?)
    requires P.Distinct(t) && Spells(t, m, p, prev)
    requires t.Node? ==> t.elem in m && t.elem in m' && m'[t.elem] == m[t.elem].(previous := prev')
    requires t.Node? ==> SameOn(m, m', Slots(t) - {t.elem})
    ensures Spells(t, m', p, prev')
  {
    if t.Node? {
      SpellsFrame(t.child, m, m', m[t.elem].child, t.elem);
      SpellsFrame(t.next, m, m', m[t.elem].next, t.elem);
    }
  }

  /** Around any node but the first, the neighbours are nodes of the same forest. */
  lemma {:induction false} NodeLinks(t: Tree, m: Links, p: TimerSlot?, prev: TimerSlot?, x: TimerSlot)
    requires Spells(t, m, p, prev) && x in Slots(t)
    ensures x in m
    ensures m[x].next != null ==> m[x].next in Slots(t)
    ensures x == t.elem ==> m[x].previous == prev
    ensures x != t.elem ==>
              var q := m[x].previous;
              q != null && q in Slots(t) && q in m && (m[q].child == x || m[q].next == x)
    ensures Spells(P.Kids(t, x), m, m[x].child, x)
  {
    if x == t.elem {
      assert t.next.Node? ==> t.next.elem in Slots(t.next);
    } else if x in Slots(t.child) {
      NodeLinks(t.child, m, m[t.elem].child, t.elem, x);
    } else {
      NodeLinks(t.next, m, m[t.elem].next, t.elem, x);
    }
  }

  /** Only the first node of a forest hangs off nothing. */
  lemma FirstOnly(t: Tree, m: Links, p: TimerSlot?, x: TimerSlot)
    requires Spells(t, m, p, null) && x in Slots(t)
    ensures x in m && p != null && p in Slots(t) && (m[x].previous == null ==> x == p)
  {
    NodeLinks(t, m, p, null, x);
  }

  lemma HeadMember(t: Tree, m: Links, p: TimerSlot?, prev: TimerSlot?)
    requires Spells(t, m, p, prev)
    ensures p != null <==> t.Node?
    ensures p != null ==> p == t.elem && p in Slots(t)
    ensures p == null ==> Slots(t) == {}
  {
  }

  /** The neighbours of a node are not below it. */
  lemma {:induction false} NeighboursStay(t: Tree, m: Links, p: TimerSlot?, prev: TimerSlot?, x: TimerSlot)
    requires P.Distinct(t) && Spells(t, m, p, prev) && x in Slots(t)
    ensures x in m
    ensures m[x].next != null ==> m[x].next in Slots(P.Cut(t, x))
    ensures x != t.elem ==> m[x].previous in Slots(P.Cut(t, x))
  {
    NodeLinks(t, m, p, prev, x);
    if x == t.elem {
      assert t.next.Node? ==> t.next.elem in Slots(t.next);
    } else if x in Slots(t.child) {
      NeighboursStay(t.child, m, m[t.elem].child, t.elem, x);
      NodeLinks(t.child, m, m[t.elem].child, t.elem, x);
    } else {
      NeighboursStay(t.next, m, m[t.elem].next, t.elem, x);
      NodeLinks(t.next, m, m[t.elem].next, t.elem, x);
    }
  }

  /** The links after a non-first node was spliced out between its neighbours. */
  ghost function Spliced(m: Links, x: TimerSlot): Links
    requires x in m && m[x].previous != null && m[x].previous in m
  {
    var q, r := m[x].previous, m[x].next;
    var m' := if m[q].child == x then m[q := m[q].(child := r)] else m[q := m[q].(next := r)];
    if r != null && r in m' then m'[r := m'[r].(previous := q)] else m'
  }

  /** Splicing a node out leaves links that spell the forest with that node cut out. */
  lemma {:induction false} SplicedIsCut(t: Tree, m: Links, p: TimerSlot?, prev: TimerSlot?, x: TimerSlot)
    requires P.Distinct(t) && Spells(t, m, p, prev) && x in Slots(t) && x != t.elem
    requires x in m && m[x].previous != null && m[x].previous in m
    ensures Spells(P.Cut(t, x), Spliced(m, x), p, prev)
  {
    var y, c, n, m' := t.elem, t.child, t.next, Spliced(m, x);
    var inChild := x in Slots(c);
    var sub, other := if inChild then c else n, if inChild then n else c;
    var subLink, otherLink := if inChild then m[y].child else m[y].next,
                              if inChild then m[y].next else m[y].child;
    NodeLinks(sub, m, subLink, y, x);
    SpellsFrame(other, m, m', otherLink, y);
    if x == sub.elem {
      SpellsReroot(sub.next, m, m', m[x].next, x, y);
    } else {
      SplicedIsCut(sub, m, subLink, y, x);
    }
  }

  /** Linking `b` below `a` as its first child: the redirected fields spell the melded tree. */
  lemma LinkBelow(a: Tree, b: Tree, m: Links, m': Links)
    requires P.IsHeap(a) && P.IsHeap(b) && a.Node? && b.Node? && Slots(a) !! Slots(b)
    requires Spells(a, m, a.elem, null) && Spells(b, m, b.elem, null)
    requires a.elem in m' && b.elem in m'
    requires m'[b.elem] == Link(a.elem, m[b.elem].child, m[a.elem].child)
    requires m'[a.elem] == m[a.elem].(child := b.elem)
    requires var c := m[a.elem].child; c != null && c in m ==> c in m' && m'[c] == m[c].(previous := b.elem)
    requires SameOn(m, m', Slots(a) + Slots(b) - {a.elem, b.elem} - (if a.child.Node? then {a.child.elem} else {}))
    ensures Spells(P.Single(a.elem, a.key, P.Node(b.elem, b.key, b.child, a.child)), m', a.elem, null)
  {
    SpellsReroot(a.child, m, m', m[a.elem].child, a.elem, b.elem);
    SpellsFrame(b.child, m, m', m[b.elem].child, b.elem);
    var lower := P.Node(b.elem, b.key, b.child, a.child);
    assert Spells(lower, m', b.elem, a.elem);
    assert Spells(P.Leaf, m', m'[a.elem].next, a.elem);
  }

  // ----- the heap code ------------------------------------------------------------------
  //
  // Each method is given, as ghosts, the slots `all` it may relink with their links `m` and
  // expiries `e`, and returns the new links.

  /** The links from `p` on are a heap of the shape `t`. */
  ghost predicate Heap(t: Tree, p: TimerSlot?, m: Links, e: Expiries) {
    P.IsHeap(t) && P.Keyed(t, e) && Spells(t, m, p, null)
  }

  /** The links from `p` on are a list of heaps of the shape `t`, hanging off `prev`. */
  ghost predicate Forest(t: Tree, p: TimerSlot?, prev: TimerSlot?, low: int, m: Links, e: Expiries) {
    P.Distinct(t) && P.Ordered(t, low) && P.Keyed(t, e) && Spells(t, m, p, prev)
  }

  /** Links the root `lower` below the root `upper`, as its first child. */
  method LinkSlots(upper: TimerSlot, lower: TimerSlot, ghost a: Tree, ghost b: Tree,
                   ghost all: set<TimerSlot>, ghost m: Links)
    returns (ghost m': Links)
    requires P.IsHeap(a) && P.IsHeap(b) && Slots(a) !! Slots(b) && Slots(a) <= all && Slots(b) <= all
    requires Spells(a, m, upper, null) && Spells(b, m, lower, null) && Agree(m, all)
    modifies all`previous, all`child, all`next
    ensures Agree(m', all)
    ensures Spells(P.Single(a.elem, a.key, P.Node(b.elem, b.key, b.child, a.child)), m', upper, null)
    ensures SameOn(m, m', all - Slots(a) - Slots(b))
  {
    assert Spells(a.child, m, upper.child, upper);
    assert a.child.Node? ==> upper.child == a.child.elem && upper.child in Slots(a.child);
    assert upper in Slots(a) && lower in Slots(b);
    m' := m[lower := Link(upper, lower.child, upper.child)];
    lower.previous := upper;
    lower.next := upper.child;
    if upper.child != null {
      m' := m'[upper.child := m'[upper.child].(previous := lower)];
      upper.child.previous := lower;
    }
    m' := m'[upper := m'[upper].(child := lower)];
    upper.child := lower;
    LinkBelow(a, b, m, m');
  }

  /** Melds the heaps `a` and `b` rooted at the two slots. */
  method MeldSlots(first: TimerSlot?, second: TimerSlot?, ghost a: Tree, ghost b: Tree,
                   ghost all: set<TimerSlot>, ghost m: Links, ghost e: Expiries)
    returns (root: TimerSlot?, ghost m': Links)
    requires Heap(a, first, m, e) && Heap(b, second, m, e) && Slots(a) !! Slots(b)
    requires Slots(a) <= all && Slots(b) <= all && Agree(m, all) && Dated(e, Slots(a) + Slots(b))
    modifies all`previous, all`child, all`next
    ensures Agree(m', all)
    ensures Heap(P.Meld(a, b), root, m', e) && Slots(P.Meld(a, b)) == Slots(a) + Slots(b)
    ensures SameOn(m, m', all - Slots(a) - Slots(b))
  {
    P.MeldHeap(a, b);
    P.MeldKeyed(a, b, e);
    if first == null {
      return second, m;
    }
    if second == null {
      return first, m;
    }
    if second.expiry < first.expiry {
      m' := LinkSlots(second, first, b, a, all, m);
      return second, m';
    }
    m' := LinkSlots(first, second, a, b, all, m);
    return first, m';
  }

  /** The first two trees of a sibling list, as heaps, and the rest of it. */
  ghost function First(t: Tree): Tree
    requires t.Node?
  {
    P.Single(t.elem, t.key, t.child)
  }

  ghost function Second(t: Tree): Tree
    requires t.Node?
  {
    if t.next.Leaf? then P.Leaf else First(t.next)
  }

  ghost function AfterPair(t: Tree): Tree
    requires t.Node?
  {
    if t.next.Leaf? then P.Leaf else t.next.next
  }

  lemma PairShape(t: Tree, low: int, m: map<TimerSlot, int>)
    requires t.Node? && P.Distinct(t) && P.Ordered(t, low) && P.Keyed(t, m)
    ensures P.IsHeap(First(t)) && P.Keyed(First(t), m) && P.IsHeap(Second(t)) && P.Keyed(Second(t), m)
    ensures P.Distinct(AfterPair(t)) && P.Ordered(AfterPair(t), low) && P.Keyed(AfterPair(t), m)
    ensures Slots(t) == Slots(First(t)) + Slots(Second(t)) + Slots(AfterPair(t))
    ensures Slots(First(t)) !! Slots(Second(t))
    ensures Slots(First(t)) !! Slots(AfterPair(t)) && Slots(Second(t)) !! Slots(AfterPair(t))
    ensures P.Distinct(t.next)
  {
    FirstShape(t, low, m);
    if t.next.Node? {
      FirstShape(t.next, low, m);
    }
  }

  lemma FirstShape(t: Tree, low: int, m: map<TimerSlot, int>)
    requires t.Node? && P.Distinct(t) && P.Ordered(t, low) && P.Keyed(t, m)
    ensures P.IsHeap(First(t)) && P.Keyed(First(t), m)
    ensures P.Distinct(t.next) && P.Ordered(t.next, low) && P.Keyed(t.next, m)
    ensures Slots(t) == Slots(First(t)) + Slots(t.next) && Slots(First(t)) !! Slots(t.next)
  {
    assert P.Distinct<TimerSlot>(P.Leaf) && P.Ordered<TimerSlot>(P.Leaf, t.key) && P.Keyed<TimerSlot>(P.Leaf, m);
    assert P.Distinct(First(t)) && P.Ordered(First(t), t.key);
  }

  lemma RoundShape(t: Tree, acc: Tree, low: int, m: map<TimerSlot, int>)
    requires t.Node? && P.Distinct(t) && P.Ordered(t, low) && P.Keyed(t, m)
    requires P.IsHeap(acc) && Slots(t) !! Slots(acc)
    ensures var acc' := P.Meld(acc, P.Meld(First(t), Second(t)));
            && P.MergePairs(AfterPair(t), acc') == P.MergePairs(t, acc)
            && Slots(AfterPair(t)) !! Slots(acc')
            && Slots(AfterPair(t)) + Slots(acc') == Slots(t) + Slots(acc)
  {
    PairShape(t, low, m);
    P.MeldHeap(First(t), Second(t));
    P.MeldHeap(acc, P.Meld(First(t), Second(t)));
    RoundMerge(t, acc);
  }

  lemma RoundMerge(t: Tree, acc: Tree)
    requires t.Node?
    ensures P.MergePairs(AfterPair(t), P.Meld(acc, P.Meld(First(t), Second(t)))) == P.MergePairs(t, acc)
  {
  }

  /** Clearing the outer links of the first two siblings leaves two trees and the rest. */
  lemma DetachPair(t: Tree, m: Links, m': Links, p: TimerSlot?, prev: TimerSlot?)
    requires t.Node? && P.Distinct(t) && P.Distinct(t.next) && Spells(t, m, p, prev)
    requires t.elem in m' && m'[t.elem] == Link(null, m[t.elem].child, null)
    requires t.next.Node? ==> t.next.elem in m && t.next.elem in m'
    requires t.next.Node? ==> m'[t.next.elem] == Link(null, m[t.next.elem].child, null)
    requires SameOn(m, m', Slots(t) - {t.elem} - (if t.next.Node? then {t.next.elem} else {}))
    ensures Spells(First(t), m', t.elem, null)
    ensures Spells(Second(t), m', m[t.elem].next, null)
    ensures t.next.Node? ==> Spells(AfterPair(t), m', m[t.next.elem].next, t.next.elem)
  {
    SpellsFrame(t.child, m, m', m[t.elem].child, t.elem);
    assert Spells(P.Leaf, m', m'[t.elem].next, t.elem);
    var n := t.next;
    if n.Node? {
      SpellsFrame(n.child, m, m', m[n.elem].child, n.elem);
      SpellsFrame(n.next, m, m', m[n.elem].next, n.elem);
      assert Spells(P.Leaf, m', m'[n.elem].next, n.elem);
    }
  }

  /** Cuts the first two trees off a sibling list. */
  method TakePair(first: TimerSlot, ghost t: Tree, ghost back: TimerSlot?, ghost low: int,
                  ghost all: set<TimerSlot>, ghost m: Links, ghost e: Expiries)
    returns (second: TimerSlot?, remaining: TimerSlot?, ghost m': Links)
    requires Forest(t, first, back, low, m, e) && Slots(t) <= all && Agree(m, all)
    modifies all`previous, all`child, all`next
    ensures Agree(m', all)
    ensures Heap(First(t), first, m', e) && Heap(Second(t), second, m', e)
    ensures Forest(AfterPair(t), remaining, second, low, m', e)
    ensures SameOn(m, m', all - Slots(t))
  {
    PairShape(t, low, e);
    second := first.next;
    assert Spells(t.next, m, second, first);
    assert first in Slots(First(t)) && (second != null ==> second in Slots(Second(t)));
    remaining := if second != null then second.next else null;
    m' := m[first := Link(null, first.child, null)];
    first.previous := null;
    first.next := null;
    if second != null {
      m' := m'[second := Link(null, second.child, null)];
      second.previous := null;
      second.next := null;
    }
    DetachPair(t, m, m', first, back);
  }

  /** One round of the pairwise merge: the first two siblings are melded into `acc`. */
  method MergeRound(first: TimerSlot, result: TimerSlot?, ghost t: Tree, ghost acc: Tree,
                    ghost back: TimerSlot?, ghost low: int,
                    ghost all: set<TimerSlot>, ghost m: Links, ghost e: Expiries)
    returns (remaining: TimerSlot?, result': TimerSlot?, ghost back': TimerSlot?, ghost m': Links)
    requires Forest(t, first, back, low, m, e) && Heap(acc, result, m, e) && Slots(t) !! Slots(acc)
    requires Slots(t) <= all && Slots(acc) <= all && Agree(m, all) && Dated(e, all)
    modifies all`previous, all`child, all`next
    ensures Agree(m', all)
    ensures Forest(AfterPair(t), remaining, back', low, m', e)
    ensures Heap(P.Meld(acc, P.Meld(First(t), Second(t))), result', m', e)
    ensures SameOn(m, m', all - Slots(t) - Slots(acc))
  {
    hide P.Elems, P.Distinct, P.Ordered, P.Keyed, P.IsHeap, P.Meld, Spells, First, Second, AfterPair;
    HeadMember(t, m, first, back);
    PairShape(t, low, e);
    ghost var a, b, rest := First(t), Second(t), AfterPair(t);
    var second, pair;
    ghost var m1, m2;
    second, remaining, m1 := TakePair(first, t, back, low, all, m, e);
    back' := second;
    SpellsFrame(acc, m, m1, result, null);

    pair, m2 := MeldSlots(first, second, a, b, all, m1, e);
    SpellsFrame(acc, m1, m2, result, null);
    SpellsFrame(rest, m1, m2, remaining, back');

    result', m' := MeldSlots(result, pair, acc, P.Meld(a, b), all, m2, e);
    SpellsFrame(rest, m2, m', remaining, back');
  }

  /** Melds the sibling list `t` pairwise into one heap. */
  method MergePairSlots(head: TimerSlot?, ghost t: Tree, ghost prev: TimerSlot?, ghost low: int,
                        ghost all: set<TimerSlot>, ghost m: Links, ghost e: Expiries)
    returns (result: TimerSlot?, ghost m': Links)
    requires Forest(t, head, prev, low, m, e) && Slots(t) <= all && Agree(m, all) && Dated(e, all)
    modifies all`previous, all`child, all`next
    ensures Agree(m', all)
    ensures Heap(P.MergePairs(t, P.Leaf), result, m', e)
    ensures SameOn(m, m', all - Slots(t))
  {
    result, m' := null, m;
    var first := head;
    ghost var rest, acc, back: TimerSlot? := t, P.Leaf, prev;
    while first != null
      invariant Agree(m', all)
      invariant Forest(rest, first, back, low, m', e) && Heap(acc, result, m', e)
      invariant Slots(rest) !! Slots(acc) && Slots(rest) + Slots(acc) == Slots(t)
      invariant P.MergePairs(rest, acc) == P.MergePairs(t, P.Leaf)
      invariant SameOn(m, m', all - Slots(t))
      decreases rest
    {
      HeadMember(rest, m', first, back);
      hide P.Elems, P.Distinct, P.Ordered, P.Keyed, P.IsHeap, P.Meld, Spells;
      RoundShape(rest, acc, low, e);
      ghost var acc' := P.Meld(acc, P.Meld(First(rest), Second(rest)));
      first, result, back, m' := MergeRound(first, result, rest, acc, back, low, all, m', e);
      rest, acc := AfterPair(rest), acc';
    }
  }

  /** Melds a new single-node heap into the heap `t`. */
  method InsertSlot(root: TimerSlot?, timer: TimerSlot, ghost t: Tree,
                    ghost all: set<TimerSlot>, ghost m: Links, ghost e: Expiries)
    returns (root': TimerSlot?, ghost m': Links)
    requires Heap(t, root, m, e) && Slots(t) <= all && Agree(m, all) && Dated(e, Slots(t) + {timer})
    requires timer in all && timer !in Slots(t)
    modifies all`previous, all`child, all`next
    ensures Agree(m', all)
    ensures Heap(P.Meld(t, P.Single(timer, timer.expiry, P.Leaf)), root', m', e)
    ensures Slots(P.Meld(t, P.Single(timer, timer.expiry, P.Leaf))) == Slots(t) + {timer}
    ensures SameOn(m, m', all - Slots(t) - {timer})
  {
    ghost var single: Tree := P.Single(timer, timer.expiry, P.Leaf);
    ghost var m1 := m[timer := Link(null, null, null)];
    timer.previous, timer.child, timer.next := null, null, null;
    SpellsFrame(t, m, m1, root, null);
    assert P.Distinct<TimerSlot>(P.Leaf) && P.Ordered<TimerSlot>(P.Leaf, timer.expiry);
    assert Spells(P.Leaf, m1, null, timer);
    root', m' := MeldSlots(root, timer, t, single, all, m1, e);
  }

  /** The splice as a whole: the rest of the heap, the children, and what is left alone. */
  lemma SpliceParts(t: Tree, m: Links, root: TimerSlot?, e: Expiries, x: TimerSlot)
    requires Heap(t, root, m, e) && x in Slots(t)
    requires x in m && m[x].previous != null
    ensures m[x].previous in m && m[x].previous in Slots(t) && (m[x].next == null || m[x].next in Slots(t))
    ensures m[x].previous != x && m[x].next != x && m[x].previous != m[x].next
    ensures Spells(P.Cut(t, x), Spliced(m, x), root, null)
    ensures Spells(P.Kids(t, x), Spliced(m, x), m[x].child, x)
  {
    NodeLinks(t, m, root, null, x);
    NeighboursStay(t, m, root, null, x);
    NeighboursDiffer(t, m, root, null, x);
    P.CutParts(t, x, t.key);
    SplicedIsCut(t, m, root, null, x);
    SpellsFrame(P.Kids(t, x), m, Spliced(m, x), m[x].child, x);
  }

  lemma {:induction false} NeighboursDiffer(t: Tree, m: Links, p: TimerSlot?, prev: TimerSlot?, x: TimerSlot)
    requires P.Distinct(t) && Spells(t, m, p, prev) && x in Slots(t) && x != t.elem && x in m
    ensures m[x].previous != m[x].next
  {
    var inChild := x in Slots(t.child);
    var sub := if inChild then t.child else t.next;
    var link := if inChild then m[t.elem].child else m[t.elem].next;
    NodeLinks(sub, m, link, t.elem, x);
    if x != sub.elem {
      NeighboursDiffer(sub, m, link, t.elem, x);
    }
  }

  /** Unlinks a node that is not the root from its neighbours. */
  method SpliceSlot(timer: TimerSlot, ghost all: set<TimerSlot>, ghost m: Links)
    requires Agree(m, all) && timer in all && timer.previous != null
    requires timer.previous in all && (timer.next == null || timer.next in all)
    requires timer.previous != timer && timer.next != timer && timer.previous != timer.next
    modifies all`previous, all`child, all`next
    ensures Agree(Spliced(m, timer), all)
  {
    if timer.previous.child == timer {
      timer.previous.child := timer.next;
    } else {
      timer.previous.next := timer.next;
    }
    if timer.next != null {
      timer.next.previous := timer.previous;
    }
  }

  /** Takes a node out of its sibling list: what is left is the heap without its subtree. */
  method CutSlot(root: TimerSlot?, timer: TimerSlot, ghost t: Tree,
                 ghost all: set<TimerSlot>, ghost m: Links, ghost e: Expiries)
    returns (rest: TimerSlot?, ghost m': Links)
    requires Heap(t, root, m, e) && Slots(t) <= all && Agree(m, all) && timer in Slots(t)
    modifies all`previous, all`child, all`next
    ensures Agree(m', all)
    ensures Spells(P.Cut(t, timer), m', rest, null)
    ensures Spells(P.Kids(t, timer), m', timer.child, timer)
    ensures SameOn(m, m', all - Slots(t))
  {
    if timer.previous != null {
      SpliceParts(t, m, root, e, timer);
      SpliceSlot(timer, all, m);
      rest, m' := root, Spliced(m, timer);
    } else {
      // Only the root hangs off nothing, and the root has no sibling to take its place.
      NodeLinks(t, m, root, null, timer);
      assert Spells(t.next, m, timer.next, timer);
      rest, m' := timer.next, m;
    }
  }

  /** Splits a heap around a node: the rest of it, and its merged children. */
  method SplitSlot(root: TimerSlot?, timer: TimerSlot, ghost t: Tree,
                   ghost all: set<TimerSlot>, ghost m: Links, ghost e: Expiries)
    returns (top: TimerSlot?, replacement: TimerSlot?, ghost m': Links)
    requires Heap(t, root, m, e) && Slots(t) <= all && Agree(m, all) && Dated(e, all) && timer in Slots(t)
    modifies all`previous, all`child, all`next
    ensures Agree(m', all)
    ensures Spells(P.Cut(t, timer), m', top, null)
    ensures Spells(P.MergePairs(P.Kids(t, timer), P.Leaf), m', replacement, null)
    ensures SameOn(m, m', all - Slots(t))
  {
    hide P.Elems, P.Distinct, P.Ordered, P.Keyed, P.IsHeap, P.Meld, Spells, P.Cut, P.Kids, P.MergePairs;
    HeadMember(t, m, root, null);
    P.EraseParts(t, timer, e);
    ghost var m1;
    top, m1 := CutSlot(root, timer, t, all, m, e);
    replacement, m' := MergePairSlots(timer.child, P.Kids(t, timer), timer, t.key, all, m1, e);
    SpellsFrame(P.Cut(t, timer), m1, m', top, null);
  }

  /** Erases a node: the heap without its subtree is melded with its merged children. */
  method EraseSlot(root: TimerSlot?, timer: TimerSlot, ghost t: Tree,
                   ghost all: set<TimerSlot>, ghost m: Links, ghost e: Expiries)
    returns (root': TimerSlot?, ghost t': Tree, ghost m': Links)
    requires Heap(t, root, m, e) && Slots(t) <= all && Agree(m, all) && Dated(e, all) && timer in Slots(t)
    modifies all`previous, all`child, all`next
    ensures Agree(m', all)
    ensures Heap(t', root', m', e) && t' == P.Erase(t, timer) && Slots(t') == Slots(t) - {timer}
    ensures timer in m' && m'[timer] == Link(null, null, null)
    ensures SameOn(m, m', all - Slots(t))
  {
    hide P.Elems, P.Distinct, P.Ordered, P.Keyed, P.IsHeap, P.Meld, Spells, P.Cut, P.Kids, P.MergePairs;
    P.EraseParts(t, timer, e);
    var top, replacement;
    ghost var m1;
    top, replacement, m1 := SplitSlot(root, timer, t, all, m, e);
    ghost var rest, merged := P.Cut(t, timer), P.MergePairs(P.Kids(t, timer), P.Leaf);
    ghost var m2 := ClearSlot(timer, all, m1);
    SpellsFrame(rest, m1, m2, top, null);
    SpellsFrame(merged, m1, m2, replacement, null);
    root', m' := MeldSlots(top, replacement, rest, merged, all, m2, e);
    t' := P.Erase(t, timer);
  }

  method ClearSlot(timer: TimerSlot, ghost all: set<TimerSlot>, ghost m: Links) returns (ghost m': Links)
    requires Agree(m, all) && timer in all
    modifies timer`previous, timer`child, timer`next
    ensures m' == m[timer := Link(null, null, null)] && Agree(m', all)
  {
    timer.previous, timer.child, timer.next := null, null, null;
    m' := m[timer := Link(null, null, null)];
  }

  // ----- the timer queue ----------------------------------------------------------------

  /** A plain list: no node has children. */
  ghost predicate Flat(t: Tree) {
    t.Node? ==> t.child.Leaf? && Flat(t.next)
  }

  /** The inactive list from `p` on, as a forest without children. */
  ghost predicate Listed(t: Tree, p: TimerSlot?, m: Links) {
    Flat(t) && P.Distinct(t) && Spells(t, m, p, null)
  }

  /** The shapes of the heap and of the inactive list, with the links and expiries behind them. */
  datatype Shape = Shape(tree: Tree, idle: Tree, links: Links, dates: Expiries) {
    ghost function Active(): set<TimerSlot> { Slots(tree) }
    ghost function Idle(): set<TimerSlot> { Slots(idle) }
    ghost function All(): set<TimerSlot> { Slots(tree) + Slots(idle) }
  }

  ghost predicate Formed(sh: Shape, heap: TimerSlot?, inactive: TimerSlot?) {
    Heap(sh.tree, heap, sh.links, sh.dates) && Listed(sh.idle, inactive, sh.links) && sh.Active() !! sh.Idle()
  }

  ghost predicate Live(sh: Shape, heap: TimerSlot?, inactive: TimerSlot?)
    reads sh.All()`previous, sh.All()`child, sh.All()`next, sh.All()`expiry, sh.All()`active
  {
    && Formed(sh, heap, inactive)
    && Agree(sh.links, sh.All()) && Dated(sh.dates, sh.All())
    && (forall s <- sh.All() :: s.active <==> s in sh.Active())
  }

  /** Puts a slot that is in neither structure into the heap. */
  method Activate(heap: TimerSlot?, ghost inactive: TimerSlot?, timer: TimerSlot, ghost sh: Shape)
    returns (root: TimerSlot?, ghost sh': Shape)
    requires Live(sh, heap, inactive) && timer !in sh.All() && !timer.active
    modifies timer`previous, timer`child, timer`next, timer`active
    modifies sh.All()`previous, sh.All()`child, sh.All()`next
    ensures Live(sh', root, inactive)
    ensures sh'.tree == P.Meld(sh.tree, P.Single(timer, timer.expiry, P.Leaf)) && sh'.idle == sh.idle
    ensures sh'.Active() == sh.Active() + {timer}
  {
    hide P.Elems, P.Distinct, P.IsHeap, P.Keyed, P.Meld, Spells, Flat;
    ghost var m := sh.links[timer := Link(timer.previous, timer.child, timer.next)];
    ghost var e := sh.dates[timer := timer.expiry];
    FormedWith(sh, heap, inactive, m, e);
    timer.active := true;
    ghost var m';
    root, m' := InsertSlot(heap, timer, sh.tree, sh.All() + {timer}, m, e);
    SpellsFrame(sh.idle, m, m', inactive, null);
    sh' := Shape(P.Meld(sh.tree, P.Single(timer, timer.expiry, P.Leaf)), sh.idle, m', e);
    assert sh'.All() == sh.All() + {timer};
  }

  /** Other slots may come and go without harm to the shapes. */
  lemma FormedWith(sh: Shape, heap: TimerSlot?, inactive: TimerSlot?, m: Links, e: Expiries)
    requires Formed(sh, heap, inactive) && SameOn(sh.links, m, sh.All())
    requires forall s <- sh.Active() :: s in sh.dates ==> s in e && e[s] == sh.dates[s]
    ensures Heap(sh.tree, heap, m, e) && Listed(sh.idle, inactive, m)
  {
    P.OrderedBound(sh.tree, if sh.tree.Node? then sh.tree.key else 0, sh.dates);
    P.KeyedRestrict(sh.tree, sh.dates, e);
    SpellsFrame(sh.tree, sh.links, m, heap, null);
    SpellsFrame(sh.idle, sh.links, m, inactive, null);
  }

  /** Takes an active slot out of the heap. */
  method Deactivate(heap: TimerSlot?, ghost inactive: TimerSlot?, timer: TimerSlot, ghost sh: Shape)
    returns (root: TimerSlot?, ghost sh': Shape)
    requires Live(sh, heap, inactive) && timer in sh.Active()
    modifies timer`active, sh.All()`previous, sh.All()`child, sh.All()`next
    ensures Live(sh', root, inactive)
    ensures sh'.idle == sh.idle
    ensures sh'.Active() == sh.Active() - {timer}
    ensures !timer.active && timer.previous == null && timer.child == null && timer.next == null
  {
    hide P.Elems, P.Distinct, P.IsHeap, P.Keyed, P.Erase, Spells, Flat;
    ghost var t', m';
    root, t', m' := EraseSlot(heap, timer, sh.tree, sh.All(), sh.links, sh.dates);
    SpellsFrame(sh.idle, sh.links, m', inactive, null);
    timer.active := false;
    sh' := Shape(t', sh.idle, m', sh.dates);
  }

  /** Links a bare slot in front of the plain list `t`. */
  method Chain(head: TimerSlot?, timer: TimerSlot, ghost t: Tree, ghost all: set<TimerSlot>, ghost m: Links)
    returns (ghost m': Links)
    requires Listed(t, head, m) && timer !in Slots(t) && Slots(t) == all && Agree(m, all)
    modifies timer`previous, timer`child, timer`next, all`previous
    ensures Agree(m', all + {timer})
    ensures Listed(P.Node(timer, timer.expiry, P.Leaf, t), timer, m')
    ensures Slots(P.Node(timer, timer.expiry, P.Leaf, t)) == Slots(t) + {timer}
    ensures forall s <- m :: s !in all && s != timer ==> s in m' && m'[s] == m[s]
  {
    assert head != null ==> head in Slots(t);
    timer.child, timer.previous, timer.next := null, null, head;
    m' := m[timer := Link(null, null, head)];
    if head != null {
      m' := m'[head := m'[head].(previous := timer)];
      head.previous := timer;
    }
    SpellsReroot(t, m, m', head, null, timer);
    assert P.Distinct<TimerSlot>(P.Leaf) && Spells(P.Leaf, m', null, timer);
  }

  /** Puts a slot that is in neither structure in front of the inactive list. */
  method Shelve(ghost heap: TimerSlot?, inactive: TimerSlot?, timer: TimerSlot, ghost sh: Shape)
    returns (ghost sh': Shape)
    requires Live(sh, heap, inactive) && timer !in sh.All() && !timer.active
    modifies timer`previous, timer`child, timer`next, sh.Idle()`previous
    ensures Live(sh', heap, timer)
    ensures sh'.tree == sh.tree && sh'.idle == P.Node(timer, timer.expiry, P.Leaf, sh.idle)
    ensures sh'.Active() == sh.Active() && sh'.Idle() == sh.Idle() + {timer}
  {
    hide P.Elems, P.Distinct, P.IsHeap, P.Keyed, Spells, Flat;
    ghost var m := Chain(inactive, timer, sh.idle, sh.Idle(), sh.links);
    ghost var e := sh.dates[timer := timer.expiry];
    P.KeyedRestrict(sh.tree, sh.dates, e);
    SpellsFrame(sh.tree, sh.links, m, heap, null);
    sh' := Shape(sh.tree, P.Node(timer, timer.expiry, P.Leaf, sh.idle), m, e);
  }

  /** Cutting a node out of a plain list leaves a plain list without it. */
  lemma {:induction false} CutFlat(t: Tree, x: TimerSlot)
    requires Flat(t) && P.Distinct(t) && x in Slots(t)
    ensures Flat(P.Cut(t, x)) && P.Distinct(P.Cut(t, x)) && Slots(P.Cut(t, x)) == Slots(t) - {x}
  {
    if t.elem != x {
      CutFlat(t.next, x);
    }
  }

  /** In a plain list no node has a first child, so the back link is always a left sibling. */
  lemma {:induction false} FlatLinks(t: Tree, m: Links, p: TimerSlot?, prev: TimerSlot?, x: TimerSlot)
    requires Flat(t) && Spells(t, m, p, prev) && x in Slots(t)
    ensures x in m && m[x].child == null
  {
    if t.elem != x {
      FlatLinks(t.next, m, m[t.elem].next, t.elem, x);
    } else {
      assert Spells(t.child, m, m[x].child, x);
    }
  }

  /** The links after a node was taken out of the plain list `t`. */
  ghost function Unchained(t: Tree, m: Links, x: TimerSlot): Links
    requires t.Node? && x in m && (x != t.elem ==> m[x].previous != null && m[x].previous in m)
  {
    if x != t.elem then Spliced(m, x)
    else if m[x].next != null && m[x].next in m then m[m[x].next := m[m[x].next].(previous := null)]
    else m
  }

  lemma UnchainedIsCut(t: Tree, m: Links, head: TimerSlot?, x: TimerSlot)
    requires Listed(t, head, m) && x in Slots(t)
    ensures x in m && (x != t.elem ==> m[x].previous != null && m[x].previous in m && m[m[x].previous].child == null)
    ensures x == t.elem <==> m[x].previous == null
    ensures x != t.elem ==> m[x].previous in Slots(t) && m[x].previous != m[x].next && m[x].previous != x
    ensures m[x].next != null ==> m[x].next in Slots(t) && m[x].next != x
    ensures var head' := if x == t.elem then m[x].next else head;
            Spells(P.Cut(t, x), Unchained(t, m, x), head', null)
  {
    NodeLinks(t, m, head, null, x);
    NeighboursStay(t, m, head, null, x);
    CutFlat(t, x);
    if x == t.elem {
      SpellsReroot(t.next, m, Unchained(t, m, x), m[x].next, x, null);
    } else {
      FlatLinks(t, m, head, null, m[x].previous);
      NeighboursDiffer(t, m, head, null, x);
      SplicedIsCut(t, m, head, null, x);
    }
  }

  /** Unlinks a node from the plain list `t`. */
  method Unchain(head: TimerSlot?, timer: TimerSlot, ghost t: Tree, ghost all: set<TimerSlot>, ghost m: Links)
    returns (first: TimerSlot?, ghost m': Links)
    requires Listed(t, head, m) && timer in Slots(t) && Slots(t) == all && Agree(m, all)
    modifies all`previous, all`child, all`next
    ensures Agree(m', all)
    ensures forall s <- m :: s !in all ==> s in m' && m'[s] == m[s]
    ensures Spells(P.Cut(t, timer), m', first, null)
    ensures timer.previous == null && timer.child == null && timer.next == null
  {
    hide P.Elems, P.Distinct, Spells, Flat, P.Cut;
    HeadMember(t, m, head, null);
    UnchainedIsCut(t, m, head, timer);
    ghost var m1 := Unchained(t, m, timer);
    if timer.previous != null {
      timer.previous.next := timer.next;
      first := head;
    } else {
      first := timer.next;
    }
    if timer.next != null {
      timer.next.previous := timer.previous;
    }
    assert Agree(m1, all);
    m' := m1[timer := Link(null, null, null)];
    CutFlat(t, timer);
    SpellsFrame(P.Cut(t, timer), m1, m', first, null);
    timer.previous, timer.child, timer.next := null, null, null;
  }

  /** Takes an inactive slot out of the list. */
  method Unshelve(ghost heap: TimerSlot?, inactive: TimerSlot?, timer: TimerSlot, ghost sh: Shape)
    returns (first: TimerSlot?, ghost sh': Shape)
    requires Live(sh, heap, inactive) && timer in sh.Idle()
    modifies sh.Idle()`previous, sh.Idle()`child, sh.Idle()`next
    ensures Live(sh', heap, first)
    ensures sh'.tree == sh.tree && sh'.idle == P.Cut(sh.idle, timer)
    ensures sh'.Active() == sh.Active() && sh'.Idle() == sh.Idle() - {timer}
    ensures timer.previous == null && timer.child == null && timer.next == null
  {
    hide P.Elems, P.Distinct, P.IsHeap, P.Keyed, Spells, Flat, P.Cut;
    CutFlat(sh.idle, timer);
    ghost var m;
    first, m := Unchain(inactive, timer, sh.idle, sh.Idle(), sh.links);
    SpellsFrame(sh.tree, sh.links, m, heap, null);
    sh' := Shape(sh.tree, P.Cut(sh.idle, timer), m, sh.dates);
  }

  /** The timer queue. */
  class TimerState {
    var heap: TimerSlot?
    var inactive: TimerSlot?
    ghost var shape: Shape

    ghost predicate Valid()
      reads this, shape.All()`previous, shape.All()`child, shape.All()`next, shape.All()`expiry, shape.All()`active
    {
      Live(shape, heap, inactive)
    }

    constructor ()
      ensures Valid() && shape.All() == {}
    {
      heap, inactive, shape := null, null, Shape(P.Leaf, P.Leaf, map[], map[]);
    }

    /** A slot of the queue is flagged active exactly while it is in the heap. */
    lemma Split()
      requires Valid()
      ensures shape.Active() !! shape.Idle()
      ensures forall s <- shape.All() :: s.active <==> s in shape.Active()
    {
    }

    lemma InactiveHead()
      requires Valid()
      ensures inactive == null <==> shape.Idle() == {}
      ensures inactive != null ==> inactive in shape.Idle()
    {
      HeadMember(shape.idle, shape.links, inactive, null);
    }

    /** The earliest expiry of an active timer, or the end of time when there is none. */
    method HeapDeadline() returns (d: TimePoint)
      requires Valid()
      ensures shape.Active() == {} ==> d == TIME_MAX
      ensures shape.Active() != {} ==> exists s <- shape.Active() :: s.expiry == d
      ensures forall s <- shape.Active() :: d <= s.expiry
    {
      if heap != null {
        P.OrderedBound(shape.tree, shape.tree.key, shape.dates);
        d := heap.expiry;
        assert heap in shape.Active();
      } else {
        d := TIME_MAX;
      }
    }

    method PushHeap(timer: TimerSlot)
      requires Valid()
      requires timer.active || timer !in shape.All()
      modifies this`heap, this`shape, timer`previous, timer`child, timer`next, timer`active
      modifies shape.All()`previous, shape.All()`child, shape.All()`next
      ensures Valid() && timer.active && shape.Idle() == old(shape.Idle())
      ensures old(timer.active) ==> shape == old(shape)
      ensures !old(timer.active) ==> shape.Active() == old(shape.Active()) + {timer}
    {
      hide P.Elems, P.Distinct, P.IsHeap, P.Keyed, Spells, Flat, Dated;
      if timer.active {
        return;
      }
      heap, shape := Activate(heap, inactive, timer, shape);
    }

    method EraseHeap(timer: TimerSlot)
      requires Valid()
      requires timer.active ==> timer in shape.All() || timer.previous == null
      modifies this`heap, this`shape, timer`active
      modifies shape.All()`previous, shape.All()`child, shape.All()`next
      ensures Valid() && shape.idle == old(shape.idle)
      ensures old(timer !in shape.Active()) ==> shape == old(shape) && timer.active == old(timer.active)
      ensures old(timer in shape.Active()) ==> !timer.active
      ensures old(timer in shape.Active()) ==> timer.previous == null && timer.child == null && timer.next == null
      ensures shape.Active() == old(shape.Active()) - {timer}
    {
      hide P.Elems, P.Distinct, P.IsHeap, P.Keyed, Spells, Flat, Dated;
      if !timer.active {
        return;
      }
      if timer in shape.Active() {
        FirstOnly(shape.tree, shape.links, heap, timer);
      }
      if timer.previous == null && heap != timer {
        // The root of some other heap.
        return;
      }
      HeadMember(shape.tree, shape.links, heap, null);
      heap, shape := Deactivate(heap, inactive, timer, shape);
    }

    /** Takes out an active timer with the earliest expiry. */
    method PopHeap() returns (timer: TimerSlot?)
      requires Valid()
      modifies this`heap, this`shape, shape.Active()`active
      modifies shape.All()`previous, shape.All()`child, shape.All()`next
      ensures Valid() && shape.idle == old(shape.idle)
      ensures timer == null <==> old(shape.Active()) == {}
      ensures timer == null ==> shape == old(shape)
      ensures timer != null ==> timer == old(heap) && timer in old(shape.Active()) && !timer.active
      ensures timer != null ==> timer.previous == null && timer.child == null && timer.next == null
      ensures timer != null ==> shape.Active() == old(shape.Active()) - {timer}
      ensures timer != null ==> forall s <- old(shape.Active()) :: timer.expiry <= s.expiry
    {
      timer := heap;
      if timer != null {
        P.OrderedBound(shape.tree, shape.tree.key, shape.dates);
        assert timer in shape.Active();
        EraseHeap(timer);
      }
    }

    method PushInactive(timer: TimerSlot)
      requires Valid()
      modifies this`inactive, this`shape, timer`previous, timer`child, timer`next, shape.Idle()`previous
      ensures Valid() && shape.tree == old(shape.tree)
      ensures old(timer.active || timer in shape.Idle() || timer.previous != null || timer.next != null) ==>
                shape == old(shape)
      ensures !old(timer.active || timer in shape.Idle() || timer.previous != null || timer.next != null) ==>
                && shape.idle == P.Node(timer, timer.expiry, P.Leaf, old(shape.idle))
                && shape.Idle() == old(shape.Idle()) + {timer}
    {
      hide P.Elems, P.Distinct, P.IsHeap, P.Keyed, Spells, Flat, Dated;
      if timer in shape.Idle() {
        FirstOnly(shape.idle, shape.links, inactive, timer);
      }
      if timer.active || timer == inactive || timer.previous != null || timer.next != null {
        HeadMember(shape.idle, shape.links, inactive, null);
        return;
      }
      shape := Shelve(heap, inactive, timer, shape);
      inactive := timer;
    }

    method EraseInactive(timer: TimerSlot)
      requires Valid()
      requires timer.active || timer in shape.All() || timer.previous == null
      modifies this`inactive, this`shape, shape.Idle()`previous, shape.Idle()`child, shape.Idle()`next
      ensures Valid() && shape.tree == old(shape.tree)
      ensures old(timer !in shape.Idle()) ==> shape == old(shape)
      ensures old(timer in shape.Idle()) ==> shape.idle == P.Cut(old(shape.idle), timer)
      ensures old(timer in shape.Idle()) ==> timer.previous == null && timer.child == null && timer.next == null
      ensures shape.Idle() == old(shape.Idle()) - {timer}
    {
      hide P.Elems, P.Distinct, P.IsHeap, P.Keyed, Spells, Flat, Dated;
      if timer.active {
        return;
      }
      if timer in shape.Idle() {
        FirstOnly(shape.idle, shape.links, inactive, timer);
      }
      if timer.previous == null && inactive != timer {
        return;
      }
      HeadMember(shape.idle, shape.links, inactive, null);
      inactive, shape := Unshelve(heap, inactive, timer, shape);
    }
  }
}
