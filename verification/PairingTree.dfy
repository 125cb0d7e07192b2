/**
 * The pairing heap of the timer queue, as a value: the first-child / next-sibling tree
 * that the intrusive links of the timer slots spell out. Every heap operation is related to
 * an operation on the reference queue, a map from elements to keys.
 */
module PairingTree {

  datatype Tree<T> = Leaf | Node(elem: T, key: int, child: Tree<T>, next: Tree<T>)

  ghost function Elems<T>(t: Tree<T>): set<T> {
    match t
    case Leaf => {}
    case Node(x, k, c, n) => {x} + Elems(c) + Elems(n)
  }

  /** No element occurs twice. */
  ghost predicate Distinct<T>(t: Tree<T>) {
    match t
    case Leaf => true
    case Node(x, k, c, n) =>
      && x !in Elems(c) && x !in Elems(n) && Elems(c) !! Elems(n)
      && Distinct(c) && Distinct(n)
  }

  /** Heap order: no key is below `low`, and none is below that of its parent. */
  ghost predicate Ordered<T>(t: Tree<T>, low: int) {
    match t
    case Leaf => true
    case Node(x, k, c, n) => low <= k && Ordered(c, k) && Ordered(n, low)
  }

  /** Every node carries the key that `m` gives to its element. */
  ghost predicate Keyed<T>(t: Tree<T>, m: map<T, int>) {
    match t
    case Leaf => true
    case Node(x, k, c, n) => x in m && m[x] == k && Keyed(c, m) && Keyed(n, m)
  }

  /** A single tree (the root has no sibling) in heap order. */
  ghost predicate IsHeap<T>(t: Tree<T>) {
    t.Leaf? || (t.next.Leaf? && Distinct(t) && Ordered(t, t.key))
  }

  /** The tree is a heap with exactly the entries of `m`. */
  ghost predicate Holds<T>(t: Tree<T>, m: map<T, int>) {
    IsHeap(t) && Elems(t) == m.Keys && Keyed(t, m)
  }

  function Single<T>(x: T, k: int, c: Tree<T>): (t: Tree<T>) {
    Node(x, k, c, Leaf)
  }

  /** Links the root with the later key below the other one, as its first child. */
  function Meld<T>(a: Tree<T>, b: Tree<T>): Tree<T> {
    if a.Leaf? then b
    else if b.Leaf? then a
    else if b.key < a.key then Single(b.elem, b.key, Node(a.elem, a.key, a.child, b.child))
    else Single(a.elem, a.key, Node(b.elem, b.key, b.child, a.child))
  }

  /** Melds the trees of a sibling list two at a time into `acc`. */
  function MergePairs<T>(t: Tree<T>, acc: Tree<T>): Tree<T> {
    match t
    case Leaf => acc
    case Node(f, fk, fc, Leaf) => Meld(acc, Meld(Single(f, fk, fc), Leaf))
    case Node(f, fk, fc, Node(s, sk, sc, rest)) =>
      MergePairs(rest, Meld(acc, Meld(Single(f, fk, fc), Single(s, sk, sc))))
  }

  /** The forest without node `x` and its descendants: the next sibling takes its place. */
  ghost function Cut<T>(t: Tree<T>, x: T): Tree<T>
    requires x in Elems(t)
  {
    if t.elem == x then t.next
    else if x in Elems(t.child) then t.(child := Cut(t.child, x))
    else t.(next := Cut(t.next, x))
  }

  /** The children of node `x`. */
  ghost function Kids<T>(t: Tree<T>, x: T): Tree<T>
    requires x in Elems(t)
  {
    if t.elem == x then t.child
    else if x in Elems(t.child) then Kids(t.child, x)
    else Kids(t.next, x)
  }

  ghost function Erase<T>(t: Tree<T>, x: T): Tree<T>
    requires x in Elems(t)
  {
    Meld(Cut(t, x), MergePairs(Kids(t, x), Leaf))
  }

  // ----- order --------------------------------------------------------------------------

  lemma {:induction false} OrderedWeaken<T>(t: Tree<T>, low: int, low': int)
    requires Ordered(t, low) && low' <= low
    ensures Ordered(t, low')
  {
    if t.Node? {
      OrderedWeaken(t.next, low, low');
    }
  }

  lemma {:induction false} OrderedBound<T>(t: Tree<T>, low: int, m: map<T, int>)
    requires Ordered(t, low) && Keyed(t, m)
    ensures forall x <- Elems(t) :: x in m && low <= m[x]
  {
    if t.Node? {
      OrderedBound(t.child, t.key, m);
      OrderedBound(t.next, low, m);
    }
  }

  /** The root of a heap is an entry with the smallest key of all. */
  lemma RootIsMinimum<T>(t: Tree<T>, m: map<T, int>)
    requires Holds(t, m) && t.Node?
    ensures t.elem in m && m[t.elem] == t.key
    ensures forall x <- m :: t.key <= m[x]
  {
    OrderedBound(t, t.key, m);
  }

  // ----- meld and merge -----------------------------------------------------------------

  lemma MeldHeap<T>(a: Tree<T>, b: Tree<T>)
    requires IsHeap(a) && IsHeap(b) && Elems(a) !! Elems(b)
    ensures IsHeap(Meld(a, b))
    ensures Elems(Meld(a, b)) == Elems(a) + Elems(b)
  {
    if a.Node? && b.Node? {
      var lower := Meld(a, b).child;
      assert Distinct(lower) && Ordered(lower, Meld(a, b).key);
    }
  }

  lemma MeldKeyed<T>(a: Tree<T>, b: Tree<T>, m: map<T, int>)
    requires Keyed(a, m) && Keyed(b, m)
    ensures Keyed(Meld(a, b), m)
  {
  }

  lemma {:induction false} MergePairsHeap<T>(t: Tree<T>, acc: Tree<T>, low: int)
    requires Distinct(t) && Ordered(t, low) && IsHeap(acc) && Elems(t) !! Elems(acc)
    ensures IsHeap(MergePairs(t, acc))
    ensures Elems(MergePairs(t, acc)) == Elems(t) + Elems(acc)
    decreases t
  {
    if t.Node? {
      var first := Single(t.elem, t.key, t.child);
      if t.next.Leaf? {
        MeldHeap(acc, first);
      } else {
        var n := t.next;
        var second := Single(n.elem, n.key, n.child);
        assert Distinct(n) && Ordered(n, low);
        assert IsHeap(first) && IsHeap(second);
        MeldHeap(first, second);
        MeldHeap(acc, Meld(first, second));
        MergePairsHeap(n.next, Meld(acc, Meld(first, second)), low);
        assert Elems(t) == Elems(first) + Elems(second) + Elems(n.next);
      }
    }
  }

  lemma {:induction false} MergePairsKeyed<T>(t: Tree<T>, acc: Tree<T>, m: map<T, int>)
    requires Keyed(t, m) && Keyed(acc, m)
    ensures Keyed(MergePairs(t, acc), m)
    decreases t
  {
    if t.Node? && t.next.Node? {
      var first, second := Single(t.elem, t.key, t.child), Single(t.next.elem, t.next.key, t.next.child);
      MeldKeyed(first, second, m);
      MergePairsKeyed(t.next.next, Meld(acc, Meld(first, second)), m);
    }
  }

  // ----- erase --------------------------------------------------------------------------

  lemma {:induction false} CutParts<T>(t: Tree<T>, x: T, low: int)
    requires Distinct(t) && Ordered(t, low) && x in Elems(t)
    ensures Distinct(Cut(t, x)) && Ordered(Cut(t, x), low)
    ensures Distinct(Kids(t, x)) && Ordered(Kids(t, x), low)
    ensures Elems(Cut(t, x)) !! Elems(Kids(t, x))
    ensures Elems(t) - {x} == Elems(Cut(t, x)) + Elems(Kids(t, x))
  {
    if t.elem == x {
      OrderedWeaken(t.child, t.key, low);
    } else if x in Elems(t.child) {
      CutParts(t.child, x, t.key);
      OrderedWeaken(Kids(t, x), t.key, low);
    } else {
      CutParts(t.next, x, low);
    }
  }

  lemma {:induction false} CutKeyed<T>(t: Tree<T>, x: T, m: map<T, int>)
    requires Keyed(t, m) && x in Elems(t)
    ensures Keyed(Cut(t, x), m) && Keyed(Kids(t, x), m)
  {
    if t.elem == x {
    } else if x in Elems(t.child) {
      CutKeyed(t.child, x, m);
    } else {
      CutKeyed(t.next, x, m);
    }
  }

  lemma {:induction false} KeyedRestrict<T>(t: Tree<T>, m: map<T, int>, m': map<T, int>)
    requires Keyed(t, m)
    requires forall x <- Elems(t) :: x in m && x in m' && m'[x] == m[x]
    ensures Keyed(t, m')
  {
    if t.Node? {
      KeyedRestrict(t.child, m, m');
      KeyedRestrict(t.next, m, m');
    }
  }

  /** The two heaps that an erase melds: the rest of the tree and the merged children. */
  lemma EraseParts<T>(t: Tree<T>, x: T, m: map<T, int>)
    requires IsHeap(t) && Keyed(t, m) && x in Elems(t)
    ensures Distinct(Kids(t, x)) && Ordered(Kids(t, x), t.key) && Keyed(Kids(t, x), m)
    ensures IsHeap(Cut(t, x)) && Keyed(Cut(t, x), m)
    ensures var merged := MergePairs(Kids(t, x), Leaf);
            IsHeap(merged) && Keyed(merged, m) && Elems(merged) == Elems(Kids(t, x))
    ensures Elems(Cut(t, x)) !! Elems(Kids(t, x))
    ensures Elems(t) - {x} == Elems(Cut(t, x)) + Elems(Kids(t, x))
  {
    CutParts(t, x, t.key);
    MergePairsHeap(Kids(t, x), Leaf, t.key);
    CutKeyed(t, x, m);
    MergePairsKeyed(Kids(t, x), Leaf, m);
  }

  /** Erasing any member keeps a heap and removes exactly that entry. */
  lemma EraseHolds<T>(t: Tree<T>, x: T, m: map<T, int>)
    requires Holds(t, m) && x in Elems(t)
    ensures Holds(Erase(t, x), m - {x})
  {
    EraseParts(t, x, m);
    MeldHeap(Cut(t, x), MergePairs(Kids(t, x), Leaf));
    MeldKeyed(Cut(t, x), MergePairs(Kids(t, x), Leaf), m);
    KeyedRestrict(Erase(t, x), m, m - {x});
  }

  /** Melding in a new element adds exactly that entry. */
  lemma PushHolds<T>(t: Tree<T>, x: T, k: int, m: map<T, int>)
    requires Holds(t, m) && x !in m
    ensures Holds(Meld(t, Single(x, k, Leaf)), m[x := k])
  {
    assert Distinct<T>(Leaf) && Ordered<T>(Leaf, k) && Keyed<T>(Leaf, m[x := k]);
    MeldHeap(t, Single(x, k, Leaf));
    KeyedRestrict(t, m, m[x := k]);
    MeldKeyed(t, Single(x, k, Leaf), m[x := k]);
  }

  // ----- runs ---------------------------------------------------------------------------

  datatype Command<T> = Push(elem: T, key: int) | Pop | Remove(elem: T)

  ghost function Step<T>(t: Tree<T>, c: Command<T>): Tree<T> {
    match c
    case Push(x, k) => if x in Elems(t) then t else Meld(t, Single(x, k, Leaf))
    case Pop => if t.Leaf? then t else Erase(t, t.elem)
    case Remove(x) => if x in Elems(t) then Erase(t, x) else t
  }

  ghost function Run<T>(t: Tree<T>, cs: seq<Command<T>>): Tree<T>
    decreases |cs|
  {
    if cs == [] then t else Run(Step(t, cs[0]), cs[1..])
  }

  /** The reference: a map from elements to keys, from which a pop takes some least entry. */
  ghost predicate RefStep<T>(m: map<T, int>, c: Command<T>, m': map<T, int>) {
    match c
    case Push(x, k) => m' == if x in m then m else m[x := k]
    case Pop =>
      if m == map[] then m' == m
      else exists x <- m :: (forall y <- m :: m[x] <= m[y]) && m' == m - {x}
    case Remove(x) => m' == m - {x}
  }

  lemma StepRefines<T>(t: Tree<T>, c: Command<T>, m: map<T, int>) returns (m': map<T, int>)
    requires Holds(t, m)
    ensures RefStep(m, c, m') && Holds(Step(t, c), m')
  {
    match c
    case Push(x, k) =>
      if x in m {
        m' := m;
      } else {
        PushHolds(t, x, k, m);
        m' := m[x := k];
      }
    case Pop =>
      if t.Node? {
        RootIsMinimum(t, m);
        EraseHolds(t, t.elem, m);
        m' := m - {t.elem};
      } else {
        m' := m;
      }
    case Remove(x) =>
      if x in m {
        EraseHolds(t, x, m);
      } else {
        assert m - {x} == m;
      }
      m' := m - {x};
  }

  /**
   * Every sequence of pushes, pops and removals of arbitrary members can be followed on the
   * reference queue: after each command the tree is a heap with exactly the reference
   * entries, so its root is a least entry and it is empty exactly when the reference is.
   */
  lemma {:induction false} RunRefines<T>(t: Tree<T>, cs: seq<Command<T>>, m: map<T, int>)
    returns (trace: seq<map<T, int>>)
    requires Holds(t, m)
    ensures |trace| == |cs| + 1 && trace[0] == m
    ensures forall i :: 0 <= i < |cs| ==> RefStep(trace[i], cs[i], trace[i + 1])
    ensures Holds(Run(t, cs), trace[|cs|])
    ensures Run(t, cs).Leaf? <==> trace[|cs|] == map[]
    ensures Run(t, cs).Node? ==> forall x <- trace[|cs|] :: Run(t, cs).key <= trace[|cs|][x]
    decreases |cs|
  {
    if cs == [] {
      trace := [m];
      if t.Node? {
        RootIsMinimum(t, m);
      }
    } else {
      var m' := StepRefines(t, cs[0], m);
      var rest := RunRefines(Step(t, cs[0]), cs[1..], m');
      trace := [m] + rest;
    }
  }
}
