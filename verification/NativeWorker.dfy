/**
 * The I/O side of one io_uring worker: its queues, the slot for operations that did not fit in
 * the submission queue, the operations in flight, and the final drain. Operations are linked
 * through `next`; the list of operations in flight is kept as a sequence (its links are those
 * of HookList). What the kernel answers is arbitrary.
 */
module NativeWorker {
  import opened OperationQueue
  import opened Sequences

  /** Where an operation is; InReady is the timers' ready list, InBatch and InPrepared are being worked on. */
  datatype Place = InCpu | InIo | InRetry | InSharedCpu | InSharedIo | InReady | InBatch | InPrepared | InFlight | Ran

  /** The places that are linked lists. */
  predicate Chained(p: Place) {
    !p.InFlight? && !p.Ran?
  }

  type Lists = map<Place, seq<Operation>>
  type Places = map<Operation, Place>
  type Nexts = map<Operation, Operation?>

  /** The heads of the linked lists, by place. */
  type Heads = map<Place, Operation?>

  /** The operations in a place. */
  ghost function At(lists: Lists, p: Place): seq<Operation> {
    if p in lists then lists[p] else []
  }

  function Head(heads: Heads, p: Place): Operation? {
    if Chained(p) && p in heads then heads[p] else null
  }

  // ----- contents of the places ---------------------------------------------------------

  /** Each operation is once in the list of its place, and in no other. */
  ghost predicate Located(lists: Lists, places: Places) {
    Sound(lists, places) && Complete(lists, places) && forall p :: NoRepeat(At(lists, p))
  }

  ghost predicate Sound(lists: Lists, places: Places) {
    forall p, o :: o in At(lists, p) ==> o in places && places[o] == p
  }

  ghost predicate Complete(lists: Lists, places: Places) {
    forall o <- places :: o in At(lists, places[o])
  }

  lemma PlaceIs(lists: Lists, places: Places, o: Operation, p: Place)
    requires Sound(lists, places) && o in At(lists, p)
    ensures o in places && places[o] == p
  {
  }

  lemma Elsewhere(lists: Lists, places: Places, o: Operation, p: Place, q: Place)
    requires Sound(lists, places) && o in At(lists, p) && p != q
    ensures o !in At(lists, q) && o in places && places[o] == p
  {
    hide At;
    PlaceIs(lists, places, o, p);
    if o in At(lists, q) {
      PlaceIs(lists, places, o, q);
    }
  }

  lemma LessMember(s: seq<Operation>, o: Operation, x: Operation)
    requires NoRepeat(s) && o in s
    ensures x in Less(s, o) <==> x in s && x != o
  {
    LessMembers(s, o);
  }

  /** Operation `o` goes from `p` to the front of `q`. */
  ghost function Shifted(lists: Lists, o: Operation, p: Place, q: Place): Lists {
    lists[p := Less(At(lists, p), o)][q := [o] + At(lists, q)]
  }

  lemma ShiftedAt(lists: Lists, o: Operation, p: Place, q: Place)
    requires p != q
    ensures forall r :: At(Shifted(lists, o, p, q), r) ==
              if r == q then [o] + At(lists, q) else if r == p then Less(At(lists, p), o) else At(lists, r)
  {
  }

  lemma ShiftedSound(lists: Lists, places: Places, o: Operation, p: Place, q: Place)
    requires Sound(lists, places) && NoRepeat(At(lists, p)) && o in At(lists, p) && p != q
    ensures Sound(Shifted(lists, o, p, q), places[o := q])
  {
    hide NoRepeat, Shifted, At;
    var lists', places' := Shifted(lists, o, p, q), places[o := q];
    ShiftedAt(lists, o, p, q);
    LessMembers(At(lists, p), o);
    forall r, x | x in At(lists', r) ensures x in places' && places'[x] == r {
      if r == q {
        assert x == o || x in At(lists, q);
      } else if r == p {
        LessMember(At(lists, p), o, x);
      } else {
        Elsewhere(lists, places, o, p, r);
        assert x in At(lists, r) && x != o;
      }
    }
  }

  lemma ShiftedComplete(lists: Lists, places: Places, o: Operation, p: Place, q: Place)
    requires Complete(lists, places) && NoRepeat(At(lists, p)) && o in At(lists, p) && p != q
    ensures Complete(Shifted(lists, o, p, q), places[o := q])
  {
    hide NoRepeat, Shifted, At;
    var lists', places' := Shifted(lists, o, p, q), places[o := q];
    ShiftedAt(lists, o, p, q);
    LessMembers(At(lists, p), o);
    forall x <- places' ensures x in At(lists', places'[x]) {
      assert x != o ==> x in At(lists, places[x]);
    }
  }

  lemma ShiftedLocated(lists: Lists, places: Places, o: Operation, p: Place, q: Place)
    requires Located(lists, places) && o in At(lists, p) && p != q
    ensures Located(Shifted(lists, o, p, q), places[o := q])
  {
    hide Less, NoRepeat, Shifted, At, Sound, Complete;
    ShiftedSound(lists, places, o, p, q);
    ShiftedComplete(lists, places, o, p, q);
    ShiftedAt(lists, o, p, q);
    LessMembers(At(lists, p), o);
    Elsewhere(lists, places, o, p, q);
    NoRepeatFront(o, At(lists, q));
  }

  lemma NoRepeatFront(o: Operation, s: seq<Operation>)
    requires NoRepeat(s) && o !in s
    ensures NoRepeat([o] + s)
  {
  }

  /** Everything in one place goes to an empty one, in the same order. */
  ghost function Relabelled(lists: Lists, p: Place, q: Place): Lists {
    lists[q := At(lists, p)][p := []]
  }

  ghost function Rezoned(places: Places, p: Place, q: Place): Places {
    map o <- places :: if places[o] == p then q else places[o]
  }

  lemma RelabelledAt(lists: Lists, p: Place, q: Place)
    requires p != q
    ensures forall r :: At(Relabelled(lists, p, q), r) == if r == p then [] else if r == q then At(lists, p)
              else At(lists, r)
  {
  }

  lemma RezonedAt(places: Places, p: Place, q: Place)
    ensures forall o :: o in Rezoned(places, p, q) <==> o in places
    ensures forall o <- places :: Rezoned(places, p, q)[o] == if places[o] == p then q else places[o]
  {
  }

  lemma RelabelledSound(lists: Lists, places: Places, p: Place, q: Place)
    requires Sound(lists, places) && At(lists, q) == [] && p != q
    ensures Sound(Relabelled(lists, p, q), Rezoned(places, p, q))
  {
    var lists', places' := Relabelled(lists, p, q), Rezoned(places, p, q);
    RelabelledAt(lists, p, q);
    RezonedAt(places, p, q);
    hide Relabelled, At, Rezoned;
    forall r, x | x in At(lists', r) ensures x in places' && places'[x] == r {
      if r == q {
        assert x in At(lists, p);
      } else {
        assert x in At(lists, r) && r != p;
      }
    }
  }

  lemma RelabelledComplete(lists: Lists, places: Places, p: Place, q: Place)
    requires Complete(lists, places) && At(lists, q) == [] && p != q
    ensures Complete(Relabelled(lists, p, q), Rezoned(places, p, q))
  {
    var lists', places' := Relabelled(lists, p, q), Rezoned(places, p, q);
    RelabelledAt(lists, p, q);
    RezonedAt(places, p, q);
    hide Relabelled, At, Rezoned;
    forall x <- places' ensures x in At(lists', places'[x]) {
      assert x in At(lists, places[x]);
    }
  }

  lemma RelabelledLocated(lists: Lists, places: Places, p: Place, q: Place)
    requires Located(lists, places) && At(lists, q) == [] && p != q
    ensures Located(Relabelled(lists, p, q), Rezoned(places, p, q))
  {
    RelabelledSound(lists, places, p, q);
    RelabelledComplete(lists, places, p, q);
    RelabelledAt(lists, p, q);
    assert NoRepeat(At(lists, q));
    hide Sound, Complete, Relabelled, At, Rezoned, NoRepeat;
  }

  lemma RelabelledLinked(lists: Lists, heads: Heads, nexts: Nexts, p: Place, q: Place)
    requires Linked(lists, heads, nexts) && At(lists, q) == [] && p != q && Chained(p) && Chained(q)
    ensures Linked(Relabelled(lists, p, q), heads[q := Head(heads, p)][p := null], nexts)
  {
    RelabelledAt(lists, p, q);
    hide Relabelled, At;
  }

  // ----- links --------------------------------------------------------------------------

  /** The links from `p` spell `s`. */
  ghost predicate Spelled(nexts: Nexts, p: Operation?, s: seq<Operation>)
    decreases |s|
  {
    if s == [] then p == null
    else p == s[0] && s[0] in nexts && Spelled(nexts, nexts[s[0]], s[1..])
  }

  ghost predicate Linked(lists: Lists, heads: Heads, nexts: Nexts) {
    forall p :: Chained(p) ==> Spelled(nexts, Head(heads, p), At(lists, p))
  }

  lemma {:induction false} SpelledFrame(nexts: Nexts, p: Operation?, s: seq<Operation>, o: Operation, n: Operation?)
    requires Spelled(nexts, p, s) && o !in s
    ensures Spelled(nexts[o := n], p, s)
    decreases |s|
  {
    if s != [] {
      SpelledFrame(nexts, nexts[s[0]], s[1..], o, n);
    }
  }

  /** The heads after `o`, followed by `after`, moved from `p` to the front of `q`. */
  function Reheaded(heads: Heads, o: Operation, p: Place, q: Place, after: Operation?): Heads {
    var popped := if Chained(p) then heads[p := after] else heads;
    if Chained(q) then popped[q := o] else popped
  }

  lemma ReheadedAt(heads: Heads, o: Operation, p: Place, q: Place, after: Operation?)
    requires p != q
    ensures forall r :: Chained(r) ==>
              Head(Reheaded(heads, o, p, q, after), r) == if r == q then o else if r == p then after else Head(heads, r)
  {
  }

  /** Relinking an operation leaves the lists of other places alone. */
  lemma OtherSpelled(lists: Lists, heads: Heads, nexts: Nexts, places: Places, o: Operation, p: Place, n: Operation?,
      r: Place)
    requires Sound(lists, places) && Linked(lists, heads, nexts) && o in At(lists, p) && r != p && Chained(r)
    ensures Spelled(nexts[o := n], Head(heads, r), At(lists, r))
  {
    Elsewhere(lists, places, o, p, r);
    SpelledFrame(nexts, Head(heads, r), At(lists, r), o, n);
  }

  /** Takes the first of list `p` and puts it in front of `q`, linked to what is there. */
  lemma ShiftedLinked(lists: Lists, heads: Heads, nexts: Nexts, places: Places, o: Operation, p: Place, q: Place)
    requires Located(lists, places) && Linked(lists, heads, nexts) && p != q && o in nexts
    requires o in At(lists, p) && (Chained(p) ==> o == At(lists, p)[0])
    ensures Linked(Shifted(lists, o, p, q), Reheaded(heads, o, p, q, nexts[o]), nexts[o := Head(heads, q)])
  {
    var n := Head(heads, q);
    var lists', heads', nexts' := Shifted(lists, o, p, q), Reheaded(heads, o, p, q, nexts[o]), nexts[o := n];
    ShiftedAt(lists, o, p, q);
    ReheadedAt(heads, o, p, q, nexts[o]);
    LessFirst(At(lists, p), o);
    hide Less, Shifted, At, Reheaded, Head;
    forall r | Chained(r) ensures Spelled(nexts', Head(heads', r), At(lists', r)) {
      if r == p {
        assert o !in At(lists, p)[1..] by {
          assert NoRepeat(At(lists, p));
        }
        SpelledFrame(nexts, nexts[o], At(lists, p)[1..], o, n);
      } else {
        OtherSpelled(lists, heads, nexts, places, o, p, n, r);
        if r == q {
          assert ([o] + At(lists, q))[1..] == At(lists, q);
        }
      }
    }
  }

  lemma LessFirst(s: seq<Operation>, o: Operation)
    ensures s != [] && s[0] == o ==> Less(s, o) == s[1..]
  {
  }

  // ----- the whole picture --------------------------------------------------------------

  /** The contents of the places, where each operation is, and its link. */
  datatype Shape = Shape(lists: Lists, places: Places, nexts: Nexts)

  /** Every operation is in exactly one place, and the lists are linked accordingly. */
  ghost predicate Formed(sh: Shape, heads: Heads, inflight: seq<Operation>) {
    && Located(sh.lists, sh.places) && Linked(sh.lists, heads, sh.nexts)
    && At(sh.lists, InFlight) == inflight
    && (forall o <- sh.places :: o in sh.nexts && (!Chained(sh.places[o]) ==> sh.nexts[o] == null))
  }

  ghost predicate Agree(sh: Shape)
    reads sh.places.Keys`next
  {
    forall o <- sh.places :: o in sh.nexts && o.next == sh.nexts[o]
  }

  ghost function Moved(sh: Shape, o: Operation, p: Place, q: Place, n: Operation?): Shape {
    Shape(Shifted(sh.lists, o, p, q), sh.places[o := q], sh.nexts[o := n])
  }

  lemma MovedFormed(sh: Shape, heads: Heads, inflight: seq<Operation>, o: Operation, p: Place, q: Place)
    requires Formed(sh, heads, inflight) && p != q && o in At(sh.lists, p) && (Chained(p) ==> o == At(sh.lists, p)[0])
    ensures o in sh.places && o in sh.nexts
    ensures var inflight' :=
              if q == InFlight then [o] + inflight else if p == InFlight then Less(inflight, o) else inflight;
            Formed(Moved(sh, o, p, q, Head(heads, q)), Reheaded(heads, o, p, q, sh.nexts[o]), inflight')
  {
    hide Located, Linked, Shifted, Reheaded, At, Less;
    ShiftedAt(sh.lists, o, p, q);
    PlaceOf(sh.lists, sh.places, o, p);
    ShiftedLocated(sh.lists, sh.places, o, p, q);
    ShiftedLinked(sh.lists, heads, sh.nexts, sh.places, o, p, q);
  }

  lemma PlaceOf(lists: Lists, places: Places, o: Operation, p: Place)
    requires Located(lists, places) && o in At(lists, p)
    ensures o in places && places[o] == p
  {
  }

  lemma HeadFirst(sh: Shape, heads: Heads, inflight: seq<Operation>, p: Place)
    requires Formed(sh, heads, inflight) && Chained(p)
    ensures Head(heads, p) == null <==> At(sh.lists, p) == []
    ensures Head(heads, p) != null ==> Head(heads, p) == At(sh.lists, p)[0] && Head(heads, p) in sh.places
  {
    assert Spelled(sh.nexts, Head(heads, p), At(sh.lists, p));
    if At(sh.lists, p) != [] {
      assert At(sh.lists, p)[0] in At(sh.lists, p);
    }
  }

  lemma FormedLocated(sh: Shape, heads: Heads, inflight: seq<Operation>)
    requires Formed(sh, heads, inflight)
    ensures Located(sh.lists, sh.places)
  {
  }

  lemma FlightUnlinked(sh: Shape, heads: Heads, inflight: seq<Operation>, o: Operation)
    requires Formed(sh, heads, inflight) && o in inflight
    ensures o in sh.places && sh.places[o] == InFlight && o in sh.nexts && sh.nexts[o] == null
  {
    assert o in At(sh.lists, InFlight);
  }

  lemma InflightSimple(sh: Shape, heads: Heads, inflight: seq<Operation>)
    requires Formed(sh, heads, inflight)
    ensures NoRepeat(inflight)
  {
    assert NoRepeat(At(sh.lists, InFlight));
  }

  lemma RelabelledFormed(sh: Shape, heads: Heads, inflight: seq<Operation>, p: Place, q: Place)
    requires Formed(sh, heads, inflight) && p != q && Chained(p) && Chained(q) && At(sh.lists, q) == []
    ensures var sh' := Shape(Relabelled(sh.lists, p, q), Rezoned(sh.places, p, q), sh.nexts);
            Formed(sh', heads[q := Head(heads, p)][p := null], inflight)
  {
    RelabelledLocated(sh.lists, sh.places, p, q);
    RelabelledLinked(sh.lists, heads, sh.nexts, p, q);
    RelabelledAt(sh.lists, p, q);
    RezonedAt(sh.places, p, q);
    hide Located, Linked, Relabelled, At, Rezoned;
  }

  /** A new operation `o` in front of `q`. */
  ghost function Joined(sh: Shape, o: Operation, q: Place, n: Operation?): Shape {
    Shape(sh.lists[q := [o] + At(sh.lists, q)], sh.places[o := q], sh.nexts[o := n])
  }

  lemma JoinedFormed(sh: Shape, heads: Heads, inflight: seq<Operation>, o: Operation, q: Place)
    requires Formed(sh, heads, inflight) && o !in sh.places && Chained(q)
    ensures Formed(Joined(sh, o, q, Head(heads, q)), heads[q := o], inflight)
  {
    hide Located, Linked, Head;
    JoinedLocated(sh, o, q, Head(heads, q));
    JoinedLinked(sh, heads, o, q);
  }

  lemma JoinedAt(sh: Shape, o: Operation, q: Place, n: Operation?)
    ensures forall r :: At(Joined(sh, o, q, n).lists, r) == if r == q then [o] + At(sh.lists, q) else At(sh.lists, r)
  {
  }

  lemma JoinedLocated(sh: Shape, o: Operation, q: Place, n: Operation?)
    requires Located(sh.lists, sh.places) && o !in sh.places
    ensures Located(Joined(sh, o, q, n).lists, sh.places[o := q])
  {
    hide At, Joined, NoRepeat;
    var lists', places' := Joined(sh, o, q, n).lists, sh.places[o := q];
    JoinedAt(sh, o, q, n);
    NotAnywhere(sh, o, q);
    NoRepeatFront(o, At(sh.lists, q));
    forall r, x | x in At(lists', r) ensures x in places' && places'[x] == r {
      NotAnywhere(sh, o, r);
      assert x == o || x in At(sh.lists, r);
    }
  }

  lemma JoinedLinked(sh: Shape, heads: Heads, o: Operation, q: Place)
    requires Located(sh.lists, sh.places) && Linked(sh.lists, heads, sh.nexts) && o !in sh.places && Chained(q)
    ensures Linked(Joined(sh, o, q, Head(heads, q)).lists, heads[q := o], sh.nexts[o := Head(heads, q)])
  {
    hide Located, Joined, At;
    var lists', n := Joined(sh, o, q, Head(heads, q)).lists, Head(heads, q);
    JoinedAt(sh, o, q, n);
    forall r | Chained(r) ensures Spelled(sh.nexts[o := n], Head(heads[q := o], r), At(lists', r)) {
      NotAnywhere(sh, o, r);
      SpelledFrame(sh.nexts, Head(heads, r), At(sh.lists, r), o, n);
      assert ([o] + At(sh.lists, q))[1..] == At(sh.lists, q);
    }
  }

  lemma NotAnywhere(sh: Shape, o: Operation, r: Place)
    requires Located(sh.lists, sh.places) && o !in sh.places
    ensures o !in At(sh.lists, r)
  {
  }

  // ----- what flows where ---------------------------------------------------------------

  /** Operations moved only from places in `from` to places in `into`; none came or went. */
  ghost predicate Flow(before: Places, after: Places, from: set<Place>, into: set<Place>) {
    && (forall o <- after :: o in before)
    && (forall o <- before :: o in after && (after[o] == before[o] || (before[o] in from && after[o] in into)))
  }

  /** The lists other than those named are as before. */
  ghost predicate Kept(before: Lists, after: Lists, others: set<Place>) {
    forall r :: r !in others ==> At(after, r) == At(before, r)
  }

  function Weight(s: seq<Operation>): nat {
    if s == [] then 0 else 1 + s[0].budget + Weight(s[1..])
  }

  ghost function Sum(lists: Lists, ps: seq<Place>): nat {
    if ps == [] then 0 else Weight(At(lists, ps[0])) + Sum(lists, ps[1..])
  }

  const UNRUN_PLACES := [InCpu, InIo, InRetry, InSharedCpu, InSharedIo, InBatch, InPrepared, InFlight, InReady]

  /** The operations still to run, with all they may publish. */
  ghost function Load(lists: Lists): nat {
    Sum(lists, UNRUN_PLACES)
  }

  lemma {:induction false} SumPut(lists: Lists, ps: seq<Place>, p: Place, s: seq<Operation>)
    requires NoRepeat(ps)
    ensures p in ps ==> Sum(lists[p := s], ps) == Sum(lists, ps) - Weight(At(lists, p)) + Weight(s)
    ensures p !in ps ==> Sum(lists[p := s], ps) == Sum(lists, ps)
    decreases |ps|
  {
    if ps != [] {
      assert forall i :: 0 < i < |ps| ==> ps[i] == ps[1..][i - 1];
      assert NoRepeat(ps[1..]);
      SumPut(lists, ps[1..], p, s);
    }
  }

  lemma LoadPut(lists: Lists, p: Place, s: seq<Operation>)
    ensures Load(lists[p := s]) == Load(lists) + (if p == Ran then 0 else Weight(s) - Weight(At(lists, p)))
  {
    assert NoRepeat(UNRUN_PLACES);
    assert p == Ran || p in UNRUN_PLACES by {
      assert InCpu == UNRUN_PLACES[0] && InIo == UNRUN_PLACES[1];
      assert InRetry == UNRUN_PLACES[2] && InSharedCpu == UNRUN_PLACES[3];
      assert InSharedIo == UNRUN_PLACES[4] && InBatch == UNRUN_PLACES[5] && InPrepared == UNRUN_PLACES[6];
      assert InFlight == UNRUN_PLACES[7] && InReady == UNRUN_PLACES[8];
    }
    SumPut(lists, UNRUN_PLACES, p, s);
  }

  lemma {:induction false} LessWeight(s: seq<Operation>, o: Operation)
    requires o in s
    ensures Weight(s) == Weight(Less(s, o)) + 1 + o.budget
    decreases |s|
  {
    if s[0] != o {
      LessWeight(s[1..], o);
      assert ([s[0]] + Less(s[1..], o))[1..] == Less(s[1..], o);
    }
  }

  /** Moving an operation keeps the load; running it takes it off. */
  lemma ShiftedLoad(lists: Lists, o: Operation, p: Place, q: Place)
    requires o in At(lists, p) && p != q && p != Ran
    ensures Load(Shifted(lists, o, p, q)) == Load(lists) - (if q == Ran then 1 + o.budget else 0)
  {
    hide Load;
    LessWeight(At(lists, p), o);
    LoadPut(lists, p, Less(At(lists, p), o));
    LoadPut(lists[p := Less(At(lists, p), o)], q, [o] + At(lists, q));
    assert ([o] + At(lists, q))[1..] == At(lists, q);
  }

  lemma RelabelledLoad(lists: Lists, p: Place, q: Place)
    requires p != q && p != Ran && q != Ran && At(lists, q) == []
    ensures Load(Relabelled(lists, p, q)) == Load(lists)
  {
    hide Load;
    LoadPut(lists, q, At(lists, p));
    LoadPut(lists[q := At(lists, p)], p, []);
  }

  lemma JoinedLoad(sh: Shape, o: Operation, q: Place, n: Operation?)
    requires q != Ran
    ensures Load(Joined(sh, o, q, n).lists) == Load(sh.lists) + 1 + o.budget
  {
    hide Load;
    LoadPut(sh.lists, q, [o] + At(sh.lists, q));
    assert ([o] + At(sh.lists, q))[1..] == At(sh.lists, q);
  }

  /** Nothing is in an empty place. */
  ghost predicate Vacant(places: Places, p: Place) {
    forall o <- places :: places[o] != p
  }

  lemma EmptyVacant(lists: Lists, places: Places, p: Place)
    requires Located(lists, places)
    ensures At(lists, p) == [] ==> Vacant(places, p)
  {
    if At(lists, p) == [] {
      forall o <- places ensures places[o] != p {
        assert o in At(lists, places[o]);
      }
    }
  }

  const ECANCELED := 125
  const EINTR := 4
  const EAGAIN := 11
  const ENOMEM := 12
  const EBUSY := 16

  /** A failed submit after which the next pass may succeed. */
  predicate Transient(error: int) {
    error == -EINTR || error == -EAGAIN || error == -EBUSY || error == -ENOMEM
  }

  /** Which errors of a submit are transient: interrupted, would block, busy, and out of memory. */
  lemma TransientExactly(error: int)
    ensures Transient(error) <==> error in {-EINTR, -EAGAIN, -EBUSY, -ENOMEM}
    ensures Transient(error) <==> error in {-4, -11, -16, -12}
  {
  }

  const SOURCES := {InRetry, InIo, InSharedIo}

  /** Which of the sources, taken in this order, filled the submission queue. */
  datatype Filled = Nobody | ByRetry | ByIo | ByShared

  /** The retry slot, the local and the shared I/O queue are empty. */
  ghost predicate Drained(lists: Lists) {
    At(lists, InRetry) == [] && At(lists, InIo) == [] && At(lists, InSharedIo) == []
  }

  /** What did not fit: the end of the source that filled the submission queue. */
  ghost function Remainder(before: Lists, filled: Filled, done: nat): seq<Operation> {
    var s := match filled
             case Nobody => []
             case ByRetry => At(before, InRetry)
             case ByIo => At(before, InIo)
             case ByShared => At(before, InSharedIo);
    if done <= |s| then s[done..] else []
  }

  /**
   * The sources up to the one that filled the submission queue are taken; a full queue leaves
   * the sources after it untouched and the rest of that source in the batch.
   */
  ghost predicate TakenUpTo(before: Lists, after: Lists, filled: Filled, done: nat) {
    && (filled.ByRetry? ==> At(after, InIo) == At(before, InIo))
    && (!filled.ByRetry? ==> At(after, InIo) == [])
    && (filled.ByRetry? || filled.ByIo? ==> At(after, InSharedIo) == At(before, InSharedIo))
    && (filled.ByShared? || filled.Nobody? ==> At(after, InSharedIo) == [])
    && (filled.Nobody? <==> Remainder(before, filled, done) == [])
  }

  lemma TakenFacts(before: Lists, after: Lists, filled: Filled, done: nat)
    requires filled.ByRetry? ==>
               && At(after, InIo) == At(before, InIo) && At(after, InSharedIo) == At(before, InSharedIo)
               && done <= |At(before, InRetry)| && At(after, InBatch) == At(before, InRetry)[done..]
    requires filled.ByIo? ==>
               && At(after, InIo) == [] && At(after, InSharedIo) == At(before, InSharedIo)
               && done <= |At(before, InIo)| && At(after, InBatch) == At(before, InIo)[done..]
    requires filled.ByShared? ==>
               && At(after, InIo) == [] && At(after, InSharedIo) == []
               && done <= |At(before, InSharedIo)| && At(after, InBatch) == At(before, InSharedIo)[done..]
    requires filled.Nobody? ==> At(after, InIo) == [] && At(after, InSharedIo) == []
    requires filled.Nobody? <==> At(after, InBatch) == []
    ensures TakenUpTo(before, after, filled, done) && At(after, InBatch) == Remainder(before, filled, done)
  {
    hide At;
  }

  /** Nothing is being worked on. */
  ghost predicate Settled(lists: Lists) {
    At(lists, InBatch) == [] && At(lists, InPrepared) == []
  }

  /** Operations only pass through a place that is empty before and after. */
  lemma FlowThrough(before: Shape, after: Shape, from: set<Place>, into: set<Place>, p: Place)
    requires Located(before.lists, before.places) && Located(after.lists, after.places)
    requires Flow(before.places, after.places, from + {p}, into + {p})
    requires At(before.lists, p) == [] && At(after.lists, p) == []
    ensures Flow(before.places, after.places, from, into)
  {
    hide Located, At;
    EmptyVacant(before.lists, before.places, p);
    EmptyVacant(after.lists, after.places, p);
  }

  /** What a move from the front of a list amounts to. */
  lemma ShiftedFacts(sh: Shape, o: Operation, p: Place, q: Place)
    requires Located(sh.lists, sh.places) && o in At(sh.lists, p) && p != q && p != Ran
    ensures var lists', places' := Shifted(sh.lists, o, p, q), sh.places[o := q];
            && Flow(sh.places, places', {p}, {q}) && Kept(sh.lists, lists', {p, q})
            && At(lists', p) == Less(At(sh.lists, p), o) && At(lists', q) == [o] + At(sh.lists, q)
            && Load(lists') == Load(sh.lists) - (if q == Ran then 1 + o.budget else 0)
  {
    hide Load, Less, NoRepeat;
    ShiftedAt(sh.lists, o, p, q);
    ShiftedLoad(sh.lists, o, p, q);
    Elsewhere(sh.lists, sh.places, o, p, q);
  }

  lemma RelabelledFacts(sh: Shape, p: Place, q: Place)
    requires p != q && p != Ran && q != Ran && At(sh.lists, q) == []
    ensures var lists', places' := Relabelled(sh.lists, p, q), Rezoned(sh.places, p, q);
            && Flow(sh.places, places', {p}, {q}) && Kept(sh.lists, lists', {p, q})
            && At(lists', p) == [] && At(lists', q) == At(sh.lists, p)
            && Load(lists') == Load(sh.lists) && places'.Keys == sh.places.Keys
  {
    hide Load;
    RelabelledAt(sh.lists, p, q);
    RezonedAt(sh.places, p, q);
    RelabelledLoad(sh.lists, p, q);
  }

  lemma FlowTrans(a: Places, b: Places, c: Places, from: set<Place>, into: set<Place>)
    requires Flow(a, b, from, into) && Flow(b, c, from, into)
    ensures Flow(a, c, from, into)
  {
  }

  lemma FlowNone(a: Places, from: set<Place>, into: set<Place>)
    ensures Flow(a, a, from, into)
  {
  }

  lemma KeptNone(a: Lists, others: set<Place>)
    ensures Kept(a, a, others)
  {
  }

  /** One more operation of the batch has gone to the CPU queue or the prepared list. */
  lemma StepFacts(start: Shape, before: Shape, after: Shape, q: Place)
    requires q in {InCpu, InPrepared}
    requires Flow(start.places, before.places, {InBatch}, {InCpu, InPrepared})
    requires Flow(before.places, after.places, {InBatch}, {q})
    requires Kept(start.lists, before.lists, {InBatch, InCpu, InPrepared})
    requires Kept(before.lists, after.lists, {InBatch, q})
    ensures Flow(start.places, after.places, {InBatch}, {InCpu, InPrepared})
    ensures Kept(start.lists, after.lists, {InBatch, InCpu, InPrepared})
  {
    FlowMore(before.places, after.places, {InBatch}, {q}, {InBatch}, {InCpu, InPrepared});
    FlowTrans(start.places, before.places, after.places, {InBatch}, {InCpu, InPrepared});
  }

  lemma KeptAt(a: Lists, b: Lists, others: set<Place>, p: Place)
    requires Kept(a, b, others) && p !in others
    ensures At(b, p) == At(a, p)
  {
  }

  lemma KeptTrans(a: Lists, b: Lists, c: Lists, others: set<Place>)
    requires Kept(a, b, others) && Kept(b, c, others)
    ensures Kept(a, c, others)
  {
  }

  lemma PreparedFacts(start: Shape, taken: Shape, after: Shape, p: Place)
    requires p == InRetry || p == InIo || p == InSharedIo
    requires Flow(start.places, taken.places, {p}, {InBatch})
    requires Flow(taken.places, after.places, {InBatch}, {InCpu, InPrepared})
    requires Kept(start.lists, taken.lists, {p, InBatch})
    requires Kept(taken.lists, after.lists, {InBatch, InCpu, InPrepared})
    ensures Flow(start.places, after.places, {p, InBatch}, {InBatch, InCpu, InPrepared})
    ensures Kept(start.lists, after.lists, {p, InBatch, InCpu, InPrepared}) && At(after.lists, p) == At(taken.lists, p)
  {
    FlowMore(start.places, taken.places, {p}, {InBatch}, {p, InBatch}, {InBatch, InCpu, InPrepared});
    FlowMore(taken.places, after.places, {InBatch}, {InCpu, InPrepared}, {p, InBatch}, {InBatch, InCpu, InPrepared});
    FlowTrans(start.places, taken.places, after.places, {p, InBatch}, {InBatch, InCpu, InPrepared});
  }

  lemma DrainFacts(start: Shape, taken: Shape, after: Shape, p: Place)
    requires p == InRetry || p == InIo || p == InSharedIo
    requires Located(start.lists, start.places) && Located(after.lists, after.places)
    requires At(start.lists, InBatch) == [] && At(after.lists, InBatch) == []
    requires Flow(start.places, taken.places, {p}, {InBatch}) && Flow(taken.places, after.places, {InBatch}, {InCpu})
    requires Kept(start.lists, taken.lists, {p, InBatch}) && Kept(taken.lists, after.lists, {InBatch, InCpu})
    ensures Flow(start.places, after.places, {p}, {InCpu})
    ensures Kept(start.lists, after.lists, {p, InCpu}) && At(after.lists, p) == At(taken.lists, p)
    ensures At(taken.lists, InCpu) == At(start.lists, InCpu)
  {
    FlowMore(start.places, taken.places, {p}, {InBatch}, {p} + {InBatch}, {InCpu} + {InBatch});
    FlowMore(taken.places, after.places, {InBatch}, {InCpu}, {p} + {InBatch}, {InCpu} + {InBatch});
    FlowTrans(start.places, taken.places, after.places, {p} + {InBatch}, {InCpu} + {InBatch});
    FlowThrough(start, after, {p}, {InCpu}, InBatch);
  }

  lemma SourcesDrained(start: Shape, one: Shape, two: Shape, three: Shape)
    requires Flow(start.places, one.places, {InRetry}, {InCpu}) && Kept(start.lists, one.lists, {InRetry, InCpu})
    requires Flow(one.places, two.places, {InIo}, {InCpu}) && Kept(one.lists, two.lists, {InIo, InCpu})
    requires Flow(two.places, three.places, {InSharedIo}, {InCpu}) && Kept(two.lists, three.lists, {InSharedIo, InCpu})
    ensures Flow(start.places, three.places, SOURCES, {InCpu}) && Kept(start.lists, three.lists, SOURCES + {InCpu})
    ensures At(three.lists, InRetry) == At(one.lists, InRetry) && At(three.lists, InIo) == At(two.lists, InIo)
    ensures At(one.lists, InIo) == At(start.lists, InIo) && At(two.lists, InSharedIo) == At(start.lists, InSharedIo)
    ensures At(one.lists, InBatch) == At(two.lists, InBatch) == At(three.lists, InBatch) == At(start.lists, InBatch)
    ensures At(three.lists, InPrepared) == At(start.lists, InPrepared)
  {
    FlowMore(start.places, one.places, {InRetry}, {InCpu}, SOURCES, {InCpu});
    FlowMore(one.places, two.places, {InIo}, {InCpu}, SOURCES, {InCpu});
    FlowMore(two.places, three.places, {InSharedIo}, {InCpu}, SOURCES, {InCpu});
    FlowTrans(start.places, one.places, two.places, SOURCES, {InCpu});
    FlowTrans(start.places, two.places, three.places, SOURCES, {InCpu});
  }

  /** Preparing from one source, seen as a step of preparing from all. */
  ghost predicate Preparing(start: Shape, after: Shape) {
    && Flow(start.places, after.places, SOURCES + {InBatch}, {InBatch, InCpu, InPrepared})
    && Kept(start.lists, after.lists, SOURCES + {InBatch, InCpu, InPrepared})
  }

  lemma FromFacts(start: Shape, after: Shape, p: Place)
    requires p in SOURCES && Flow(start.places, after.places, {p, InBatch}, {InBatch, InCpu, InPrepared})
    requires Kept(start.lists, after.lists, {p, InBatch, InCpu, InPrepared})
    ensures Preparing(start, after) && At(after.lists, InFlight) == At(start.lists, InFlight)
    ensures forall q :: q in SOURCES && q != p ==> At(after.lists, q) == At(start.lists, q)
  {
    FlowMore(start.places, after.places, {p, InBatch}, {InBatch, InCpu, InPrepared},
             SOURCES + {InBatch}, {InBatch, InCpu, InPrepared});
  }

  lemma FromTrans(start: Shape, middle: Shape, after: Shape)
    requires Preparing(start, middle) && Preparing(middle, after)
    ensures Preparing(start, after)
  {
    FlowTrans(start.places, middle.places, after.places, SOURCES + {InBatch}, {InBatch, InCpu, InPrepared});
  }

  ghost predicate AllAt(places: Places, s: seq<Operation>, p: Place) {
    forall o <- s :: o in places && places[o] == p
  }

  /**
   * After a submit every prepared operation is in flight, except that a failed submit fails
   * the one prepared last; the others stay in flight.
   */
  ghost predicate Outcome(places: Places, prepared: seq<Operation>, submit: int) {
    if submit < 0 then
      prepared != [] && AllAt(places, prepared[..1], InCpu) && AllAt(places, prepared[1..], InFlight)
    else AllAt(places, prepared, InFlight)
  }

  lemma OutcomeFirst(places: Places, prepared: seq<Operation>, submit: int)
    requires Outcome(places, prepared, submit) && submit < 0
    ensures prepared != [] && prepared[0] in places && places[prepared[0]] == InCpu
  {
    assert prepared[0] in prepared[..1];
  }

  /** A failed submit fails everything that was prepared exactly when that was one operation. */
  lemma AllFailedExactly(places: Places, prepared: seq<Operation>, submit: int)
    requires Outcome(places, prepared, submit) && submit < 0
    ensures AllAt(places, prepared, InCpu) <==> |prepared| == 1
  {
    if |prepared| == 1 {
      assert prepared == prepared[..1];
    } else {
      assert prepared[1] in prepared[1..] && prepared[1] in prepared;
    }
  }

  lemma TrackedFlying(sh: Shape, heads: Heads, inflight: seq<Operation>, prepared: seq<Operation>)
    requires Formed(sh, heads, inflight) && exists s :: inflight == Reverse(prepared) + s
    ensures AllAt(sh.places, prepared, InFlight) && forall o <- prepared :: o in inflight
  {
    ReverseMembers(prepared);
    forall o <- prepared ensures o in inflight && o in sh.places && sh.places[o] == InFlight {
      assert o in Reverse(prepared) && o in inflight;
      FlightUnlinked(sh, heads, inflight, o);
    }
  }

  lemma FormedSimple(sh: Shape, heads: Heads, inflight: seq<Operation>, p: Place)
    requires Formed(sh, heads, inflight)
    ensures NoRepeat(At(sh.lists, p))
  {
  }

  lemma FormedAt(sh: Shape, heads: Heads, inflight: seq<Operation>, p: Place)
    requires Formed(sh, heads, inflight)
    ensures AllAt(sh.places, At(sh.lists, p), p)
  {
  }

  lemma SubmitFacts(start: Shape, tracked: Shape, after: Shape, prepared: seq<Operation>, submit: int)
    requires Flow(start.places, tracked.places, {InPrepared}, {InFlight})
    requires Kept(start.lists, tracked.lists, {InPrepared, InFlight})
    requires AllAt(tracked.places, prepared, InFlight) && NoRepeat(prepared) && prepared != []
    requires AllAt(start.places, prepared, InPrepared)
    requires if submit < 0 then
               && Flow(tracked.places, after.places, {InFlight}, {InCpu})
               && Kept(tracked.lists, after.lists, {InFlight, InCpu})
               && after.places == tracked.places[prepared[0] := InCpu]
             else after == tracked
    ensures Flow(start.places, after.places, {InPrepared}, {InFlight, InCpu})
    ensures Kept(start.lists, after.lists, {InPrepared, InFlight, InCpu}) && Outcome(after.places, prepared, submit)
    ensures At(after.lists, InPrepared) == At(tracked.lists, InPrepared)
  {
    assert prepared[0] in prepared;
  }

  /** Preparing and submitting, in one. */
  ghost predicate Submitting(start: Shape, after: Shape) {
    && Flow(start.places, after.places, SOURCES + {InBatch, InPrepared}, {InBatch, InPrepared, InFlight, InCpu})
    && Kept(start.lists, after.lists, SOURCES + {InBatch, InPrepared, InFlight, InCpu})
  }

  lemma SubmittedFacts(start: Shape, prepared: Shape, after: Shape)
    requires Preparing(start, prepared) && Flow(prepared.places, after.places, {InPrepared}, {InFlight, InCpu})
    requires Kept(prepared.lists, after.lists, {InPrepared, InFlight, InCpu})
    ensures Submitting(start, after)
    ensures forall q :: q in SOURCES + {InBatch} ==> At(after.lists, q) == At(prepared.lists, q)
  {
  }

  /** The remainder leaves the batch for `q`. */
  lemma LeftFacts(before: Shape, after: Shape, prepared: seq<Operation>, submit: int, q: Place)
    requires q == InCpu || q == InRetry
    requires Flow(before.places, after.places, {InBatch}, {q}) && Kept(before.lists, after.lists, {InBatch, q})
    requires Outcome(before.places, prepared, submit)
    ensures Outcome(after.places, prepared, submit)
    ensures At(after.lists, InIo) == At(before.lists, InIo)
    ensures At(after.lists, InSharedIo) == At(before.lists, InSharedIo)
    ensures At(after.lists, InPrepared) == At(before.lists, InPrepared)
    ensures q == InCpu ==> At(after.lists, InRetry) == At(before.lists, InRetry)
  {
  }

  lemma ConsumedFacts(start: Shape, submitted: Shape, after: Shape, q: Place)
    requires Located(start.lists, start.places) && Located(after.lists, after.places)
    requires Submitting(start, submitted) && Settled(start.lists)
    requires Settled(after.lists) && (q == InCpu || q == InRetry)
    requires Flow(submitted.places, after.places, {InBatch}, {q}) && Kept(submitted.lists, after.lists, {InBatch, q})
    ensures Flow(start.places, after.places, SOURCES, {InCpu, InFlight, InRetry})
    ensures Kept(start.lists, after.lists, SOURCES + {InCpu, InFlight})
  {
    hide Flow, Kept, Located;
    var from, into := SOURCES, {InCpu, InFlight, InRetry};
    var wide, wider := (from + {InPrepared}) + {InBatch}, (into + {InPrepared}) + {InBatch};
    FlowMore(start.places, submitted.places,
             SOURCES + {InBatch, InPrepared}, {InBatch, InPrepared, InFlight, InCpu}, wide, wider);
    FlowMore(submitted.places, after.places, {InBatch}, {q}, wide, wider);
    FlowTrans(start.places, submitted.places, after.places, wide, wider);
    FlowThrough(start, after, from + {InPrepared}, into + {InPrepared}, InBatch);
    FlowThrough(start, after, from, into, InPrepared);
    KeptSettled(start.lists, submitted.lists, after.lists, q);
  }

  lemma KeptSettled(start: Lists, submitted: Lists, after: Lists, q: Place)
    requires Kept(start, submitted, SOURCES + {InBatch, InPrepared, InFlight, InCpu})
    requires Kept(submitted, after, {InBatch, q})
    requires Settled(start) && Settled(after) && (q == InCpu || q == InRetry)
    ensures Kept(start, after, SOURCES + {InCpu, InFlight})
  {
    hide At;
  }

  lemma TakenSame(before: Lists, middle: Lists, after: Lists, filled: Filled, done: nat)
    requires TakenUpTo(before, middle, filled, done)
    requires At(after, InIo) == At(middle, InIo) && At(after, InSharedIo) == At(middle, InSharedIo)
    ensures TakenUpTo(before, after, filled, done)
  {
    hide At, Remainder;
  }

  lemma FlowMore(a: Places, b: Places, from: set<Place>, into: set<Place>, from': set<Place>, into': set<Place>)
    requires Flow(a, b, from, into) && from <= from' && into <= into'
    ensures Flow(a, b, from', into')
  {
  }

  // ----- what operations are completed with ---------------------------------------------

  datatype Mark = Mark(fate: Fate, result: int)

  type Marks = map<Operation, Mark>

  ghost function MarksOf(operations: set<Operation>): (m: Marks)
    reads operations`fate, operations`result
    ensures m.Keys == operations
  {
    map o <- operations :: Mark(o.fate, o.result)
  }

  /**
   * Who came to the CPU queue is completed with `fate`, and nobody else's completion changed;
   * nobody left that queue.
   */
  ghost predicate Ended(before: Places, after: Places, marks: Marks, marks': Marks, fate: Fate) {
    forall o <- before :: o in after && o in marks && o in marks' && (before[o] == InCpu ==> after[o] == InCpu) &&
      if before[o] != InCpu && after[o] == InCpu then EndedWith(marks'[o], fate) else marks'[o] == marks[o]
  }

  ghost predicate EndedWith(mark: Mark, fate: Fate) {
    mark.fate == fate && (fate == Stopped ==> mark.result == -ECANCELED)
  }

  lemma SameKeys(places: Places, o: Operation, q: Place)
    requires o in places
    ensures places[o := q].Keys == places.Keys
  {
  }

  lemma EndedNone(places: Places, marks: Marks, fate: Fate)
    requires marks.Keys == places.Keys
    ensures Ended(places, places, marks, marks, fate)
  {
  }

  /** Moves between places other than the CPU queue complete nobody. */
  lemma EndedFlow(before: Places, after: Places, marks: Marks, from: set<Place>, into: set<Place>, fate: Fate)
    requires Flow(before, after, from, into) && InCpu !in from && InCpu !in into && marks.Keys == before.Keys
    ensures Ended(before, after, marks, marks, fate)
  {
  }

  /** One operation comes to the CPU queue. */
  lemma EndedOne(places: Places, marks: Marks, o: Operation, mark: Mark, fate: Fate)
    requires marks.Keys == places.Keys && o in places && places[o] != InCpu && EndedWith(mark, fate)
    ensures Ended(places, places[o := InCpu], marks, marks[o := mark], fate)
  {
  }

  /** Who is on the CPU queue already keeps its completion. */
  lemma EndedSame(before: Places, after: Places, marks: Marks, marks': Marks, o: Operation, fate: Fate)
    requires Ended(before, after, marks, marks', fate) && o in before && before[o] == InCpu
    ensures o in marks && o in marks' && marks'[o] == marks[o]
  {
  }

  lemma EndedTrans(a: Places, b: Places, c: Places, k: Marks, l: Marks, m: Marks, fate: Fate)
    requires Ended(a, b, k, l, fate) && Ended(b, c, l, m, fate)
    ensures Ended(a, c, k, m, fate)
  {
  }

  // ----- what preparing answers ----------------------------------------------------------

  /**
   * The first operations of `batch` were prepared with these answers: one that could not be
   * prepared is failed with its own error, the others are prepared and otherwise as they were.
   */
  ghost predicate Answered(batch: seq<Operation>, answers: seq<int>, places: Places, marks: Marks, start: Marks) {
    |answers| <= |batch| &&
    forall i :: 0 <= i < |answers| ==>
      batch[i] in places && batch[i] in marks && batch[i] in start && answers[i] != -EAGAIN &&
      if answers[i] < 0 then places[batch[i]] == InCpu && marks[batch[i]] == Mark(Failed, answers[i])
      else places[batch[i]] == InPrepared && marks[batch[i]] == start[batch[i]]
  }

  /** Those of the first operations that were prepared, in order. */
  ghost function Passed(batch: seq<Operation>, answers: seq<int>): seq<Operation>
    requires |answers| <= |batch|
    decreases |answers|
  {
    if answers == [] then []
    else var n := |answers| - 1;
         Passed(batch, answers[..n]) + if answers[n] < 0 then [] else [batch[n]]
  }

  lemma AnsweredNone(batch: seq<Operation>, places: Places, marks: Marks)
    ensures Answered(batch, [], places, marks, marks) && Passed(batch, []) == []
  {
  }

  lemma AnsweredMore(batch: seq<Operation>, answers: seq<int>, answer: int, places: Places, marks: Marks, start: Marks)
    requires Answered(batch, answers, places, marks, start) && |answers| < |batch| && answer != -EAGAIN
    requires var o := batch[|answers|];
             && o in places && o in marks && o in start
             && if answer < 0 then places[o] == InCpu && marks[o] == Mark(Failed, answer)
                else places[o] == InPrepared && marks[o] == start[o]
    ensures Answered(batch, answers + [answer], places, marks, start)
    ensures Passed(batch, answers + [answer]) == Passed(batch, answers) + if answer < 0 then [] else [batch[|answers|]]
  {
    assert (answers + [answer])[..|answers|] == answers;
  }

  /** Later moves from other places, completing others, leave the answered ones alone. */
  lemma AnsweredKept(batch: seq<Operation>, answers: seq<int>, a: Places, b: Places, k: Marks, l: Marks, start: Marks,
                     from: set<Place>, into: set<Place>)
    requires Answered(batch, answers, a, k, start) && Flow(a, b, from, into) && Ended(a, b, k, l, Failed)
    requires InCpu !in from && InPrepared !in from
    ensures Answered(batch, answers, b, l, start)
  {
  }

  /** An operation that nobody has answered yet still has its first mark. */
  lemma Unanswered(a: Places, b: Places, k: Marks, l: Marks, o: Operation)
    requires Ended(a, b, k, l, Failed) && o in a && o in b && b[o] != InCpu
    ensures o in k && o in l && l[o] == k[o]
  {
  }

  lemma {:induction false} PassedJoin(a: seq<Operation>, b: seq<Operation>, x: seq<int>, y: seq<int>)
    requires |x| == |a| && |y| <= |b|
    ensures Passed(a + b, x + y) == Passed(a, x) + Passed(b, y)
    decreases |y|
  {
    if y == [] {
      assert x + y == x;
      PassedFront(a, b, x);
    } else {
      var n := |y| - 1;
      assert (x + y)[..|x + y| - 1] == x + y[..n] && (x + y)[|x + y| - 1] == y[n] && (a + b)[|x + y| - 1] == b[n];
      PassedJoin(a, b, x, y[..n]);
    }
  }

  lemma {:induction false} PassedFront(a: seq<Operation>, b: seq<Operation>, x: seq<int>)
    requires |x| <= |a|
    ensures Passed(a + b, x) == Passed(a, x)
    decreases |x|
  {
    if x != [] {
      PassedFront(a, b, x[..|x| - 1]);
    }
  }

  lemma AnsweredJoin(a: seq<Operation>, b: seq<Operation>, x: seq<int>, y: seq<int>,
                     places: Places, marks: Marks, middle: Marks, start: Marks)
    requires Answered(a, x, places, marks, start) && Answered(b, y, places, marks, middle) && |x| == |a|
    requires forall i :: 0 <= i < |y| ==> b[i] in start && (y[i] >= 0 ==> start[b[i]] == middle[b[i]])
    ensures Answered(a + b, x + y, places, marks, start)
  {
  }

  lemma AnsweredFront(a: seq<Operation>, b: seq<Operation>, x: seq<int>, places: Places, marks: Marks, start: Marks)
    requires Answered(a, x, places, marks, start)
    ensures Answered(a + b, x, places, marks, start) && Passed(a + b, x) == Passed(a, x)
  {
    PassedFront(a, b, x);
  }

  lemma ReverseNothing()
    ensures Reverse<Operation>([]) == [] && forall s: seq<Operation> :: [] + s == s
  {
  }

  /** Putting one more in front of a list that was put there one by one. */
  lemma ReversePut(s: seq<Operation>, o: Operation, t: seq<Operation>)
    ensures Reverse(s + [o]) + t == [o] + (Reverse(s) + t)
  {
    ReverseAdd(s, o);
    hide Reverse;
    assert [o] + Reverse(s) + t == [o] + (Reverse(s) + t);
  }

  /** One more operation of a batch was prepared, or could not be. */
  lemma AnswerFront(batch: seq<Operation>, answers: seq<int>, answer: int, a: Places, b: Places, k: Marks, l: Marks,
                    start: Marks, before: seq<Operation>, after: seq<Operation>, rest: seq<Operation>)
    requires Answered(batch, answers, a, k, start) && |answers| < |batch| && answer != -EAGAIN
    requires Flow(a, b, {InBatch}, {InCpu, InPrepared}) && Ended(a, b, k, l, Failed)
    requires var o := batch[|answers|];
             && o in b && o in l && o in start && b[o] == (if answer < 0 then InCpu else InPrepared)
             && l[o] == (if answer < 0 then Mark(Failed, answer) else start[o])
    requires before == Reverse(Passed(batch, answers)) + rest
    requires after == (if answer < 0 then [] else [batch[|answers|]]) + before
    ensures Answered(batch, answers + [answer], b, l, start)
    ensures after == Reverse(Passed(batch, answers + [answer])) + rest
  {
    hide Reverse;
    AnsweredKept(batch, answers, a, b, k, l, start, {InBatch}, {InCpu, InPrepared});
    AnsweredMore(batch, answers, answer, b, l, start);
    if answer < 0 {
      assert Passed(batch, answers) + [] == Passed(batch, answers);
    } else {
      ReversePut(Passed(batch, answers), batch[|answers|], rest);
    }
  }

  lemma ReverseTwo(a: seq<Operation>, b: seq<Operation>, t: seq<Operation>)
    ensures Reverse(a + b) + t == Reverse(b) + (Reverse(a) + t)
    ensures Reverse(a) + [] == Reverse(a) && Reverse(b) + [] == Reverse(b)
    ensures Reverse(a + b) + [] == Reverse(a + b)
  {
    ReverseJoin(a, b);
  }

  lemma WholeAnswered(s: seq<Operation>, done: nat)
    requires done <= |s| && s[done..] == []
    ensures done == |s|
  {
    assert |s[done..]| == |s| - done;
  }

  /** The answers of one more source. */
  lemma JoinAnswers(a: seq<Operation>, b: seq<Operation>, x: seq<int>, y: seq<int>,
                    start: Places, middle: Places, after: Places, k: Marks, l: Marks, m: Marks, p: Place)
    requires p == InIo || p == InSharedIo
    requires Answered(a, x, middle, l, k) && |x| == |a| && Ended(start, middle, k, l, Failed)
    requires Answered(b, y, after, m, l) && Ended(middle, after, l, m, Failed)
    requires Flow(middle, after, {p, InBatch}, {InBatch, InCpu, InPrepared}) && AllAt(middle, b, p)
    requires forall o <- middle :: o in start
    ensures Answered(a + b, x + y, after, m, k) && Passed(a + b, x + y) == Passed(a, x) + Passed(b, y)
  {
    AnsweredKept(a, x, middle, after, l, m, k, {p, InBatch}, {InBatch, InCpu, InPrepared});
    forall i | 0 <= i < |y| ensures b[i] in k && k[b[i]] == l[b[i]] {
      assert b[i] in b;
      Unanswered(start, middle, k, l, b[i]);
    }
    AnsweredJoin(a, b, x, y, after, m, l, k);
    PassedJoin(a, b, x, y);
  }

  /** These are the answers so far, and `prepared` is the list that came of them. */
  ghost predicate Listed(batch: seq<Operation>, answers: seq<int>, places: Places, marks: Marks, start: Marks,
                         prepared: seq<Operation>) {
    Answered(batch, answers, places, marks, start) && prepared == Reverse(Passed(batch, answers))
  }

  lemma ListedFirst(batch: seq<Operation>, answers: seq<int>, places: Places, marks: Marks, start: Marks,
                    prepared: seq<Operation>)
    requires Answered(batch, answers, places, marks, start) && prepared == Reverse(Passed(batch, answers)) + []
    ensures Listed(batch, answers, places, marks, start, prepared)
  {
  }

  lemma ListedFront(a: seq<Operation>, b: seq<Operation>, x: seq<int>, places: Places, marks: Marks, start: Marks,
                    prepared: seq<Operation>)
    requires Listed(a, x, places, marks, start, prepared)
    ensures Listed(a + b, x, places, marks, start, prepared)
  {
    hide Reverse;
    AnsweredFront(a, b, x, places, marks, start);
  }

  lemma ListedMore(a: seq<Operation>, b: seq<Operation>, x: seq<int>, y: seq<int>, start: Places, middle: Places,
                   after: Places, k: Marks, l: Marks, m: Marks, p: Place, s: seq<Operation>, t: seq<Operation>)
    requires p == InIo || p == InSharedIo
    requires Listed(a, x, middle, l, k, s) && |x| == |a| && Ended(start, middle, k, l, Failed)
    requires Answered(b, y, after, m, l) && Ended(middle, after, l, m, Failed)
    requires Flow(middle, after, {p, InBatch}, {InBatch, InCpu, InPrepared}) && AllAt(middle, b, p)
    requires (forall o <- middle :: o in start) && t == Reverse(Passed(b, y)) + s
    ensures Listed(a + b, x + y, after, m, k, t)
  {
    hide Reverse, Answered, Ended, Flow, AllAt, Passed;
    JoinAnswers(a, b, x, y, start, middle, after, k, l, m, p);
    ReverseTwo(Passed(a, x), Passed(b, y), []);
  }

  lemma ListedAll(batch: seq<Operation>, answers: seq<int>, places: Places, marks: Marks, start: Marks,
                  prepared: seq<Operation>)
    requires Listed(batch, answers, places, marks, start, prepared)
    ensures Answered(batch, answers, places, marks, start) && prepared == Reverse(Passed(batch, answers))
  {
  }

  /** Everybody who could not be prepared is on the CPU queue with its own error. */
  ghost predicate Refused(batch: seq<Operation>, answers: seq<int>, places: Places, marks: Marks) {
    |answers| <= |batch| &&
    forall i :: 0 <= i < |answers| && answers[i] < 0 ==>
      && batch[i] in places && places[batch[i]] == InCpu
      && batch[i] in marks && marks[batch[i]] == Mark(Failed, answers[i])
  }

  lemma AnsweredRefused(batch: seq<Operation>, answers: seq<int>, places: Places, marks: Marks, start: Marks)
    requires Answered(batch, answers, places, marks, start)
    ensures Refused(batch, answers, places, marks)
  {
  }

  lemma RefusedKept(batch: seq<Operation>, answers: seq<int>, a: Places, b: Places, k: Marks, l: Marks)
    requires Refused(batch, answers, a, k) && Ended(a, b, k, l, Failed)
    ensures Refused(batch, answers, b, l)
  {
  }

  /** All of these are on the CPU queue with this mark. */
  ghost predicate AllMarked(s: seq<Operation>, places: Places, marks: Marks, mark: Mark) {
    forall o <- s :: o in places && places[o] == InCpu && o in marks && marks[o] == mark
  }

  lemma MarkedNone(places: Places, marks: Marks, mark: Mark)
    ensures AllMarked([], places, marks, mark)
  {
  }

  lemma MarkedMore(s: seq<Operation>, o: Operation, places: Places, marks: Marks, mark: Mark)
    requires AllMarked(s, places, marks, mark)
    ensures AllMarked(s + [o], places[o := InCpu], marks[o := mark], mark)
  {
  }

  /** The I/O operations a worker finds, in the order it takes them. */
  ghost function Sourced(lists: Lists): seq<Operation> {
    At(lists, InRetry) + At(lists, InIo) + At(lists, InSharedIo)
  }

  /** How many of them were answered. */
  ghost function Progress(lists: Lists, filled: Filled, done: nat): nat {
    match filled
    case ByRetry => done
    case ByIo => |At(lists, InRetry)| + done
    case ByShared => |At(lists, InRetry)| + |At(lists, InIo)| + done
    case Nobody => |At(lists, InRetry)| + |At(lists, InIo)| + |At(lists, InSharedIo)|
  }

  lemma Unsettled(lists: Lists)
    requires Settled(lists)
    ensures At(lists, InBatch) == [] && At(lists, InPrepared) == []
  {
  }

  lemma SourcesAre(lists: Lists, filled: Filled, done: nat)
    ensures Sourced(lists) == At(lists, InRetry) + At(lists, InIo) + At(lists, InSharedIo)
    ensures Progress(lists, filled, done) ==
            match filled
            case ByRetry => done
            case ByIo => |At(lists, InRetry)| + done
            case ByShared => |At(lists, InRetry)| + |At(lists, InIo)| + done
            case Nobody => |At(lists, InRetry)| + |At(lists, InIo)| + |At(lists, InSharedIo)|
    ensures Drained(lists) <==> At(lists, InRetry) == [] && At(lists, InIo) == [] && At(lists, InSharedIo) == []
  {
    hide At;
  }

  class Worker {
    var heads: Heads
    var inflight: seq<Operation>
    ghost var shape: Shape

    ghost predicate Valid()
      reads this, shape.places.Keys`next
    {
      Formed(shape, heads, inflight) && Agree(shape)
    }

    /** What each operation would complete with. */
    ghost function Fates(): Marks
      reads this, shape.places.Keys`fate, shape.places.Keys`result
    {
      MarksOf(shape.places.Keys)
    }

    constructor ()
      ensures Valid() && shape == Shape(map[], map[], map[]) && inflight == []
    {
      heads, inflight, shape := map[], [], Shape(map[], map[], map[]);
    }

    /** Takes the first operation of one list and puts it in front of another place. */
    method Move(p: Place, q: Place) returns (operation: Operation)
      requires Valid() && Chained(p) && p != q && At(shape.lists, p) != []
      modifies this, shape.places.Keys`next
      ensures Valid() && operation == At(old(shape.lists), p)[0] && operation in old(shape.places)
      ensures shape.places == old(shape.places)[operation := q] && Flow(old(shape.places), shape.places, {p}, {q})
      ensures Kept(old(shape.lists), shape.lists, {p, q})
      ensures At(shape.lists, p) == At(old(shape.lists), p)[1..]
      ensures At(shape.lists, q) == [operation] + At(old(shape.lists), q)
      ensures Load(shape.lists) == Load(old(shape.lists)) - (if q == Ran then 1 + operation.budget else 0)
      ensures inflight == if q == InFlight then [operation] + old(inflight) else old(inflight)
      ensures old(shape.places)[operation] == p
    {
      hide Formed, At, Shifted, Reheaded, Head, Flow, Kept, Load, Less;
      HeadFirst(shape, heads, inflight, p);
      operation := Head(heads, p);
      FormedLocated(shape, heads, inflight);
      ShiftedFacts(shape, operation, p, q);
      LessFirst(At(shape.lists, p), operation);
      PlaceOf(shape.lists, shape.places, operation, p);
      MovedFormed(shape, heads, inflight, operation, p, q);
      ghost var sh := Moved(shape, operation, p, q, Head(heads, q));
      var after, front := operation.next, Head(heads, q);
      assert after == shape.nexts[operation];
      operation.next := front;
      heads := Reheaded(heads, operation, p, q, after);
      shape := sh;
      if q == InFlight {
        inflight := [operation] + inflight;
      }
    }

    /** Takes an operation out of the inflight list and pushes it on a queue. */
    method Recall(operation: Operation, q: Place)
      requires Valid() && Chained(q) && operation in inflight
      modifies this, shape.places.Keys`next
      ensures Valid() && operation in old(shape.places)
      ensures shape.places == old(shape.places)[operation := q]
      ensures Flow(old(shape.places), shape.places, {InFlight}, {q})
      ensures Kept(old(shape.lists), shape.lists, {InFlight, q})
      ensures At(shape.lists, q) == [operation] + At(old(shape.lists), q)
      ensures Load(shape.lists) == Load(old(shape.lists)) && |inflight| == |old(inflight)| - 1
      ensures old(shape.places)[operation] == InFlight && inflight == Less(old(inflight), operation)
    {
      hide At, Shifted, Reheaded, Head, Located, Linked, Less, Flow, Kept, Load;
      FlightUnlinked(shape, heads, inflight, operation);
      InflightSimple(shape, heads, inflight);
      FormedLocated(shape, heads, inflight);
      ShiftedFacts(shape, operation, InFlight, q);
      LessMembers(inflight, operation);
      MovedFormed(shape, heads, inflight, operation, InFlight, q);
      ghost var sh := Moved(shape, operation, InFlight, q, Head(heads, q));
      var front := Head(heads, q);
      var i :| 0 <= i < |inflight| && inflight[i] == operation;
      LessAt(inflight, i);
      inflight := inflight[..i] + inflight[i + 1..];
      heads := Reheaded(heads, operation, InFlight, q, operation.next);
      operation.next := front;
      shape := sh;
    }

    /** Passes a whole list on to an empty place. */
    method Relabel(p: Place, q: Place)
      requires Valid() && p != q && Chained(p) && Chained(q) && At(shape.lists, q) == []
      modifies this
      ensures Valid() && inflight == old(inflight)
      ensures Flow(old(shape.places), shape.places, {p}, {q}) && Kept(old(shape.lists), shape.lists, {p, q})
      ensures At(shape.lists, p) == [] && At(shape.lists, q) == At(old(shape.lists), p)
      ensures Load(shape.lists) == Load(old(shape.lists)) && shape.places.Keys == old(shape.places).Keys
      ensures Fates() == old(Fates())
    {
      hide Formed, At, Relabelled, Rezoned, Head, Flow, Kept, Load;
      RelabelledFacts(shape, p, q);
      RelabelledFormed(shape, heads, inflight, p, q);
      RezonedAt(shape.places, p, q);
      heads := heads[q := Head(heads, p)][p := null];
      shape := Shape(Relabelled(shape.lists, p, q), Rezoned(shape.places, p, q), shape.nexts);
    }

    /** A callback publishes a new operation. */
    method Spawn(q: Place, budget: nat) returns (operation: Operation)
      requires Valid() && Chained(q)
      modifies this
      ensures Valid() && fresh(operation) && operation.budget == budget && inflight == old(inflight)
      ensures operation !in old(shape.places)
      ensures shape == Joined(old(shape), operation, q, operation.next)
    {
      hide Formed, At, Head, Joined;
      operation := new Operation(budget);
      JoinedFormed(shape, heads, inflight, operation, q);
      operation.next := Head(heads, q);
      ghost var sh := shape;
      shape := Joined(shape, operation, q, Head(heads, q));
      heads := heads[q := operation];
      JoinedMaps(sh, operation, q, operation.next);
    }

    /** Whether a list has operations. */
    method NonEmpty(p: Place) returns (found: bool)
      requires Valid() && Chained(p)
      ensures Valid() && (found <==> At(shape.lists, p) != [])
    {
      hide Formed, At;
      HeadFirst(shape, heads, inflight, p);
      found := Head(heads, p) != null;
    }

    /** The first operation of the batch was prepared, or could not be. */
    method PrepareFront(result: int)
      requires Valid() && At(shape.lists, InBatch) != []
      modifies this, shape.places.Keys
      ensures Valid() && inflight == old(inflight) && shape.places.Keys == old(shape.places).Keys
      ensures Flow(old(shape.places), shape.places, {InBatch}, {InCpu, InPrepared})
      ensures Kept(old(shape.lists), shape.lists, {InBatch, InCpu, InPrepared})
      ensures Load(shape.lists) == Load(old(shape.lists))
      ensures At(shape.lists, InBatch) == At(old(shape.lists), InBatch)[1..]
      ensures At(old(shape.lists), InBatch)[0] in shape.places
      ensures shape.places[At(old(shape.lists), InBatch)[0]] == if result < 0 then InCpu else InPrepared
      ensures Fates() == if result < 0 then old(Fates())[At(old(shape.lists), InBatch)[0] := Mark(Failed, result)]
                         else old(Fates())
      ensures At(shape.lists, InPrepared) ==
              (if result < 0 then [] else At(old(shape.lists), InBatch)[..1]) + At(old(shape.lists), InPrepared)
      ensures Ended(old(shape.places), shape.places, old(Fates()), Fates(), Failed)
    {
      hide Valid, At, Flow, Kept, Load, Ended, MarksOf;
      FlowNone(shape.places, {InBatch}, {InCpu, InPrepared});
      KeptNone(shape.lists, {InBatch, InCpu, InPrepared});
      if result < 0 {
        var operation := CompleteFront(Failed, result);
        KeptAt(old(shape.lists), shape.lists, {InBatch, InCpu}, InPrepared);
        StepFacts(old(shape), old(shape), shape, InCpu);
      } else {
        var operation := Move(InBatch, InPrepared);
        SameKeys(old(shape.places), operation, InPrepared);
        StepFacts(old(shape), old(shape), shape, InPrepared);
        EndedFlow(old(shape.places), shape.places, Fates(), {InBatch}, {InPrepared}, Failed);
      }
    }

    /**
     * Prepares the operations of the batch one by one. A full submission queue leaves the rest
     * in the batch; an operation that cannot be prepared fails.
     */
    method PrepareBatch() returns (full: bool, ghost done: nat, ghost answers: seq<int>)
      requires Valid()
      modifies this, shape.places.Keys
      ensures Valid() && Flow(old(shape.places), shape.places, {InBatch}, {InCpu, InPrepared})
      ensures Kept(old(shape.lists), shape.lists, {InBatch, InCpu, InPrepared})
      ensures Load(shape.lists) == Load(old(shape.lists))
      ensures done <= |At(old(shape.lists), InBatch)|
      ensures At(shape.lists, InBatch) == At(old(shape.lists), InBatch)[done..]
      ensures full <==> At(shape.lists, InBatch) != []
      ensures inflight == old(inflight) && Ended(old(shape.places), shape.places, old(Fates()), Fates(), Failed)
      ensures |answers| == done && Answered(At(old(shape.lists), InBatch), answers, shape.places, Fates(), old(Fates()))
      ensures At(shape.lists, InPrepared)
           == Reverse(Passed(At(old(shape.lists), InBatch), answers)) + At(old(shape.lists), InPrepared)
    {
      hide Valid, At, Flow, Kept, Load, Ended, MarksOf, Answered, Passed, Reverse;
      full, done, answers := false, 0, [];
      AnsweredNone(At(shape.lists, InBatch), shape.places, Fates());
      ReverseNothing();
      EndedNone(shape.places, Fates(), Failed);
      FlowNone(shape.places, {InBatch}, {InCpu, InPrepared});
      KeptNone(shape.lists, {InBatch, InCpu, InPrepared});
      var more := NonEmpty(InBatch);
      while more
        invariant Valid() && (more <==> At(shape.lists, InBatch) != [])
        invariant Flow(old(shape.places), shape.places, {InBatch}, {InCpu, InPrepared})
        invariant Kept(old(shape.lists), shape.lists, {InBatch, InCpu, InPrepared})
        invariant Load(shape.lists) == Load(old(shape.lists))
        invariant done <= |At(old(shape.lists), InBatch)|
        invariant At(shape.lists, InBatch) == At(old(shape.lists), InBatch)[done..]
        invariant inflight == old(inflight) && shape.places.Keys == old(shape.places).Keys
        invariant Ended(old(shape.places), shape.places, old(Fates()), Fates(), Failed)
        invariant |answers| == done
        invariant Answered(At(old(shape.lists), InBatch), answers, shape.places, Fates(), old(Fates()))
        invariant At(shape.lists, InPrepared)
               == Reverse(Passed(At(old(shape.lists), InBatch), answers)) + At(old(shape.lists), InPrepared)
        decreases |At(shape.lists, InBatch)|
      {
        var result: int := *;
        if result == -EAGAIN {
          full := true;
          return;
        }
        ghost var before, marks := shape, Fates();
        ghost var batch, o := At(old(shape.lists), InBatch), At(shape.lists, InBatch)[0];
        BatchMark(o, old(shape.places), old(Fates()));
        PrepareFront(result);
        AnswerFront(batch, answers, result, before.places, shape.places, marks, Fates(), old(Fates()),
                    At(before.lists, InPrepared), At(shape.lists, InPrepared), At(old(shape.lists), InPrepared));
        answers := answers + [result];
        FlowTrans(old(shape.places), before.places, shape.places, {InBatch}, {InCpu, InPrepared});
        KeptTrans(old(shape.lists), before.lists, shape.lists, {InBatch, InCpu, InPrepared});
        EndedTrans(old(shape.places), before.places, shape.places, old(Fates()), marks, Fates(), Failed);
        done := done + 1;
        more := NonEmpty(InBatch);
      }
    }

    /** The first operation of the batch has not been completed since `marks`. */
    lemma BatchMark(o: Operation, places: Places, marks: Marks)
      requires Valid() && At(shape.lists, InBatch) != [] && o == At(shape.lists, InBatch)[0]
      requires Ended(places, shape.places, marks, Fates(), Failed) && shape.places.Keys == places.Keys
      ensures o in shape.places && o in marks && o in Fates() && Fates()[o] == marks[o]
    {
      FormedAt(shape, heads, inflight, InBatch);
      assert o in At(shape.lists, InBatch);
      Unanswered(places, shape.places, marks, Fates(), o);
    }

    /** Takes one source and prepares what it holds. */
    method PrepareFrom(p: Place) returns (found: bool, full: bool, ghost done: nat, ghost answers: seq<int>)
      requires Valid() && (p == InRetry || p == InIo || p == InSharedIo) && At(shape.lists, InBatch) == []
      modifies this, shape.places.Keys
      ensures Valid() && Flow(old(shape.places), shape.places, {p, InBatch}, {InBatch, InCpu, InPrepared})
      ensures Kept(old(shape.lists), shape.lists, {p, InBatch, InCpu, InPrepared})
      ensures Load(shape.lists) == Load(old(shape.lists))
      ensures At(shape.lists, p) == [] && (found <==> At(old(shape.lists), p) != [])
      ensures full <==> At(shape.lists, InBatch) != []
      ensures done <= |At(old(shape.lists), p)| && At(shape.lists, InBatch) == At(old(shape.lists), p)[done..]
      ensures inflight == old(inflight) && shape.places.Keys == old(shape.places).Keys
      ensures Ended(old(shape.places), shape.places, old(Fates()), Fates(), Failed)
      ensures |answers| == done && Answered(At(old(shape.lists), p), answers, shape.places, Fates(), old(Fates()))
      ensures At(shape.lists, InPrepared)
           == Reverse(Passed(At(old(shape.lists), p), answers)) + At(old(shape.lists), InPrepared)
    {
      hide Valid, At, Flow, Kept, Load, Ended, Answered, Passed, Reverse, MarksOf;
      full, done, answers := false, 0, [];
      AnsweredNone(At(shape.lists, p), shape.places, Fates());
      ReverseNothing();
      found := NonEmpty(p);
      EndedNone(shape.places, Fates(), Failed);
      FlowNone(shape.places, {p, InBatch}, {InBatch, InCpu, InPrepared});
      KeptNone(shape.lists, {p, InBatch, InCpu, InPrepared});
      if found {
        Relabel(p, InBatch);
        ghost var taken := shape;
        EndedFlow(old(shape.places), shape.places, Fates(), {p}, {InBatch}, Failed);
        KeptAt(old(shape.lists), shape.lists, {p, InBatch}, InPrepared);
        ghost var marks := Fates();
        full, done, answers := PrepareBatch();
        EndedTrans(old(shape.places), taken.places, shape.places, old(Fates()), marks, Fates(), Failed);
        PreparedFacts(old(shape), taken, shape, p);
      }
    }

    /** Registers every prepared operation as in flight, and unlinks it. */
    method Track()
      requires Valid()
      modifies this, shape.places.Keys
      ensures Valid() && Flow(old(shape.places), shape.places, {InPrepared}, {InFlight})
      ensures Kept(old(shape.lists), shape.lists, {InPrepared, InFlight}) && Load(shape.lists) == Load(old(shape.lists))
      ensures At(shape.lists, InPrepared) == [] && inflight == Reverse(At(old(shape.lists), InPrepared)) + old(inflight)
      ensures shape.places.Keys == old(shape.places).Keys && Fates() == old(Fates())
    {
      hide Valid, At, Flow, Kept, Load, Reverse;
      FlowNone(shape.places, {InPrepared}, {InFlight});
      KeptNone(shape.lists, {InPrepared, InFlight});
      var more := NonEmpty(InPrepared);
      while more
        invariant Valid() && (more <==> At(shape.lists, InPrepared) != [])
        invariant Flow(old(shape.places), shape.places, {InPrepared}, {InFlight})
        invariant Kept(old(shape.lists), shape.lists, {InPrepared, InFlight})
        invariant Load(shape.lists) == Load(old(shape.lists))
        invariant Reverse(At(shape.lists, InPrepared)) + inflight
               == Reverse(At(old(shape.lists), InPrepared)) + old(inflight)
        invariant shape.places.Keys == old(shape.places).Keys && Fates() == old(Fates())
        decreases |At(shape.lists, InPrepared)|
      {
        ghost var before := shape;
        PushedOne(At(shape.lists, InPrepared), inflight);
        ghost var marks := Fates();
        var operation := Move(InPrepared, InFlight);
        SameKeys(before.places, operation, InFlight);
        assert Fates() == marks;
        FlowTrans(old(shape.places), before.places, shape.places, {InPrepared}, {InFlight});
        KeptTrans(old(shape.lists), before.lists, shape.lists, {InPrepared, InFlight});
        more := NonEmpty(InPrepared);
      }
      PushedNone(inflight, At(shape.lists, InPrepared));
    }

    /**
     * Fails the list that `first` still points to after its operations were tracked: that is
     * `first` alone, because tracking cleared the links.
     */
    method FailTracked(first: Operation, result: int)
      requires Valid() && first in inflight
      modifies this, shape.places.Keys
      ensures Valid() && first in old(shape.places) && shape.places == old(shape.places)[first := InCpu]
      ensures shape.places.Keys == old(shape.places).Keys
      ensures Flow(old(shape.places), shape.places, {InFlight}, {InCpu})
      ensures Kept(old(shape.lists), shape.lists, {InFlight, InCpu}) && Load(shape.lists) == Load(old(shape.lists))
      ensures Fates() == old(Fates())[first := Mark(Failed, result)] && old(shape.places)[first] == InFlight
    {
      hide Formed, At, Flow, Kept, Load;
      var head: Operation? := first;
      while head != null
        invariant head != null ==>
                  head == first && Valid() && shape == old(shape) && first in inflight && Fates() == old(Fates())
        invariant head == null ==>
                    && Valid() && first in old(shape.places) && shape.places == old(shape.places)[first := InCpu]
                    && Flow(old(shape.places), shape.places, {InFlight}, {InCpu})
                    && Kept(old(shape.lists), shape.lists, {InFlight, InCpu})
                    && Load(shape.lists) == Load(old(shape.lists))
                    && Fates() == old(Fates())[first := Mark(Failed, result)] && old(shape.places)[first] == InFlight
        decreases if head == null then 0 else 1
      {
        var operation: Operation := head;
        FlightUnlinked(shape, heads, inflight, operation);
        head := operation.next;
        Recall(operation, InCpu);
        SameKeys(old(shape.places), operation, InCpu);
        operation.fate := Failed;
        operation.result := result;
        assert Fates() == old(Fates())[first := Mark(Failed, result)];
      }
    }

    /** Completes the first operation of the batch with the given outcome. */
    method CompleteFront(fate: Fate, result: int) returns (operation: Operation)
      requires Valid() && At(shape.lists, InBatch) != [] && EndedWith(Mark(fate, result), fate)
      modifies this, shape.places.Keys
      ensures Valid() && operation == At(old(shape.lists), InBatch)[0] && operation in old(shape.places)
      ensures Flow(old(shape.places), shape.places, {InBatch}, {InCpu}) && shape.places.Keys == old(shape.places).Keys
      ensures Kept(old(shape.lists), shape.lists, {InBatch, InCpu}) && Load(shape.lists) == Load(old(shape.lists))
      ensures At(shape.lists, InBatch) == At(old(shape.lists), InBatch)[1..]
      ensures At(shape.lists, InCpu) == [operation] + At(old(shape.lists), InCpu)
      ensures inflight == old(inflight) && shape.places == old(shape.places)[operation := InCpu]
      ensures Fates() == old(Fates())[operation := Mark(fate, result)]
      ensures Ended(old(shape.places), shape.places, old(Fates()), Fates(), fate)
    {
      hide Valid, At, Flow, Kept, Load, Ended;
      operation := Move(InBatch, InCpu);
      SameKeys(old(shape.places), operation, InCpu);
      operation.fate := fate;
      operation.result := result;
      assert Fates() == old(Fates())[operation := Mark(fate, result)];
      EndedOne(old(shape.places), old(Fates()), operation, Mark(fate, result), fate);
    }

    /** Completes the whole batch with the given outcome: all of it goes to the CPU queue. */
    method FinishBatch(fate: Fate, result: int)
      requires Valid() && EndedWith(Mark(fate, result), fate)
      modifies this, shape.places.Keys
      ensures Valid() && Flow(old(shape.places), shape.places, {InBatch}, {InCpu})
      ensures Kept(old(shape.lists), shape.lists, {InBatch, InCpu}) && Load(shape.lists) == Load(old(shape.lists))
      ensures At(shape.lists, InBatch) == [] && shape.places.Keys == old(shape.places).Keys
      ensures At(shape.lists, InCpu) == Reverse(At(old(shape.lists), InBatch)) + At(old(shape.lists), InCpu)
      ensures Ended(old(shape.places), shape.places, old(Fates()), Fates(), fate)
      ensures AllMarked(At(old(shape.lists), InBatch), shape.places, Fates(), Mark(fate, result))
    {
      hide Valid, At, Flow, Kept, Load, Ended, AllMarked, Reverse, MarksOf;
      ReverseNothing();
      MarkedNone(shape.places, Fates(), Mark(fate, result));
      assert At(shape.lists, InBatch)[..0] == [];
      EndedNone(shape.places, Fates(), fate);
      FlowNone(shape.places, {InBatch}, {InCpu});
      KeptNone(shape.lists, {InBatch, InCpu});
      ghost var k := 0;
      var more := NonEmpty(InBatch);
      while more
        invariant Valid() && (more <==> At(shape.lists, InBatch) != [])
        invariant Flow(old(shape.places), shape.places, {InBatch}, {InCpu})
        invariant Kept(old(shape.lists), shape.lists, {InBatch, InCpu}) && Load(shape.lists) == Load(old(shape.lists))
        invariant k <= |At(old(shape.lists), InBatch)| && At(shape.lists, InBatch) == At(old(shape.lists), InBatch)[k..]
        invariant At(shape.lists, InCpu) == Reverse(At(old(shape.lists), InBatch)[..k]) + At(old(shape.lists), InCpu)
        invariant AllMarked(At(old(shape.lists), InBatch)[..k], shape.places, Fates(), Mark(fate, result))
        invariant shape.places.Keys == old(shape.places).Keys
        invariant Ended(old(shape.places), shape.places, old(Fates()), Fates(), fate)
        decreases |At(shape.lists, InBatch)|
      {
        ghost var before, marks := shape, Fates();
        ghost var batch := At(old(shape.lists), InBatch);
        var operation := CompleteFront(fate, result);
        assert batch[..k + 1] == batch[..k] + [operation];
        MarkedMore(batch[..k], operation, before.places, marks, Mark(fate, result));
        ReversePut(batch[..k], operation, At(old(shape.lists), InCpu));
        EndedTrans(old(shape.places), before.places, shape.places, old(Fates()), marks, Fates(), fate);
        FlowTrans(old(shape.places), before.places, shape.places, {InBatch}, {InCpu});
        KeptTrans(old(shape.lists), before.lists, shape.lists, {InBatch, InCpu});
        k := k + 1;
        more := NonEmpty(InBatch);
      }
      assert At(old(shape.lists), InBatch)[..k] == At(old(shape.lists), InBatch);
    }

    lemma Places()
      requires Valid()
      ensures Located(shape.lists, shape.places) && At(shape.lists, InFlight) == inflight
    {
    }

    lemma Distinct()
      requires Valid()
      ensures NoRepeat(inflight)
    {
      InflightSimple(shape, heads, inflight);
    }

    /** Completes everything in a queue as stopped. */
    method DrainStopped(p: Place) returns (found: bool)
      requires Valid() && (p == InRetry || p == InIo || p == InSharedIo) && At(shape.lists, InBatch) == []
      modifies this, shape.places.Keys
      ensures Valid() && Flow(old(shape.places), shape.places, {p}, {InCpu})
      ensures Kept(old(shape.lists), shape.lists, {p, InCpu}) && Load(shape.lists) == Load(old(shape.lists))
      ensures At(shape.lists, p) == [] && (found <==> At(old(shape.lists), p) != []) && At(shape.lists, InBatch) == []
      ensures At(shape.lists, InCpu) == Reverse(At(old(shape.lists), p)) + At(old(shape.lists), InCpu)
      ensures shape.places.Keys == old(shape.places).Keys
      ensures Ended(old(shape.places), shape.places, old(Fates()), Fates(), Stopped)
    {
      hide Valid, At, Flow, Kept, Load, Ended;
      found := NonEmpty(p);
      Places();
      Relabel(p, InBatch);
      ghost var taken, marks := shape, Fates();
      EndedFlow(old(shape.places), shape.places, marks, {p}, {InBatch}, Stopped);
      FinishBatch(Stopped, -ECANCELED);
      EndedTrans(old(shape.places), taken.places, shape.places, old(Fates()), marks, Fates(), Stopped);
      Places();
      DrainFacts(old(shape), taken, shape, p);
    }

    /** While the worker stops: everything queued is completed as stopped, nothing is submitted. */
    method ConsumeStopping() returns (found: bool)
      requires Valid() && Settled(shape.lists)
      modifies this, shape.places.Keys
      ensures Valid() && Settled(shape.lists) && Drained(shape.lists) && Load(shape.lists) == Load(old(shape.lists))
      ensures Flow(old(shape.places), shape.places, SOURCES, {InCpu})
      ensures Kept(old(shape.lists), shape.lists, SOURCES + {InCpu})
      ensures found <==> !Drained(old(shape.lists))
      ensures |At(shape.lists, InCpu)| >= |At(old(shape.lists), InCpu)| && (found ==> At(shape.lists, InCpu) != [])
      ensures Ended(old(shape.places), shape.places, old(Fates()), Fates(), Stopped)
    {
      hide Valid, At, Flow, Kept, Load, Ended;
      var a := DrainStopped(InRetry);
      ghost var one, first := shape, Fates();
      var b := DrainStopped(InIo);
      ghost var two, second := shape, Fates();
      EndedTrans(old(shape.places), one.places, two.places, old(Fates()), first, second, Stopped);
      var c := DrainStopped(InSharedIo);
      EndedTrans(old(shape.places), two.places, shape.places, old(Fates()), second, Fates(), Stopped);
      found := a || b || c;
      SourcesDrained(old(shape), one, two, shape);
    }

    lemma SourceAt(p: Place)
      requires Valid()
      ensures AllAt(shape.places, At(shape.lists, p), p)
    {
      FormedAt(shape, heads, inflight, p);
    }

    /** Takes the sources in order until the submission queue is full. */
    method PrepareSources() returns (found: bool, ghost filled: Filled, ghost done: nat, ghost answers: seq<int>)
      requires Valid() && Settled(shape.lists)
      modifies this, shape.places.Keys
      ensures Valid() && Load(shape.lists) == Load(old(shape.lists)) && inflight == old(inflight)
      ensures TakenUpTo(old(shape.lists), shape.lists, filled, done) && At(shape.lists, InRetry) == []
      ensures At(shape.lists, InBatch) == Remainder(old(shape.lists), filled, done)
      ensures Preparing(old(shape), shape)
      ensures found <==> !Drained(old(shape.lists))
      ensures shape.places.Keys == old(shape.places).Keys
      ensures Ended(old(shape.places), shape.places, old(Fates()), Fates(), Failed)
      ensures |answers| == Progress(old(shape.lists), filled, done)
      ensures Answered(Sourced(old(shape.lists)), answers, shape.places, Fates(), old(Fates()))
      ensures At(shape.lists, InPrepared) == Reverse(Passed(Sourced(old(shape.lists)), answers))
    {
      hide Valid, At, Flow, Kept, Load, TakenUpTo, Remainder, Preparing, Ended, Answered, Passed, Reverse, MarksOf;
      hide AllAt, Listed, Progress, Sourced, Drained, Settled;
      Unsettled(shape.lists);
      ghost var a, b, c := At(shape.lists, InRetry), At(shape.lists, InIo), At(shape.lists, InSharedIo);
      var full, more;
      ghost var next;
      found, full, done, answers := PrepareFrom(InRetry);
      ListedFirst(a, answers, shape.places, Fates(), old(Fates()), At(shape.lists, InPrepared));
      FromFacts(old(shape), shape, InRetry);
      if full {
        filled := ByRetry;
        TakenFacts(old(shape.lists), shape.lists, filled, done);
        SourcesAre(old(shape.lists), filled, done);
        ListedFront(a, b, answers, shape.places, Fates(), old(Fates()), At(shape.lists, InPrepared));
        ListedFront(a + b, c, answers, shape.places, Fates(), old(Fates()), At(shape.lists, InPrepared));
        ListedAll(a + b + c, answers, shape.places, Fates(), old(Fates()), At(shape.lists, InPrepared));
        return;
      }
      WholeAnswered(a, done);
      ghost var one, first := shape, Fates();
      SourceAt(InIo);
      more, full, done, next := PrepareFrom(InIo);
      ListedMore(a, b, answers, next, old(shape.places), one.places, shape.places, old(Fates()), first, Fates(), InIo,
                 At(one.lists, InPrepared), At(shape.lists, InPrepared));
      answers := answers + next;
      EndedTrans(old(shape.places), one.places, shape.places, old(Fates()), first, Fates(), Failed);
      found := found || more;
      FromFacts(one, shape, InIo);
      FromTrans(old(shape), one, shape);
      if full {
        filled := ByIo;
        TakenFacts(old(shape.lists), shape.lists, filled, done);
        SourcesAre(old(shape.lists), filled, done);
        ListedFront(a + b, c, answers, shape.places, Fates(), old(Fates()), At(shape.lists, InPrepared));
        ListedAll(a + b + c, answers, shape.places, Fates(), old(Fates()), At(shape.lists, InPrepared));
        return;
      }
      WholeAnswered(b, done);
      ghost var two, second := shape, Fates();
      SourceAt(InSharedIo);
      more, full, done, next := PrepareFrom(InSharedIo);
      ListedMore(a + b, c, answers, next, old(shape.places), two.places, shape.places, old(Fates()), second, Fates(),
                 InSharedIo, At(two.lists, InPrepared), At(shape.lists, InPrepared));
      answers := answers + next;
      ListedAll(a + b + c, answers, shape.places, Fates(), old(Fates()), At(shape.lists, InPrepared));
      EndedTrans(old(shape.places), two.places, shape.places, old(Fates()), second, Fates(), Failed);
      found := found || more;
      FromFacts(two, shape, InSharedIo);
      FromTrans(old(shape), two, shape);
      filled := if full then ByShared else Nobody;
      if !full {
        WholeAnswered(c, done);
      }
      TakenFacts(old(shape.lists), shape.lists, filled, done);
      SourcesAre(old(shape.lists), filled, done);
    }

    /** Submits what was prepared; `submit` is the kernel's answer. */
    method Submit() returns (submit: int, ghost prepared: seq<Operation>)
      requires Valid()
      modifies this, shape.places.Keys
      ensures Valid() && At(shape.lists, InPrepared) == [] && Load(shape.lists) == Load(old(shape.lists))
      ensures prepared == At(old(shape.lists), InPrepared) && (submit < 0 ==> prepared != [])
      ensures Flow(old(shape.places), shape.places, {InPrepared}, {InFlight, InCpu})
      ensures Kept(old(shape.lists), shape.lists, {InPrepared, InFlight, InCpu})
      ensures Outcome(shape.places, prepared, submit) && shape.places.Keys == old(shape.places).Keys
      ensures Ended(old(shape.places), shape.places, old(Fates()), Fates(), Failed)
      ensures submit < 0 ==> prepared[0] in Fates() && Fates()[prepared[0]] == Mark(Failed, submit)
      ensures submit < 0 ==> (AllAt(shape.places, prepared, InCpu) <==> |prepared| == 1)
    {
      hide Formed, At, Flow, Kept, Load, Reverse, Ended;
      EndedNone(shape.places, Fates(), Failed);
      prepared := At(shape.lists, InPrepared);
      HeadFirst(shape, heads, inflight, InPrepared);
      FormedSimple(shape, heads, inflight, InPrepared);
      var first := Head(heads, InPrepared);
      submit := 0;
      FlowNone(shape.places, {InPrepared}, {InFlight, InCpu});
      KeptNone(shape.lists, {InPrepared, InFlight, InCpu});
      if first != null {
        ghost var start := shape;
        FormedAt(shape, heads, inflight, InPrepared);
        Track();
        ghost var tracked, marks := shape, Fates();
        EndedFlow(start.places, shape.places, marks, {InPrepared}, {InFlight}, Failed);
        TrackedFlying(shape, heads, inflight, prepared);
        submit := *;
        if submit < 0 {
          FailTracked(first, submit);
          EndedOne(tracked.places, marks, first, Mark(Failed, submit), Failed);
          EndedTrans(start.places, tracked.places, shape.places, old(Fates()), marks, Fates(), Failed);
        }
        SubmitFacts(start, tracked, shape, prepared, submit);
        if submit < 0 {
          AllFailedExactly(shape.places, prepared, submit);
        }
      }
    }

    /**
     * One pass over the sources of an open worker. Every operation taken is afterwards on the
     * CPU queue, in flight, or in the retry slot, whatever the submission queue and the kernel
     * did; sources behind the one that filled the submission queue are as they were.
     */
    method ConsumeRunning()
      returns (found: bool, submit: int, ghost filled: Filled, ghost done: nat, ghost answers: seq<int>,
               ghost prepared: seq<Operation>)
      requires Valid() && Settled(shape.lists)
      modifies this, shape.places.Keys
      ensures Valid() && Settled(shape.lists) && Load(shape.lists) == Load(old(shape.lists))
      ensures Flow(old(shape.places), shape.places, SOURCES, {InCpu, InFlight, InRetry})
      ensures Kept(old(shape.lists), shape.lists, SOURCES + {InCpu, InFlight})
      ensures TakenUpTo(old(shape.lists), shape.lists, filled, done) && Outcome(shape.places, prepared, submit)
      ensures At(shape.lists, InRetry) == if submit < 0 && !Transient(submit) then []
                else Remainder(old(shape.lists), filled, done)
      ensures Ended(old(shape.places), shape.places, old(Fates()), Fates(), Failed)
      ensures submit < 0 ==> prepared != [] && prepared[0] in Fates() && Fates()[prepared[0]] == Mark(Failed, submit)
      ensures found <==> !Drained(old(shape.lists))
      ensures |answers| == Progress(old(shape.lists), filled, done)
      ensures Refused(Sourced(old(shape.lists)), answers, shape.places, Fates())
      ensures prepared == Reverse(Passed(Sourced(old(shape.lists)), answers))
      ensures submit < 0 && submit !in {-EINTR, -EAGAIN, -EBUSY, -ENOMEM} ==>
                AllMarked(Remainder(old(shape.lists), filled, done), shape.places, Fates(), Mark(Failed, submit))
    {
      hide Valid, At, Flow, Kept, Load, Outcome, TakenUpTo, Remainder, Preparing, Transient, Ended, Answered, Passed;
      hide Reverse, Refused, MarksOf, AllMarked;
      Places();
      found, filled, done, answers := PrepareSources();
      AnsweredRefused(Sourced(old(shape.lists)), answers, shape.places, Fates(), old(Fates()));
      ghost var one, first := shape, Fates();
      submit, prepared := Submit();
      RefusedKept(Sourced(old(shape.lists)), answers, one.places, shape.places, first, Fates());
      TransientExactly(submit);
      ghost var two, second := shape, Fates();
      EndedTrans(old(shape.places), one.places, two.places, old(Fates()), first, second, Failed);
      SubmittedFacts(old(shape), one, two);
      ghost var q := if submit < 0 && !Transient(submit) then InCpu else InRetry;
      if submit < 0 && !Transient(submit) {
        OutcomeFirst(shape.places, prepared, submit);
        FinishBatch(Failed, submit);
        EndedTrans(old(shape.places), two.places, shape.places, old(Fates()), second, Fates(), Failed);
        EndedSame(two.places, shape.places, second, Fates(), prepared[0], Failed);
        RefusedKept(Sourced(old(shape.lists)), answers, two.places, shape.places, second, Fates());
      } else {
        Relabel(InBatch, InRetry);
        EndedFlow(two.places, shape.places, second, {InBatch}, {InRetry}, Failed);
        RefusedKept(Sourced(old(shape.lists)), answers, two.places, shape.places, second, Fates());
        EndedTrans(old(shape.places), two.places, shape.places, old(Fates()), second, Fates(), Failed);
      }
      LeftFacts(two, shape, prepared, submit, q);
      TakenSame(old(shape.lists), one.lists, shape.lists, filled, done);
      Places();
      ConsumedFacts(old(shape), two, shape, q);
    }
  }

  lemma JoinedMaps(sh: Shape, o: Operation, q: Place, n: Operation?)
    ensures Joined(sh, o, q, n).places == sh.places[o := q] && Joined(sh, o, q, n).nexts == sh.nexts[o := n]
  {
  }

  /** Two operations are prepared by a new worker; if their submit fails, the first stays in flight. */
  method TwoPrepared() returns (w: Worker, a: Operation, b: Operation, submit: int)
    ensures fresh(w) && w.Valid() && a != b && a in w.shape.places && b in w.shape.places
    ensures submit < 0 ==> w.shape.places[b] == InCpu && w.shape.places[a] == InFlight
    ensures submit >= 0 ==> w.shape.places[b] == InFlight && w.shape.places[a] == InFlight
  {
    w := new Worker();
    a := w.Spawn(InPrepared, 0);
    JoinedMaps(Shape(map[], map[], map[]), a, InPrepared, a.next);
    ghost var one := w.shape;
    b := w.Spawn(InPrepared, 0);
    JoinedMaps(one, b, InPrepared, b.next);
    ghost var prepared;
    assert At(w.shape.lists, InPrepared) == [b, a];
    submit, prepared := w.Submit();
    assert prepared[..1] == [b] && prepared[1..] == [a] && a in prepared && b in prepared;
  }
}
