/** Reversal and distinctness of sequences. */
module Sequences {
  function Reverse<T>(s: seq<T>): (r: seq<T>)
    ensures |r| == |s| && forall i :: 0 <= i < |s| ==> r[i] == s[|s| - 1 - i]
  {
    if s == [] then [] else Reverse(s[1..]) + [s[0]]
  }

  ghost predicate NoRepeat<T>(s: seq<T>) {
    forall i, j :: 0 <= i < j < |s| ==> s[i] != s[j]
  }

  lemma ReverseJoin<T>(a: seq<T>, b: seq<T>)
    ensures Reverse(a + b) == Reverse(b) + Reverse(a)
  {
  }

  lemma ReverseTwice<T>(s: seq<T>)
    ensures Reverse(Reverse(s)) == s
  {
  }

  lemma ReverseMembers<T>(s: seq<T>)
    ensures forall x :: x in Reverse(s) <==> x in s
  {
    forall x | x in s ensures x in Reverse(s) {
      var i :| 0 <= i < |s| && s[i] == x;
      assert Reverse(s)[|s| - 1 - i] == x;
    }
  }

  lemma ReverseNoRepeat<T>(s: seq<T>)
    requires NoRepeat(s)
    ensures NoRepeat(Reverse(s))
  {
  }

  lemma JoinNoRepeat<T>(a: seq<T>, b: seq<T>)
    requires NoRepeat(a) && NoRepeat(b) && forall x <- a :: x !in b
    ensures NoRepeat(a + b)
  {
    forall i, j | 0 <= i < j < |a + b|
      ensures (a + b)[i] != (a + b)[j]
    {
      if i < |a| <= j {
        assert a[i] in a && b[j - |a|] in b;
      }
    }
  }

  /** `s` without the first `x`. */
  ghost function Less<T>(s: seq<T>, x: T): seq<T> {
    if s == [] then [] else if s[0] == x then s[1..] else [s[0]] + Less(s[1..], x)
  }

  lemma {:induction false} LessMembers<T>(s: seq<T>, x: T)
    requires NoRepeat(s)
    ensures NoRepeat(Less(s, x)) && (forall y <- Less(s, x) :: y in s && y != x)
    ensures forall y <- s :: y != x ==> y in Less(s, x)
    ensures |Less(s, x)| == |s| - if x in s then 1 else 0
    decreases |s|
  {
    if s != [] {
      var rest := s[1..];
      assert s == [s[0]] + rest && s[0] !in rest;
      if s[0] != x {
        LessMembers(rest, x);
        assert x in s <==> x in rest;
      }
    }
  }

  lemma {:induction false} LessAbsent<T>(s: seq<T>, x: T)
    requires x !in s
    ensures Less(s, x) == s
    decreases |s|
  {
    if s != [] {
      LessAbsent(s[1..], x);
    }
  }

  /** Removing an element at its position. */
  lemma {:induction false} LessAt<T>(s: seq<T>, i: nat)
    requires NoRepeat(s) && i < |s|
    ensures Less(s, s[i]) == s[..i] + s[i + 1..]
    decreases |s|
  {
    if i > 0 {
      var rest := s[1..];
      assert rest[i - 1] == s[i] && s[0] != s[i];
      LessAt(rest, i - 1);
      assert s[..i] == [s[0]] + rest[..i - 1] && s[i + 1..] == rest[i..];
    }
  }
}
