/** Small facts about sequences shared by the other modules. */
module Sequences {

  /** The pieces joined in order: what a reader of a stream receives in total. */
  function Flatten<T>(parts: seq<seq<T>>): seq<T> {
    if parts == [] then [] else parts[0] + Flatten(parts[1..])
  }

  lemma {:induction false} FlattenAppend<T>(a: seq<seq<T>>, b: seq<seq<T>>)
    ensures Flatten(a + b) == Flatten(a) + Flatten(b)
  {
    if a == [] {
      assert a + b == b;
    } else {
      assert (a + b)[1..] == a[1..] + b;
      FlattenAppend(a[1..], b);
    }
  }

  lemma {:induction false} FlattenOne<T>(x: seq<T>)
    ensures Flatten([x]) == x
  {
    assert Flatten([x]) == x + Flatten([]);
  }

  lemma {:induction false} ConcatAssoc<T>(a: seq<T>, b: seq<T>, c: seq<T>)
    ensures a + (b + c) == (a + b) + c
  {
  }

  /** A list of n+1 distinct values does not fit in a set of n. */
  lemma {:induction false} Pigeonhole<T>(xs: seq<T>, room: set<T>)
    requires forall i, j :: 0 <= i < j < |xs| ==> xs[i] != xs[j]
    requires forall i :: 0 <= i < |xs| ==> xs[i] in room
    ensures |xs| <= |room|
  {
    if xs != [] {
      var last := xs[|xs| - 1];
      var rest := xs[..|xs| - 1];
      forall i | 0 <= i < |rest|
        ensures rest[i] in room - {last}
      {
        assert xs[i] != last;
      }
      Pigeonhole(rest, room - {last});
    }
  }

  /** The elements that pass, in order. */
  function Filter<T(!new)>(xs: seq<T>, keep: T -> bool): (r: seq<T>)
    ensures |r| <= |xs| && forall i :: 0 <= i < |r| ==> keep(r[i])
    ensures forall x :: x in r <==> x in xs && keep(x)
  {
    if xs == [] then []
    else
      var front, last := Filter(xs[..|xs| - 1], keep), xs[|xs| - 1];
      assert xs == xs[..|xs| - 1] + [last];
      if keep(last) then front + [last] else front
  }
}
