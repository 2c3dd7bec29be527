/** Fluents of the air-cargo domain, the two-list world description the planner
    passes around, and the small list operations the rest of the model uses. */
module Fluents {

  /** A cargo, plane or airport name; names are opaque. */
  type Name = string

  /** An atomic proposition: `At(thing, airport)` for a cargo or a plane standing at
      an airport, `In(cargo, plane)` for a cargo loaded into a plane. Two fluents are
      the same exactly when they are structurally equal. */
  datatype Fluent = At(obj: Name, loc: Name) | In(cargo: Name, plane: Name)

  /** A world description: the fluents that hold and the fluents that do not. */
  datatype FluentState = FluentState(pos: seq<Fluent>, neg: seq<Fluent>)

  /** The elements of a list, as a set. */
  function Elems<T>(xs: seq<T>): set<T>
  {
    set x | x in xs
  }

  /** No element occurs twice. */
  predicate NoDup<T(==)>(xs: seq<T>)
  {
    forall i, j :: 0 <= i < j < |xs| ==> xs[i] != xs[j]
  }

  /** `xs` can be obtained from `ys` by deleting elements, order kept. */
  predicate IsSubsequence<T(==)>(xs: seq<T>, ys: seq<T>)
    decreases |ys|
  {
    xs == [] ||
    (ys != [] &&
     ((xs[0] == ys[0] && IsSubsequence(xs[1..], ys[1..])) || IsSubsequence(xs, ys[1..])))
  }

  /** The elements of `xs` that do not occur in `ys`, in their original order. */
  function Without<T(==,!new)>(xs: seq<T>, ys: seq<T>): (r: seq<T>)
    ensures forall x :: x in r <==> x in xs && x !in ys
  {
    if xs == [] then []
    else if xs[0] in ys then Without(xs[1..], ys)
    else [xs[0]] + Without(xs[1..], ys)
  }

  /** The elements of `xs` that do occur in `ys`, in their original order. */
  function Keep<T(==,!new)>(xs: seq<T>, ys: seq<T>): (r: seq<T>)
    ensures forall x :: x in r <==> x in xs && x in ys
  {
    if xs == [] then []
    else if xs[0] in ys then [xs[0]] + Keep(xs[1..], ys)
    else Keep(xs[1..], ys)
  }

  /** Every element of `xs` occurs in `ys`, checked front to back with an early exit. */
  function AllIn<T(==)>(xs: seq<T>, ys: seq<T>): (b: bool)
    ensures b <==> Elems(xs) <= Elems(ys)
    ensures b <==> forall x :: x in xs ==> x in ys
  {
    if xs == [] then true
    else
      ElemsCons(xs);
      xs[0] in ys && AllIn(xs[1..], ys)
  }

  /** The elements of a non-empty list are its head and the elements of its tail. */
  lemma ElemsCons<T>(xs: seq<T>)
    requires xs != []
    ensures Elems(xs) == {xs[0]} + Elems(xs[1..])
  {
  }

  /** A subset is no larger than its superset. */
  lemma SubsetCard<T>(a: set<T>, b: set<T>)
    requires a <= b
    ensures |a| <= |b|
  {
    assert b == a + (b - a);
  }

  /** A list has at least as many entries as distinct elements. */
  lemma {:induction false} ElemsCard<T>(xs: seq<T>)
    ensures |Elems(xs)| <= |xs|
  {
    if xs != [] {
      ElemsCard(xs[1..]);
      ElemsCons(xs);
    }
  }

  /** Concatenating two duplicate-free lists with no common element gives a
      duplicate-free list. */
  lemma NoDupAppend<T>(a: seq<T>, b: seq<T>)
    requires NoDup(a) && NoDup(b)
    requires Elems(a) !! Elems(b)
    ensures NoDup(a + b)
  {
    forall i, j | 0 <= i < j < |a + b|
      ensures (a + b)[i] != (a + b)[j]
    {
      if j < |a| {
      } else if i < |a| {
        assert a[i] in Elems(a) && b[j - |a|] in Elems(b);
      }
    }
  }

  /** Removing one element from a duplicate-free list that holds it leaves one fewer. */
  lemma {:induction false} WithoutOneLength<T(!new)>(xs: seq<T>, x: T)
    requires NoDup(xs)
    requires x in xs
    ensures |Without(xs, [x])| == |xs| - 1
  {
    if xs[0] == x {
      WithoutAbsentLength(xs[1..], x);
    } else {
      WithoutOneLength(xs[1..], x);
    }
  }

  /** Removing an element a list does not hold changes nothing. */
  lemma {:induction false} WithoutAbsentLength<T(!new)>(xs: seq<T>, x: T)
    requires x !in xs
    ensures Without(xs, [x]) == xs
  {
    if xs != [] {
      WithoutAbsentLength(xs[1..], x);
    }
  }

  /** Keeping, in `a + b`, the elements of `ys` keeps them in each part. */
  lemma {:induction false} KeepAppend<T(!new)>(a: seq<T>, b: seq<T>, ys: seq<T>)
    ensures Keep(a + b, ys) == Keep(a, ys) + Keep(b, ys)
  {
    if a != [] {
      assert (a + b)[1..] == a[1..] + b;
      KeepAppend(a[1..], b, ys);
    } else {
      assert a + b == b;
    }
  }

  /** Dropping, from `a + b`, the elements of `ys` drops them from each part. */
  lemma {:induction false} WithoutAppend<T(!new)>(a: seq<T>, b: seq<T>, ys: seq<T>)
    ensures Without(a + b, ys) == Without(a, ys) + Without(b, ys)
  {
    if a != [] {
      assert (a + b)[1..] == a[1..] + b;
      WithoutAppend(a[1..], b, ys);
    } else {
      assert a + b == b;
    }
  }

  /** Keeping the elements of `ys` from a list that lies wholly in `ys` keeps it all. */
  lemma {:induction false} KeepAll<T(!new)>(xs: seq<T>, ys: seq<T>)
    requires Elems(xs) <= Elems(ys)
    ensures Keep(xs, ys) == xs
  {
    if xs != [] {
      assert xs[0] in Elems(xs);
      assert Elems(xs[1..]) <= Elems(xs);
      KeepAll(xs[1..], ys);
    }
  }

  /** Dropping the elements of `ys` from a list disjoint from `ys` drops nothing. */
  lemma {:induction false} WithoutNone<T(!new)>(xs: seq<T>, ys: seq<T>)
    requires Elems(xs) !! Elems(ys)
    ensures Without(xs, ys) == xs
  {
    if xs != [] {
      assert xs[0] in Elems(xs);
      assert Elems(xs[1..]) <= Elems(xs);
      WithoutNone(xs[1..], ys);
    }
  }
}
