/** Insertion-ordered sets as built by Guava's ImmutableSet.Builder: adding an
    element already present changes nothing, and iteration order is the order of
    first insertion. A set is represented by the sequence of its elements. */
module ImmutableSets {

  predicate NoDuplicates<T(==)>(s: seq<T>) {
    forall i, j :: 0 <= i < j < |s| ==> s[i] != s[j]
  }

  /** ImmutableSet.Builder.add */
  function Add<T(==,!new)>(s: seq<T>, x: T): (r: seq<T>)
    ensures x in r
    ensures forall y :: y in r <==> y in s || y == x
    ensures |s| <= |r| && r[..|s|] == s
    ensures |r| == if x in s then |s| else |s| + 1
    ensures NoDuplicates(s) ==> NoDuplicates(r)
  {
    if x in s then s else s + [x]
  }

  /** Adds every element of xs in order, as repeated calls to Add do. */
  function AddAll<T(==,!new)>(s: seq<T>, xs: seq<T>): (r: seq<T>)
    ensures forall y :: y in r <==> y in s || y in xs
    ensures |s| <= |r| && r[..|s|] == s
    ensures NoDuplicates(s) ==> NoDuplicates(r)
    decreases |xs|
  {
    if xs == [] then s else AddAll(Add(s, xs[0]), xs[1..])
  }

  /** When nothing repeats, the builder keeps every element in insertion order. */
  lemma {:induction false} AddAllDistinct<T(!new)>(s: seq<T>, xs: seq<T>)
    requires NoDuplicates(s + xs)
    ensures AddAll(s, xs) == s + xs
    decreases |xs|
  {
    if xs != [] {
      assert xs[0] == (s + xs)[|s|];
      assert xs[0] !in s by {
        forall i | 0 <= i < |s|
          ensures s[i] != xs[0]
        {
          assert s[i] == (s + xs)[i];
        }
      }
      assert Add(s, xs[0]) == s + [xs[0]];
      assert s + [xs[0]] + xs[1..] == s + xs;
      AddAllDistinct(s + [xs[0]], xs[1..]);
    }
  }
}
