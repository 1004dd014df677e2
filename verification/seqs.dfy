/** Sequence helpers shared by the page models: subsequences, first
    occurrences, de-duplication in first-occurrence order, and removal of
    every occurrence of a value. */
module Seqs {
  /** `xs` with some elements taken out, the rest in their order. */
  predicate SubsequenceOf<T(==,!new)>(r: seq<T>, xs: seq<T>)
    decreases |xs|
  {
    if |r| == 0 then true
    else if |xs| == 0 then false
    else (r[0] == xs[0] && SubsequenceOf(r[1..], xs[1..])) || SubsequenceOf(r, xs[1..])
  }

  /** The position of the first occurrence of `x` in `xs`. */
  function FirstIndex<T(==,!new)>(xs: seq<T>, x: T): (k: nat)
    requires x in xs
    ensures k < |xs| && xs[k] == x
    ensures forall j :: 0 <= j < k ==> xs[j] != x
    decreases |xs|
  {
    if xs[0] == x then 0 else 1 + FirstIndex(xs[1..], x)
  }

  predicate NoDuplicates<T(==,!new)>(xs: seq<T>) {
    forall i, j :: 0 <= i < j < |xs| ==> xs[i] != xs[j]
  }

  /** `Array.from(new Set(xs))`: each value once, in the order of its first
      occurrence. */
  function Distinct<T(==,!new)>(xs: seq<T>): (r: seq<T>)
    ensures NoDuplicates(r)
    ensures forall x :: x in r <==> x in xs
    ensures forall i, j :: 0 <= i < j < |r| ==> FirstIndex(xs, r[i]) < FirstIndex(xs, r[j])
    decreases |xs|
  {
    if |xs| == 0 then []
    else
      var init := xs[..|xs| - 1];
      var last := xs[|xs| - 1];
      var r := Distinct(init);
      assert xs == init + [last];
      assert forall x | x in init :: FirstIndex(xs, x) == FirstIndex(init, x) by {
        forall x | x in init ensures FirstIndex(xs, x) == FirstIndex(init, x) {
          FirstIndexOfPrefix(xs, init, x);
        }
      }
      if last in r then r
      else
        assert FirstIndex(xs, last) == |xs| - 1;
        r + [last]
  }

  /** A value found in a prefix is first found at the same place in the whole
      list. */
  lemma FirstIndexOfPrefix<T(!new)>(xs: seq<T>, p: seq<T>, x: T)
    requires x in p && p <= xs
    ensures FirstIndex(xs, x) == FirstIndex(p, x)
  {
    var k := FirstIndex(p, x);
    assert xs[k] == x;
  }

  /** `xs.filter(y => y !== x)`: every occurrence of `x` taken out, the rest
      in order. */
  function RemoveAll<T(==,!new)>(xs: seq<T>, x: T): (r: seq<T>)
    ensures x !in r
    ensures forall y :: y != x ==> multiset(r)[y] == multiset(xs)[y]
    ensures SubsequenceOf(r, xs)
    decreases |xs|
  {
    if |xs| == 0 then []
    else
      var rest := RemoveAll(xs[1..], x);
      assert xs == [xs[0]] + xs[1..];
      if xs[0] == x then rest else [xs[0]] + rest
  }
}
