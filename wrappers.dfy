/** Optional values (a TypeScript `T | null` or `T | undefined`) and the
    failure-carrying result of an operation that may throw. */
module Wrappers {

  datatype Option<+T> = None | Some(value: T)

  datatype Result<+T, +E> = Ok(value: T) | Err(error: E)

  /** The list of a present value, or the empty list. */
  function AsList<T>(o: Option<T>): seq<T>
  {
    match o
    case Some(v) => [v]
    case None => []
  }

  /** `xs.filter(x => x !== null)`: the present values, in their original order. */
  function Somes<T>(xs: seq<Option<T>>): (r: seq<T>)
    ensures |r| <= |xs|
    ensures forall k :: 0 <= k < |r| ==> Some(r[k]) in xs
    ensures forall i :: 0 <= i < |xs| && xs[i].Some? ==> xs[i].value in r
  {
    if xs == [] then []
    else AsList(xs[0]) + Somes(xs[1..])
  }

  /** Filtering distributes over concatenation, so the filter keeps the order of the input. */
  lemma {:induction false} SomesAppend<T>(xs: seq<Option<T>>, ys: seq<Option<T>>)
    ensures Somes(xs + ys) == Somes(xs) + Somes(ys)
  {
    if xs == [] {
      assert xs + ys == ys;
    } else {
      assert (xs + ys)[1..] == xs[1..] + ys;
      SomesAppend(xs[1..], ys);
    }
  }

  /** The filter of a three-element list, written out. */
  lemma SomesOfThree<T>(xs: seq<Option<T>>)
    requires |xs| == 3
    ensures Somes(xs) == AsList(xs[0]) + AsList(xs[1]) + AsList(xs[2])
  {
    assert xs[1..] == [xs[1]] + [xs[2]];
    SomesAppend([xs[1]], [xs[2]]);
    assert [xs[1]][1..] == [];
    assert [xs[2]][1..] == [];
  }
}
