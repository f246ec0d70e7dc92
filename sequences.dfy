/** Element-wise mapping, the shape of a Python list comprehension `[f(x) for x in s]`. */
module Sequences {

  /** Applies `f` to every element of `s`, keeping length and order. */
  function Map<A, B>(f: A -> B, s: seq<A>): (r: seq<B>)
    ensures |r| == |s|
    ensures forall i :: 0 <= i < |s| ==> r[i] == f(s[i])
  {
    if s == [] then [] else [f(s[0])] + Map(f, s[1..])
  }
}
