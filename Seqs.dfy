/** The element-wise mapping of a list, as `Array.prototype.map` does it. */
module Seqs {

  /** `s.map(f)`: same length, same order, element i is `f(s[i])`. */
  function Map<A, B>(f: A -> B, s: seq<A>): (r: seq<B>)
    ensures |r| == |s|
    ensures forall i :: 0 <= i < |s| ==> r[i] == f(s[i])
  {
    if s == [] then [] else [f(s[0])] + Map(f, s[1..])
  }

  /** Mapping with a left inverse and then with the inverse gives back the list. */
  lemma MapInverse<A, B>(f: A -> B, g: B -> A, s: seq<A>)
    requires forall x :: g(f(x)) == x
    ensures Map(g, Map(f, s)) == s
  {
  }
}
