/** What several modules share. */
module Common {

  datatype Option<+T> = None | Some(value: T)

  /** `xs` lists the elements of a set, each once. */
  predicate Lists<T(==)>(xs: seq<T>, s: set<T>) {
    && (forall x <- s :: x in xs)
    && (forall i :: 0 <= i < |xs| ==> xs[i] in s)
    && (forall i, j :: 0 <= i < j < |xs| ==> xs[i] != xs[j])
  }

  lemma Associates<T>(x: seq<T>, y: seq<T>, z: seq<T>)
    ensures x + y + z == x + (y + z)
  {
  }

  /** A sequence around one of its elements. */
  lemma Around<T>(xs: seq<T>, d: nat)
    requires d < |xs|
    ensures xs == xs[..d] + xs[d..] && xs[d..][0] == xs[d] && xs[d..][1..] == xs[d + 1..]
  {
  }
}
