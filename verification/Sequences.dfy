/** Facts about sequences that the solver does better with when told. */
module Sequences {
  lemma Associates<T>(x: seq<T>, y: seq<T>, z: seq<T>)
    ensures x + (y + z) == (x + y) + z
  {
  }
}
