/** Small facts about sequences shared by the other modules. */
module Sequences {

  /** Concatenation is associative; stated once so the inductive proofs can cite it cheaply. */
  lemma AppendAssoc<T>(a: seq<T>, b: seq<T>, c: seq<T>)
    ensures (a + b) + c == a + (b + c)
  {
  }
}
