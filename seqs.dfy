/** Facts about sequences shared by the client models. */
module Seqs {

  /** Concatenation regroups freely; the solver needs the hint where a chain of appends is rebuilt. */
  lemma AppendAssoc<T>(a: seq<T>, b: seq<T>, c: seq<T>)
    ensures (a + b) + c == a + (b + c)
  {
  }
}
