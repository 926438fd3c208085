/** Facts about sequences shared by the loops that build call logs. */
module Seqs {
  lemma ConcatAssoc<T>(a: seq<T>, b: seq<T>, c: seq<T>)
    ensures a + (b + c) == (a + b) + c
  {
  }
}
