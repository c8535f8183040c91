/** Two facts about sequence concatenation, stated once so that proofs about the queries need not rederive them. */
module Sequences {

  /** A non-empty sequence is its head followed by its tail, also in front of another sequence. */
  lemma SplitHead<T>(a: seq<T>, b: seq<T>)
    requires a != []
    ensures a == [a[0]] + a[1..] && a + b == [a[0]] + (a[1..] + b)
  {
  }

  lemma PrependAssociates<T>(h: seq<T>, x: seq<T>, y: seq<T>)
    ensures h + (x + y) == (h + x) + y
  {
  }
}
