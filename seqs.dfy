/**
 Two facts about sequence concatenation, stated once for any element type so
 that the proofs about scripts and walks can cite them without unfolding
 their own functions.
 */
module Seqs {

  /** Dropping the last element of a concatenation with a non-empty back. */
  lemma DropLast<T>(front: seq<T>, back: seq<T>)
    requires back != []
    ensures (front + back)[..|front + back| - 1] == front + back[..|back| - 1]
    ensures (front + back)[|front + back| - 1] == back[|back| - 1]
  {
  }

  lemma Regroup<T>(a: seq<T>, b: seq<T>, c: seq<T>)
    ensures (a + b) + c == a + (b + c)
  {
  }
}
