/** Small sequence identities, stated once so that proofs about runs can cite
    them instead of rediscovering them among many other facts. */
module Seqs {
  lemma AppendAssoc<T>(x: seq<T>, y: seq<T>, z: seq<T>)
    ensures x + (y + z) == (x + y) + z
  {
  }

  lemma EmptyAppend<T>(x: seq<T>)
    ensures [] + x == x && x + [] == x
  {
  }

  lemma PrefixOfSnoc<T>(x: seq<T>, e: T)
    ensures (x + [e])[..|x|] == x
  {
  }
}
