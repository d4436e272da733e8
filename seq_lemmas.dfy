/** Small facts about sequences that the loops over enabled modules use. */
module SeqLemmas {
  /** Growing a prefix by one element appends that element. */
  lemma PrefixExtends<T>(s: seq<T>, i: nat)
    requires i < |s|
    ensures s[..i + 1] == s[..i] + [s[i]]
  {
  }
}
