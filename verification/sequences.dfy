/** Order and repetition in sequences of identities. */
module Sequences {
  predicate Distinct(s: seq<nat>) {
    forall i, k :: 0 <= i < k < |s| ==> s[i] != s[k]
  }

  predicate Ascending(s: seq<nat>) {
    forall i, k :: 0 <= i < k < |s| ==> s[i] < s[k]
  }

  predicate Descending(s: seq<nat>) {
    forall i, k :: 0 <= i < k < |s| ==> s[i] > s[k]
  }
}
