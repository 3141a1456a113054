/** Notions about sequences that several components share. */
module Sequences {

  function Elems<V>(s: seq<V>): set<V> {
    set x | x in s
  }

  ghost predicate Distinct<V>(s: seq<V>) {
    forall i, j :: 0 <= i < j < |s| ==> s[i] != s[j]
  }
}
