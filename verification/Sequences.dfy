/** Sequences of sequences. */
module Sequences {

  function Flatten<T>(parts: seq<seq<T>>): seq<T> {
    if parts == [] then [] else Flatten(parts[..|parts| - 1]) + parts[|parts| - 1]
  }

  lemma {:induction false} FlattenHead<T>(parts: seq<seq<T>>)
    requires parts != []
    ensures Flatten(parts) == parts[0] + Flatten(parts[1..])
    decreases |parts|
  {
    var front, last := parts[..|parts| - 1], parts[|parts| - 1];
    if front == [] {
      assert parts[1..] == [];
    } else {
      FlattenHead(front);
      assert parts[1..][..|parts[1..]| - 1] == front[1..];
    }
  }
}
