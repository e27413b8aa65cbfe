/** Applying a function to every element of a sequence, with or without the element's position. */
module Seqs {

  /** `f` applied to each element of `s`, in order. */
  function MapSeq<A, B>(f: A -> B, s: seq<A>): seq<B>
    decreases |s|
  {
    if s == [] then [] else MapSeq(f, s[..|s| - 1]) + [f(s[|s| - 1])]
  }

  lemma {:induction false} MapSeqIndex<A, B>(f: A -> B, s: seq<A>)
    ensures |MapSeq(f, s)| == |s|
    ensures forall k :: 0 <= k < |s| ==> MapSeq(f, s)[k] == f(s[k])
    decreases |s|
  {
    if s != [] {
      var front := s[..|s| - 1];
      MapSeqIndex(f, front);
      assert forall k :: 0 <= k < |front| ==> s[k] == front[k];
    }
  }

  /** `f(x, k)` for each element `x` of `s` at position `k`, in order. */
  function MapIndexed<A, B>(f: (A, nat) -> B, s: seq<A>): seq<B>
    decreases |s|
  {
    if s == [] then [] else MapIndexed(f, s[..|s| - 1]) + [f(s[|s| - 1], |s| - 1)]
  }

  lemma {:induction false} MapIndexedIndex<A, B>(f: (A, nat) -> B, s: seq<A>)
    ensures |MapIndexed(f, s)| == |s|
    ensures forall k :: 0 <= k < |s| ==> MapIndexed(f, s)[k] == f(s[k], k)
    decreases |s|
  {
    if s != [] {
      var front := s[..|s| - 1];
      MapIndexedIndex(f, front);
      assert forall k :: 0 <= k < |front| ==> s[k] == front[k];
    }
  }
}
