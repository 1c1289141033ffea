/** Generic sequence helpers: mapping a function over a sequence and concatenating a
    sequence of sequences, each with the law that lets a loop extend it one element
    at a time. */
module Seqs {

  /** `f` applied to each element. */
  function Map<A, B>(f: A -> B, xs: seq<A>): (ys: seq<B>)
    ensures |ys| == |xs|
    ensures forall k :: 0 <= k < |xs| ==> ys[k] == f(xs[k])
  {
    seq(|xs|, k requires 0 <= k < |xs| => f(xs[k]))
  }

  lemma MapAppend<A, B>(f: A -> B, xs: seq<A>, ys: seq<A>)
    ensures Map(f, xs + ys) == Map(f, xs) + Map(f, ys)
  {
  }

  /** The concatenation of the parts, in order. */
  function Flatten<A>(parts: seq<seq<A>>): seq<A> {
    if parts == [] then [] else Flatten(parts[..|parts| - 1]) + parts[|parts| - 1]
  }

  lemma FlattenSnoc<A>(parts: seq<seq<A>>, p: seq<A>)
    ensures Flatten(parts + [p]) == Flatten(parts) + p
  {
    assert (parts + [p])[..|parts|] == parts;
  }

  lemma {:induction false} FlattenCons<A>(p: seq<A>, parts: seq<seq<A>>)
    ensures Flatten([p] + parts) == p + Flatten(parts)
    decreases |parts|
  {
    if parts == [] {
      assert [p] + parts == [] + [p];
      FlattenSnoc([], p);
    } else {
      var init, last := parts[..|parts| - 1], parts[|parts| - 1];
      assert [p] + parts == ([p] + init) + [last];
      FlattenSnoc([p] + init, last);
      FlattenCons(p, init);
    }
  }
}
