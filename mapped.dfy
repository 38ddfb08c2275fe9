/** A sequence transformed item by item, in the order a loop visits it. */
module Mapping {
  /** `f` applied to each item, built up from the front the way a loop
      over the items goes. */
  function Mapped<A, B>(xs: seq<A>, f: A -> B): seq<B> {
    if xs == [] then [] else Mapped(xs[..|xs| - 1], f) + [f(xs[|xs| - 1])]
  }

  /** The `i`-th result is `f` of the `i`-th item. */
  lemma {:induction false} MappedAt<A, B>(xs: seq<A>, f: A -> B, i: nat)
    requires i < |xs|
    ensures |Mapped(xs, f)| == |xs| && Mapped(xs, f)[i] == f(xs[i])
  {
    var n := |xs| - 1;
    if n > 0 {
      MappedAt(xs[..n], f, if i < n then i else 0);
      if i < n {
        assert xs[..n][i] == xs[i];
      }
    }
  }

  /** One more item is one more result. */
  lemma MappedStep<A, B>(xs: seq<A>, f: A -> B, i: nat)
    requires i < |xs|
    ensures Mapped(xs[..i + 1], f) == Mapped(xs[..i], f) + [f(xs[i])]
  {
    assert xs[..i + 1][..i] == xs[..i];
  }
}
