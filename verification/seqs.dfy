/** Sequence helpers shared by the modules of the model. */
module Seqs {

  /** Python's `[f(x) for x in xs]`: `f` applied to every element, in order. */
  function Map<A, B>(xs: seq<A>, f: A -> B): (r: seq<B>)
    ensures |r| == |xs|
    ensures forall i :: 0 <= i < |xs| ==> r[i] == f(xs[i])
  {
    seq(|xs|, i requires 0 <= i < |xs| => f(xs[i]))
  }

  /** The parts laid end to end, in order. */
  function Concat<T>(parts: seq<seq<T>>): seq<T> {
    if |parts| == 0 then [] else Concat(parts[..|parts| - 1]) + parts[|parts| - 1]
  }

  /** Laying out two lists of parts one after the other. */
  lemma {:induction false} ConcatAppend<T>(a: seq<seq<T>>, b: seq<seq<T>>)
    ensures Concat(a + b) == Concat(a) + Concat(b)
    decreases |b|
  {
    if |b| == 0 {
      assert a + b == a;
    } else {
      var b' := b[..|b| - 1];
      ConcatAppend(a, b');
      assert (a + b)[..|a + b| - 1] == a + b';
    }
  }

  /** Part `k` sits right after the parts before it. */
  lemma ConcatPart<T>(parts: seq<seq<T>>, k: nat)
    requires k < |parts|
    ensures var o := |Concat(parts[..k])|;
      o + |parts[k]| <= |Concat(parts)| && Concat(parts)[o..o + |parts[k]|] == parts[k]
  {
    assert parts == parts[..k + 1] + parts[k + 1..];
    ConcatAppend(parts[..k + 1], parts[k + 1..]);
    assert parts[..k + 1][..k] == parts[..k];
  }
}
