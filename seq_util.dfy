/**
 * Sequence helpers shared by the derivation and rendering models: the
 * "for each element, push its records" pattern as a concatenating map.
 */
module SeqUtil {

  /** The concatenation of `f(x)` for every `x` of `xs`, in order. */
  function ConcatMap<T, U>(xs: seq<T>, f: T -> seq<U>): seq<U>
    decreases |xs|
  {
    if |xs| == 0 then [] else ConcatMap(xs[..|xs| - 1], f) + f(xs[|xs| - 1])
  }

  /** Extending the prefix by one element appends that element's records. */
  lemma ConcatMapStep<T, U>(xs: seq<T>, f: T -> seq<U>, k: int)
    requires 0 <= k < |xs|
    ensures ConcatMap(xs[..k + 1], f) == ConcatMap(xs[..k], f) + f(xs[k])
  {
    assert xs[..k + 1][..k] == xs[..k];
  }

  /** Mapping a concatenation is concatenating the maps. */
  lemma {:induction false} ConcatMapAppend<T, U>(xs: seq<T>, ys: seq<T>, f: T -> seq<U>)
    ensures ConcatMap(xs + ys, f) == ConcatMap(xs, f) + ConcatMap(ys, f)
    decreases |ys|
  {
    if |ys| == 0 {
      assert xs + ys == xs;
    } else {
      var last := |ys| - 1;
      assert (xs + ys)[..|xs + ys| - 1] == xs + ys[..last];
      assert (xs + ys)[|xs + ys| - 1] == ys[last];
      ConcatMapAppend(xs, ys[..last], f);
    }
  }

  /** Every produced element comes from some input element. */
  lemma {:induction false} ConcatMapMember<T, U>(xs: seq<T>, f: T -> seq<U>, u: U) returns (i: int)
    requires u in ConcatMap(xs, f)
    ensures 0 <= i < |xs| && u in f(xs[i])
    decreases |xs|
  {
    var last := |xs| - 1;
    if u in f(xs[last]) {
      i := last;
    } else {
      i := ConcatMapMember(xs[..last], f, u);
      assert xs[..last][i] == xs[i];
    }
  }

  /** Every element's records appear in the result. */
  lemma {:induction false} ConcatMapContains<T, U>(xs: seq<T>, f: T -> seq<U>, i: int, u: U)
    requires 0 <= i < |xs| && u in f(xs[i])
    ensures u in ConcatMap(xs, f)
    decreases |xs|
  {
    var last := |xs| - 1;
    if i < last {
      assert xs[..last][i] == xs[i];
      ConcatMapContains(xs[..last], f, i, u);
    }
  }

  /** The records of a prefix of the input are a prefix of the result. */
  lemma {:induction false} ConcatMapPrefix<T, U>(xs: seq<T>, f: T -> seq<U>, k: int)
    requires 0 <= k <= |xs|
    ensures ConcatMap(xs[..k], f) <= ConcatMap(xs, f)
  {
    assert xs == xs[..k] + xs[k..];
    ConcatMapAppend(xs[..k], xs[k..], f);
  }

  /** Splitting the input at `k` splits the result. */
  lemma ConcatMapSplit<T, U>(xs: seq<T>, f: T -> seq<U>, k: int)
    requires 0 <= k <= |xs|
    ensures ConcatMap(xs, f) == ConcatMap(xs[..k], f) + ConcatMap(xs[k..], f)
  {
    assert xs == xs[..k] + xs[k..];
    ConcatMapAppend(xs[..k], xs[k..], f);
  }

  /** A nine-element input, three elements at a time. */
  lemma ConcatMapByThrees<T, U>(xs: seq<T>, f: T -> seq<U>)
    requires |xs| == 9
    ensures ConcatMap(xs, f) == ConcatMap(xs[..3], f) + ConcatMap(xs[3..6], f) + ConcatMap(xs[6..], f)
  {
    ConcatMapSplit(xs, f, 3);
    ConcatMapSplit(xs[3..], f, 3);
    assert xs[3..][..3] == xs[3..6] && xs[3..][3..] == xs[6..];
  }

  /** A two-element input, written out. */
  lemma ConcatMapTwo<T, U>(xs: seq<T>, f: T -> seq<U>)
    requires |xs| == 2
    ensures ConcatMap(xs, f) == f(xs[0]) + f(xs[1])
  {
    assert xs[..1] == [xs[0]] && xs[..1][..0] == [];
    assert ConcatMap([xs[0]], f) == f(xs[0]);
  }

  /** A three-element input, written out. */
  lemma ConcatMapThree<T, U>(xs: seq<T>, f: T -> seq<U>)
    requires |xs| == 3
    ensures ConcatMap(xs, f) == f(xs[0]) + f(xs[1]) + f(xs[2])
  {
    assert xs[..2][..1] == [xs[0]] && xs[..2][..1][..0] == [];
    assert ConcatMap([xs[0]], f) == f(xs[0]);
    assert xs[..2] == [xs[0], xs[1]];
    assert xs[..2][..1] == [xs[0]];
  }
}
