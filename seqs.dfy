/** Sequence helpers shared by the token builders. */
module Seqs {

  /** The concatenation of a sequence of sequences, in order. */
  function Flatten<T>(ss: seq<seq<T>>): seq<T>
    decreases |ss|
  {
    if ss == [] then [] else Flatten(ss[..|ss| - 1]) + ss[|ss| - 1]
  }

  lemma {:induction false} FlattenAppend<T>(a: seq<seq<T>>, b: seq<seq<T>>)
    ensures Flatten(a + b) == Flatten(a) + Flatten(b)
    decreases |b|
  {
    if b == [] {
      assert a + b == a;
    } else {
      var b' := b[..|b| - 1];
      assert (a + b)[..|a + b| - 1] == a + b';
      assert (a + b)[|a + b| - 1] == b[|b| - 1];
      FlattenAppend(a, b');
    }
  }

  lemma FlattenSingle<T>(s: seq<T>)
    ensures Flatten([s]) == s
  {
    assert [s][..0] == [];
  }

  /** Every block of the same length `k` gives a flattened length of `k` times the count. */
  lemma {:induction false} FlattenUniformLength<T>(ss: seq<seq<T>>, k: nat)
    requires forall i :: 0 <= i < |ss| ==> |ss[i]| == k
    ensures |Flatten(ss)| == k * |ss|
    decreases |ss|
  {
    if ss != [] {
      var init := ss[..|ss| - 1];
      FlattenUniformLength(init, k);
      assert |Flatten(ss)| == k * |init| + k;
      MulSucc(k, |init|);
    }
  }

  /** The concatenation of `f(x)` for every `x` of `xs`, in order. */
  function MapConcat<T, U>(xs: seq<T>, f: T -> seq<U>): seq<U>
    decreases |xs|
  {
    if xs == [] then [] else MapConcat(xs[..|xs| - 1], f) + f(xs[|xs| - 1])
  }

  lemma {:induction false} MapConcatAppend<T, U>(xs: seq<T>, ys: seq<T>, f: T -> seq<U>)
    ensures MapConcat(xs + ys, f) == MapConcat(xs, f) + MapConcat(ys, f)
    decreases |ys|
  {
    if ys == [] {
      assert xs + ys == xs;
    } else {
      var ys' := ys[..|ys| - 1];
      assert (xs + ys)[..|xs + ys| - 1] == xs + ys';
      MapConcatAppend(xs, ys', f);
    }
  }

  lemma MapConcatSingle<T, U>(x: T, f: T -> seq<U>)
    ensures MapConcat([x], f) == f(x)
  {
    assert [x][..0] == [];
  }

  lemma MulSucc(c: nat, k: nat)
    ensures c * (k + 1) == c * k + c
  {
  }

  lemma {:induction false} MapConcatLength<T, U>(xs: seq<T>, f: T -> seq<U>, l: nat)
    requires forall i :: 0 <= i < |xs| ==> |f(xs[i])| == l
    ensures |MapConcat(xs, f)| == l * |xs|
    decreases |xs|
  {
    if xs != [] {
      var init := xs[..|xs| - 1];
      MapConcatLength(init, f, l);
      MulSucc(l, |init|);
    }
  }

  /**
   * When every block has length `l`, the `k`-th slice of length `l` of the
   * result is the block of `xs[k]`.
   */
  lemma MapConcatBlock<T, U>(xs: seq<T>, f: T -> seq<U>, l: nat, k: nat)
    requires forall i :: 0 <= i < |xs| ==> |f(xs[i])| == l
    requires k < |xs|
    ensures k * l + l <= |MapConcat(xs, f)|
    ensures MapConcat(xs, f)[k * l..k * l + l] == f(xs[k])
  {
    var p, b, q := MapConcat(xs[..k], f), f(xs[k]), MapConcat(xs[k + 1..], f);
    MapConcatAround(xs, f, k);
    PrefixLength(xs, f, l, k);
    SliceMiddle(p, b, q);
  }

  lemma SliceMiddle<U>(p: seq<U>, b: seq<U>, q: seq<U>)
    ensures |p| + |b| <= |p + (b + q)|
    ensures (p + (b + q))[|p|..|p| + |b|] == b
  {
  }

  /** The result splits around the block of `xs[k]`. */
  lemma MapConcatAround<T, U>(xs: seq<T>, f: T -> seq<U>, k: nat)
    requires k < |xs|
    ensures MapConcat(xs, f) == MapConcat(xs[..k], f) + (f(xs[k]) + MapConcat(xs[k + 1..], f))
  {
    var pre, rest := xs[..k], xs[k + 1..];
    assert xs == pre + ([xs[k]] + rest);
    MapConcatAppend(pre, [xs[k]] + rest, f);
    MapConcatAppend([xs[k]], rest, f);
    MapConcatSingle(xs[k], f);
  }

  /** The blocks before `xs[k]` take `k * l` elements. */
  lemma PrefixLength<T, U>(xs: seq<T>, f: T -> seq<U>, l: nat, k: nat)
    requires forall i :: 0 <= i < |xs| ==> |f(xs[i])| == l
    requires k <= |xs|
    ensures |MapConcat(xs[..k], f)| == k * l
  {
    var pre := xs[..k];
    assert forall i :: 0 <= i < |pre| ==> pre[i] == xs[i];
    MapConcatLength(pre, f, l);
    assert l * k == k * l;
  }
}
