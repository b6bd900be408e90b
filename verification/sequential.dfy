/** Batch filtering: calling a filter with a sequence feeds the samples one at
    a time, in order, carrying the filter's state from one sample to the next. */
module Sequential {

  /** Feeds `xs` to a filter in state `s`, where `step(s, x)` is the output for
      sample `x` together with the next state. Returns the outputs and the
      final state. */
  function Feeds<S>(step: (S, real) -> (real, S), s: S, xs: seq<real>): (r: (seq<real>, S))
    ensures |r.0| == |xs|
    decreases |xs|
  {
    if xs == [] then ([], s)
    else
      var first := step(s, xs[0]);
      var rest := Feeds(step, first.1, xs[1..]);
      ([first.0] + rest.0, rest.1)
  }

  /** Feeding one more sample extends the outputs by that sample's output and
      moves the final state by one step. */
  lemma {:induction false} FeedsSnoc<S>(step: (S, real) -> (real, S), s: S, xs: seq<real>, x: real)
    ensures var before := Feeds(step, s, xs);
            var last := step(before.1, x);
            Feeds(step, s, xs + [x]) == (before.0 + [last.0], last.1)
  {
    if xs == [] {
      assert xs + [x] == [x] && [x][1..] == [];
      assert Feeds(step, s, [x]) == ([step(s, x).0] + [], step(s, x).1);
      assert Feeds(step, s, xs) == ([], s);
      assert [step(s, x).0] + [] == [] + [step(s, x).0];
    } else {
      var first := step(s, xs[0]);
      assert (xs + [x])[1..] == xs[1..] + [x];
      FeedsSnoc(step, first.1, xs[1..], x);
      var rest := Feeds(step, first.1, xs[1..]);
      assert Feeds(step, s, xs) == ([first.0] + rest.0, rest.1);
      assert [first.0] + (rest.0 + [step(rest.1, x).0]) == ([first.0] + rest.0) + [step(rest.1, x).0];
    }
  }

  /** Output `k` of a batch is what the filter outputs when it receives
      sample `k` after having been fed the `k` samples before it. */
  lemma {:induction false} FeedsAt<S>(step: (S, real) -> (real, S), s: S, xs: seq<real>, k: nat)
    requires k < |xs|
    ensures Feeds(step, s, xs).0[k] == step(Feeds(step, s, xs[..k]).1, xs[k]).0
  {
    if k > 0 {
      var first := step(s, xs[0]);
      assert xs[1..][..k - 1] == xs[..k][1..];
      FeedsAt(step, first.1, xs[1..], k - 1);
    }
  }

  /** A state that reproduces the sample `v` and stays put stays put for a
      whole run of `v`s, and every output is `v`. */
  lemma {:induction false} FeedsFixedPoint<S>(step: (S, real) -> (real, S), s: S, v: real, xs: seq<real>)
    requires step(s, v) == (v, s)
    requires forall k :: 0 <= k < |xs| ==> xs[k] == v
    ensures Feeds(step, s, xs) == (xs, s)
  {
    if xs != [] {
      FeedsFixedPoint(step, s, v, xs[1..]);
      assert [xs[0]] + xs[1..] == xs;
    }
  }

  /** Feeding `xs ++ ys` is feeding `xs`, then feeding `ys` from the state
      reached. */
  lemma {:induction false} FeedsAppend<S>(step: (S, real) -> (real, S), s: S, xs: seq<real>, ys: seq<real>)
    ensures var first := Feeds(step, s, xs);
            var second := Feeds(step, first.1, ys);
            Feeds(step, s, xs + ys) == (first.0 + second.0, second.1)
    decreases |xs|
  {
    if xs == [] {
      assert xs + ys == ys;
      assert Feeds(step, s, xs) == ([], s);
      assert [] + Feeds(step, s, ys).0 == Feeds(step, s, ys).0;
    } else {
      var head := step(s, xs[0]);
      assert (xs + ys)[1..] == xs[1..] + ys;
      FeedsAppend(step, head.1, xs[1..], ys);
      var tail := Feeds(step, head.1, xs[1..]);
      var second := Feeds(step, tail.1, ys);
      assert Feeds(step, s, xs) == ([head.0] + tail.0, tail.1);
      assert [head.0] + (tail.0 + second.0) == ([head.0] + tail.0) + second.0;
    }
  }
}
