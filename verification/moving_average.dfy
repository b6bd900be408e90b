/** Moving average over the last `N` samples, kept as a ring buffer of `N`
    slots that each hold one sample divided by `N`, a running sum of the
    slots and the index of the slot the next sample overwrites. */
module Averaging {
  import opened Outcomes
  import Sequential

  function Sum(s: seq<real>): real {
    if s == [] then 0.0 else s[0] + Sum(s[1..])
  }

  lemma {:induction false} SumSnoc(s: seq<real>, x: real)
    ensures Sum(s + [x]) == Sum(s) + x
  {
    if s != [] {
      assert (s + [x])[1..] == s[1..] + [x];
      SumSnoc(s[1..], x);
    } else {
      assert s + [x] == [x] && [x][1..] == [];
    }
  }

  /** Overwriting one element changes the sum by the difference. */
  lemma {:induction false} SumUpdate(s: seq<real>, j: nat, v: real)
    requires j < |s|
    ensures Sum(s[j := v]) == Sum(s) - s[j] + v
  {
    if j == 0 {
      assert s[j := v][1..] == s[1..];
    } else {
      assert s[j := v][1..] == s[1..][j - 1 := v];
      SumUpdate(s[1..], j - 1, v);
    }
  }

  lemma {:induction false} SumZeros(n: nat)
    ensures Sum(seq(n, _ => 0.0)) == 0.0
  {
    if n > 0 {
      assert seq(n, _ => 0.0)[1..] == seq(n - 1, _ => 0.0);
      SumZeros(n - 1);
    }
  }

  /** The state of an averager as a value. */
  datatype Ring = Ring(n: int, buffer: seq<real>, i: int, sum: real)

  /** The buffer has `n` slots and the write index is one of them. */
  predicate Shaped(r: Ring) {
    1 <= r.n && |r.buffer| == r.n && 0 <= r.i < r.n
  }

  type ValidRing = r: Ring | Shaped(r) witness Ring(1, [0.0], 0, 0.0)

  /** An averager of length `n` just after `reset`. */
  function Empty(n: int): (r: ValidRing)
    requires n >= 1
    ensures r.n == n && r.i == 0
    ensures forall j :: 0 <= j < n ==> r.buffer[j] == 0.0
    ensures r.sum == 0.0
  {
    Ring(n, seq(n, _ => 0.0), 0, 0.0)
  }

  /** One sample through the averager: the new sum is the output. The shape
      is kept, only slot `i` is overwritten (with `x / n`), and the write
      index moves one slot on, cyclically. */
  function Step(r: ValidRing, x: real): (o: (real, ValidRing))
    ensures o.1.n == r.n && o.1.i == (r.i + 1) % r.n && o.0 == o.1.sum
    ensures o.1.buffer[r.i] == x / r.n as real
    ensures forall j :: 0 <= j < r.n && j != r.i ==> o.1.buffer[j] == r.buffer[j]
  {
    var buffer := r.buffer[r.i := x / r.n as real];
    var sum := r.sum - r.buffer[r.i] + buffer[r.i];
    var i := if r.i + 1 >= r.n then 0 else r.i + 1;
    (sum, Ring(r.n, buffer, i, sum))
  }

  /** The running sum equals the sum of the slots, and feeding keeps it so. */
  lemma StepKeepsSum(r: ValidRing, x: real)
    requires r.sum == Sum(r.buffer)
    ensures Step(r, x).1.sum == Sum(Step(r, x).1.buffer)
  {
    SumUpdate(r.buffer, r.i, x / r.n as real);
  }

  /** The last `min(|xs|, n)` samples of `xs`. */
  function Last(xs: seq<real>, n: nat): (w: seq<real>)
    ensures |w| == if |xs| <= n then |xs| else n
  {
    if |xs| <= n then xs else xs[|xs| - n..]
  }

  /** What the averager promises after `xs` was fed since the last reset:
      the sum of the last `min(|xs|, n)` samples, divided by `n`. */
  function Mean(xs: seq<real>, n: int): real
    requires n >= 1
  {
    Sum(Last(xs, n)) / n as real
  }

  /** One more sample enters the window; once the window is full, the oldest
      sample leaves it. */
  lemma LastSnoc(xs: seq<real>, x: real, n: nat)
    requires n >= 1
    ensures Sum(Last(xs + [x], n)) == Sum(Last(xs, n)) - (if |xs| >= n then xs[|xs| - n] else 0.0) + x
  {
    var m := |xs|;
    if m + 1 <= n {
      SumSnoc(xs, x);
    } else {
      var w := xs[m - n..];
      assert Last(xs + [x], n) == w[1..] + [x];
      SumSnoc(w[1..], x);
    }
  }

  /** The content of slot `j` when the write index is `i`, after `xs` was fed
      since the last reset: slot `i` holds the oldest sample of the window,
      the slot before it the newest, and slots not yet written hold 0. */
  ghost function Slot(xs: seq<real>, n: int, i: int, j: int): real
    requires 0 <= i < n && 0 <= j < n
  {
    var age := if j >= i then j - i else j - i + n;
    var t := |xs| - n + age;
    if t >= 0 then xs[t] / n as real else 0.0
  }

  /** `r` is the state an averager reaches when `xs` is fed after a reset. */
  ghost predicate Tracks(r: ValidRing, xs: seq<real>) {
    && r.sum == Sum(r.buffer)
    && r.sum == Mean(xs, r.n)
    && forall j :: 0 <= j < r.n ==> r.buffer[j] == Slot(xs, r.n, r.i, j)
  }

  /** The new running sum is the mean of the window grown by `x`. */
  lemma StepMean(r: ValidRing, xs: seq<real>, x: real)
    requires r.sum == Mean(xs, r.n)
    requires r.buffer[r.i] == Slot(xs, r.n, r.i, r.i)
    ensures Step(r, x).1.sum == Mean(xs + [x], r.n)
  {
    var n := r.n;
    var oldest := if |xs| >= n then xs[|xs| - n] else 0.0;
    LastSnoc(xs, x, n);
    var w := Sum(Last(xs, n));
    assert Step(r, x).1.sum == w / n as real - oldest / n as real + x / n as real;
    DivideSum(w, oldest, x, n as real);
  }

  /** Dividing term by term is dividing the whole; stated apart because the
      solver does not find it among the facts `StepMean` has in scope. */
  lemma DivideSum(a: real, b: real, c: real, d: real)
    requires d != 0.0
    ensures a / d - b / d + c / d == (a - b + c) / d
  {
  }

  /** Every slot keeps what `Slot` says once `x` is fed. */
  lemma StepSlots(r: ValidRing, xs: seq<real>, x: real)
    requires forall j :: 0 <= j < r.n ==> r.buffer[j] == Slot(xs, r.n, r.i, j)
    ensures forall j :: 0 <= j < r.n ==> Step(r, x).1.buffer[j] == Slot(xs + [x], r.n, Step(r, x).1.i, j)
  {
  }

  lemma StepTracks(r: ValidRing, xs: seq<real>, x: real)
    requires Tracks(r, xs)
    ensures Tracks(Step(r, x).1, xs + [x])
  {
    StepKeepsSum(r, x);
    StepMean(r, xs, x);
    StepSlots(r, xs, x);
  }

  /** A reset averager tracks the empty history. */
  lemma EmptyTracks(n: int)
    requires n >= 1
    ensures Tracks(Empty(n), [])
  {
    SumZeros(n);
    assert Last([], n) == [];
  }

  /** Feeding `xs` after a reset reaches a state that `Tracks` `xs`. */
  lemma {:induction false} FeedsTrack(n: int, xs: seq<real>)
    requires n >= 1
    ensures Sequential.Feeds(Step, Empty(n), xs).1.n == n
    ensures Tracks(Sequential.Feeds(Step, Empty(n), xs).1, xs)
    decreases |xs|
  {
    if xs == [] {
      EmptyTracks(n);
    } else {
      var k := |xs| - 1;
      var before := xs[..k];
      FeedsTrack(n, before);
      var r := Sequential.Feeds(Step, Empty(n), before).1;
      Sequential.FeedsSnoc(Step, Empty(n), before, xs[k]);
      StepTracks(r, before, xs[k]);
      assert before + [xs[k]] == xs;
    }
  }

  /** After `h` was fed since a reset, the output for `x` is the mean of the
      window of `h` grown by `x`. */
  lemma OutputIsMean(n: int, h: seq<real>, x: real)
    requires n >= 1
    ensures Step(Sequential.Feeds(Step, Empty(n), h).1, x).0 == Mean(h + [x], n)
  {
    FeedsTrack(n, h);
    StepMean(Sequential.Feeds(Step, Empty(n), h).1, h, x);
  }

  /** An averager fed `h` since its last reset and then the batch `xs`:
      output `k` of the batch is the mean of the last `n` samples up to and
      including `xs[k]`. */
  lemma FeedsMeans(n: int, h: seq<real>, xs: seq<real>, k: nat)
    requires n >= 1 && k < |xs|
    ensures Sequential.Feeds(Step, Sequential.Feeds(Step, Empty(n), h).1, xs).0[k] == Mean(h + xs[..k + 1], n)
  {
    var before := h + xs[..k];
    assert before + [xs[k]] == h + xs[..k + 1];
    var s := Sequential.Feeds(Step, Empty(n), h).1;
    Sequential.FeedsAt(Step, s, xs, k);
    Sequential.FeedsAppend(Step, Empty(n), h, xs[..k]);
    OutputIsMean(n, before, xs[k]);
  }

  /** `FeedsMeans` for every output of a batch fed from the state `s` that
      the history `h` leaves. */
  lemma BatchMeans(n: int, h: seq<real>, s: ValidRing, xs: seq<real>)
    requires n >= 1 && s == Sequential.Feeds(Step, Empty(n), h).1
    ensures forall k :: 0 <= k < |xs| ==> Sequential.Feeds(Step, s, xs).0[k] == Mean(h + xs[..k + 1], n)
  {
    forall k | 0 <= k < |xs|
      ensures Sequential.Feeds(Step, s, xs).0[k] == Mean(h + xs[..k + 1], n)
    {
      FeedsMeans(n, h, xs, k);
    }
  }

  /** `Moving_average`. */
  class MovingAverage {
    const n: int
    var buffer: array<real>
    var i: int
    var y_k0: real
    /** The samples fed since the last reset. */
    ghost var fed: seq<real>

    /** The object's state as a value. */
    function Model(): ValidRing
      reads this, buffer
      requires 1 <= n == buffer.Length && 0 <= i < n
    {
      Ring(n, buffer[..], i, y_k0)
    }

    /** With `n >= 1`: `n` slots, a write index among them, a running sum
        equal to the sum of the slots, and the state reached by feeding
        `fed` after a reset. Otherwise the buffer is empty. */
    ghost predicate Valid()
      reads this, buffer
    {
      if n >= 1 then
        && buffer.Length == n && 0 <= i < n
        && y_k0 == Sum(buffer[..])
        && Model() == Sequential.Feeds(Step, Empty(n), fed).1
      else
        buffer.Length == 0 && i == 0 && y_k0 == 0.0 && fed == []
    }

    /** Keeps the length `N` and resets. */
    constructor (N: int)
      ensures n == N && Valid() && fresh(buffer) && fed == []
      ensures n >= 1 ==> Model() == Empty(n)
    {
      n := N;
      buffer := new real[0];
      i, y_k0, fed := 0, 0.0, [];
      new;
      Reset();
    }

    /** A new buffer of `max(n, 0)` zero slots (`[0]*N` is empty for a
        non-positive `N`), index and sum at zero. */
    method Reset()
      modifies this
      ensures Valid() && fresh(buffer) && fed == []
      ensures n >= 1 ==> Model() == Empty(n)
    {
      buffer := new real[if n >= 0 then n else 0](_ => 0.0);
      i := 0;
      y_k0 := 0.0;
      fed := [];
      if n >= 1 {
        assert buffer[..] == seq(n, _ => 0.0);
        SumZeros(n);
      }
    }

    /** `_feed`: replaces the oldest slot by `x / n`, adjusts the running sum
        and advances the index; the output is the mean of the last
        `min(|fed|, n)` samples. An empty buffer raises `IndexError` and
        nothing changes. */
    method Feed(x: real) returns (r: Result<real>)
      requires Valid()
      modifies this, buffer
      ensures Valid() && buffer == old(buffer)
      ensures n < 1 ==> r == Err(IndexError)
      ensures n >= 1 ==> r.Ok? && (r.value, Model()) == Step(old(Model()), x)
      ensures n >= 1 ==> fed == old(fed) + [x] && r.value == Mean(fed, n)
    {
      if i >= buffer.Length {
        return Err(IndexError);
      }
      ghost var s := Model();
      y_k0 := y_k0 - buffer[i];
      buffer[i] := x / n as real;
      y_k0 := y_k0 + buffer[i];
      i := i + 1;
      if i >= n {
        i := 0;
      }
      fed := fed + [x];
      assert Model() == Step(s, x).1;
      Sequential.FeedsSnoc(Step, Empty(n), old(fed), x);
      FeedsTrack(n, fed);
      return Ok(y_k0);
    }

    /** `__call__` with a single sample: exactly one feed. */
    method Call(x: real) returns (r: Result<real>)
      requires Valid()
      modifies this, buffer
      ensures Valid() && buffer == old(buffer)
      ensures n < 1 ==> r == Err(IndexError)
      ensures n >= 1 ==> r.Ok? && (r.value, Model()) == Step(old(Model()), x)
      ensures n >= 1 ==> fed == old(fed) + [x] && r.value == Mean(fed, n)
    {
      r := Feed(x);
    }

    /** `__call__` with a sequence: one output per sample, in order, each the
        mean of the window at that point, and the state of feeding the
        samples one by one. The first feed of an empty buffer raises. */
    method CallBatch(xs: seq<real>) returns (r: Result<seq<real>>)
      requires Valid()
      modifies this, buffer
      ensures Valid() && buffer == old(buffer)
      ensures n < 1 ==> r == if xs == [] then Ok([]) else Err(IndexError)
      ensures n >= 1 ==> r.Ok? && (r.value, Model()) == Sequential.Feeds(Step, old(Model()), xs)
      ensures n >= 1 ==> fed == old(fed) + xs
      ensures n >= 1 ==> forall k :: 0 <= k < |xs| ==> r.value[k] == Mean(old(fed) + xs[..k + 1], n)
    {
      ghost var h := fed;
      ghost var s0: ValidRing := if n >= 1 then Model() else Empty(1);
      assert n >= 1 ==> s0 == Sequential.Feeds(Step, Empty(n), h).1;
      var ys := [];
      for k := 0 to |xs|
        invariant Valid() && buffer == old(buffer)
        invariant n < 1 ==> k == 0 && ys == []
        invariant n >= 1 ==> (ys, Model()) == Sequential.Feeds(Step, s0, xs[..k])
        invariant n >= 1 ==> fed == old(fed) + xs[..k]
      {
        assert xs[..k + 1] == xs[..k] + [xs[k]];
        var y := Feed(xs[k]);
        if y.Err? {
          return Err(y.error);
        }
        Sequential.FeedsSnoc(Step, s0, xs[..k], xs[k]);
        ys := ys + [y.value];
      }
      assert xs[..|xs|] == xs;
      if n >= 1 {
        assert ys == Sequential.Feeds(Step, s0, xs).0;
        BatchMeans(n, h, s0, xs);
      }
      return Ok(ys);
    }
  }
}
