/** Second-order low-pass filter (a biquad): a two-pole recurrence whose five
    coefficients come from the resonant frequency `w0` (rad/s), the quality
    factor `Q` and the sampling period `Te` (s). Only the bilinear
    approximation exists for this order. */
module SecondOrder {
  import opened Outcomes
  import Transforms
  import Sequential

  /** The coefficients of
      `y[k] = Cy1*y[k-1] + Cy2*y[k-2] + Cx0*x[k] + Cx1*x[k-1] + Cx2*x[k-2]`. */
  datatype Coefficients = Coefficients(cy1: real, cy2: real, cx0: real, cx1: real, cx2: real)

  /** The sum of the coefficients. It is 1 exactly when a filter whose
      history all sits at a level `v` outputs `v` again for input `v`, for
      every `v` (see `SteadyState`). */
  function CoefficientSum(c: Coefficients): real {
    c.cy1 + c.cy2 + c.cx0 + c.cx1 + c.cx2
  }

  /** Bilinear approximation: the feed-forward taps are in the ratio 1:2:1
      and the coefficients sum to 1; fails exactly when the common denominator
      `2*w0*Te + 4*Q + Q*(w0*Te)^2` is zero. */
  function BilinearDesign(Te: real, w0: real, Q: real): (r: Result<Coefficients>)
    ensures r.Err? <==> 2.0 * w0 * Te + 4.0 * Q + Q * ((w0 * Te) * (w0 * Te)) == 0.0
    ensures r.Err? ==> r.error == ZeroDivisionError
    ensures r.Ok? ==> r.value.cx1 == 2.0 * r.value.cx0 && r.value.cx2 == r.value.cx0
    ensures r.Ok? ==> CoefficientSum(r.value) == 1.0
  {
    var w2T2 := (w0 * Te) * (w0 * Te);
    var den := 2.0 * w0 * Te + 4.0 * Q + Q * w2T2;
    if den == 0.0 then Err(ZeroDivisionError)
    else
      var cx0 := Q * w2T2 / den;
      var c := Coefficients(2.0 * Q * (4.0 - w2T2) / den, (2.0 * w0 * Te - 4.0 * Q - Q * w2T2) / den,
                            cx0, 2.0 * cx0, cx0);
      assert CoefficientSum(c) == (2.0 * Q * (4.0 - w2T2) + (2.0 * w0 * Te - 4.0 * Q - Q * w2T2) + 4.0 * (Q * w2T2)) / den;
      assert 2.0 * Q * (4.0 - w2T2) + (2.0 * w0 * Te - 4.0 * Q - Q * w2T2) + 4.0 * (Q * w2T2) == den;
      assert CoefficientSum(c) == den / den == 1.0;
      Ok(c)
  }

  /** The whole state of a filter: its coefficients and its two-deep history. */
  datatype State = State(c: Coefficients, y_k1: real, y_k2: real, x_k1: real, x_k2: real)

  /** A filter with coefficients `c` and a cleared history. */
  function Initial(c: Coefficients): (s: State)
    ensures s.c == c && s.y_k1 == 0.0 && s.y_k2 == 0.0 && s.x_k1 == 0.0 && s.x_k2 == 0.0
  {
    State(c, 0.0, 0.0, 0.0, 0.0)
  }

  /** One sample through the recurrence: the output and the shifted history.
      The coefficients are kept, the newest history entries become (output,
      input) and the previous ones move one place back; at a constant level
      `v` the output is `v` scaled by the coefficient sum. */
  function Step(s: State, x: real): (o: (real, State))
    ensures o.0 == s.c.cy1 * s.y_k1 + s.c.cy2 * s.y_k2 + s.c.cx0 * x + s.c.cx1 * s.x_k1 + s.c.cx2 * s.x_k2
    ensures o.1 == State(s.c, o.0, s.y_k1, x, s.x_k1)
    ensures s.y_k1 == x && s.y_k2 == x && s.x_k1 == x && s.x_k2 == x ==> o.0 == CoefficientSum(s.c) * x
  {
    var y := s.c.cy1 * s.y_k1 + s.c.cy2 * s.y_k2 + s.c.cx0 * x + s.c.cx1 * s.x_k1 + s.c.cx2 * s.x_k2;
    (y, State(s.c, y, s.y_k1, x, s.x_k1))
  }

  /** Feeding never changes the coefficients, however many samples. */
  lemma {:induction false} FeedsKeepCoefficients(s: State, xs: seq<real>)
    ensures Sequential.Feeds(Step, s, xs).1.c == s.c
    decreases |xs|
  {
    if xs != [] {
      FeedsKeepCoefficients(Step(s, xs[0]).1, xs[1..]);
    }
  }

  /** After a batch of at least two samples the history holds the last two
      outputs and the last two inputs, newest first. */
  lemma FeedsHistory(s: State, xs: seq<real>)
    requires |xs| >= 2
    ensures var r := Sequential.Feeds(Step, s, xs);
            var n := |xs|;
            r.1.x_k1 == xs[n - 1] && r.1.x_k2 == xs[n - 2] &&
            r.1.y_k1 == r.0[n - 1] && r.1.y_k2 == r.0[n - 2]
  {
    var n := |xs|;
    Sequential.FeedsSnoc(Step, s, xs[..n - 1], xs[n - 1]);
    Sequential.FeedsSnoc(Step, s, xs[..n - 2], xs[n - 2]);
    assert xs[..n - 1] + [xs[n - 1]] == xs;
    assert xs[..n - 2] + [xs[n - 2]] == xs[..n - 1];
  }

  /** Coefficients summing to 1: a filter at rest at level `v` that receives `v` outputs `v`
      and stays at rest. */
  lemma SteadyState(s: State, v: real)
    requires CoefficientSum(s.c) == 1.0
    requires s.y_k1 == v && s.y_k2 == v && s.x_k1 == v && s.x_k2 == v
    ensures Step(s, v) == (v, s)
  {
    calc {
      Step(s, v).0;
      s.c.cy1 * v + s.c.cy2 * v + s.c.cx0 * v + s.c.cx1 * v + s.c.cx2 * v;
      CoefficientSum(s.c) * v;
    }
    assert Step(s, v).1 == State(s.c, v, v, v, v) == s;
  }

  /** The coefficients sum to 1 exactly when every constant level is a fixed
      point of the recurrence. */
  lemma LevelsFixedIffSumOne(c: Coefficients)
    ensures CoefficientSum(c) == 1.0 <==> forall v: real :: Step(State(c, v, v, v, v), v) == (v, State(c, v, v, v, v))
  {
    if CoefficientSum(c) == 1.0 {
      forall v: real ensures Step(State(c, v, v, v, v), v) == (v, State(c, v, v, v, v)) {
        SteadyState(State(c, v, v, v, v), v);
      }
    } else {
      assert Step(State(c, 1.0, 1.0, 1.0, 1.0), 1.0).0 == CoefficientSum(c);
    }
  }

  /** Whatever its coefficients, a filter with a cleared history that is fed
      only zeros outputs only zeros and keeps its cleared history. */
  lemma SilenceFromRest(c: Coefficients, xs: seq<real>)
    requires forall k :: 0 <= k < |xs| ==> xs[k] == 0.0
    ensures Sequential.Feeds(Step, Initial(c), xs) == (xs, Initial(c))
  {
    assert Step(Initial(c), 0.0) == (0.0, Initial(c));
    Sequential.FeedsFixedPoint(Step, Initial(c), 0.0, xs);
  }

  /** A constant input `v` fed to a filter at rest at `v` is passed through
      unchanged, sample by sample. */
  lemma HoldsConstant(s: State, v: real, xs: seq<real>)
    requires CoefficientSum(s.c) == 1.0
    requires s.y_k1 == v && s.y_k2 == v && s.x_k1 == v && s.x_k2 == v
    requires forall k :: 0 <= k < |xs| ==> xs[k] == v
    ensures Sequential.Feeds(Step, s, xs) == (xs, s)
  {
    SteadyState(s, v);
    Sequential.FeedsFixedPoint(Step, s, v, xs);
  }

  /** `LP_second_order`: the object holds the coefficients and the history. */
  class LowPassSecondOrder {
    var y_k1: real
    var x_k1: real
    var y_k2: real
    var x_k2: real
    var cy1: real
    var cy2: real
    var cx0: real
    var cx1: real
    var cx2: real

    function Coeffs(): Coefficients
      reads this
    {
      Coefficients(cy1, cy2, cx0, cx1, cx2)
    }

    /** The object's state as a value. */
    function Model(): State
      reads this
    {
      State(Coeffs(), y_k1, y_k2, x_k1, x_k2)
    }

    /** Allocates a filter and resets it; the coefficients stay at zero until
        `init_bilinear` assigns them. */
    constructor ()
      ensures Model() == Initial(Coefficients(0.0, 0.0, 0.0, 0.0, 0.0))
    {
      y_k1, x_k1, y_k2, x_k2 := 0.0, 0.0, 0.0, 0.0;
      cy1, cy2, cx0, cx1, cx2 := 0.0, 0.0, 0.0, 0.0, 0.0;
      new;
      Reset();
    }

    /** Clears the history and keeps the coefficients. */
    method Reset()
      modifies this
      ensures Model() == Initial(old(Coeffs()))
    {
      y_k1 := 0.0;
      x_k1 := 0.0;
      y_k2 := 0.0;
      x_k2 := 0.0;
    }

    method InitBilinear(Te: real, w0: real, Q: real) returns (r: Outcome)
      modifies this
      ensures var d := BilinearDesign(Te, w0, Q);
              if d.Ok? then r == Pass && Model() == old(Model()).(c := d.value)
              else r == Fail(ZeroDivisionError) && Model() == old(Model())
    {
      var d := BilinearDesign(Te, w0, Q);
      if d.Err? {
        return Fail(d.error);
      }
      cy1, cy2 := d.value.cy1, d.value.cy2;
      cx0, cx1, cx2 := d.value.cx0, d.value.cx1, d.value.cx2;
      return Pass;
    }

    /** `_feed`: one sample through the recurrence; the history shifts by one
        (output and input become the newest entries) and the coefficients do
        not change. */
    method Feed(x: real) returns (y: real)
      modifies this
      ensures y == old(cy1 * y_k1 + cy2 * y_k2 + cx0 * x + cx1 * x_k1 + cx2 * x_k2)
      ensures y_k2 == old(y_k1) && y_k1 == y && x_k2 == old(x_k1) && x_k1 == x
      ensures Coeffs() == old(Coeffs())
      ensures (y, Model()) == Step(old(Model()), x)
    {
      ghost var s := Model();
      y := cy1 * y_k1 + cy2 * y_k2 + cx0 * x + cx1 * x_k1 + cx2 * x_k2;
      assert y == Step(s, x).0;
      y_k2 := y_k1;
      y_k1 := y;
      x_k2 := x_k1;
      x_k1 := x;
      assert Model() == Step(s, x).1;
    }

    /** `__call__` with a single sample: exactly one feed. */
    method Call(x: real) returns (y: real)
      modifies this
      ensures (y, Model()) == Step(old(Model()), x)
    {
      y := Feed(x);
    }

    /** `__call__` with a sequence: one output per sample, in order, and the
        state of feeding the samples one by one. */
    method CallBatch(xs: seq<real>) returns (ys: seq<real>)
      modifies this
      ensures (ys, Model()) == Sequential.Feeds(Step, old(Model()), xs)
    {
      ghost var s0 := Model();
      ys := [];
      for k := 0 to |xs|
        invariant (ys, Model()) == Sequential.Feeds(Step, s0, xs[..k])
      {
        var y := Feed(xs[k]);
        Sequential.FeedsSnoc(Step, s0, xs[..k], xs[k]);
        assert xs[..k + 1] == xs[..k] + [xs[k]];
        ys := ys + [y];
      }
      assert xs[..|xs|] == xs;
    }
  }

  /** `LP_second_order(Te, w0, Q, transform)`: resets a new filter, then runs
      `init_<transform>`, which exists only for `bilinear`. */
  method Create(Te: real, w0: real, Q: real, transform: string) returns (r: Result<LowPassSecondOrder>)
    ensures Transforms.ParseSecondOrder(transform).None? ==> r == Err(AttributeError("init_" + transform))
    ensures Transforms.ParseSecondOrder(transform).Some? ==>
              var d := BilinearDesign(Te, w0, Q);
              (d.Err? ==> r == Err(d.error)) &&
              (d.Ok? ==> r.Ok? && fresh(r.value) && r.value.Model() == Initial(d.value))
  {
    var f := new LowPassSecondOrder();
    if Transforms.ParseSecondOrder(transform).None? {
      return Err(AttributeError("init_" + transform));
    }
    var outcome := f.InitBilinear(Te, w0, Q);
    if outcome.Fail? {
      return Err(outcome.error);
    }
    return Ok(f);
  }
}
