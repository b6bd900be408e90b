/** First-order low-pass filter: a one-pole recurrence whose three
    coefficients come from the cut-off frequency `wc` (rad/s), the sampling
    period `Te` (s) and the chosen discrete-time approximation.
    `math.tan` and `math.exp` are parameters `tan` and `exp`. */
module FirstOrder {
  import opened Outcomes
  import Transforms
  import Sequential

  /** The coefficients of `y[k] = Cy1*y[k-1] + Cx0*x[k] + Cx1*x[k-1]`. */
  datatype Coefficients = Coefficients(cy1: real, cx0: real, cx1: real)

  /** The sum of the coefficients. It is 1 exactly when a filter whose
      history all sits at a level `v` outputs `v` again for input `v`, for
      every `v` (see `SteadyState`). */
  function CoefficientSum(c: Coefficients): real {
    c.cy1 + c.cx0 + c.cx1
  }

  /** Bilinear (Tustin) approximation: two equal feed-forward taps and
      coefficients summing to 1; fails exactly when `2 + wc*Te` is zero. */
  function BilinearDesign(Te: real, wc: real): (r: Result<Coefficients>)
    ensures r.Err? <==> 2.0 + wc * Te == 0.0
    ensures r.Err? ==> r.error == ZeroDivisionError
    ensures r.Ok? ==> r.value.cx1 == r.value.cx0 && CoefficientSum(r.value) == 1.0
  {
    var den := 2.0 + wc * Te;
    if den == 0.0 then Err(ZeroDivisionError)
    else
      var cx0 := wc * Te / den;
      assert (2.0 - wc * Te) / den + cx0 + cx0 == den / den;
      Ok(Coefficients((2.0 - wc * Te) / den, cx0, cx0))
  }

  /** Homographic approximation, built on `tan(wc*Te/2)`: equal feed-forward
      taps and coefficients summing to 1; fails exactly when that tangent
      is -1. */
  function HomographicDesign(Te: real, wc: real, tan: real -> real): (r: Result<Coefficients>)
    ensures r.Err? <==> 1.0 + tan(wc * Te / 2.0) == 0.0
    ensures r.Err? ==> r.error == ZeroDivisionError
    ensures r.Ok? ==> r.value.cx1 == r.value.cx0 && CoefficientSum(r.value) == 1.0
  {
    var twt := tan(wc * Te / 2.0);
    if 1.0 + twt == 0.0 then Err(ZeroDivisionError)
    else
      var cx0 := twt / (1.0 + twt);
      assert (1.0 - twt) / (1.0 + twt) + cx0 + cx0 == (1.0 + twt) / (1.0 + twt);
      Ok(Coefficients((1.0 - twt) / (1.0 + twt), cx0, cx0))
  }

  /** Step matching: the pole is `exp(-wc*Te)`, the current input is not used
      and the coefficients sum to 1. */
  function StepMatchingDesign(Te: real, wc: real, exp: real -> real): (c: Coefficients)
    ensures c.cy1 == exp(-wc * Te) && c.cx0 == 0.0 && CoefficientSum(c) == 1.0
  {
    var ewt := exp(-wc * Te);
    Coefficients(ewt, 0.0, 1.0 - ewt)
  }

  /** Impulse matching: the pole is `exp(-wc*Te)`, the previous input is not
      used and the coefficients sum to 1. */
  function ImpulseMatchingDesign(Te: real, wc: real, exp: real -> real): (c: Coefficients)
    ensures c.cy1 == exp(-wc * Te) && c.cx1 == 0.0 && CoefficientSum(c) == 1.0
  {
    var ewt := exp(-wc * Te);
    Coefficients(ewt, 1.0 - ewt, 0.0)
  }

  /** The coefficients `init_<Name(t)>` computes. */
  function Design(t: Transforms.Transform, Te: real, wc: real, tan: real -> real, exp: real -> real): (r: Result<Coefficients>)
    ensures r.Ok? ==> CoefficientSum(r.value) == 1.0
    ensures r.Err? ==> r.error == ZeroDivisionError && (t.Bilinear? || t.Homographic?)
  {
    match t
    case Bilinear => BilinearDesign(Te, wc)
    case Homographic => HomographicDesign(Te, wc, tan)
    case StepMatching => Ok(StepMatchingDesign(Te, wc, exp))
    case ImpulseMatching => Ok(ImpulseMatchingDesign(Te, wc, exp))
  }

  /** The whole state of a filter: its coefficients and its one-deep history. */
  datatype State = State(c: Coefficients, y_k1: real, x_k1: real)

  /** A filter with coefficients `c` and a cleared history. */
  function Initial(c: Coefficients): (s: State)
    ensures s.c == c && s.y_k1 == 0.0 && s.x_k1 == 0.0
  {
    State(c, 0.0, 0.0)
  }

  /** One sample through the recurrence: the output and the next state. The
      coefficients are kept and the history becomes (output, input); at a
      constant level `v` the output is `v` scaled by the coefficient sum. */
  function Step(s: State, x: real): (o: (real, State))
    ensures o.0 == s.c.cy1 * s.y_k1 + s.c.cx0 * x + s.c.cx1 * s.x_k1
    ensures o.1 == State(s.c, o.0, x)
    ensures s.y_k1 == x && s.x_k1 == x ==> o.0 == CoefficientSum(s.c) * x
  {
    var y := s.c.cy1 * s.y_k1 + s.c.cx0 * x + s.c.cx1 * s.x_k1;
    (y, State(s.c, y, x))
  }

  /** Feeding never changes the coefficients, however many samples. */
  lemma {:induction false} FeedsKeepCoefficients(s: State, xs: seq<real>)
    ensures Sequential.Feeds(Step, s, xs).1.c == s.c
    decreases |xs|
  {
    if xs != [] {
      FeedsKeepCoefficients(Step(s, xs[0]).1, xs[1..]);
    }
  }

  /** After a batch the history holds the last output and the last input. */
  lemma FeedsHistory(s: State, xs: seq<real>)
    requires xs != []
    ensures var r := Sequential.Feeds(Step, s, xs);
            r.1.x_k1 == xs[|xs| - 1] && r.1.y_k1 == r.0[|xs| - 1]
  {
    var k := |xs| - 1;
    Sequential.FeedsSnoc(Step, s, xs[..k], xs[k]);
    assert xs[..k] + [xs[k]] == xs;
  }

  /** Coefficients summing to 1: a filter at rest at level `v` that receives `v` outputs `v`
      and stays at rest. */
  lemma SteadyState(s: State, v: real)
    requires CoefficientSum(s.c) == 1.0 && s.y_k1 == v && s.x_k1 == v
    ensures Step(s, v) == (v, s)
  {
    calc {
      Step(s, v).0;
      s.c.cy1 * v + s.c.cx0 * v + s.c.cx1 * v;
      CoefficientSum(s.c) * v;
    }
    assert Step(s, v).1 == State(s.c, v, v) == s;
  }

  /** The coefficients sum to 1 exactly when every constant level is a fixed
      point of the recurrence. */
  lemma LevelsFixedIffSumOne(c: Coefficients)
    ensures CoefficientSum(c) == 1.0 <==> forall v: real :: Step(State(c, v, v), v) == (v, State(c, v, v))
  {
    if CoefficientSum(c) == 1.0 {
      forall v: real ensures Step(State(c, v, v), v) == (v, State(c, v, v)) {
        SteadyState(State(c, v, v), v);
      }
    } else {
      assert Step(State(c, 1.0, 1.0), 1.0).0 == CoefficientSum(c);
    }
  }

  /** Whatever its coefficients, a filter with a cleared history that is fed
      only zeros outputs only zeros and keeps its cleared history. */
  lemma SilenceFromRest(c: Coefficients, xs: seq<real>)
    requires forall k :: 0 <= k < |xs| ==> xs[k] == 0.0
    ensures Sequential.Feeds(Step, Initial(c), xs) == (xs, Initial(c))
  {
    assert Step(Initial(c), 0.0) == (0.0, Initial(c));
    Sequential.FeedsFixedPoint(Step, Initial(c), 0.0, xs);
  }

  /** A constant input `v` fed to a filter at rest at `v` is passed through
      unchanged, sample by sample. */
  lemma HoldsConstant(s: State, v: real, xs: seq<real>)
    requires CoefficientSum(s.c) == 1.0 && s.y_k1 == v && s.x_k1 == v
    requires forall k :: 0 <= k < |xs| ==> xs[k] == v
    ensures Sequential.Feeds(Step, s, xs) == (xs, s)
  {
    SteadyState(s, v);
    Sequential.FeedsFixedPoint(Step, s, v, xs);
  }

  /** `LP_first_order`: the object holds the coefficients and the history. */
  class LowPassFirstOrder {
    var y_k1: real
    var x_k1: real
    var cy1: real
    var cx0: real
    var cx1: real

    function Coeffs(): Coefficients
      reads this
    {
      Coefficients(cy1, cx0, cx1)
    }

    /** The object's state as a value. */
    function Model(): State
      reads this
    {
      State(Coeffs(), y_k1, x_k1)
    }

    /** Allocates a filter and resets it; the coefficients stay at zero until
        an `init_*` method assigns them. */
    constructor ()
      ensures Model() == Initial(Coefficients(0.0, 0.0, 0.0))
    {
      y_k1, x_k1 := 0.0, 0.0;
      cy1, cx0, cx1 := 0.0, 0.0, 0.0;
      new;
      Reset();
    }

    /** Clears the history and keeps the coefficients. */
    method Reset()
      modifies this
      ensures Model() == Initial(old(Coeffs()))
    {
      y_k1 := 0.0;
      x_k1 := 0.0;
    }

    /** Installs `d` when it holds coefficients, and reports its error
        otherwise without changing anything. */
    method Install(d: Result<Coefficients>) returns (r: Outcome)
      modifies this
      ensures d.Ok? ==> r == Pass && Model() == old(Model()).(c := d.value)
      ensures d.Err? ==> r == Fail(d.error) && Model() == old(Model())
    {
      if d.Err? {
        return Fail(d.error);
      }
      cy1, cx0, cx1 := d.value.cy1, d.value.cx0, d.value.cx1;
      return Pass;
    }

    method InitBilinear(Te: real, wc: real) returns (r: Outcome)
      modifies this
      ensures var d := BilinearDesign(Te, wc);
              if d.Ok? then r == Pass && Model() == old(Model()).(c := d.value)
              else r == Fail(ZeroDivisionError) && Model() == old(Model())
    {
      r := Install(BilinearDesign(Te, wc));
    }

    method InitHomographic(Te: real, wc: real, tan: real -> real) returns (r: Outcome)
      modifies this
      ensures var d := HomographicDesign(Te, wc, tan);
              if d.Ok? then r == Pass && Model() == old(Model()).(c := d.value)
              else r == Fail(ZeroDivisionError) && Model() == old(Model())
    {
      r := Install(HomographicDesign(Te, wc, tan));
    }

    method InitStepMatching(Te: real, wc: real, exp: real -> real)
      modifies this
      ensures Model() == old(Model()).(c := StepMatchingDesign(Te, wc, exp))
    {
      var c := StepMatchingDesign(Te, wc, exp);
      cy1, cx0, cx1 := c.cy1, c.cx0, c.cx1;
    }

    method InitImpulseMatching(Te: real, wc: real, exp: real -> real)
      modifies this
      ensures Model() == old(Model()).(c := ImpulseMatchingDesign(Te, wc, exp))
    {
      var c := ImpulseMatchingDesign(Te, wc, exp);
      cy1, cx0, cx1 := c.cy1, c.cx0, c.cx1;
    }

    /** `_feed`: one sample through the recurrence; the history becomes
        (output, input) and the coefficients do not change. */
    method Feed(x: real) returns (y: real)
      modifies this
      ensures y == old(cy1 * y_k1 + cx0 * x + cx1 * x_k1)
      ensures y_k1 == y && x_k1 == x && Coeffs() == old(Coeffs())
      ensures (y, Model()) == Step(old(Model()), x)
    {
      ghost var s := Model();
      y := cy1 * y_k1 + cx0 * x + cx1 * x_k1;
      assert y == Step(s, x).0;
      y_k1 := y;
      x_k1 := x;
      assert Model() == Step(s, x).1;
    }

    /** `__call__` with a single sample: exactly one feed. */
    method Call(x: real) returns (y: real)
      modifies this
      ensures (y, Model()) == Step(old(Model()), x)
    {
      y := Feed(x);
    }

    /** `__call__` with a sequence: one output per sample, in order, and the
        state of feeding the samples one by one. */
    method CallBatch(xs: seq<real>) returns (ys: seq<real>)
      modifies this
      ensures (ys, Model()) == Sequential.Feeds(Step, old(Model()), xs)
    {
      ghost var s0 := Model();
      ys := [];
      for k := 0 to |xs|
        invariant (ys, Model()) == Sequential.Feeds(Step, s0, xs[..k])
      {
        var y := Feed(xs[k]);
        Sequential.FeedsSnoc(Step, s0, xs[..k], xs[k]);
        assert xs[..k + 1] == xs[..k] + [xs[k]];
        ys := ys + [y];
      }
      assert xs[..|xs|] == xs;
    }
  }

  /** `LP_first_order(Te, wc, transform)`: resets a new filter, then runs the
      initialisation method named by `transform`; an unknown name has no such
      method, and a failing formula propagates its error. */
  method Create(Te: real, wc: real, transform: string, tan: real -> real, exp: real -> real)
    returns (r: Result<LowPassFirstOrder>)
    ensures Transforms.ParseFirstOrder(transform).None? ==> r == Err(AttributeError("init_" + transform))
    ensures Transforms.ParseFirstOrder(transform).Some? ==>
              var d := Design(Transforms.ParseFirstOrder(transform).value, Te, wc, tan, exp);
              (d.Err? ==> r == Err(d.error)) &&
              (d.Ok? ==> r.Ok? && fresh(r.value) && r.value.Model() == Initial(d.value))
  {
    var f := new LowPassFirstOrder();
    var outcome := Pass;
    match Transforms.ParseFirstOrder(transform) {
      case None =>
        return Err(AttributeError("init_" + transform));
      case Some(Bilinear) =>
        outcome := f.InitBilinear(Te, wc);
      case Some(Homographic) =>
        outcome := f.InitHomographic(Te, wc, tan);
      case Some(StepMatching) =>
        f.InitStepMatching(Te, wc, exp);
      case Some(ImpulseMatching) =>
        f.InitImpulseMatching(Te, wc, exp);
    }
    if outcome.Fail? {
      return Err(outcome.error);
    }
    return Ok(f);
  }
}
