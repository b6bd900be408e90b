/** The discrete-time approximations a low-pass filter can be built with,
    selected by name when the filter is constructed. */
module Transforms {
  import opened Outcomes

  datatype Transform = Bilinear | Homographic | StepMatching | ImpulseMatching

  /** The name a caller passes to select `t`; the filter then runs the method
      `init_<name>`, so the name is a non-empty run of lower-case letters and
      underscores. */
  function Name(t: Transform): (r: string)
    ensures r != [] && forall k :: 0 <= k < |r| ==> 'a' <= r[k] <= 'z' || r[k] == '_'
  {
    match t
    case Bilinear => "bilinear"
    case Homographic => "homographic"
    case StepMatching => "step_matching"
    case ImpulseMatching => "impulse_matching"
  }

  /** The first-order filter has an initialisation method for all four transforms. */
  function ParseFirstOrder(name: string): (r: Option<Transform>)
    ensures r.Some? ==> Name(r.value) == name
    ensures r.None? ==> forall t: Transform :: Name(t) != name
  {
    if name == "bilinear" then Some(Bilinear)
    else if name == "homographic" then Some(Homographic)
    else if name == "step_matching" then Some(StepMatching)
    else if name == "impulse_matching" then Some(ImpulseMatching)
    else None
  }

  /** The second-order filter only has `init_bilinear`. */
  function ParseSecondOrder(name: string): (r: Option<Transform>)
    ensures r.Some? <==> name == Name(Bilinear)
    ensures r.Some? ==> r.value == Bilinear
  {
    if name == "bilinear" then Some(Bilinear) else None
  }

  /** Every transform is selected by its own name and by no other. */
  lemma ParseFirstOrderName(t: Transform, name: string)
    ensures ParseFirstOrder(Name(t)) == Some(t)
    ensures ParseFirstOrder(name) == Some(t) <==> name == Name(t)
  {
  }
}
