/**
 * DummyElement of wofrywise2/propagator/propagator1D/wise_propagator.py: a
 * transmission mask built around an already known field, which it hands back
 * whenever the engine asks it to evaluate its field.
 */
module DummyOptics {
  import opened Wrappers
  import opened Wavefront1D

  datatype DummyElement = DummyElement(electric_field: Option<seq<Complex>>)

  /** EvalField(x1, y1, Lambda, E0, NPools, Options): the field the mask was built with. */
  function EvalField(d: DummyElement, x1: seq<real>, y1: seq<real>, Lambda: real, E0: Option<Complex>,
                     NPools: int, Options: seq<string>): (f: Option<seq<Complex>>)
    ensures f == d.electric_field
  {
    d.electric_field
  }

  /** Whatever the coordinates, wavelength, pool size or options, the answer is the stored field. */
  lemma EvalFieldIgnoresArguments(d: DummyElement,
                                  x1: seq<real>, y1: seq<real>, lambda1: real, e1: Option<Complex>, pools1: int, options1: seq<string>,
                                  x2: seq<real>, y2: seq<real>, lambda2: real, e2: Option<Complex>, pools2: int, options2: seq<string>)
    ensures EvalField(d, x1, y1, lambda1, e1, pools1, options1) == d.electric_field
    ensures EvalField(d, x1, y1, lambda1, e1, pools1, options1) == EvalField(d, x2, y2, lambda2, e2, pools2, options2)
  {
  }
}
