/**
 * The wavefront adapter of wofrywise2/propagator/wavefront1D/wise_wavefront.py:
 * a WiseWavefront wraps one wiselib2 ComputationResults record, and converts
 * field for field to and from wofry's GenericWavefront1D.
 */
module Wavefront1D {
  import opened Wrappers

  datatype Complex = Complex(re: real, im: real)

  /**
   * wiselib2's ComputationResults: wavelength, abscissas and field.
   * An attribute that was never assigned reads as None.
   */
  datatype ComputationResults = ComputationResults(
    Lambda: Option<real>,
    S: Option<seq<real>>,
    Field: Option<seq<Complex>>)

  /** A freshly built ComputationResults(): nothing assigned yet. */
  const EmptyComputationResults := ComputationResults(None, None, None)

  /** All three attributes hold a value. */
  predicate IsComplete(r: ComputationResults)
  {
    r.Lambda.Some? && r.S.Some? && r.Field.Some?
  }

  /**
   * wofry's GenericWavefront1D, as built by initialize_wavefront_from_arrays
   * and read back by its getters (both store and return the arrays unchanged).
   */
  datatype GenericWavefront1D = GenericWavefront1D(
    wavelength: real,
    abscissas: seq<real>,
    complexAmplitude: seq<Complex>)

  datatype WiseWavefront = WiseWavefront(wise_computation_result: Option<ComputationResults>)

  /** A WiseWavefront whose result can be handed to the generic container. */
  predicate IsConvertible(w: WiseWavefront)
  {
    w.wise_computation_result.Some? && IsComplete(w.wise_computation_result.value)
  }

  /** The name of the constructor's only parameter. */
  const ResultKeyword := "wise_computation_result"

  /**
   * WiseWavefront(**kwargs): the constructor takes at most the keyword
   * ResultKeyword and stores its value unchanged; when it is omitted the
   * default, a fresh ComputationResults(), is stored; any other keyword is a
   * TypeError raised before anything is stored.
   */
  function NewWiseWavefront(kwargs: map<string, Option<ComputationResults>>): (r: Result<WiseWavefront, Exception>)
    ensures r.Ok? <==> kwargs.Keys <= {ResultKeyword}
    ensures r.Ok? && ResultKeyword in kwargs ==> r.value.wise_computation_result == kwargs[ResultKeyword]
    ensures r.Ok? && ResultKeyword !in kwargs ==> r.value.wise_computation_result == Some(EmptyComputationResults)
    ensures r.Err? ==> r.error.TypeError?
  {
    if kwargs.Keys <= {ResultKeyword} then
      Ok(WiseWavefront(if ResultKeyword in kwargs then kwargs[ResultKeyword] else Some(EmptyComputationResults)))
    else
      Err(TypeError("__init__() got an unexpected keyword argument"))
  }

  /**
   * WiseWavefront.fromGenericWavefront: a new, complete result whose
   * wavelength, abscissas and field are the generic wavefront's, unresampled.
   */
  function FromGenericWavefront(g: GenericWavefront1D): (w: WiseWavefront)
    ensures IsConvertible(w)
    ensures w.wise_computation_result.value.Lambda == Some(g.wavelength)
    ensures w.wise_computation_result.value.S == Some(g.abscissas)
    ensures w.wise_computation_result.value.Field == Some(g.complexAmplitude)
  {
    WiseWavefront(Some(ComputationResults(Some(g.wavelength), Some(g.abscissas), Some(g.complexAmplitude))))
  }

  /**
   * WiseWavefront.toGenericWavefront: Lambda becomes the wavelength, S the
   * abscissas and Field the complex amplitude; converting back gives the
   * same WiseWavefront.
   */
  function ToGenericWavefront(w: WiseWavefront): (g: GenericWavefront1D)
    requires IsConvertible(w)
    ensures FromGenericWavefront(g) == w
    ensures |g.abscissas| == |w.wise_computation_result.value.S.value|
    ensures |g.complexAmplitude| == |w.wise_computation_result.value.Field.value|
  {
    var r := w.wise_computation_result.value;
    GenericWavefront1D(r.Lambda.value, r.S.value, r.Field.value)
  }

  /** The other round trip: a generic wavefront survives conversion and back. */
  lemma GenericRoundTrip(g: GenericWavefront1D)
    ensures ToGenericWavefront(FromGenericWavefront(g)) == g
  {
  }
}
