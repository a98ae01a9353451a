/**
 * wofrywise2/propagator/propagator1D/wise_propagator.py: the framework's list
 * of beamline elements kept beside the engine chain, and WisePropagator's
 * do_propagation, which decides where the engine's computation starts,
 * synthesises a "Dummy" source when the chosen node has no Parent, seeds
 * missing upstream fields from the input wavefront, and wraps the terminal's
 * result.
 *
 * Each step is specified by a function over the engine's state value
 * (ResolveSingle, ResolveFull, Finish, Propagate); the methods perform the
 * same steps in place on the BeamlineElements object.
 */
module Propagator {
  import opened Wrappers
  import opened Wavefront1D
  import opened DummyOptics
  import opened Fundation

  /** The wavefront of a request: wofry's generic one, a WiseWavefront, or an object of any other type. */
  datatype Wavefront = Generic(generic: GenericWavefront1D) | Wise(wise: WiseWavefront) | Unmanaged(typeName: string)

  const UnmanagedMessage := "Wavefront cannot be managed by this propagator"
  const SourceMessage := "Computation is impossibile: Optical Element is the Source"
  const NoFieldMessage := "Computation is impossibile: Parent Optical Element has no computed Field and Optical Element is not the Source"
  const DummyName := "Dummy"

  /** Python list indexing: a negative index counts from the end. */
  function ListGet<T>(s: seq<T>, index: int): (r: Result<T, Exception>)
    ensures r.Ok? <==> -|s| <= index < |s|
    ensures r.Ok? ==> r.value == s[if index < 0 then |s| + index else index]
    ensures r.Err? ==> r.error == IndexError
  {
    if 0 <= index < |s| then Ok(s[index])
    else if -|s| <= index < 0 then Ok(s[|s| + index])
    else Err(IndexError)
  }

  /** Ids that can be appended in turn: stored, not yet in the chain, and each given once. */
  ghost predicate Appendable(st: Engine, ids: seq<NodeId>)
  {
    && (forall i :: 0 <= i < |ids| ==> ids[i] in st.Nodes && ids[i] !in st.Elements)
    && (forall i, j :: 0 <= i < j < |ids| ==> ids[i] != ids[j])
  }

  /** The engine state after Append of each id in turn. */
  function AppendAll(st: Engine, ids: seq<NodeId>): (r: Engine)
    requires ChainValid(st) && Appendable(st, ids)
    ensures ChainValid(r)
    ensures r.Elements == st.Elements + ids
    ensures r.Nodes.Keys == st.Nodes.Keys && r.NextId == st.NextId && r.NPools == st.NPools && r.Calls == st.Calls
    ensures forall x :: x in st.Nodes && x !in ids ==> r.Nodes[x] == st.Nodes[x]
    ensures forall k :: 0 <= k < |ids| ==> r.Nodes[ids[k]] == st.Nodes[ids[k]].(Parent := r.Nodes[ids[k]].Parent)
    decreases |ids|
  {
    if |ids| == 0 then st
    else
      var prefix := ids[..|ids| - 1];
      var last := ids[|ids| - 1];
      assert forall i :: 0 <= i < |prefix| ==> prefix[i] == ids[i];
      var prev := AppendAll(st, prefix);
      assert last !in prefix;
      assert last in prev.Nodes && last !in prev.Elements;
      SplitLast(ids);
      ConcatAssociates(st.Elements, prefix, [last]);
      AfterAppend(prev, last)
  }

  /** Appending one more id extends AppendAll by one Append. */
  lemma AppendAllNext(st: Engine, ids: seq<NodeId>, i: nat)
    requires ChainValid(st) && Appendable(st, ids) && i < |ids|
    ensures Appendable(st, ids[..i]) && Appendable(st, ids[..i + 1])
    ensures ids[i] in AppendAll(st, ids[..i]).Nodes && ids[i] !in AppendAll(st, ids[..i]).Elements
    ensures AppendAll(st, ids[..i + 1]) == AfterAppend(AppendAll(st, ids[..i]), ids[i])
  {
    var p, q := ids[..i], ids[..i + 1];
    assert forall j :: 0 <= j < |p| ==> p[j] == ids[j];
    assert forall j :: 0 <= j < |q| ==> q[j] == ids[j];
    assert q[..i] == p;
    assert ids[i] !in p;
  }

  lemma ConcatAssociates(a: seq<NodeId>, b: seq<NodeId>, c: seq<NodeId>)
    ensures (a + b) + c == a + (b + c)
  {
  }

  lemma SliceNext(s: seq<NodeId>, i: nat)
    requires i < |s|
    ensures s[..i + 1] == s[..i] + [s[i]]
  {
  }

  lemma SplitLast(s: seq<NodeId>)
    requires |s| > 0
    ensures s == s[..|s| - 1] + [s[|s| - 1]]
  {
  }

  /** WisePropagationElements: the framework's list and the engine chain it feeds. */
  class WisePropagationElements {
    /** The wise_optical_element of each entry of wofry's list, in list order. */
    var Framework: seq<NodeId>
    const Beamline: BeamlineElements

    ghost predicate Valid()
      reads this, Beamline
    {
      Beamline.Valid() && forall i :: 0 <= i < |Framework| ==> Framework[i] in Beamline.Elements
    }

    constructor (nPools: int)
      ensures Valid() && fresh(Beamline)
      ensures Framework == [] && Beamline.State() == Engine(map[], [], 0, nPools, [])
    {
      Framework := [];
      Beamline := new BeamlineElements(nPools);
    }

    /** add_beamline_element: the same element joins the framework list and the engine chain. */
    method AddBeamlineElement(id: NodeId)
      requires Valid() && id in Beamline.Nodes && id !in Beamline.Elements
      modifies this, Beamline
      ensures Valid()
      ensures Framework == old(Framework) + [id]
      ensures Beamline.State() == AfterAppend(old(Beamline.State()), id)
      ensures |Beamline.Elements| - |Framework| == old(|Beamline.Elements| - |Framework|)
    {
      Framework := Framework + [id];
      Beamline.Append(id);
    }

    /** add_beamline_elements: add_beamline_element on each element, in the given order. */
    method AddBeamlineElements(ids: seq<NodeId>)
      requires Valid()
      requires Appendable(Beamline.State(), ids)
      modifies this, Beamline
      ensures Valid()
      ensures Framework == old(Framework) + ids
      ensures Beamline.State() == AppendAll(old(Beamline.State()), ids)
      ensures |Beamline.Elements| - |Framework| == old(|Beamline.Elements| - |Framework|)
    {
      var i := 0;
      while i < |ids|
        invariant 0 <= i <= |ids|
        invariant Valid()
        invariant Framework == old(Framework) + ids[..i]
        invariant Appendable(old(Beamline.State()), ids[..i])
        invariant Beamline.State() == AppendAll(old(Beamline.State()), ids[..i])
      {
        AppendAllNext(old(Beamline.State()), ids, i);
        SliceNext(ids, i);
        ConcatAssociates(old(Framework), ids[..i], [ids[i]]);
        AddBeamlineElement(ids[i]);
        i := i + 1;
      }
      assert ids[..|ids|] == ids;
    }

    /** get_wise_propagation_element: the engine node of the framework list's entry at a Python index. */
    function GetWisePropagationElement(index: int): (r: Result<NodeId, Exception>)
      reads this
      ensures r == ListGet(Framework, index)
    {
      ListGet(Framework, index)
    }
  }

  /**
   * The type check and conversion of lines 55-66: the normalised wavefront
   * (generic ones converted) and whether the input was generic.
   */
  function Normalize(input: Option<Wavefront>): (r: Result<(Option<WiseWavefront>, bool), Exception>)
    ensures r.Err? <==> input.Some? && input.value.Unmanaged?
    ensures r.Err? ==> r.error == ValueError(UnmanagedMessage)
    ensures r.Ok? ==> (r.value.1 <==> input.Some? && input.value.Generic?)
    ensures r.Ok? ==> (r.value.0.None? <==> input.None?)
    ensures r.Ok? && input.Some? && input.value.Wise? ==> r.value.0 == Some(input.value.wise)
    ensures r.Ok? && input.Some? && input.value.Generic? ==> r.value.0 == Some(FromGenericWavefront(input.value.generic))
  {
    match input
    case None => Ok((None, false))
    case Some(Generic(g)) => Ok((Some(FromGenericWavefront(g)), true))
    case Some(Wise(v)) => Ok((Some(v), false))
    case Some(Unmanaged(_)) => Err(ValueError(UnmanagedMessage))
  }

  /** Reading `wavefront.wise_computation_result`, which fails when there is no wavefront. */
  function InputResult(w: Option<WiseWavefront>): (r: Result<Option<ComputationResults>, Exception>)
    ensures r.Err? <==> w.None?
    ensures r.Err? ==> r.error == AttributeError("wise_computation_result")
    ensures r.Ok? ==> r.value == w.value.wise_computation_result
  {
    match w
    case None => Err(AttributeError("wise_computation_result"))
    case Some(v) => Ok(v.wise_computation_result)
  }

  /**
   * Lines 90-93 after the source test, and lines 110-113: when the upstream
   * node has no Field, the input's result replaces its results, or the call
   * fails if the input has none; a node that has a Field is left as it is.
   */
  function SeedIfMissing(st: Engine, p: NodeId, w: Option<WiseWavefront>): (r: Result<Engine, Exception>)
    requires ChainValid(st) && p in st.Nodes
    ensures r.Ok? ==> ChainValid(r.value)
    ensures r.Ok? ==> r.value.Elements == st.Elements && r.value.NextId == st.NextId
    ensures r.Ok? ==> r.value.NPools == st.NPools && r.value.Calls == st.Calls
    ensures st.Nodes[p].ComputationResults.None? ==> r == Err(AttributeError("Field"))
    ensures st.Nodes[p].ComputationResults.Some? && st.Nodes[p].ComputationResults.value.Field.Some? ==> r == Ok(st)
    ensures st.Nodes[p].ComputationResults.Some? && st.Nodes[p].ComputationResults.value.Field.None? ==>
      && (w.None? ==> r == Err(AttributeError("wise_computation_result")))
      && (w.Some? && w.value.wise_computation_result.None? ==> r == Err(ValueError(NoFieldMessage)))
      && (w.Some? && w.value.wise_computation_result.Some? ==>
            r.Ok? && r.value.Nodes == st.Nodes[p := st.Nodes[p].(ComputationResults := w.value.wise_computation_result)])
  {
    match st.Nodes[p].ComputationResults
    case None => Err(AttributeError("Field"))
    case Some(results) =>
      if results.Field.Some? then Ok(st)
      else match InputResult(w)
        case Err(x) => Err(x)
        case Ok(None) => Err(ValueError(NoFieldMessage))
        case Ok(Some(cr)) => Ok(SetResults(st, p, Some(cr)))
  }

  /**
   * The node built at lines 78-82: named "Dummy", IsSource left at its
   * default, attached to nothing yet, and wrapping a DummyElement that hands
   * the engine back the given field whatever it is asked.
   */
  function SingleDummy(field: Option<seq<Complex>>): (n: OpticalElement)
    ensures n.Name == DummyName && !n.IsSource && !n.IsMirrorElliptic && n.Parent.None?
    ensures n.Element.Dummy?
    ensures forall x1, y1, lambda, e0, pools, options ::
      EvalField(n.Element.mask, x1, y1, lambda, e0, pools, options) == field
    ensures n.ComputationSettings == DefaultSettings && n.ComputationResults == Some(EmptyComputationResults)
  {
    OpticalElement(DummyName, false, false, Dummy(DummyElement(field)), None, DefaultSettings, Some(EmptyComputationResults))
  }

  /** The node built at lines 101-105: named "Dummy", a source wrapping no optics, attached to nothing yet. */
  function FullDummy(): (n: OpticalElement)
    ensures n.Name == DummyName && n.IsSource && !n.IsMirrorElliptic && n.Parent.None?
    ensures n.Element.NoElement?
    ensures n.ComputationSettings == DefaultSettings && n.ComputationResults == Some(EmptyComputationResults)
  {
    OpticalElement(DummyName, true, false, NoElement, None, DefaultSettings, Some(EmptyComputationResults))
  }

  /** Lines 85-87 and 106-108: a Dummy takes a result and a copy of another element's sampling settings. */
  function DummySeeded(st: Engine, d: NodeId, results: Option<ComputationResults>, settings: ComputationSettings): (r: Engine)
    requires ChainValid(st) && d in st.Nodes
    ensures ChainValid(r)
    ensures r.Nodes == st.Nodes[d := st.Nodes[d].(ComputationResults := results, ComputationSettings := settings)]
    ensures r.Elements == st.Elements && r.NextId == st.NextId && r.NPools == st.NPools && r.Calls == st.Calls
  {
    SetSampling(SetResults(st, d, results), d, settings.UseCustomSampling, settings.NSamples)
  }

  /**
   * Line 89 when the named element heads the chain: the new node becomes the
   * head, inherits the former head's Parent and becomes its Parent.
   */
  lemma InsertBeforeHead(st: Engine, id: NodeId)
    requires ChainValid(st) && id in st.Nodes && id !in st.Elements && |st.Elements| > 0
    ensures var head := st.Elements[0];
      AfterInsert(st, id, st.Nodes[head].Name) ==
      Ok(st.(Elements := [id] + st.Elements,
             Nodes := st.Nodes[id := st.Nodes[id].(Parent := st.Nodes[head].Parent)][head := st.Nodes[head].(Parent := Some(id))]))
  {
    var head := st.Elements[0];
    assert FirstIndexNamed(st.Elements, st.Nodes, st.Nodes[head].Name) == Some(0);
    assert st.Elements[..0] + [id] + st.Elements[0..] == [id] + st.Elements;
  }

  /**
   * Lines 78-89: build the dummy from the input's result, copy the
   * terminal's sampling settings onto it, and insert it before the element
   * named like the terminal. The terminal has no Parent, so it heads the
   * chain and the insertion always finds it: the Dummy becomes the new head
   * and the terminal's Parent. Returns the state reached and the exception
   * raised, if any.
   */
  function AttachSingleDummy(st: Engine, end: NodeId, w: Option<WiseWavefront>): (r: (Engine, Option<Exception>))
    requires ChainValid(st) && end in st.Elements && st.Nodes[end].Parent.None?
    ensures ChainValid(r.0) && r.0.NPools == st.NPools && r.0.Calls == st.Calls
    ensures r.1.None? <==> w.Some? && w.value.wise_computation_result.Some?
    ensures w.None? ==> r == (st, Some(AttributeError("wise_computation_result")))
    ensures w.Some? && w.value.wise_computation_result.None? ==> r == (st, Some(AttributeError("Field")))
    ensures r.1.None? ==>
      var cr := w.value.wise_computation_result.value;
      var d := st.NextId;
      && d !in st.Nodes && r.0.NextId == d + 1
      && r.0.Elements == [d] + st.Elements
      && r.0.Nodes == st.Nodes[d := SingleDummy(cr.Field).(ComputationResults := Some(cr),
                                                          ComputationSettings := st.Nodes[end].ComputationSettings)]
                              [end := st.Nodes[end].(Parent := Some(d))]
  {
    match InputResult(w)
    case Err(x) => (st, Some(x))
    case Ok(None) => (st, Some(AttributeError("Field")))
    case Ok(Some(cr)) =>
      var e := st.Nodes[end];
      var (st1, d) := AfterNew(st, SingleDummy(cr.Field));
      var st3 := DummySeeded(st1, d, Some(cr), e.ComputationSettings);
      ParentlessIsHead(st, end);
      InsertBeforeHead(st3, d);
      (AfterInsert(st3, d, e.Name).value, None)
  }

  /**
   * Lines 74-95, single-propagation mode: the terminal must not be a source;
   * a Dummy is attached when it has no Parent; a non-source Parent without a
   * Field is seeded from the input; the start is the terminal's Parent.
   */
  function ResolveSingle(st: Engine, end: NodeId, w: Option<WiseWavefront>): (r: (Engine, Result<NodeId, Exception>))
    requires ChainValid(st) && end in st.Elements
    ensures ChainValid(r.0) && r.0.NPools == st.NPools && r.0.Calls == st.Calls
    ensures forall x :: x in st.Elements ==> x in r.0.Elements
    ensures r.1.Ok? ==> r.1.value in r.0.Nodes
  {
    var e := st.Nodes[end];
    if e.IsSource then (st, Err(ValueError(SourceMessage)))
    else
      var (st1, raised) := if e.Parent.Some? then (st, None) else AttachSingleDummy(st, end, w);
      if raised.Some? then (st1, Err(raised.value))
      else match st1.Nodes[end].Parent
        case None => (st1, Err(AttributeError("IsSource")))
        case Some(p) =>
          if st1.Nodes[p].IsSource then (st1, Ok(p))
          else match SeedIfMissing(st1, p, w)
            case Err(x) => (st1, Err(x))
            case Ok(st2) => (st2, Ok(p))
  }

  /**
   * Lines 101-108: a first element with no Parent gets a new "Dummy" source
   * as Parent, which is then given the input's result and the element's
   * sampling settings. The Parent link is made before the input is read, so
   * a missing input leaves the Dummy attached.
   */
  function AttachFullDummy(st: Engine, first: NodeId, w: Option<WiseWavefront>): (r: (Engine, Option<Exception>))
    requires ChainValid(st) && first in st.Elements && st.Nodes[first].Parent.None?
    ensures ChainValid(r.0) && r.0.Elements == st.Elements && r.0.NPools == st.NPools && r.0.Calls == st.Calls
    ensures st.NextId !in st.Nodes && r.0.NextId == st.NextId + 1
    ensures r.1.None? <==> w.Some?
    ensures w.None? ==> r.1 == Some(AttributeError("wise_computation_result"))
    ensures w.None? ==> r.0.Nodes == st.Nodes[st.NextId := FullDummy()][first := st.Nodes[first].(Parent := Some(st.NextId))]
    ensures w.Some? ==>
      r.0.Nodes == st.Nodes[st.NextId := FullDummy().(ComputationResults := w.value.wise_computation_result,
                                                    ComputationSettings := st.Nodes[first].ComputationSettings)]
                           [first := st.Nodes[first].(Parent := Some(st.NextId))]
  {
    ParentlessIsHead(st, first);
    var (st1, d) := AfterNew(st, FullDummy());
    var st2 := SetParent(st1, first, d);
    match InputResult(w)
    case Err(x) => (st2, Some(x))
    case Ok(cr) => (DummySeeded(st2, d, cr, st.Nodes[first].ComputationSettings), None)
  }

  /**
   * Lines 97-117, full-chain mode from the framework list's first element: a
   * source whose Field is missing gets the input's result; a non-source with
   * no Parent gets a detached Dummy source as Parent; a Parent without a
   * Field is seeded from the input. The start is the first element.
   */
  function ResolveFull(st: Engine, first: NodeId, w: Option<WiseWavefront>): (r: (Engine, Result<NodeId, Exception>))
    requires ChainValid(st) && first in st.Elements
    ensures ChainValid(r.0) && r.0.NPools == st.NPools && r.0.Calls == st.Calls
    ensures r.0.Elements == st.Elements
    ensures r.1.Ok? ==> r.1 == Ok(first)
  {
    var f := st.Nodes[first];
    if f.IsSource then
      match f.ComputationResults
      case None => (st, Err(AttributeError("Field")))
      case Some(results) =>
        if results.Field.Some? then (st, Ok(first))
        else match InputResult(w)
          case Err(x) => (st, Err(x))
          case Ok(cr) => (SetResults(st, first, cr), Ok(first))
    else
      var (st1, raised) := if f.Parent.Some? then (st, None) else AttachFullDummy(st, first, w);
      if raised.Some? then (st1, Err(raised.value))
      else match SeedIfMissing(st1, st1.Nodes[first].Parent.value, w)
        case Err(x) => (st1, Err(x))
        case Ok(st2) => (st2, Ok(first))
  }

  /**
   * Lines 119-121: refresh positions when the terminal is an elliptic mirror,
   * set NPools, and compute from the start to the terminal.
   */
  function Finish(st: Engine, start: NodeId, end: NodeId, nPools: int, output: ComputationResults): (r: Engine)
    requires ChainValid(st) && end in st.Nodes
    ensures ChainValid(r)
    ensures r.Calls == st.Calls + (if st.Nodes[end].IsMirrorElliptic then [RefreshPositions] else [])
                                + [ComputeFields(start, end, nPools)]
    ensures r.Nodes == st.Nodes[end := st.Nodes[end].(ComputationResults := Some(output))]
    ensures r.Elements == st.Elements && r.NextId == st.NextId && r.NPools == nPools
  {
    var st1 := if st.Nodes[end].IsMirrorElliptic then AfterRefresh(st) else st;
    AfterCompute(st1.(NPools := nPools), start, end, output)
  }

  /** Line 123 with the keyword the constructor takes: the terminal's results, wrapped unchanged. */
  function WrapResult(results: Option<ComputationResults>): (w: WiseWavefront)
    ensures w.wise_computation_result == results
  {
    NewWiseWavefront(map[ResultKeyword := results]).value
  }

  /**
   * Line 123 as written: the keyword `wise_computation_results`, which the
   * constructor does not take, so the call always raises a TypeError.
   */
  function WrapResultAsWritten(results: Option<ComputationResults>): (r: Result<WiseWavefront, Exception>)
    ensures r.Err? && r.error.TypeError?
  {
    var kwargs := map["wise_computation_results" := results];
    assert "wise_computation_results" in kwargs.Keys;
    assert |"wise_computation_results"| != |ResultKeyword|;
    NewWiseWavefront(kwargs)
  }

  /** Lines 73-117: the start of the computation, in single-propagation or in full-chain mode. */
  function ResolveStart(st: Engine, framework: seq<NodeId>, end: NodeId, w: Option<WiseWavefront>,
                        singlePropagation: bool): (r: (Engine, Result<NodeId, Exception>))
    requires ChainValid(st) && |framework| > 0 && end in st.Elements
    requires forall i :: 0 <= i < |framework| ==> framework[i] in st.Elements
    ensures ChainValid(r.0) && r.0.NPools == st.NPools && r.0.Calls == st.Calls
    ensures forall x :: x in st.Elements ==> x in r.0.Elements
    ensures r.1.Ok? ==> r.1.value in r.0.Nodes
  {
    if singlePropagation then ResolveSingle(st, end, w) else ResolveFull(st, framework[0], w)
  }

  /**
   * do_propagation as a function of the engine state before the call: the
   * engine state after it and the wavefront returned or the exception raised.
   * `output` is what the engine's ComputeFields computes for the terminal.
   */
  function Propagate(st: Engine, framework: seq<NodeId>, input: Option<Wavefront>, singlePropagation: bool,
                     nPools: int, output: ComputationResults): (r: (Engine, Result<Wavefront, Exception>))
    requires ChainValid(st) && IsComplete(output)
    requires forall i :: 0 <= i < |framework| ==> framework[i] in st.Elements
    ensures ChainValid(r.0)
    ensures forall i :: 0 <= i < |framework| ==> framework[i] in r.0.Elements
  {
    match Normalize(input)
    case Err(x) => (st, Err(x))
    case Ok((w, isGeneric)) =>
      match ListGet(framework, -1)
      case Err(x) => (st, Err(x))
      case Ok(end) =>
        var (st1, start) := ResolveStart(st, framework, end, w, singlePropagation);
        match start
        case Err(x) => (st1, Err(x))
        case Ok(s) =>
          var st2 := Finish(st1, s, end, nPools, output);
          var result := WrapResult(st2.Nodes[end].ComputationResults);
          (st2, Ok(if isGeneric then Generic(ToGenericWavefront(result)) else Wise(result)))
  }

  /**
   * do_propagation with line 123 as written: every step before it is the
   * same, so the engine reaches the same state, but a call that gets past
   * line 121 then raises the constructor's TypeError, and no call returns a
   * wavefront.
   */
  function PropagateAsWritten(st: Engine, framework: seq<NodeId>, input: Option<Wavefront>, singlePropagation: bool,
                              nPools: int, output: ComputationResults): (r: (Engine, Result<Wavefront, Exception>))
    requires ChainValid(st) && IsComplete(output)
    requires forall i :: 0 <= i < |framework| ==> framework[i] in st.Elements
    ensures ChainValid(r.0)
    ensures r.1.Err?
  {
    match Normalize(input)
    case Err(x) => (st, Err(x))
    case Ok((w, isGeneric)) =>
      match ListGet(framework, -1)
      case Err(x) => (st, Err(x))
      case Ok(end) =>
        var (st1, start) := ResolveStart(st, framework, end, w, singlePropagation);
        match start
        case Err(x) => (st1, Err(x))
        case Ok(s) =>
          var st2 := Finish(st1, s, end, nPools, output);
          // Lines 125-128 are never reached: the constructor call of line 123 always raises.
          (st2, Err(WrapResultAsWritten(st2.Nodes[end].ComputationResults).error))
  }

  /**
   * The whole call as written against the corrected one: the engine ends in
   * the same state, Finish's refresh, NPools write and field computation
   * included; the TypeError is raised exactly where the corrected call
   * returns a wavefront, and every other outcome is the same exception.
   */
  lemma PropagateAsWrittenRaises(st: Engine, framework: seq<NodeId>, input: Option<Wavefront>, singlePropagation: bool,
                                 nPools: int, output: ComputationResults)
    requires ChainValid(st) && IsComplete(output)
    requires forall i :: 0 <= i < |framework| ==> framework[i] in st.Elements
    ensures var written := PropagateAsWritten(st, framework, input, singlePropagation, nPools, output);
      var intended := Propagate(st, framework, input, singlePropagation, nPools, output);
      && written.0 == intended.0
      && (written.1.error.TypeError? <==> intended.1.Ok?)
      && (intended.1.Err? ==> written.1 == intended.1)
  {
    match Normalize(input)
    case Err(x) =>
    case Ok((w, isGeneric)) =>
      match ListGet(framework, -1)
      case Err(x) =>
      case Ok(end) =>
        var (st1, start) := ResolveStart(st, framework, end, w, singlePropagation);
        NoTypeErrorResolving(st, framework, end, w, singlePropagation);
  }

  /** Nothing before line 123 raises a TypeError. */
  lemma NoTypeErrorResolving(st: Engine, framework: seq<NodeId>, end: NodeId, w: Option<WiseWavefront>,
                             singlePropagation: bool)
    requires ChainValid(st) && |framework| > 0 && end in st.Elements
    requires forall i :: 0 <= i < |framework| ==> framework[i] in st.Elements
    ensures var start := ResolveStart(st, framework, end, w, singlePropagation).1;
      start.Err? ==> !start.error.TypeError?
  {
    if singlePropagation {
      NoTypeErrorSingle(st, end, w);
    } else {
      NoTypeErrorFull(st, framework[0], w);
    }
  }

  lemma NoTypeErrorSingle(st: Engine, end: NodeId, w: Option<WiseWavefront>)
    requires ChainValid(st) && end in st.Elements
    ensures ResolveSingle(st, end, w).1.Err? ==> !ResolveSingle(st, end, w).1.error.TypeError?
  {
    var e := st.Nodes[end];
    if !e.IsSource {
      var (st1, raised) := if e.Parent.Some? then (st, None) else AttachSingleDummy(st, end, w);
      if raised.None? && st1.Nodes[end].Parent.Some? {
        var p := st1.Nodes[end].Parent.value;
        if !st1.Nodes[p].IsSource {
          var seeded := SeedIfMissing(st1, p, w);
          assert seeded.Err? ==> !seeded.error.TypeError?;
        }
      }
    }
  }

  lemma NoTypeErrorFull(st: Engine, first: NodeId, w: Option<WiseWavefront>)
    requires ChainValid(st) && first in st.Elements
    ensures ResolveFull(st, first, w).1.Err? ==> !ResolveFull(st, first, w).1.error.TypeError?
  {
    var f := st.Nodes[first];
    if !f.IsSource {
      var (st1, raised) := if f.Parent.Some? then (st, None) else AttachFullDummy(st, first, w);
      if raised.None? {
        var seeded := SeedIfMissing(st1, st1.Nodes[first].Parent.value, w);
        assert seeded.Err? ==> !seeded.error.TypeError?;
      }
    }
  }

  /** Lines 90-93 and 110-113 in place: seed node p from the input when it has no Field. */
  method SeedFromInput(beamline: BeamlineElements, p: NodeId, wavefront: Option<WiseWavefront>)
    returns (raised: Option<Exception>)
    requires beamline.Valid() && p in beamline.Nodes
    modifies beamline
    ensures beamline.Valid()
    ensures raised.None? ==> SeedIfMissing(old(beamline.State()), p, wavefront) == Ok(beamline.State())
    ensures raised.Some? ==> SeedIfMissing(old(beamline.State()), p, wavefront) == Err(raised.value)
    ensures raised.Some? ==> beamline.State() == old(beamline.State())
  {
    var results := beamline.Nodes[p].ComputationResults;
    if results.None? {
      return Some(AttributeError("Field"));
    }
    if results.value.Field.None? {
      if wavefront.None? {
        return Some(AttributeError("wise_computation_result"));
      }
      if wavefront.value.wise_computation_result.None? {
        return Some(ValueError(NoFieldMessage));
      }
      beamline.Nodes := beamline.Nodes[p := beamline.Nodes[p].(ComputationResults := wavefront.value.wise_computation_result)];
    }
    return None;
  }

  /** Lines 80-82 and 106-108 in place: the Dummy takes the input's result and the element's sampling settings. */
  method CopyIntoDummy(beamline: BeamlineElements, dummy: NodeId, results: Option<ComputationResults>,
                       settings: ComputationSettings)
    requires beamline.Valid() && dummy in beamline.Nodes
    modifies beamline
    ensures beamline.Valid()
    ensures beamline.State() == DummySeeded(old(beamline.State()), dummy, results, settings)
  {
    beamline.Nodes := beamline.Nodes[dummy := beamline.Nodes[dummy].(ComputationResults := results)];
    beamline.Nodes := beamline.Nodes[dummy := beamline.Nodes[dummy].(ComputationSettings :=
      beamline.Nodes[dummy].ComputationSettings.(UseCustomSampling := settings.UseCustomSampling, NSamples := settings.NSamples))];
  }

  /** Lines 78-89 in place: build the Dummy and insert it before the element named like the terminal. */
  method SynthesizeSingleDummy(beamline: BeamlineElements, oeEnd: NodeId, wavefront: Option<WiseWavefront>)
    returns (raised: Option<Exception>)
    requires beamline.Valid() && oeEnd in beamline.Elements && beamline.Nodes[oeEnd].Parent.None?
    modifies beamline
    ensures beamline.Valid()
    ensures (beamline.State(), raised) == AttachSingleDummy(old(beamline.State()), oeEnd, wavefront)
  {
    if wavefront.None? {
      return Some(AttributeError("wise_computation_result"));
    }
    var results := wavefront.value.wise_computation_result;
    if results.None? {
      return Some(AttributeError("Field"));
    }
    var settings := beamline.Nodes[oeEnd].ComputationSettings;
    var name := beamline.Nodes[oeEnd].Name;
    var dummy := beamline.NewOpticalElement(SingleDummy(results.value.Field));
    CopyIntoDummy(beamline, dummy, results, settings);
    ParentlessIsHead(old(beamline.State()), oeEnd);
    InsertBeforeHead(beamline.State(), dummy);
    var inserted := beamline.Insert(dummy, name);
    return None;
  }

  /** Lines 101-108 in place: attach a detached Dummy source as Parent of the first element. */
  method SynthesizeFullDummy(beamline: BeamlineElements, oeStart: NodeId, wavefront: Option<WiseWavefront>)
    returns (raised: Option<Exception>)
    requires beamline.Valid() && oeStart in beamline.Elements && beamline.Nodes[oeStart].Parent.None?
    modifies beamline
    ensures beamline.Valid()
    ensures (beamline.State(), raised) == AttachFullDummy(old(beamline.State()), oeStart, wavefront)
  {
    ParentlessIsHead(beamline.State(), oeStart);
    var settings := beamline.Nodes[oeStart].ComputationSettings;
    var dummy := beamline.NewOpticalElement(FullDummy());
    beamline.Nodes := beamline.Nodes[oeStart := beamline.Nodes[oeStart].(Parent := Some(dummy))];
    assert beamline.State() == SetParent(AfterNew(old(beamline.State()), FullDummy()).0, oeStart, dummy);
    if wavefront.None? {
      return Some(AttributeError("wise_computation_result"));
    }
    CopyIntoDummy(beamline, dummy, wavefront.value.wise_computation_result, settings);
    return None;
  }

  /** Lines 74-95 in place on the engine chain. */
  method ResolveSingleStart(beamline: BeamlineElements, oeEnd: NodeId, wavefront: Option<WiseWavefront>)
    returns (r: Result<NodeId, Exception>)
    requires beamline.Valid() && oeEnd in beamline.Elements
    modifies beamline
    ensures beamline.Valid()
    ensures (beamline.State(), r) == ResolveSingle(old(beamline.State()), oeEnd, wavefront)
  {
    if beamline.Nodes[oeEnd].IsSource {
      return Err(ValueError(SourceMessage));
    }
    if beamline.Nodes[oeEnd].Parent.None? {
      var raised := SynthesizeSingleDummy(beamline, oeEnd, wavefront);
      if raised.Some? {
        return Err(raised.value);
      }
    }
    var parent := beamline.Nodes[oeEnd].Parent;
    if parent.None? {
      return Err(AttributeError("IsSource"));
    }
    if !beamline.Nodes[parent.value].IsSource {
      var raised := SeedFromInput(beamline, parent.value, wavefront);
      if raised.Some? {
        return Err(raised.value);
      }
    }
    return Ok(parent.value);
  }

  /** Lines 97-117 in place on the engine chain and its first framework element. */
  method ResolveFullStart(beamline: BeamlineElements, oeStart: NodeId, wavefront: Option<WiseWavefront>)
    returns (r: Result<NodeId, Exception>)
    requires beamline.Valid() && oeStart in beamline.Elements
    modifies beamline
    ensures beamline.Valid()
    ensures (beamline.State(), r) == ResolveFull(old(beamline.State()), oeStart, wavefront)
  {
    var start := beamline.Nodes[oeStart];
    if !start.IsSource {
      if start.Parent.None? {
        var raised := SynthesizeFullDummy(beamline, oeStart, wavefront);
        if raised.Some? {
          return Err(raised.value);
        }
      }
      var raised := SeedFromInput(beamline, beamline.Nodes[oeStart].Parent.value, wavefront);
      if raised.Some? {
        return Err(raised.value);
      }
    } else {
      if start.ComputationResults.None? {
        return Err(AttributeError("Field"));
      }
      if start.ComputationResults.value.Field.None? {
        if wavefront.None? {
          return Err(AttributeError("wise_computation_result"));
        }
        beamline.Nodes := beamline.Nodes[oeStart := start.(ComputationResults := wavefront.value.wise_computation_result)];
      }
    }
    return Ok(oeStart);
  }

  /** Lines 73-117 in place: the start chosen by the propagation mode. */
  method ResolveStartInPlace(elems: WisePropagationElements, oeEnd: NodeId, wavefront: Option<WiseWavefront>,
                             singlePropagation: bool) returns (r: Result<NodeId, Exception>)
    requires elems.Valid() && |elems.Framework| > 0 && oeEnd in elems.Beamline.Elements
    modifies elems.Beamline
    ensures elems.Valid()
    ensures (elems.Beamline.State(), r) ==
            ResolveStart(old(elems.Beamline.State()), elems.Framework, oeEnd, wavefront, singlePropagation)
  {
    if singlePropagation {
      r := ResolveSingleStart(elems.Beamline, oeEnd, wavefront);
    } else {
      var first := elems.GetWisePropagationElement(0);
      r := ResolveFullStart(elems.Beamline, first.value, wavefront);
    }
  }

  /** Lines 119-121 in place: refresh positions for an elliptic-mirror terminal, then compute the fields. */
  method FinishInPlace(beamline: BeamlineElements, oeStart: NodeId, oeEnd: NodeId, nPools: int,
                       output: ComputationResults)
    requires beamline.Valid() && oeEnd in beamline.Nodes
    modifies beamline
    ensures beamline.Valid()
    ensures beamline.State() == Finish(old(beamline.State()), oeStart, oeEnd, nPools, output)
  {
    if beamline.Nodes[oeEnd].IsMirrorElliptic {
      beamline.RefreshPositions();
    }
    beamline.NPools := nPools;
    beamline.ComputeFields(oeStart, oeEnd, output);
  }

  /** WisePropagator.do_propagation; `output` is what the engine computes for the terminal. */
  method DoPropagation(elems: WisePropagationElements, input: Option<Wavefront>, singlePropagation: bool,
                       nPools: int, output: ComputationResults) returns (r: Result<Wavefront, Exception>)
    requires elems.Valid() && IsComplete(output)
    modifies elems.Beamline
    ensures elems.Valid()
    ensures elems.Framework == old(elems.Framework)
    ensures (elems.Beamline.State(), r) ==
            Propagate(old(elems.Beamline.State()), elems.Framework, input, singlePropagation, nPools, output)
  {
    var isGeneric := input.Some? && input.value.Generic?;
    if input.Some? && !isGeneric && !input.value.Wise? {
      return Err(ValueError(UnmanagedMessage));
    }
    var wavefront: Option<WiseWavefront> :=
      if isGeneric then Some(FromGenericWavefront(input.value.generic))
      else if input.Some? then Some(input.value.wise)
      else None;
    var beamline := elems.Beamline;
    var end := elems.GetWisePropagationElement(-1);
    if end.Err? {
      return Err(end.error);
    }
    var oeEnd := end.value;
    var start := ResolveStartInPlace(elems, oeEnd, wavefront, singlePropagation);
    if start.Err? {
      return Err(start.error);
    }
    FinishInPlace(beamline, start.value, oeEnd, nPools, output);
    var result := WrapResult(beamline.Nodes[oeEnd].ComputationResults);
    if isGeneric {
      return Ok(Generic(ToGenericWavefront(result)));
    }
    return Ok(Wise(result));
  }
}
