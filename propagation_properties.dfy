/**
 * Properties of WisePropagator.do_propagation, stated over the state
 * functions of the Propagator module: what each mode resolves as the start
 * of the computation, which nodes it creates or seeds, what it never
 * overwrites, and what the finishing steps record and return.
 */
module PropagationProperties {
  import opened Wrappers
  import opened Wavefront1D
  import opened DummyOptics
  import opened Fundation
  import opened Propagator

  /** A node whose ComputationResults hold a Field. */
  ghost predicate HasField(n: OpticalElement)
  {
    n.ComputationResults.Some? && n.ComputationResults.value.Field.Some?
  }

  /**
   * Every node of `st` is still stored in `st2`, with the same name, source
   * flag, element and type, and with its ComputationResults unchanged if it
   * had a Field.
   */
  ghost predicate Preserved(st: Engine, st2: Engine)
  {
    forall id :: id in st.Nodes ==>
      && id in st2.Nodes
      && st2.Nodes[id].Name == st.Nodes[id].Name
      && st2.Nodes[id].IsSource == st.Nodes[id].IsSource
      && st2.Nodes[id].IsMirrorElliptic == st.Nodes[id].IsMirrorElliptic
      && st2.Nodes[id].Element == st.Nodes[id].Element
      && (HasField(st.Nodes[id]) ==> st2.Nodes[id].ComputationResults == st.Nodes[id].ComputationResults)
  }

  lemma PreservedTransitive(a: Engine, b: Engine, c: Engine)
    requires Preserved(a, b) && Preserved(b, c)
    ensures Preserved(a, c)
  {
  }

  /** Lines 57-63: a wavefront of an unmanaged type is refused before the chain is touched. */
  lemma UnmanagedWavefrontRejected(st: Engine, framework: seq<NodeId>, typeName: string, singlePropagation: bool,
                                   nPools: int, output: ComputationResults)
    requires ChainValid(st) && IsComplete(output)
    requires forall i :: 0 <= i < |framework| ==> framework[i] in st.Elements
    ensures Propagate(st, framework, Some(Unmanaged(typeName)), singlePropagation, nPools, output)
            == (st, Err(ValueError(UnmanagedMessage)))
  {
  }

  /** Line 71: with an empty framework list, reading its last element raises an IndexError and nothing changes. */
  lemma EmptyFrameworkRejected(st: Engine, input: Option<Wavefront>, singlePropagation: bool,
                               nPools: int, output: ComputationResults)
    requires ChainValid(st) && IsComplete(output)
    requires !(input.Some? && input.value.Unmanaged?)
    ensures Propagate(st, [], input, singlePropagation, nPools, output) == (st, Err(IndexError))
  {
  }

  /** Lines 73-75: in single-propagation mode a source terminal is refused and the chain is left unchanged. */
  lemma SourceTerminalRejected(st: Engine, framework: seq<NodeId>, input: Option<Wavefront>,
                               nPools: int, output: ComputationResults)
    requires ChainValid(st) && IsComplete(output)
    requires forall i :: 0 <= i < |framework| ==> framework[i] in st.Elements
    requires !(input.Some? && input.value.Unmanaged?)
    requires |framework| > 0 && st.Nodes[framework[|framework| - 1]].IsSource
    ensures Propagate(st, framework, input, true, nPools, output) == (st, Err(ValueError(SourceMessage)))
  {
  }

  /**
   * Lines 77-89 and 95: a terminal with no Parent is the head of the chain;
   * exactly one new node, the Dummy, is placed before it. The Dummy holds the
   * input's result and the terminal's sampling settings, has no Parent,
   * becomes the terminal's Parent, and is the start of the computation.
   */
  lemma SingleDummyInserted(st: Engine, end: NodeId, v: WiseWavefront, cr: ComputationResults)
    requires ChainValid(st) && end in st.Elements
    requires !st.Nodes[end].IsSource && st.Nodes[end].Parent.None?
    requires v.wise_computation_result == Some(cr)
    ensures var (st2, start) := ResolveSingle(st, end, Some(v));
      var d := st.NextId;
      && start == Ok(d)
      && d !in st.Nodes && st2.Nodes.Keys == st.Nodes.Keys + {d}
      && st2.Elements == [d] + st.Elements
      && st2.Nodes[d] == SingleDummy(cr.Field).(ComputationResults := Some(cr),
                                                ComputationSettings := st.Nodes[end].ComputationSettings)
      && st2.Nodes[end] == st.Nodes[end].(Parent := Some(d))
      && (forall id :: id in st.Nodes && id != end ==> st2.Nodes[id] == st.Nodes[id])
  {
    var st4 := AttachSingleDummy(st, end, Some(v)).0;
    SeedWithSameResults(st4, st.NextId, Some(v));
    assert ResolveSingle(st, end, Some(v)) == (st4, Ok(st.NextId));
  }

  /** Seeding a node from an input whose result the node already holds leaves the state as it is. */
  lemma SeedWithSameResults(st: Engine, p: NodeId, w: Option<WiseWavefront>)
    requires ChainValid(st) && p in st.Nodes && w.Some?
    requires st.Nodes[p].ComputationResults.Some? && st.Nodes[p].ComputationResults == w.value.wise_computation_result
    ensures SeedIfMissing(st, p, w) == Ok(st)
  {
    if st.Nodes[p].ComputationResults.value.Field.None? {
      assert st.Nodes[p].(ComputationResults := w.value.wise_computation_result) == st.Nodes[p];
      assert st.Nodes[p := st.Nodes[p]] == st.Nodes;
    }
  }

  /** Lines 79 and 85: a Parent-less terminal with no input, or an input without a result, fails before anything is built. */
  lemma SingleDummyNeedsInput(st: Engine, end: NodeId, w: Option<WiseWavefront>)
    requires ChainValid(st) && end in st.Elements
    requires !st.Nodes[end].IsSource && st.Nodes[end].Parent.None?
    requires w.None? || w.value.wise_computation_result.None?
    ensures ResolveSingle(st, end, w).0 == st
    ensures w.None? ==> ResolveSingle(st, end, w).1 == Err(AttributeError("wise_computation_result"))
    ensures w.Some? ==> ResolveSingle(st, end, w).1 == Err(AttributeError("Field"))
  {
  }

  /**
   * Lines 90-93: a non-source Parent without a Field is seeded with the
   * input's result, or the call fails when the input has none; the start is
   * that Parent.
   */
  lemma SingleParentSeeded(st: Engine, end: NodeId, w: Option<WiseWavefront>)
    requires ChainValid(st) && end in st.Elements && !st.Nodes[end].IsSource
    requires st.Nodes[end].Parent.Some?
    requires var p := st.Nodes[st.Nodes[end].Parent.value];
      !p.IsSource && p.ComputationResults.Some? && p.ComputationResults.value.Field.None?
    ensures var p := st.Nodes[end].Parent.value;
      var (st2, start) := ResolveSingle(st, end, w);
      && (w.None? ==> start == Err(AttributeError("wise_computation_result")) && st2 == st)
      && (w.Some? && w.value.wise_computation_result.None? ==> start == Err(ValueError(NoFieldMessage)) && st2 == st)
      && (w.Some? && w.value.wise_computation_result.Some? ==>
            && start == Ok(p)
            && st2.Nodes == st.Nodes[p := st.Nodes[p].(ComputationResults := w.value.wise_computation_result)]
            && st2.Elements == st.Elements)
  {
  }

  /** Lines 90 and 95: a Parent that is a source or already has a Field is left as it is, and is the start. */
  lemma SingleParentKept(st: Engine, end: NodeId, w: Option<WiseWavefront>)
    requires ChainValid(st) && end in st.Elements && !st.Nodes[end].IsSource
    requires st.Nodes[end].Parent.Some?
    requires var p := st.Nodes[st.Nodes[end].Parent.value]; p.IsSource || HasField(p)
    ensures ResolveSingle(st, end, w) == (st, Ok(st.Nodes[end].Parent.value))
  {
  }

  /** Line 115: a source first element without a Field takes the input's result; one with a Field is left as it is. */
  lemma FullSourceSeeded(st: Engine, first: NodeId, w: Option<WiseWavefront>)
    requires ChainValid(st) && first in st.Elements && st.Nodes[first].IsSource
    requires st.Nodes[first].ComputationResults.Some?
    ensures HasField(st.Nodes[first]) ==> ResolveFull(st, first, w) == (st, Ok(first))
    ensures !HasField(st.Nodes[first]) && w.Some? ==>
      ResolveFull(st, first, w) == (SetResults(st, first, w.value.wise_computation_result), Ok(first))
    ensures !HasField(st.Nodes[first]) && w.None? ==>
      ResolveFull(st, first, w) == (st, Err(AttributeError("wise_computation_result")))
  {
  }

  /**
   * Lines 99-108 and 117: a non-source first element with no Parent gets a
   * new Dummy source as Parent. The Dummy holds the input's result and the
   * element's sampling settings and stays out of the chain, whose elements
   * are unchanged. The start is still the first element.
   */
  lemma FullDummyAttached(st: Engine, first: NodeId, v: WiseWavefront, cr: ComputationResults)
    requires ChainValid(st) && first in st.Elements
    requires !st.Nodes[first].IsSource && st.Nodes[first].Parent.None?
    requires v.wise_computation_result == Some(cr)
    ensures var (st2, start) := ResolveFull(st, first, Some(v));
      var d := st.NextId;
      && start == Ok(first)
      && d !in st.Nodes && st2.Nodes.Keys == st.Nodes.Keys + {d}
      && st2.Elements == st.Elements && d !in st2.Elements
      && st2.Nodes[d] == FullDummy().(ComputationResults := Some(cr),
                                    ComputationSettings := st.Nodes[first].ComputationSettings)
      && st2.Nodes[first] == st.Nodes[first].(Parent := Some(d))
      && (forall id :: id in st.Nodes && id != first ==> st2.Nodes[id] == st.Nodes[id])
  {
    var st4 := AttachFullDummy(st, first, Some(v)).0;
    SeedWithSameResults(st4, st.NextId, Some(v));
  }

  /**
   * Lines 101 and 106: with no input the Dummy is attached before its result
   * is read, so the call fails with the Dummy in place.
   */
  lemma FullDummyNeedsInput(st: Engine, first: NodeId)
    requires ChainValid(st) && first in st.Elements
    requires !st.Nodes[first].IsSource && st.Nodes[first].Parent.None?
    ensures var (st2, start) := ResolveFull(st, first, None);
      && start == Err(AttributeError("wise_computation_result"))
      && st2.Nodes[first].Parent == Some(st.NextId)
      && st2.Nodes[st.NextId] == FullDummy()
  {
  }

  /** Lines 110-113: a non-source first element's Parent without a Field is seeded from the input, or the call fails. */
  lemma FullParentSeeded(st: Engine, first: NodeId, w: Option<WiseWavefront>)
    requires ChainValid(st) && first in st.Elements && !st.Nodes[first].IsSource
    requires st.Nodes[first].Parent.Some?
    requires var p := st.Nodes[st.Nodes[first].Parent.value];
      p.ComputationResults.Some? && p.ComputationResults.value.Field.None?
    ensures var p := st.Nodes[first].Parent.value;
      var (st2, start) := ResolveFull(st, first, w);
      && (w.None? ==> start == Err(AttributeError("wise_computation_result")) && st2 == st)
      && (w.Some? && w.value.wise_computation_result.None? ==> start == Err(ValueError(NoFieldMessage)) && st2 == st)
      && (w.Some? && w.value.wise_computation_result.Some? ==>
            start == Ok(first) && st2 == SetResults(st, p, w.value.wise_computation_result))
  {
  }

  /** Same name, source flag, type and element. */
  ghost predicate SameKind(a: OpticalElement, b: OpticalElement)
  {
    a.Name == b.Name && a.IsSource == b.IsSource && a.IsMirrorElliptic == b.IsMirrorElliptic && a.Element == b.Element
  }

  /** Storing a new node and relinking one existing node, without touching its kind or its Field, preserves the nodes. */
  lemma PreservedByDummy(st: Engine, st2: Engine, d: NodeId, dummy: OpticalElement, x: NodeId, node: OpticalElement)
    requires d !in st.Nodes && x in st.Nodes
    requires st2.Nodes == st.Nodes[d := dummy][x := node]
    requires SameKind(node, st.Nodes[x]) && node.ComputationResults == st.Nodes[x].ComputationResults
    ensures Preserved(st, st2)
  {
  }

  /** Replacing the results of a node that has no Field preserves the nodes. */
  lemma PreservedBySeed(st: Engine, st2: Engine, p: NodeId, results: Option<ComputationResults>)
    requires p in st.Nodes && !HasField(st.Nodes[p])
    requires st2.Nodes == st.Nodes[p := st.Nodes[p].(ComputationResults := results)]
    ensures Preserved(st, st2)
  {
  }

  lemma SeedPreserves(st: Engine, p: NodeId, w: Option<WiseWavefront>)
    requires ChainValid(st) && p in st.Nodes
    ensures SeedIfMissing(st, p, w).Ok? ==> Preserved(st, SeedIfMissing(st, p, w).value)
  {
    if SeedIfMissing(st, p, w).Ok? && !HasField(st.Nodes[p]) {
      PreservedBySeed(st, SeedIfMissing(st, p, w).value, p, w.value.wise_computation_result);
    }
  }

  lemma AttachSinglePreserves(st: Engine, end: NodeId, w: Option<WiseWavefront>)
    requires ChainValid(st) && end in st.Elements && st.Nodes[end].Parent.None?
    ensures Preserved(st, AttachSingleDummy(st, end, w).0)
  {
    var (st2, raised) := AttachSingleDummy(st, end, w);
    if raised.None? {
      var cr := w.value.wise_computation_result.value;
      PreservedByDummy(st, st2, st.NextId,
                       SingleDummy(cr.Field).(ComputationResults := Some(cr), ComputationSettings := st.Nodes[end].ComputationSettings),
                       end, st.Nodes[end].(Parent := Some(st.NextId)));
    }
  }

  lemma AttachFullPreserves(st: Engine, first: NodeId, w: Option<WiseWavefront>)
    requires ChainValid(st) && first in st.Elements && st.Nodes[first].Parent.None?
    ensures Preserved(st, AttachFullDummy(st, first, w).0)
  {
    var st2 := AttachFullDummy(st, first, w).0;
    var dummy := if w.None? then FullDummy()
                 else FullDummy().(ComputationResults := w.value.wise_computation_result,
                                 ComputationSettings := st.Nodes[first].ComputationSettings);
    PreservedByDummy(st, st2, st.NextId, dummy, first, st.Nodes[first].(Parent := Some(st.NextId)));
  }

  lemma ResolveSinglePreserves(st: Engine, end: NodeId, w: Option<WiseWavefront>)
    requires ChainValid(st) && end in st.Elements
    ensures Preserved(st, ResolveSingle(st, end, w).0)
  {
    var e := st.Nodes[end];
    if !e.IsSource {
      var (st1, raised) := if e.Parent.Some? then (st, None) else AttachSingleDummy(st, end, w);
      if e.Parent.None? {
        AttachSinglePreserves(st, end, w);
      }
      if raised.None? && st1.Nodes[end].Parent.Some? {
        var p := st1.Nodes[end].Parent.value;
        if !st1.Nodes[p].IsSource && SeedIfMissing(st1, p, w).Ok? {
          SeedPreserves(st1, p, w);
          PreservedTransitive(st, st1, SeedIfMissing(st1, p, w).value);
        }
      }
    }
  }

  lemma ResolveFullPreserves(st: Engine, first: NodeId, w: Option<WiseWavefront>)
    requires ChainValid(st) && first in st.Elements
    ensures Preserved(st, ResolveFull(st, first, w).0)
  {
    var f := st.Nodes[first];
    if f.IsSource {
      if f.ComputationResults.Some? && !HasField(f) && w.Some? {
        PreservedBySeed(st, ResolveFull(st, first, w).0, first, w.value.wise_computation_result);
      }
    } else {
      var (st1, raised) := if f.Parent.Some? then (st, None) else AttachFullDummy(st, first, w);
      if f.Parent.None? {
        AttachFullPreserves(st, first, w);
      }
      if raised.None? {
        var p := st1.Nodes[first].Parent.value;
        if SeedIfMissing(st1, p, w).Ok? {
          SeedPreserves(st1, p, w);
          PreservedTransitive(st, st1, SeedIfMissing(st1, p, w).value);
        }
      }
    }
  }

  /**
   * Lines 74-117: resolving the start, in either mode, never overwrites the
   * results of a node that already has a Field, and never changes a node's
   * name, source flag, element or type.
   */
  lemma ResolutionNeverOverwritesFields(st: Engine, framework: seq<NodeId>, end: NodeId, w: Option<WiseWavefront>,
                                         singlePropagation: bool)
    requires ChainValid(st) && |framework| > 0 && end in st.Elements
    requires forall i :: 0 <= i < |framework| ==> framework[i] in st.Elements
    ensures Preserved(st, ResolveStart(st, framework, end, w, singlePropagation).0)
  {
    if singlePropagation {
      ResolveSinglePreserves(st, end, w);
    } else {
      ResolveFullPreserves(st, framework[0], w);
    }
  }

  /** In single-propagation mode the start that is resolved is the terminal's Parent afterwards. */
  lemma SingleStartIsParent(st: Engine, end: NodeId, w: Option<WiseWavefront>)
    requires ChainValid(st) && end in st.Elements
    ensures var (st2, start) := ResolveSingle(st, end, w);
      start.Ok? ==> st2.Nodes[end].Parent == Some(start.value)
  {
    var e := st.Nodes[end];
    if !e.IsSource {
      var (st1, raised) := if e.Parent.Some? then (st, None) else AttachSingleDummy(st, end, w);
      if raised.None? && st1.Nodes[end].Parent.Some? {
        var p := st1.Nodes[end].Parent.value;
        if !st1.Nodes[p].IsSource && SeedIfMissing(st1, p, w).Ok? {
          var st2 := SeedIfMissing(st1, p, w).value;
          assert st1.Nodes[p].ComputationResults.Some?;
          if !HasField(st1.Nodes[p]) {
            assert p != end || st1.Nodes[end].Parent == Some(p);
          }
        }
      }
    }
  }

  /**
   * Lines 119-128: after a successful propagation the positions were
   * refreshed exactly when the terminal is an elliptic mirror, the chain's
   * NPools was set, the compute step ran from the resolved start (element 0
   * in full-chain mode, the terminal's Parent in single-propagation mode) to
   * the terminal, and the returned wavefront wraps the terminal's new results,
   * converted to generic form exactly when the input was generic.
   */
  lemma FinishingSteps(st: Engine, framework: seq<NodeId>, input: Option<Wavefront>, singlePropagation: bool,
                       nPools: int, output: ComputationResults)
    requires ChainValid(st) && IsComplete(output)
    requires forall i :: 0 <= i < |framework| ==> framework[i] in st.Elements
    requires Propagate(st, framework, input, singlePropagation, nPools, output).1.Ok?
    ensures |framework| > 0
    ensures var end := framework[|framework| - 1];
      var (st2, r) := Propagate(st, framework, input, singlePropagation, nPools, output);
      && end in st2.Nodes
      && (singlePropagation ==> st2.Nodes[end].Parent.Some?)
      && var start := if singlePropagation then st2.Nodes[end].Parent.value else framework[0];
      && st2.Calls == st.Calls + (if st.Nodes[end].IsMirrorElliptic then [RefreshPositions] else [])
                               + [ComputeFields(start, end, nPools)]
      && st2.NPools == nPools
      && st2.Nodes[end].ComputationResults == Some(output)
      && r.value == (if input.Some? && input.value.Generic? then Generic(ToGenericWavefront(WrapResult(Some(output))))
                     else Wise(WrapResult(Some(output))))
  {
    var (w, isGeneric) := Normalize(input).value;
    var end := ListGet(framework, -1).value;
    var (st1, start) := ResolveStart(st, framework, end, w, singlePropagation);
    ResolutionNeverOverwritesFields(st, framework, end, w, singlePropagation);
    assert st1.Nodes[end].IsMirrorElliptic == st.Nodes[end].IsMirrorElliptic;
    if singlePropagation {
      SingleStartIsParent(st, end, w);
    }
    var st2 := Finish(st1, start.value, end, nPools, output);
    assert st2.Nodes[end].Parent == st1.Nodes[end].Parent;
  }

  /** A failed propagation records no engine call and leaves NPools as it was. */
  lemma ErrorsDoNotCompute(st: Engine, framework: seq<NodeId>, input: Option<Wavefront>, singlePropagation: bool,
                           nPools: int, output: ComputationResults)
    requires ChainValid(st) && IsComplete(output)
    requires forall i :: 0 <= i < |framework| ==> framework[i] in st.Elements
    requires Propagate(st, framework, input, singlePropagation, nPools, output).1.Err?
    ensures Propagate(st, framework, input, singlePropagation, nPools, output).0.Calls == st.Calls
    ensures Propagate(st, framework, input, singlePropagation, nPools, output).0.NPools == st.NPools
  {
  }
}
