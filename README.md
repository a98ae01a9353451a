# WISE propagator for wofry, modelled in Dafny

This project models the two files that connect the WISE optics engine
(wiselib2) to the wofry propagation framework:

- `wofrywise2/propagator/propagator1D/wise_propagator.py`. It has three parts:
  - `WisePropagationElements` keeps the framework's list of beamline elements in step with the engine's `BeamlineElements` chain.
  - `DummyElement` is a mask that hands back a stored field.
  - `WisePropagator.do_propagation` chooses where the engine's field computation starts. When the chosen node has no Parent, it builds a "Dummy" node. It seeds missing upstream fields from the input wavefront. It then asks the engine to compute the fields. Finally, at line 123, it builds the output wavefront with a keyword that the `WiseWavefront` constructor does not take, so as written the call raises a TypeError there (see "## Findings"). `Propagate` and `DoPropagation` model the intended line, which wraps the terminal element's result; `PropagateAsWritten` models the line as written.
    - Positions are refreshed at line 119 only when the terminal is an `Optics.MirrorElliptic`. An empty framework list ends at line 71 in the IndexError of list indexing. The NPools value is stored at line 120 without any check.
- `wofrywise2/propagator/wavefront1D/wise_wavefront.py`. `WiseWavefront` wraps one engine `ComputationResults` record. It converts field for field to and from wofry's `GenericWavefront1D`.

Layout:

- `wrappers.dfy` (`Wrappers`): `Option`, `Result`, and the exceptions a call can end with.
- `wise_wavefront.dfy` (`Wavefront1D`): the computation results, the generic wavefront, and `WiseWavefront` with its constructor and its two conversions.
- `dummy_element.dfy` (`DummyOptics`): `DummyElement`.
- `fundation.dfy` (`Fundation`): the engine operations the propagator uses: nodes, `Append`, `Insert` in mode Before, `RefreshPositions` and `ComputeFields`.
  - Nodes live in a store indexed by id, and a node's Parent is an id.
  - `ChainValid` is the chain invariant:
    - ids are fresh;
    - links point into the store;
    - no element appears in the chain twice;
    - every element after the first has its chain predecessor as Parent.
  - Each operation is a function on the `Engine` value. The class `BeamlineElements` performs the same operations in place, and each method ensures `State() == <function>(old(State()), ...)`.
- `wise_propagator.dfy` (`Propagator`): `WisePropagationElements`, and `do_propagation` in two forms.
  - `Propagate` is a function from the engine state before the call to the state after it, paired with the wavefront returned or the exception raised.
  - `DoPropagation` performs the same steps in place and is proved equal to `Propagate`.
  - Python's reads of attributes on `None` are modelled as `AttributeError` outcomes. They keep whatever assignments were already made.
- `propagation_properties.dfy` (`PropagationProperties`): what each mode resolves, builds, seeds and never overwrites, and what the finishing steps record and return.

Inputs that come from outside the propagator are parameters:
- the input wavefront;
- the `single_propagation` and `NPools` additional parameters;
- the result the engine's `ComputeFields` computes for the terminal (`output`).

## Model

| member | source | states |
|---|---|---|
| Wavefront1D.NewWiseWavefront | wofrywise2/propagator/wavefront1D/wise_wavefront.py:8-11 | The constructor accepts a keyword set exactly when it holds no keyword other than `wise_computation_result`. The given value is stored unchanged; when the keyword is omitted, a fresh empty result is stored. Any other keyword raises a TypeError. |
| Wavefront1D.FromGenericWavefront | wofrywise2/propagator/wavefront1D/wise_wavefront.py:21-28 | The result is complete. Its Lambda is the generic wavelength, its S is the abscissas and its Field is the complex amplitude, all unchanged and unresampled. |
| Wavefront1D.ToGenericWavefront | wofrywise2/propagator/wavefront1D/wise_wavefront.py:14-19 | Converting back with `fromGenericWavefront` gives the same WiseWavefront, so Lambda, S and Field map to wavelength, abscissas and amplitude unchanged. The array lengths are kept. |
| Wavefront1D.GenericRoundTrip | wofrywise2/propagator/wavefront1D/wise_wavefront.py:14-28 | A generic wavefront converted to a WiseWavefront and back is the same wavefront. |
| DummyOptics.EvalField | wofrywise2/propagator/propagator1D/wise_propagator.py:44-45 | The field returned is the one the mask was built with. |
| DummyOptics.EvalFieldIgnoresArguments | wofrywise2/propagator/propagator1D/wise_propagator.py:38-45 | `EvalField` returns the stored field, whatever its coordinates, wavelength, E0, NPools or options. |
| Fundation.ParentlessIsHead | wofrywise2/propagator/propagator1D/wise_propagator.py:77-89 | In a valid chain, an element without a Parent is the chain's first element. |
| Fundation.FirstIndexNamed | wofrywise2/propagator/propagator1D/wise_propagator.py:89 | The lookup of `ExistingName` gives the first chain position holding a node of that name, or nothing exactly when no element has that name. |
| Fundation.AfterNew | wofrywise2/propagator/propagator1D/wise_propagator.py:78-82 | A new node is stored under a fresh id, with no Parent and in no chain. Every other node is unchanged and the chain stays valid. |
| Fundation.SetParent | wofrywise2/propagator/propagator1D/wise_propagator.py:101 | Only that node's Parent changes. The chain stays valid when the node heads the chain or is off it. |
| Fundation.SetResults | wofrywise2/propagator/propagator1D/wise_propagator.py:85 | Only that node's ComputationResults change, and the chain stays valid. |
| Fundation.SetSampling | wofrywise2/propagator/propagator1D/wise_propagator.py:86-87 | Only that node's UseCustomSampling and NSamples change, and the chain stays valid. |
| Fundation.AfterAppend | wofrywise2/propagator/propagator1D/wise_propagator.py:25 | The node joins the tail of the chain and the former tail becomes its Parent. Every other node is unchanged and the chain stays valid. |
| Fundation.AfterInsert | wofrywise2/propagator/propagator1D/wise_propagator.py:89 | Insertion succeeds exactly when an element has the name. The node goes immediately before the first such element, takes over that element's Parent and becomes its Parent. The chain stays valid and keeps every former member. With no such element, the result is InsertError. |
| Fundation.AfterRefresh | wofrywise2/propagator/propagator1D/wise_propagator.py:119 | The refresh is recorded and no node changes. |
| Fundation.AfterCompute | wofrywise2/propagator/propagator1D/wise_propagator.py:121 | The terminal takes the computed result. The call is recorded with its start, terminal and the chain's NPools, and nothing else changes. |
| Fundation.BeamlineElements.constructor | wofrywise2/propagator/propagator1D/wise_propagator.py:20 | A new engine chain is valid and empty: no node, no element, no engine call. |
| Fundation.BeamlineElements.NewOpticalElement | wofrywise2/propagator/propagator1D/wise_propagator.py:78-82 | The in-place state equals `AfterNew` of the old state. |
| Fundation.BeamlineElements.Append | wofrywise2/propagator/propagator1D/wise_propagator.py:25 | The in-place state equals `AfterAppend` of the old state. |
| Fundation.BeamlineElements.Insert | wofrywise2/propagator/propagator1D/wise_propagator.py:89 | The in-place state and the outcome equal `AfterInsert`. A failed insertion changes nothing. |
| Fundation.BeamlineElements.RefreshPositions | wofrywise2/propagator/propagator1D/wise_propagator.py:119 | The in-place state equals `AfterRefresh`. |
| Fundation.BeamlineElements.ComputeFields | wofrywise2/propagator/propagator1D/wise_propagator.py:121 | The in-place state equals `AfterCompute`. |
| Propagator.ListGet | wofrywise2/propagator/propagator1D/wise_propagator.py:31-32 | Python list indexing. An index in range from either end gives that element, counting a negative index from the end. Any other index raises an IndexError. |
| Propagator.AppendAll | wofrywise2/propagator/propagator1D/wise_propagator.py:27-29 | Appending several elements in turn puts them after the chain in the given order, keeps the chain valid and adds no node. A node outside the appended ones is unchanged. An appended node changes only its Parent. |
| Propagator.AppendAllNext | wofrywise2/propagator/propagator1D/wise_propagator.py:27-29 | Appending one more element extends `AppendAll` by one `Append`. |
| Propagator.WisePropagationElements.constructor | wofrywise2/propagator/propagator1D/wise_propagator.py:17-20 | The framework list starts empty and a fresh, empty engine chain is built beside it. |
| Propagator.WisePropagationElements.AddBeamlineElement | wofrywise2/propagator/propagator1D/wise_propagator.py:22-25 | The same element joins the end of the framework list and the end of the engine chain, so the difference between the two lengths does not change. |
| Propagator.WisePropagationElements.AddBeamlineElements | wofrywise2/propagator/propagator1D/wise_propagator.py:27-29 | The elements join the framework list in the given order. The engine chain becomes `AppendAll` of the old one, and the difference between the two lengths does not change. |
| Propagator.WisePropagationElements.GetWisePropagationElement | wofrywise2/propagator/propagator1D/wise_propagator.py:31-32 | The engine node of the framework entry at a Python index. |
| Propagator.Normalize | wofrywise2/propagator/propagator1D/wise_propagator.py:57-66 | The input is refused exactly when it is a wavefront of an unmanaged type, with the exact ValueError message. A generic wavefront is converted and flagged as generic. A WiseWavefront passes unchanged, and a missing one stays missing. |
| Propagator.InputResult | wofrywise2/propagator/propagator1D/wise_propagator.py:79 | Reading `wavefront.wise_computation_result` fails with an AttributeError exactly when there is no wavefront. |
| Propagator.SeedIfMissing | wofrywise2/propagator/propagator1D/wise_propagator.py:90-93 | For each case of a node and an input, the exact outcome. A node without results fails reading Field. A node with a Field is left alone. A node without a Field takes the input's result, or fails when there is no input or the input has no result. |
| Propagator.SingleDummy | wofrywise2/propagator/propagator1D/wise_propagator.py:78-82 | The node is named "Dummy", is not a source and has no Parent. Its DummyElement gives back the given field for every argument of `EvalField`. |
| Propagator.FullDummy | wofrywise2/propagator/propagator1D/wise_propagator.py:101-105 | The node is named "Dummy", is a source, wraps no optics and has no Parent. |
| Propagator.DummySeeded | wofrywise2/propagator/propagator1D/wise_propagator.py:85-87 | Only the Dummy changes. It takes the result and a copy of the other element's sampling settings. |
| Propagator.InsertBeforeHead | wofrywise2/propagator/propagator1D/wise_propagator.py:89 | Inserting before the head's name puts the node at the front of the chain. |
| Propagator.AttachSingleDummy | wofrywise2/propagator/propagator1D/wise_propagator.py:77-89 | With no input, or an input without a result, the call fails and nothing is built. Otherwise exactly one node is added, the Dummy. It heads the chain, holds the input's result and the terminal's sampling settings, and becomes the terminal's Parent. |
| Propagator.ResolveSingle | wofrywise2/propagator/propagator1D/wise_propagator.py:73-95 | The chain stays valid and keeps its members. No engine call is made. The start is a stored node. |
| Propagator.AttachFullDummy | wofrywise2/propagator/propagator1D/wise_propagator.py:99-108 | A detached Dummy source becomes the first element's Parent, and the chain is unchanged. With an input, the Dummy takes its result and the first element's sampling settings. Without one, the Parent link stays and the call fails. |
| Propagator.ResolveFull | wofrywise2/propagator/propagator1D/wise_propagator.py:97-117 | The chain's elements are unchanged, no engine call is made, and the start is always the first element. |
| Propagator.ResolveStart | wofrywise2/propagator/propagator1D/wise_propagator.py:73-117 | Either mode keeps the chain valid and its members. It records no engine call, and any start it gives is a stored node. |
| Propagator.Finish | wofrywise2/propagator/propagator1D/wise_propagator.py:119-121 | The refresh is recorded exactly when the terminal is an elliptic mirror. NPools is set, and the compute step is recorded from the start to the terminal. Only the terminal's results change. |
| Propagator.WrapResult | wofrywise2/propagator/propagator1D/wise_propagator.py:123 | With the constructor's own keyword, the output wavefront wraps the terminal's results unchanged. |
| Propagator.WrapResultAsWritten | wofrywise2/propagator/propagator1D/wise_propagator.py:123 | With the keyword as written, the constructor raises a TypeError for every result. |
| Propagator.Propagate | wofrywise2/propagator/propagator1D/wise_propagator.py:54-128 | With the corrected line 123, a call keeps the chain valid and keeps every framework element in the chain. |
| Propagator.PropagateAsWritten | wofrywise2/propagator/propagator1D/wise_propagator.py:54-128 | With line 123 as written, the chain stays valid and no call returns a wavefront. |
| Propagator.PropagateAsWrittenRaises | wofrywise2/propagator/propagator1D/wise_propagator.py:119-123 | The call as written leaves the engine in the same state as the corrected call, including the refresh, the NPools write and the computed field. It raises a TypeError exactly when the corrected call returns a wavefront, and otherwise raises the same exception. |
| Propagator.NoTypeErrorResolving | wofrywise2/propagator/propagator1D/wise_propagator.py:71-117 | Choosing the start never raises a TypeError, in either mode. |
| Propagator.SeedFromInput | wofrywise2/propagator/propagator1D/wise_propagator.py:90-93 | The in-place seeding agrees with `SeedIfMissing`. A failure leaves the state unchanged. |
| Propagator.CopyIntoDummy | wofrywise2/propagator/propagator1D/wise_propagator.py:85-87 | The in-place state equals `DummySeeded`. |
| Propagator.SynthesizeSingleDummy | wofrywise2/propagator/propagator1D/wise_propagator.py:78-89 | The in-place state and outcome equal `AttachSingleDummy`. |
| Propagator.SynthesizeFullDummy | wofrywise2/propagator/propagator1D/wise_propagator.py:101-108 | The in-place state and outcome equal `AttachFullDummy`. |
| Propagator.ResolveSingleStart | wofrywise2/propagator/propagator1D/wise_propagator.py:73-95 | The in-place state and start equal `ResolveSingle`. |
| Propagator.ResolveFullStart | wofrywise2/propagator/propagator1D/wise_propagator.py:96-117 | The in-place state and start equal `ResolveFull`. |
| Propagator.ResolveStartInPlace | wofrywise2/propagator/propagator1D/wise_propagator.py:71-117 | The in-place state and start equal `ResolveStart`. |
| Propagator.FinishInPlace | wofrywise2/propagator/propagator1D/wise_propagator.py:119-121 | The in-place state equals `Finish`. |
| Propagator.DoPropagation | wofrywise2/propagator/propagator1D/wise_propagator.py:54-128 | The in-place engine state and the returned wavefront or exception equal `Propagate` of the old state. The framework list is unchanged. |
| PropagationProperties.UnmanagedWavefrontRejected | wofrywise2/propagator/propagator1D/wise_propagator.py:57-63 | A wavefront of an unmanaged type is refused with the ValueError before any node or the chain changes. |
| PropagationProperties.EmptyFrameworkRejected | wofrywise2/propagator/propagator1D/wise_propagator.py:71 | With an empty framework list the call raises an IndexError and nothing changes. |
| PropagationProperties.SourceTerminalRejected | wofrywise2/propagator/propagator1D/wise_propagator.py:73-75 | In single-propagation mode, a source terminal is refused with the ValueError and the chain is left unchanged. |
| PropagationProperties.SingleDummyInserted | wofrywise2/propagator/propagator1D/wise_propagator.py:77-95 | In single-propagation mode, a terminal with no Parent gets exactly one new node immediately before it, the Dummy. The Dummy holds the input's result and the terminal's sampling settings, becomes the terminal's Parent, and is the start. Every other node is unchanged. |
| PropagationProperties.SeedWithSameResults | wofrywise2/propagator/propagator1D/wise_propagator.py:90-93 | Seeding a node from the result it already holds changes nothing. |
| PropagationProperties.SingleDummyNeedsInput | wofrywise2/propagator/propagator1D/wise_propagator.py:77-85 | Without an input, or with an input that has no result, the Dummy is not built, the state is unchanged, and the error names the attribute that was read. |
| PropagationProperties.SingleParentSeeded | wofrywise2/propagator/propagator1D/wise_propagator.py:90-95 | A non-source Parent without a Field takes the input's result and is the start. With no input, or an input without a result, the call fails and nothing changes. |
| PropagationProperties.SingleParentKept | wofrywise2/propagator/propagator1D/wise_propagator.py:90-95 | A Parent that is a source or has a Field is left as it is and is the start. |
| PropagationProperties.FullSourceSeeded | wofrywise2/propagator/propagator1D/wise_propagator.py:114-117 | A source first element with a Field is left as it is and is the start. One without a Field takes the input's result and is the start. With no input the call fails. |
| PropagationProperties.FullDummyAttached | wofrywise2/propagator/propagator1D/wise_propagator.py:99-117 | A non-source first element with no Parent gets exactly one new node as Parent, a detached Dummy source. The Dummy holds the input's result and the element's sampling settings. The chain's elements are unchanged, and the start is still the first element. |
| PropagationProperties.FullDummyNeedsInput | wofrywise2/propagator/propagator1D/wise_propagator.py:101-106 | With no input, the Dummy is already linked as Parent when the call fails. |
| PropagationProperties.FullParentSeeded | wofrywise2/propagator/propagator1D/wise_propagator.py:110-113 | The first element's Parent without a Field takes the input's result. With no input, or an input without a result, the call fails and nothing changes. |
| PropagationProperties.PreservedByDummy | wofrywise2/propagator/propagator1D/wise_propagator.py:78-108 | Adding a node and relinking another keeps every old node's kind and its results. |
| PropagationProperties.PreservedBySeed | wofrywise2/propagator/propagator1D/wise_propagator.py:93 | Seeding a node that has no Field keeps every Field already computed. |
| PropagationProperties.SeedPreserves | wofrywise2/propagator/propagator1D/wise_propagator.py:90-93 | Seeding never overwrites a Field. |
| PropagationProperties.AttachSinglePreserves | wofrywise2/propagator/propagator1D/wise_propagator.py:77-89 | Building and inserting the single-mode Dummy never overwrites a Field. |
| PropagationProperties.AttachFullPreserves | wofrywise2/propagator/propagator1D/wise_propagator.py:99-108 | Attaching the full-chain Dummy never overwrites a Field. |
| PropagationProperties.ResolveSinglePreserves | wofrywise2/propagator/propagator1D/wise_propagator.py:73-95 | Single-propagation resolution never overwrites a Field. |
| PropagationProperties.ResolveFullPreserves | wofrywise2/propagator/propagator1D/wise_propagator.py:97-117 | Full-chain resolution never overwrites a Field. |
| PropagationProperties.ResolutionNeverOverwritesFields | wofrywise2/propagator/propagator1D/wise_propagator.py:73-117 | In either mode, no node that had a Field gets different results, and no node changes name, source flag, type or element. |
| PropagationProperties.SingleStartIsParent | wofrywise2/propagator/propagator1D/wise_propagator.py:95 | In single-propagation mode, the start is the terminal's Parent in the state reached. |
| PropagationProperties.FinishingSteps | wofrywise2/propagator/propagator1D/wise_propagator.py:119-128 | After a successful call:<br>• positions were refreshed exactly when the terminal is an elliptic mirror;<br>• NPools was set;<br>• the compute step ran from element 0 in full-chain mode, or from the terminal's Parent in single-propagation mode, to the terminal;<br>• the terminal holds the computed result;<br>• with the corrected line 123, the wavefront returned wraps that result, converted to generic form exactly when the input was generic. |
| PropagationProperties.ErrorsDoNotCompute | wofrywise2/propagator/propagator1D/wise_propagator.py:54-121 | A failed call records no engine call and leaves NPools unchanged. |

## Left out

- The field computation itself is left out, because it is wiselib2's numeric and parallel diffraction code. `ComputeFields` writes only the terminal's result, and that result is a parameter. The fields the engine computes for the elements in between are not modelled.
- `RefreshPositions` geometry is not modelled; only the call is recorded.
- The positioning directives, `numpy.deg2rad(0)` and the constant `angstroms_to_eV` are not modelled. They are floating-point and geometry values that the propagator only passes on.
- The defaults of a freshly built engine node are the engine's own.
  - `DefaultSettings` stands in for its ComputationSettings.
  - A single-mode Dummy is built without the `IsSource` keyword, so it is taken as a non-source.
- The elliptic-mirror test is taken as a given. The check `isinstance(oeEnd, Optics.MirrorElliptic)` becomes the flag `IsMirrorElliptic` on the node. Whether an optical-element node can be a mirror instance depends on wiselib2.
- `wofrywise2/beamline/optical_elements/wise_elliptic_mirror.py` is not part of this model. It only wraps engine constructors with floating-point boundary arithmetic.
- Python object identity is not modelled. Results are stored by value, so it is not captured that the input's result object may come to be shared by the Dummy and another node.
- Python evaluates default arguments once and shares them between calls. The model gives each call fresh defaults, for both `WiseWavefront()` and `add_beamline_elements(beamline_elements=[])`.
- `get_wise_propagation_elements` and `get_handler_name` are not modelled. They are plain accessors: the model reads the engine chain directly, and the handler name is the constant "WISE2_PROPAGATOR".
- Propagator.WisePropagationElements.AddBeamlineElement: requires that the element is stored and not yet in the chain. The engine's behaviour on a repeated Append is not modelled.
- Propagator.WisePropagationElements.AddBeamlineElements: requires, for the same reason, that the elements are stored, not yet in the chain, and pairwise distinct.
- The default argument `beamline_element=WiseBeamlineElement()` of `add_beamline_element` (line 22) is not offered. `AddBeamlineElement` always takes the element to add, because a default `WiseBeamlineElement` is built by wofrywise2 code that is not part of this model.
- Wavefront1D.ToGenericWavefront: defined only for a complete result. What wofry does with missing arrays is not modelled.
- Propagator.Propagate: requires the engine's computed result to be a complete record, so the generic conversion at line 126 is always defined.
- Propagator.Propagate: follows the corrected line 123, which passes the keyword `wise_computation_result`. As written, that line raises a TypeError on every call that gets past line 121, after the refresh, the NPools write and ComputeFields have already changed the engine. `PropagateAsWritten` models that behaviour and `PropagateAsWrittenRaises` relates the two.
- Propagator.DoPropagation: is proved equal to `Propagate`, so it too follows the corrected line 123.
- Wavefront1D.NewWiseWavefront: the TypeError message does not name the offending keyword, as Python's does, because the keyword arguments are modelled as an unordered map and Python names the first unexpected one passed.
- The `single_propagation` parameter is modelled as a boolean. Line 73 shows only that a value equal to `True` selects single-propagation mode and any other value selects full-chain mode. What `get_additional_parameter` does when the parameter is missing belongs to wofry and is not modelled.
- The `int(...)` conversion of the NPools parameter at line 120 is not modelled; the model receives NPools as an integer.
- Framework entries are not modelled in full:
  - a framework entry is modelled by the engine node it holds, so the wofry beamline element and its coordinates are left out;
  - `get_wise_propagation_element(0)` in full-chain mode reads an entry that exists, because the last one was read first.

## Findings

| source | as written | input that shows it | evidently intended | confidence | as-written member | corrected member |
|---|---|---|---|---|---|---|
| wofrywise2/propagator/propagator1D/wise_propagator.py:123 | `WiseWavefront(wise_computation_results=...)`. The keyword ends in "s", but the constructor's only parameter is `wise_computation_result` (wise_wavefront.py:8-9). | Any call that reaches line 123. For example, single-propagation mode with a terminal whose Parent is a source: Python raises a TypeError for the unexpected keyword. | Pass the terminal's results under the keyword `wise_computation_result`, so that the output wavefront wraps them. | not executed | Propagator.WrapResultAsWritten, Propagator.PropagateAsWritten, Propagator.PropagateAsWrittenRaises | Propagator.WrapResult, Propagator.Propagate |
