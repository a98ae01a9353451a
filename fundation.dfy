/**
 * The part of wiselib2's Fundation that the propagator drives: optical-element
 * nodes and the BeamlineElements chain with its Append, Insert (mode Before),
 * RefreshPositions and ComputeFields operations. The engine itself is not part
 * of this model; these definitions state the contract the propagator relies on.
 *
 * Nodes are kept in a store indexed by NodeId, and a node's Parent is an id,
 * so that an assignment `node.Parent = other` becomes an update of the store.
 */
module Fundation {
  import opened Wrappers
  import opened Wavefront1D
  import opened DummyOptics

  type NodeId = nat

  /** ComputationSettings.UseCustomSampling and ComputationSettings.NSamples. */
  datatype ComputationSettings = ComputationSettings(UseCustomSampling: bool, NSamples: int)

  /** The settings a freshly built node starts with. */
  const DefaultSettings := ComputationSettings(false, 0)

  /** The optics object a node wraps: none, a DummyElement, or a physical element of the engine. */
  datatype CoreElement = NoElement | Dummy(mask: DummyElement) | PhysicalElement(kind: string)

  /**
   * An OpticalElement node. IsMirrorElliptic says whether the node object
   * itself is an instance of Optics.MirrorElliptic.
   */
  datatype OpticalElement = OpticalElement(
    Name: string,
    IsSource: bool,
    IsMirrorElliptic: bool,
    Element: CoreElement,
    Parent: Option<NodeId>,
    ComputationSettings: ComputationSettings,
    ComputationResults: Option<ComputationResults>)

  /** The engine operations whose effects are outside this model, recorded in call order. */
  datatype EngineCall = RefreshPositions | ComputeFields(oeStart: NodeId, oeEnd: NodeId, NPools: int)

  /**
   * A BeamlineElements value: the node store, the chain order (index 0 is the
   * most upstream element), the next free id, ComputationSettings.NPools and
   * the log of engine calls.
   */
  datatype Engine = Engine(
    Nodes: map<NodeId, OpticalElement>,
    Elements: seq<NodeId>,
    NextId: nat,
    NPools: int,
    Calls: seq<EngineCall>)

  /**
   * The chain invariant: ids are allocated below NextId, the chain and every
   * Parent link point into the store, no node is in the chain twice, and every
   * element after the first has its chain predecessor as Parent (the first
   * element may have no Parent or a detached one).
   */
  ghost predicate ChainValid(st: Engine)
  {
    && (forall id :: id in st.Nodes ==> id < st.NextId)
    && (forall i :: 0 <= i < |st.Elements| ==> st.Elements[i] in st.Nodes)
    && (forall id :: id in st.Nodes && st.Nodes[id].Parent.Some? ==> st.Nodes[id].Parent.value in st.Nodes)
    && (forall i, j :: 0 <= i < j < |st.Elements| ==> st.Elements[i] != st.Elements[j])
    && (forall i {:trigger st.Nodes[st.Elements[i]]} :: 0 < i < |st.Elements| ==> st.Nodes[st.Elements[i]].Parent == Some(st.Elements[i - 1]))
  }

  /** An element of a valid chain without a Parent is the chain's first element. */
  lemma ParentlessIsHead(st: Engine, id: NodeId)
    requires ChainValid(st) && id in st.Elements && st.Nodes[id].Parent.None?
    ensures st.Elements[0] == id
  {
    var k :| 0 <= k < |st.Elements| && st.Elements[k] == id;
    assert st.Nodes[st.Elements[k]].Parent.None?;
  }

  /** The engine's lookup of ExistingName: the first chain position holding a node of that name. */
  function FirstIndexNamed(elements: seq<NodeId>, nodes: map<NodeId, OpticalElement>, name: string): (k: Option<nat>)
    requires forall i :: 0 <= i < |elements| ==> elements[i] in nodes
    ensures k.Some? ==> k.value < |elements| && nodes[elements[k.value]].Name == name
    ensures k.Some? ==> forall j :: 0 <= j < k.value ==> nodes[elements[j]].Name != name
    ensures k.None? ==> forall j :: 0 <= j < |elements| ==> nodes[elements[j]].Name != name
    decreases |elements|
  {
    if |elements| == 0 then None
    else if nodes[elements[0]].Name == name then Some(0)
    else match FirstIndexNamed(elements[1..], nodes, name)
      case None => None
      case Some(k) => Some(k + 1)
  }

  /** Fundation.OpticalElement(...): a new node, in no chain and with no Parent, under the next free id. */
  function AfterNew(st: Engine, node: OpticalElement): (r: (Engine, NodeId))
    requires ChainValid(st)
    ensures ChainValid(r.0)
    ensures r.1 == st.NextId && r.1 !in st.Nodes && r.0.NextId == st.NextId + 1
    ensures r.0.Nodes.Keys == st.Nodes.Keys + {r.1}
    ensures r.0.Nodes[r.1] == node.(Parent := None)
    ensures forall id :: id in st.Nodes ==> r.0.Nodes[id] == st.Nodes[id]
    ensures r.0.Elements == st.Elements && r.0.NPools == st.NPools && r.0.Calls == st.Calls
  {
    (st.(Nodes := st.Nodes[st.NextId := node.(Parent := None)], NextId := st.NextId + 1), st.NextId)
  }

  /** Assignment of a node's Parent attribute; it keeps the chain valid only on the chain's first element or off the chain. */
  function SetParent(st: Engine, id: NodeId, parent: NodeId): (r: Engine)
    requires ChainValid(st) && id in st.Nodes && parent in st.Nodes
    requires id in st.Elements ==> st.Elements[0] == id
    ensures ChainValid(r)
    ensures r.Nodes == st.Nodes[id := st.Nodes[id].(Parent := Some(parent))]
    ensures r.Elements == st.Elements && r.NextId == st.NextId && r.NPools == st.NPools && r.Calls == st.Calls
  {
    var r := st.(Nodes := st.Nodes[id := st.Nodes[id].(Parent := Some(parent))]);
    assert forall i :: 0 < i < |st.Elements| ==> st.Elements[i] != id;
    r
  }

  /** Assignment of a node's ComputationResults attribute. */
  function SetResults(st: Engine, id: NodeId, results: Option<ComputationResults>): (r: Engine)
    requires ChainValid(st) && id in st.Nodes
    ensures ChainValid(r)
    ensures r.Nodes == st.Nodes[id := st.Nodes[id].(ComputationResults := results)]
    ensures r.Elements == st.Elements && r.NextId == st.NextId && r.NPools == st.NPools && r.Calls == st.Calls
  {
    st.(Nodes := st.Nodes[id := st.Nodes[id].(ComputationResults := results)])
  }

  /** Assignment of a node's ComputationSettings.UseCustomSampling and ComputationSettings.NSamples. */
  function SetSampling(st: Engine, id: NodeId, useCustomSampling: bool, nSamples: int): (r: Engine)
    requires ChainValid(st) && id in st.Nodes
    ensures ChainValid(r)
    ensures r.Nodes == st.Nodes[id := st.Nodes[id].(ComputationSettings := ComputationSettings(useCustomSampling, nSamples))]
    ensures r.Elements == st.Elements && r.NextId == st.NextId && r.NPools == st.NPools && r.Calls == st.Calls
  {
    st.(Nodes := st.Nodes[id := st.Nodes[id].(ComputationSettings :=
      st.Nodes[id].ComputationSettings.(UseCustomSampling := useCustomSampling, NSamples := nSamples))])
  }

  /** BeamlineElements.Append: the node joins the tail, and the former tail (if any) becomes its Parent. */
  function AfterAppend(st: Engine, id: NodeId): (r: Engine)
    requires ChainValid(st) && id in st.Nodes && id !in st.Elements
    ensures ChainValid(r)
    ensures r.Elements == st.Elements + [id]
    ensures r.Nodes.Keys == st.Nodes.Keys
    ensures r.Nodes[id] == st.Nodes[id].(Parent := if |st.Elements| == 0 then None else Some(st.Elements[|st.Elements| - 1]))
    ensures forall other :: other in st.Nodes && other != id ==> r.Nodes[other] == st.Nodes[other]
    ensures r.NextId == st.NextId && r.NPools == st.NPools && r.Calls == st.Calls
  {
    var parent := if |st.Elements| == 0 then None else Some(st.Elements[|st.Elements| - 1]);
    var r := st.(Nodes := st.Nodes[id := st.Nodes[id].(Parent := parent)], Elements := st.Elements + [id]);
    AppendKeepsChainValid(st, id, r);
    r
  }

  lemma AppendKeepsChainValid(st: Engine, id: NodeId, r: Engine)
    requires ChainValid(st) && id in st.Nodes && id !in st.Elements
    requires r.Elements == st.Elements + [id] && r.NextId == st.NextId
    requires r.Nodes == st.Nodes[id := st.Nodes[id].(Parent := if |st.Elements| == 0 then None else Some(st.Elements[|st.Elements| - 1]))]
    ensures ChainValid(r)
  {
    var e, e' := st.Elements, r.Elements;
    assert forall i :: 0 <= i < |e| ==> e'[i] == e[i];
    assert e'[|e|] == id;
    forall i | 0 < i < |e'|
      ensures r.Nodes[e'[i]].Parent == Some(e'[i - 1])
    {
      if i < |e| {
        assert e[i] != id;
        assert st.Nodes[e[i]].Parent == Some(e[i - 1]);
      }
    }
  }

  /**
   * BeamlineElements.Insert(node, ExistingName, Mode = Before): the node goes
   * immediately before the first element named ExistingName, takes over that
   * element's Parent and becomes its Parent; with no element of that name the
   * chain is left as it was and the insertion fails.
   */
  function AfterInsert(st: Engine, id: NodeId, existingName: string): (r: Result<Engine, Exception>)
    requires ChainValid(st) && id in st.Nodes && id !in st.Elements
    ensures r.Ok? <==> FirstIndexNamed(st.Elements, st.Nodes, existingName).Some?
    ensures r.Err? ==> r.error == InsertError(existingName)
    ensures r.Ok? ==> ChainValid(r.value)
    ensures r.Ok? ==> forall x :: x in st.Elements ==> x in r.value.Elements
    ensures r.Ok? ==>
      var k := FirstIndexNamed(st.Elements, st.Nodes, existingName).value;
      var anchor := st.Elements[k];
      && r.value.Elements == st.Elements[..k] + [id] + st.Elements[k..]
      && r.value.Nodes == st.Nodes[id := st.Nodes[id].(Parent := st.Nodes[anchor].Parent)]
                                  [anchor := st.Nodes[anchor].(Parent := Some(id))]
      && r.value.NextId == st.NextId && r.value.NPools == st.NPools && r.value.Calls == st.Calls
  {
    match FirstIndexNamed(st.Elements, st.Nodes, existingName)
    case None => Err(InsertError(existingName))
    case Some(k) =>
      var anchor := st.Elements[k];
      var nodes := st.Nodes[id := st.Nodes[id].(Parent := st.Nodes[anchor].Parent)]
                           [anchor := st.Nodes[anchor].(Parent := Some(id))];
      var r := st.(Nodes := nodes, Elements := st.Elements[..k] + [id] + st.Elements[k..]);
      InsertKeepsChainValid(st, id, k, r);
      assert st.Elements == st.Elements[..k] + st.Elements[k..];
      Ok(r)
  }

  lemma InsertKeepsChainValid(st: Engine, id: NodeId, k: nat, r: Engine)
    requires ChainValid(st) && id in st.Nodes && id !in st.Elements && k < |st.Elements|
    requires r.Elements == st.Elements[..k] + [id] + st.Elements[k..]
    requires r.Nodes == st.Nodes[id := st.Nodes[id].(Parent := st.Nodes[st.Elements[k]].Parent)]
                                [st.Elements[k] := st.Nodes[st.Elements[k]].(Parent := Some(id))]
    requires r.NextId == st.NextId
    ensures ChainValid(r)
  {
    assert r.Nodes.Keys == st.Nodes.Keys;
    InsertedDistinct(st.Elements, id, k);
    forall i | 0 < i < |r.Elements|
      ensures r.Nodes[r.Elements[i]].Parent == Some(r.Elements[i - 1])
    {
      InsertedLink(st, id, k, r, i);
    }
  }

  /** Inserting a new id into a sequence without repetitions keeps it without repetitions, and keeps its members. */
  lemma InsertedDistinct(e: seq<NodeId>, id: NodeId, k: nat)
    requires k < |e| && id !in e
    requires forall i, j :: 0 <= i < j < |e| ==> e[i] != e[j]
    ensures var e' := e[..k] + [id] + e[k..];
      && (forall i, j :: 0 <= i < j < |e'| ==> e'[i] != e'[j])
      && (forall i :: 0 <= i < |e'| ==> e'[i] == id || e'[i] in e)
  {
    var e' := e[..k] + [id] + e[k..];
    forall i, j | 0 <= i < j < |e'|
      ensures e'[i] != e'[j]
    {
      if i < k && j > k {
        assert e'[i] == e[i] && e'[j] == e[j - 1];
      } else if i > k {
        assert e'[i] == e[i - 1] && e'[j] == e[j - 1];
      } else if i < k {
        assert e'[i] == e[i];
        if j < k { assert e'[j] == e[j]; }
      } else {
        assert e'[j] == e[j - 1];
      }
    }
    forall i | 0 <= i < |e'|
      ensures e'[i] == id || e'[i] in e
    {
      if i < k { assert e'[i] == e[i]; } else if i > k { assert e'[i] == e[i - 1]; }
    }
  }

  /** One Parent link of the chain after an insertion at position k. */
  lemma InsertedLink(st: Engine, id: NodeId, k: nat, r: Engine, i: nat)
    requires ChainValid(st) && id in st.Nodes && id !in st.Elements && k < |st.Elements|
    requires r.Elements == st.Elements[..k] + [id] + st.Elements[k..]
    requires r.Nodes == st.Nodes[id := st.Nodes[id].(Parent := st.Nodes[st.Elements[k]].Parent)]
                                [st.Elements[k] := st.Nodes[st.Elements[k]].(Parent := Some(id))]
    requires 0 < i < |r.Elements|
    ensures r.Elements[i] in r.Nodes && r.Nodes[r.Elements[i]].Parent == Some(r.Elements[i - 1])
  {
    var e, e' := st.Elements, r.Elements;
    if i < k {
      assert e'[i] == e[i] && e'[i - 1] == e[i - 1];
      assert e[i] != id && e[i] != e[k];
      assert st.Nodes[e[i]].Parent == Some(e[i - 1]);
    } else if i == k {
      assert e'[i] == id && e'[i - 1] == e[k - 1];
      assert st.Nodes[e[k]].Parent == Some(e[k - 1]);
    } else if i == k + 1 {
      assert e'[i] == e[k] && e'[i - 1] == id;
    } else {
      assert e'[i] == e[i - 1] && e'[i - 1] == e[i - 2];
      assert e[i - 1] != id && e[i - 1] != e[k];
      assert st.Nodes[e[i - 1]].Parent == Some(e[i - 2]);
    }
  }

  /** BeamlineElements.RefreshPositions: geometry is outside this model, so only the call is recorded. */
  function AfterRefresh(st: Engine): (r: Engine)
    requires ChainValid(st)
    ensures ChainValid(r)
    ensures r.Calls == st.Calls + [RefreshPositions]
    ensures r.Nodes == st.Nodes && r.Elements == st.Elements && r.NextId == st.NextId && r.NPools == st.NPools
  {
    st.(Calls := st.Calls + [RefreshPositions])
  }

  /**
   * BeamlineElements.ComputeFields(oeStart, oeEnd): the engine's numeric result
   * for oeEnd, `output`, is written to oeEnd, and the call is recorded with the
   * chain's NPools setting.
   */
  function AfterCompute(st: Engine, oeStart: NodeId, oeEnd: NodeId, output: ComputationResults): (r: Engine)
    requires ChainValid(st) && oeEnd in st.Nodes
    ensures ChainValid(r)
    ensures r.Calls == st.Calls + [ComputeFields(oeStart, oeEnd, st.NPools)]
    ensures r.Nodes == st.Nodes[oeEnd := st.Nodes[oeEnd].(ComputationResults := Some(output))]
    ensures r.Elements == st.Elements && r.NextId == st.NextId && r.NPools == st.NPools
  {
    SetResults(st, oeEnd, Some(output)).(Calls := st.Calls + [ComputeFields(oeStart, oeEnd, st.NPools)])
  }

  /** The engine's BeamlineElements object, whose fields the propagator and the engine update in place. */
  class BeamlineElements {
    var Nodes: map<NodeId, OpticalElement>
    var Elements: seq<NodeId>
    var NextId: nat
    var NPools: int
    var Calls: seq<EngineCall>

    function State(): Engine
      reads this
    {
      Engine(Nodes, Elements, NextId, NPools, Calls)
    }

    ghost predicate Valid()
      reads this
    {
      ChainValid(State())
    }

    /** BeamlineElements(): an empty chain; the initial NPools setting is the engine's. */
    constructor (nPools: int)
      ensures Valid()
      ensures State() == Engine(map[], [], 0, nPools, [])
    {
      Nodes, Elements, NextId, NPools, Calls := map[], [], 0, nPools, [];
    }

    method NewOpticalElement(node: OpticalElement) returns (id: NodeId)
      requires Valid()
      modifies this
      ensures Valid()
      ensures (State(), id) == AfterNew(old(State()), node)
    {
      id := NextId;
      Nodes := Nodes[id := node.(Parent := None)];
      NextId := NextId + 1;
    }

    method Append(id: NodeId)
      requires Valid() && id in Nodes && id !in Elements
      modifies this
      ensures Valid()
      ensures State() == AfterAppend(old(State()), id)
    {
      var parent := if |Elements| == 0 then None else Some(Elements[|Elements| - 1]);
      Nodes := Nodes[id := Nodes[id].(Parent := parent)];
      Elements := Elements + [id];
    }

    method Insert(id: NodeId, existingName: string) returns (r: Result<(), Exception>)
      requires Valid() && id in Nodes && id !in Elements
      modifies this
      ensures Valid()
      ensures r.Ok? ==> AfterInsert(old(State()), id, existingName) == Ok(State())
      ensures r.Err? ==> AfterInsert(old(State()), id, existingName) == Err(r.error) && State() == old(State())
    {
      var after := AfterInsert(State(), id, existingName);
      if after.Err? {
        return Err(after.error);
      }
      Nodes, Elements := after.value.Nodes, after.value.Elements;
      return Ok(());
    }

    method RefreshPositions()
      requires Valid()
      modifies this
      ensures Valid()
      ensures State() == AfterRefresh(old(State()))
    {
      Calls := Calls + [EngineCall.RefreshPositions];
    }

    method ComputeFields(oeStart: NodeId, oeEnd: NodeId, output: ComputationResults)
      requires Valid() && oeEnd in Nodes
      modifies this
      ensures Valid()
      ensures State() == AfterCompute(old(State()), oeStart, oeEnd, output)
    {
      Nodes := Nodes[oeEnd := Nodes[oeEnd].(ComputationResults := Some(output))];
      Calls := Calls + [EngineCall.ComputeFields(oeStart, oeEnd, NPools)];
    }
  }
}
