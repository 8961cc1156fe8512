/** The graph model of src/context/WorkflowContext.tsx as pure functions over a
    `Workflow`: node ids and default payloads, the connection table, the shallow
    merge of `updateNodeData`, edge insertion and `onConnect`, and the edge
    queries the code emitter reads. */
module Graph {
  import opened Types
  import opened Text

  // ---------------------------------------------------------------- node ids

  /** The id of the node created when the counter reads `n`: `{type}-{n}`. */
  function NodeId(k: NodeType, n: nat): string
  {
    Tag(k) + "-" + NatToString(n)
  }

  /** An id determines both the kind and the counter value it was made from. */
  lemma NodeIdInjective(k1: NodeType, n1: nat, k2: NodeType, n2: nat)
    requires NodeId(k1, n1) == NodeId(k2, n2)
    ensures k1 == k2 && n1 == n2
  {
    var id := NodeId(k1, n1);
    assert Tag(k1)[0] == id[0] == Tag(k2)[0];
    assert k1 == k2;
    var p := |Tag(k1)| + 1;
    assert id[p..] == NatToString(n1);
    assert NodeId(k2, n2)[p..] == NatToString(n2);
    NatToStringInjective(n1, n2);
  }

  // ---------------------------------------------------------- default payloads

  /** `type.charAt(0).toUpperCase() + type.slice(1)`. */
  function DefaultLabel(k: NodeType): (r: string)
    ensures r == match k
                 case Agent => "Agent"
                 case Runner => "Runner"
                 case FunctionTool => "FunctionTool"
                 case Guardrail => "Guardrail"
  {
    assert UpperChar('a') == 'A' && UpperChar('r') == 'R';
    assert UpperChar('f') == 'F' && UpperChar('g') == 'G';
    Capitalize(Tag(k))
  }

  const DefaultAgentInstructions: string := "You are a helpful assistant."
  const DefaultToolReturnType: string := "str"
  const DefaultToolImplementation: string :=
    "def function_name(param1: str) -> str:\n    return \"Hello, world!\""
  const DefaultGuardrailInstructions: string := "Check if the input meets the criteria."
  const DefaultGuardrailOutputType: string := "GuardrailOutput"

  /** The payload of a node created while the counter reads `n`. */
  function DefaultNodeData(k: NodeType, n: nat): (d: NodeData)
    ensures d.Kind() == k && d.displayLabel == DefaultLabel(k)
    ensures k == Agent ==>
      d == AgentData("Agent", "Agent_" + NatToString(n), "You are a helpful assistant.",
                     Some(""), "", [], [])
    ensures k == Runner ==> d == RunnerData("Runner", "", false, Some(""))
    ensures k == FunctionTool ==>
      d == FunctionToolData("FunctionTool", "function_tool_" + NatToString(n), [], "str",
                            "def function_name(param1: str) -> str:\n    return \"Hello, world!\"")
    ensures k == Guardrail ==>
      d == GuardrailData("Guardrail", "Guardrail_" + NatToString(n),
                         "Check if the input meets the criteria.", "GuardrailOutput")
  {
    var lbl := DefaultLabel(k);
    match k
    case Agent =>
      AgentData(lbl, "Agent_" + NatToString(n), DefaultAgentInstructions, Some(""), "", [], [])
    case Runner =>
      RunnerData(lbl, "", false, Some(""))
    case FunctionTool =>
      FunctionToolData(lbl, "function_tool_" + NatToString(n), [], DefaultToolReturnType,
                       DefaultToolImplementation)
    case Guardrail =>
      GuardrailData(lbl, "Guardrail_" + NatToString(n), DefaultGuardrailInstructions,
                    DefaultGuardrailOutputType)
  }

  /** Two nodes of a kind created at different counter values get different
      default names (runners have no name). */
  lemma DefaultNamesDistinct(k: NodeType, m: nat, n: nat)
    requires k != Runner && m != n
    ensures DefaultNodeData(k, m).name != DefaultNodeData(k, n).name
  {
    var prefix := match k
      case Agent => "Agent_"
      case FunctionTool => "function_tool_"
      case _ => "Guardrail_";
    if DefaultNodeData(k, m).name == DefaultNodeData(k, n).name {
      assert (prefix + NatToString(m))[|prefix|..] == NatToString(m);
      assert (prefix + NatToString(n))[|prefix|..] == NatToString(n);
      NatToStringInjective(m, n);
    }
  }

  // ---------------------------------------------------------------- look-ups

  /** `nodes.find(node => node.id === id)`: the first node with that id. */
  function FindNode(nodes: seq<Node>, id: string): (r: Option<Node>)
    ensures r.Some? ==> r.value in nodes && r.value.id == id
    ensures r.None? <==> forall i :: 0 <= i < |nodes| ==> nodes[i].id != id
  {
    if nodes == [] then None
    else if nodes[0].id == id then Some(nodes[0])
    else FindNode(nodes[1..], id)
  }

  /** The node `nodes.find` returns is the first with the id: every node before
      it has another id. */
  lemma {:induction false} FindNodeFirst(nodes: seq<Node>, id: string)
    ensures FindNode(nodes, id).Some? ==>
      exists i :: 0 <= i < |nodes| && nodes[i] == FindNode(nodes, id).value
                  && forall j :: 0 <= j < i ==> nodes[j].id != id
  {
    if nodes == [] {
    } else if nodes[0].id == id {
      assert nodes[0] == FindNode(nodes, id).value;
    } else {
      var r := FindNode(nodes[1..], id);
      FindNodeFirst(nodes[1..], id);
      if r.Some? {
        var i :| 0 <= i < |nodes[1..]| && nodes[1..][i] == r.value
                 && forall j :: 0 <= j < i ==> nodes[1..][j].id != id;
        assert nodes[i + 1] == r.value;
        forall j | 0 <= j < i + 1
          ensures nodes[j].id != id
        {
          if j > 0 {
            assert nodes[j] == nodes[1..][j - 1];
          }
        }
      }
    }
  }

  /** Appending a node does not change what an id already present resolves to. */
  lemma {:induction false} FindNodeAppend(nodes: seq<Node>, n: Node, id: string)
    ensures FindNode(nodes, id).Some? ==> FindNode(nodes + [n], id) == FindNode(nodes, id)
    ensures FindNode(nodes, id).None? ==>
      FindNode(nodes + [n], id) == if n.id == id then Some(n) else None
  {
    if nodes != [] {
      assert (nodes + [n])[1..] == nodes[1..] + [n];
      FindNodeAppend(nodes[1..], n, id);
    }
  }

  // ------------------------------------------------------------ classification

  /** The connection table of `onConnect`: first match wins, every other pair of
      kinds is refused. */
  function Classify(source: NodeType, target: NodeType): (r: Option<ConnectionType>)
    ensures r == Some(Handoff) <==> source == Agent && target == Agent
    ensures r == Some(Tool) <==> source == FunctionTool && target == Agent
    ensures r == Some(Execution) <==> source == Agent && target == Runner
  {
    if source == Agent && target == Agent then Some(Handoff)
    else if source == FunctionTool && target == Agent then Some(Tool)
    else if source == Agent && target == Runner then Some(Execution)
    else None
  }

  // ------------------------------------------------------------ shallow merge

  /** The keys a caller of `updateNodeData` may supply; `None` is a key left out.
      Keys foreign to the node's kind are ignored by `Merge`: in the source they
      land in the payload object, but nothing in the core reads them. */
  datatype Patch = Patch(
    displayLabel: Option<string>, name: Option<string>, instructions: Option<string>,
    handoffDescription: Option<string>, outputType: Option<string>,
    handoffs: Option<seq<string>>, tools: Option<seq<string>>,
    input: Option<string>, isAsync: Option<bool>, context: Option<string>,
    parameters: Option<seq<Parameter>>, returnType: Option<string>,
    implementation: Option<string>)

  const EmptyPatch: Patch :=
    Patch(None, None, None, None, None, None, None, None, None, None, None, None, None)

  function HandoffsPatch(ids: seq<string>): Patch
  {
    EmptyPatch.(handoffs := Some(ids))
  }

  function ToolsPatch(ids: seq<string>): Patch
  {
    EmptyPatch.(tools := Some(ids))
  }

  function Pick<T>(o: Option<T>, current: T): T
  {
    if o.Some? then o.value else current
  }

  function PickOptional<T>(o: Option<T>, current: Option<T>): Option<T>
  {
    if o.Some? then o else current
  }

  /** `{...data, ...patch}`: provided keys overwrite, omitted keys keep their value. */
  function Merge(d: NodeData, p: Patch): (r: NodeData)
    ensures r.Kind() == d.Kind()
    ensures r.displayLabel == Pick(p.displayLabel, d.displayLabel)
    ensures !d.RunnerData? ==> r.name == Pick(p.name, d.name)
    ensures d.AgentData? ==>
      && r.instructions == Pick(p.instructions, d.instructions)
      && r.handoffDescription == PickOptional(p.handoffDescription, d.handoffDescription)
      && r.outputType == Pick(p.outputType, d.outputType)
      && r.handoffs == Pick(p.handoffs, d.handoffs)
      && r.tools == Pick(p.tools, d.tools)
    ensures d.RunnerData? ==>
      && r.input == Pick(p.input, d.input)
      && r.isAsync == Pick(p.isAsync, d.isAsync)
      && r.context == PickOptional(p.context, d.context)
    ensures d.FunctionToolData? ==>
      && r.parameters == Pick(p.parameters, d.parameters)
      && r.returnType == Pick(p.returnType, d.returnType)
      && r.implementation == Pick(p.implementation, d.implementation)
    ensures d.GuardrailData? ==>
      && r.instructions == Pick(p.instructions, d.instructions)
      && r.outputType == Pick(p.outputType, d.outputType)
  {
    var lbl := Pick(p.displayLabel, d.displayLabel);
    match d
    case AgentData(_, name, instructions, handoffDescription, outputType, handoffs, tools) =>
      AgentData(lbl, Pick(p.name, name), Pick(p.instructions, instructions),
                PickOptional(p.handoffDescription, handoffDescription),
                Pick(p.outputType, outputType), Pick(p.handoffs, handoffs), Pick(p.tools, tools))
    case RunnerData(_, input, isAsync, context) =>
      RunnerData(lbl, Pick(p.input, input), Pick(p.isAsync, isAsync),
                 PickOptional(p.context, context))
    case FunctionToolData(_, name, parameters, returnType, implementation) =>
      FunctionToolData(lbl, Pick(p.name, name), Pick(p.parameters, parameters),
                       Pick(p.returnType, returnType), Pick(p.implementation, implementation))
    case GuardrailData(_, name, instructions, outputType) =>
      GuardrailData(lbl, Pick(p.name, name), Pick(p.instructions, instructions),
                    Pick(p.outputType, outputType))
  }

  /** Patch `q` applied after patch `p`, as one patch: `q`'s keys win. */
  function Then(p: Patch, q: Patch): Patch
  {
    Patch(PickOptional(q.displayLabel, p.displayLabel), PickOptional(q.name, p.name),
          PickOptional(q.instructions, p.instructions),
          PickOptional(q.handoffDescription, p.handoffDescription),
          PickOptional(q.outputType, p.outputType), PickOptional(q.handoffs, p.handoffs),
          PickOptional(q.tools, p.tools), PickOptional(q.input, p.input),
          PickOptional(q.isAsync, p.isAsync), PickOptional(q.context, p.context),
          PickOptional(q.parameters, p.parameters), PickOptional(q.returnType, p.returnType),
          PickOptional(q.implementation, p.implementation))
  }

  /** The merge laws of object spread: the empty patch changes nothing, two merges
      are one merge of the combined patch, and re-applying a patch changes nothing. */
  lemma MergeLaws(d: NodeData, p: Patch, q: Patch)
    ensures Merge(d, EmptyPatch) == d
    ensures Merge(Merge(d, p), q) == Merge(d, Then(p, q))
    ensures Merge(Merge(d, p), p) == Merge(d, p)
  {
  }

  /** `nds.map(node => node.id === id ? {...node, data: {...node.data, ...p}} : node)`. */
  function UpdateNodes(nodes: seq<Node>, id: string, p: Patch): (r: seq<Node>)
    ensures |r| == |nodes|
    ensures forall i :: 0 <= i < |nodes| ==>
      && r[i].id == nodes[i].id && r[i].position == nodes[i].position
      && r[i].data == (if nodes[i].id == id then Merge(nodes[i].data, p) else nodes[i].data)
  {
    if nodes == [] then []
    else
      var n := nodes[0];
      var n' := if n.id == id then Node(n.id, n.position, Merge(n.data, p)) else n;
      [n'] + UpdateNodes(nodes[1..], id, p)
  }

  /** An id that matches no node leaves the list as it is. */
  lemma UpdateUnknownId(nodes: seq<Node>, id: string, p: Patch)
    requires forall i :: 0 <= i < |nodes| ==> nodes[i].id != id
    ensures UpdateNodes(nodes, id, p) == nodes
  {
  }

  /** After an update every id resolves to a node of the same kind as before,
      whose payload is the old one merged with `p` when the id is the updated one. */
  lemma {:induction false} FindNodeAfterUpdate(nodes: seq<Node>, id: string, p: Patch, x: string)
    ensures FindNode(UpdateNodes(nodes, id, p), x).Some? == FindNode(nodes, x).Some?
    ensures FindNode(nodes, x).Some? ==>
      var before := FindNode(nodes, x).value;
      var after := FindNode(UpdateNodes(nodes, id, p), x).value;
      && after.id == before.id && after.position == before.position
      && after.data == (if x == id then Merge(before.data, p) else before.data)
  {
    if nodes != [] {
      FindNodeAfterUpdate(nodes[1..], id, p, x);
      assert UpdateNodes(nodes, id, p)[1..] == UpdateNodes(nodes[1..], id, p);
    }
  }

  // ------------------------------------------------------------------ edges

  predicate HasPair(edges: seq<Edge>, source: string, target: string)
  {
    exists i :: 0 <= i < |edges| && edges[i].source == source && edges[i].target == target
  }

  /** At most one edge per ordered (source, target) pair. */
  predicate UniquePairs(edges: seq<Edge>)
  {
    forall i, j :: 0 <= i < j < |edges| ==>
      !(edges[i].source == edges[j].source && edges[i].target == edges[j].target)
  }

  /** reactflow's `addEdge`: the edge is appended unless an edge with the same
      source and target is already there, in which case nothing changes. */
  function AddEdge(edges: seq<Edge>, e: Edge): (r: seq<Edge>)
    ensures HasPair(r, e.source, e.target)
    ensures r == if HasPair(edges, e.source, e.target) then edges else edges + [e]
    ensures UniquePairs(edges) ==> UniquePairs(r)
  {
    if HasPair(edges, e.source, e.target) then edges
    else
      assert (edges + [e])[|edges|] == e;
      edges + [e]
  }

  /** The edge id `e{source}-{target}`. */
  function EdgeId(source: string, target: string): string
  {
    "e" + source + "-" + target
  }

  /** Targets of the Handoff edges leaving `id`, in edge order (the emitter's
      `handoffs` query). */
  function HandoffTargets(edges: seq<Edge>, id: string): (r: seq<string>)
    ensures forall x :: x in r <==>
      exists i :: 0 <= i < |edges| && edges[i].source == id
                  && edges[i].connectionType == Handoff && edges[i].target == x
  {
    if edges == [] then []
    else
      var rest := HandoffTargets(edges[1..], id);
      assert forall i :: 1 <= i < |edges| ==> edges[i] == edges[1..][i - 1];
      if edges[0].source == id && edges[0].connectionType == Handoff
      then [edges[0].target] + rest else rest
  }

  /** Sources of the Tool edges entering `id`, in edge order (the emitter's
      `tools` query). */
  function ToolSources(edges: seq<Edge>, id: string): (r: seq<string>)
    ensures forall x :: x in r <==>
      exists i :: 0 <= i < |edges| && edges[i].target == id
                  && edges[i].connectionType == Tool && edges[i].source == x
  {
    if edges == [] then []
    else
      var rest := ToolSources(edges[1..], id);
      assert forall i :: 1 <= i < |edges| ==> edges[i] == edges[1..][i - 1];
      if edges[0].target == id && edges[0].connectionType == Tool
      then [edges[0].source] + rest else rest
  }

  /** The handoff query reads the edge list front to back: the targets of a
      concatenation are the targets of each part in turn, and a single edge
      contributes its target exactly when it is a Handoff leaving `id`. */
  lemma {:induction false} HandoffTargetsAppend(e1: seq<Edge>, e2: seq<Edge>, id: string)
    ensures HandoffTargets(e1 + e2, id) == HandoffTargets(e1, id) + HandoffTargets(e2, id)
    ensures |e1| == 1 ==>
      HandoffTargets(e1, id) == if e1[0].source == id && e1[0].connectionType == Handoff then [e1[0].target] else []
  {
    if e1 != [] {
      assert (e1 + e2)[0] == e1[0];
      assert (e1 + e2)[1..] == e1[1..] + e2;
      HandoffTargetsAppend(e1[1..], e2, id);
    } else {
      assert e1 + e2 == e2;
    }
  }

  /** The tool query reads the edge list front to back: the sources of a
      concatenation are the sources of each part in turn, and a single edge
      contributes its source exactly when it is a Tool edge entering `id`. */
  lemma {:induction false} ToolSourcesAppend(e1: seq<Edge>, e2: seq<Edge>, id: string)
    ensures ToolSources(e1 + e2, id) == ToolSources(e1, id) + ToolSources(e2, id)
    ensures |e1| == 1 ==>
      ToolSources(e1, id) == if e1[0].target == id && e1[0].connectionType == Tool then [e1[0].source] else []
  {
    if e1 != [] {
      assert (e1 + e2)[0] == e1[0];
      assert (e1 + e2)[1..] == e1[1..] + e2;
      ToolSourcesAppend(e1[1..], e2, id);
    } else {
      assert e1 + e2 == e2;
    }
  }

  // ---------------------------------------------------------------- connect

  /** What `onConnect` decides for a connection: the kind of edge it creates,
      or `None` when it returns without doing anything (an end missing or empty,
      an id not found, or a pair of kinds outside the table). */
  function Classified(w: Workflow, c: Connection): Option<ConnectionType>
  {
    if c.source.None? || c.target.None? || c.source.value == "" || c.target.value == "" then None
    else
      var sn, tn := FindNode(w.nodes, c.source.value), FindNode(w.nodes, c.target.value);
      if sn.None? || tn.None? then None
      else Classify(sn.value.data.Kind(), tn.value.data.Kind())
  }

  /** `onConnect`: add the classified edge, then append the target to the source
      agent's cached `handoffs` (Handoff) or the source to the target agent's
      cached `tools` (Tool). The cached lists grow even when the edge was there. */
  function Connect(w: Workflow, c: Connection): Workflow
  {
    match Classified(w, c)
    case None => w
    case Some(ct) =>
      var s, t := c.source.value, c.target.value;
      var sn, tn := FindNode(w.nodes, s).value, FindNode(w.nodes, t).value;
      var edges := AddEdge(w.edges, Edge(EdgeId(s, t), s, t, ct));
      var nodes :=
        if ct == Handoff then UpdateNodes(w.nodes, sn.id, HandoffsPatch(sn.data.handoffs + [tn.id]))
        else if ct == Tool then UpdateNodes(w.nodes, tn.id, ToolsPatch(tn.data.tools + [sn.id]))
        else w.nodes;
      Workflow(nodes, edges)
  }

  /** A refused connection changes nothing; an accepted one leaves exactly one
      edge for its pair, the new one (id `e{source}-{target}`, the classified
      type) appended at the end when the pair was not connected before. */
  lemma ConnectEdges(w: Workflow, c: Connection)
    ensures Classified(w, c).None? ==> Connect(w, c) == w
    ensures Classified(w, c).Some? ==>
      var s, t := c.source.value, c.target.value;
      && HasPair(Connect(w, c).edges, s, t)
      && Connect(w, c).edges ==
           if HasPair(w.edges, s, t) then w.edges
           else w.edges + [Edge(EdgeId(s, t), s, t, Classified(w, c).value)]
    ensures UniquePairs(w.edges) ==> UniquePairs(Connect(w, c).edges)
  {
  }

  /** The node list after an accepted connection, spelled out per edge type. */
  lemma ConnectUnfold(w: Workflow, c: Connection)
    requires Classified(w, c).Some?
    ensures
      var s, t, ct := c.source.value, c.target.value, Classified(w, c).value;
      var sn, tn := FindNode(w.nodes, s).value, FindNode(w.nodes, t).value;
      && sn.id == s && tn.id == t
      && (ct == Handoff ==> sn.data.AgentData? && tn.data.AgentData?)
      && (ct == Tool ==> sn.data.FunctionToolData? && tn.data.AgentData?)
      && (ct == Execution ==> sn.data.AgentData? && tn.data.RunnerData?)
      && Connect(w, c).edges == AddEdge(w.edges, Edge(EdgeId(s, t), s, t, ct))
      && Connect(w, c).nodes ==
           match ct
           case Handoff => UpdateNodes(w.nodes, s, HandoffsPatch(sn.data.handoffs + [t]))
           case Tool => UpdateNodes(w.nodes, t, ToolsPatch(tn.data.tools + [s]))
           case Execution => w.nodes
  {
  }

  /** Connect changes node payloads only as the table says: a Handoff appends the
      target id to the source agent's `handoffs`, a Tool appends the source id to
      the target agent's `tools`, and nothing else in any node changes. */
  lemma ConnectNodes(w: Workflow, c: Connection, i: nat)
    requires i < |w.nodes|
    ensures |Connect(w, c).nodes| == |w.nodes|
    ensures Connect(w, c).nodes[i].id == w.nodes[i].id
    ensures
      var d := w.nodes[i].data;
      Connect(w, c).nodes[i].data ==
        if Classified(w, c) == Some(Handoff) && w.nodes[i].id == c.source.value && d.AgentData?
        then d.(handoffs := FindNode(w.nodes, c.source.value).value.data.handoffs + [c.target.value])
        else if Classified(w, c) == Some(Tool) && w.nodes[i].id == c.target.value && d.AgentData?
        then d.(tools := FindNode(w.nodes, c.target.value).value.data.tools + [c.source.value])
        else d
  {
    if Classified(w, c).Some? {
      ConnectUnfold(w, c);
      var s, t, ct := c.source.value, c.target.value, Classified(w, c).value;
      var sn, tn := FindNode(w.nodes, s).value, FindNode(w.nodes, t).value;
      var d := w.nodes[i].data;
      if ct == Handoff {
        var u := UpdateNodes(w.nodes, s, HandoffsPatch(sn.data.handoffs + [t]));
        assert Connect(w, c).nodes == u;
        assert u[i].data == if w.nodes[i].id == s then Merge(d, HandoffsPatch(sn.data.handoffs + [t])) else d;
        MergeCachePatches(d, sn.data.handoffs + [t], []);
      } else if ct == Tool {
        var u := UpdateNodes(w.nodes, t, ToolsPatch(tn.data.tools + [s]));
        assert Connect(w, c).nodes == u;
        assert u[i].data == if w.nodes[i].id == t then Merge(d, ToolsPatch(tn.data.tools + [s])) else d;
        MergeCachePatches(d, [], tn.data.tools + [s]);
      }
    }
  }

  /** Merging a patch of one cached list replaces that list on an agent and
      leaves every other payload as it is. */
  lemma MergeCachePatches(d: NodeData, handoffs: seq<string>, tools: seq<string>)
    ensures Merge(d, HandoffsPatch(handoffs)) == if d.AgentData? then d.(handoffs := handoffs) else d
    ensures Merge(d, ToolsPatch(tools)) == if d.AgentData? then d.(tools := tools) else d
  {
  }

  /** Two node lists that resolve the same ids to nodes of the same kinds. */
  ghost predicate SameShape(nodes: seq<Node>, nodes': seq<Node>)
  {
    forall x: string ::
      && FindNode(nodes', x).Some? == FindNode(nodes, x).Some?
      && (FindNode(nodes, x).Some? ==>
            FindNode(nodes', x).value.data.Kind() == FindNode(nodes, x).value.data.Kind())
  }

  /** Updating payloads changes no id and no kind. */
  lemma UpdateSameShape(nodes: seq<Node>, id: string, p: Patch)
    ensures SameShape(nodes, UpdateNodes(nodes, id, p))
  {
    forall x: string
      ensures FindNode(UpdateNodes(nodes, id, p), x).Some? == FindNode(nodes, x).Some?
      ensures FindNode(nodes, x).Some? ==>
        FindNode(UpdateNodes(nodes, id, p), x).value.data.Kind() == FindNode(nodes, x).value.data.Kind()
    {
      FindNodeAfterUpdate(nodes, id, p, x);
    }
  }

  /** Connect decides a connection only from the ids and kinds of the nodes. */
  lemma ClassifiedSameShape(w: Workflow, w': Workflow, c: Connection)
    requires SameShape(w.nodes, w'.nodes)
    ensures Classified(w', c) == Classified(w, c)
  {
    if c.source.Some? && c.target.Some? {
      assert FindNode(w'.nodes, c.source.value).Some? == FindNode(w.nodes, c.source.value).Some?;
      assert FindNode(w'.nodes, c.target.value).Some? == FindNode(w.nodes, c.target.value).Some?;
    }
  }

  /** Connect changes no id and no kind. */
  lemma ConnectSameShape(w: Workflow, c: Connection)
    ensures SameShape(w.nodes, Connect(w, c).nodes)
  {
    if Classified(w, c).Some? {
      ConnectUnfold(w, c);
      var s, t := c.source.value, c.target.value;
      var sn, tn := FindNode(w.nodes, s).value, FindNode(w.nodes, t).value;
      match Classified(w, c).value
      case Handoff => UpdateSameShape(w.nodes, s, HandoffsPatch(sn.data.handoffs + [t]));
      case Tool => UpdateSameShape(w.nodes, t, ToolsPatch(tn.data.tools + [s]));
      case Execution =>
    }
  }

  /** The cached `handoffs` of the agent an id resolves to (empty otherwise). */
  function CachedHandoffs(nodes: seq<Node>, id: string): seq<string>
  {
    match FindNode(nodes, id)
    case Some(n) => if n.data.AgentData? then n.data.handoffs else []
    case None => []
  }

  /** A Handoff appends the target id to the cached `handoffs` of the agent the
      source id resolves to. */
  lemma ConnectHandoffCache(w: Workflow, c: Connection)
    requires Classified(w, c) == Some(Handoff)
    ensures CachedHandoffs(Connect(w, c).nodes, c.source.value)
            == CachedHandoffs(w.nodes, c.source.value) + [c.target.value]
  {
    var s, t := c.source.value, c.target.value;
    ConnectUnfold(w, c);
    FindNodeAfterUpdate(w.nodes, s, HandoffsPatch(CachedHandoffs(w.nodes, s) + [t]), s);
  }

  /** Connect does not change how a connection is classified. */
  lemma ConnectKeepsClassification(w: Workflow, c: Connection, c': Connection)
    ensures Classified(Connect(w, c), c') == Classified(w, c')
  {
    ConnectSameShape(w, c);
    ClassifiedSameShape(w, Connect(w, c), c');
  }

  /** Reconnecting a pair leaves the edge list as it is: one edge per pair. */
  lemma ConnectReconnect(w: Workflow, c: Connection)
    ensures Connect(Connect(w, c), c).edges == Connect(w, c).edges
  {
    var w1 := Connect(w, c);
    ConnectKeepsClassification(w, c, c);
    if Classified(w, c).Some? {
      var s, t := c.source.value, c.target.value;
      assert HasPair(w1.edges, s, t) by {
        ConnectUnfold(w, c);
      }
      ConnectUnfold(w1, c);
    }
  }

  /** Connecting a Handoff pair that is already connected adds no edge, yet
      still appends the target to the source agent's cached `handoffs`, which
      then records it twice. */
  lemma ConnectAgain(w: Workflow, c: Connection)
    requires Classified(w, c) == Some(Handoff)
    requires HasPair(w.edges, c.source.value, c.target.value)
    requires c.target.value in CachedHandoffs(w.nodes, c.source.value)
    ensures Connect(w, c).edges == w.edges
    ensures CachedHandoffs(Connect(w, c).nodes, c.source.value)
            == CachedHandoffs(w.nodes, c.source.value) + [c.target.value]
    ensures multiset(CachedHandoffs(Connect(w, c).nodes, c.source.value))[c.target.value] >= 2
  {
    var h, t := CachedHandoffs(w.nodes, c.source.value), c.target.value;
    ConnectHandoffCache(w, c);
    assert multiset(h + [t])[t] == multiset(h)[t] + 1;
  }

  // ------------------------------------------------------------- invariants

  /** Every edge joins two existing nodes whose kinds the table maps to the
      edge's type: what edges created by `Connect` look like. */
  predicate WellKinded(w: Workflow)
  {
    forall i :: 0 <= i < |w.edges| ==>
      var e := w.edges[i];
      && FindNode(w.nodes, e.source).Some? && FindNode(w.nodes, e.target).Some?
      && Classify(FindNode(w.nodes, e.source).value.data.Kind(),
                  FindNode(w.nodes, e.target).value.data.Kind()) == Some(e.connectionType)
  }

  /** Well-kindedness depends only on the ids and kinds of the nodes. */
  lemma WellKindedSameShape(nodes: seq<Node>, nodes': seq<Node>, edges: seq<Edge>)
    requires SameShape(nodes, nodes') && WellKinded(Workflow(nodes, edges))
    ensures WellKinded(Workflow(nodes', edges))
  {
    forall i | 0 <= i < |edges|
      ensures FindNode(nodes', edges[i].source).Some? && FindNode(nodes', edges[i].target).Some?
      ensures Classify(FindNode(nodes', edges[i].source).value.data.Kind(),
                       FindNode(nodes', edges[i].target).value.data.Kind())
              == Some(edges[i].connectionType)
    {
      assert FindNode(nodes, edges[i].source).Some? && FindNode(nodes, edges[i].target).Some?;
    }
  }

  /** Adding an edge whose ends exist and whose kinds the table maps to its
      type keeps every edge well-kinded. */
  lemma AddEdgeWellKinded(w: Workflow, e: Edge)
    requires WellKinded(w)
    requires FindNode(w.nodes, e.source).Some? && FindNode(w.nodes, e.target).Some?
    requires Classify(FindNode(w.nodes, e.source).value.data.Kind(),
                      FindNode(w.nodes, e.target).value.data.Kind()) == Some(e.connectionType)
    ensures WellKinded(Workflow(w.nodes, AddEdge(w.edges, e)))
  {
    var edges := AddEdge(w.edges, e);
    forall i | 0 <= i < |edges|
      ensures FindNode(w.nodes, edges[i].source).Some? && FindNode(w.nodes, edges[i].target).Some?
      ensures Classify(FindNode(w.nodes, edges[i].source).value.data.Kind(),
                       FindNode(w.nodes, edges[i].target).value.data.Kind())
              == Some(edges[i].connectionType)
    {
      if i < |w.edges| {
        assert edges[i] == w.edges[i];
      }
    }
  }

  /** Connect keeps every edge well-kinded. */
  lemma ConnectWellKinded(w: Workflow, c: Connection)
    requires WellKinded(w)
    ensures WellKinded(Connect(w, c))
  {
    if Classified(w, c).Some? {
      var s, t, ct := c.source.value, c.target.value, Classified(w, c).value;
      ConnectUnfold(w, c);
      var e := Edge(EdgeId(s, t), s, t, ct);
      AddEdgeWellKinded(w, e);
      ConnectSameShape(w, c);
      WellKindedSameShape(w.nodes, Connect(w, c).nodes, AddEdge(w.edges, e));
    }
  }

  /** Updating a node's payload keeps every edge well-kinded. */
  lemma UpdateWellKinded(w: Workflow, id: string, p: Patch)
    requires WellKinded(w)
    ensures WellKinded(Workflow(UpdateNodes(w.nodes, id, p), w.edges))
  {
    UpdateSameShape(w.nodes, id, p);
    WellKindedSameShape(w.nodes, UpdateNodes(w.nodes, id, p), w.edges);
  }

  /** Appending a node keeps every edge well-kinded. */
  lemma AppendWellKinded(w: Workflow, n: Node)
    requires WellKinded(w)
    ensures WellKinded(Workflow(w.nodes + [n], w.edges))
  {
    forall x: string | FindNode(w.nodes, x).Some?
      ensures FindNode(w.nodes + [n], x) == FindNode(w.nodes, x)
    {
      FindNodeAppend(w.nodes, n, x);
    }
  }
}
