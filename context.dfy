/** The state held by the workflow provider of src/context/WorkflowContext.tsx:
    the node list, the edge list and the node-id counter, changed in place by
    `addNode`, `updateNodeData` and `onConnect`, and read by `generateCode`. */
module Context {
  import opened Types
  import opened Text
  import opened Graph
  import opened Emitter

  // ------------------------------------------------------------ id discipline

  /** No two nodes share an id. */
  predicate UniqueIds(nodes: seq<Node>)
  {
    forall i, j :: 0 <= i < j < |nodes| ==> nodes[i].id != nodes[j].id
  }

  /** No node carries an id the counter has yet to hand out. */
  ghost predicate IdsBelow(nodes: seq<Node>, counter: nat)
  {
    forall i, k, n: nat :: 0 <= i < |nodes| && nodes[i].id == NodeId(k, n) ==> n < counter
  }

  /** The node `addNode` creates while the counter reads `counter` has an id
      no present node has, and appending it keeps the ids unique and below the
      incremented counter. */
  lemma AppendFreshNode(nodes: seq<Node>, counter: nat, k: NodeType, position: Position)
    requires UniqueIds(nodes) && IdsBelow(nodes, counter)
    ensures FindNode(nodes, NodeId(k, counter)).None?
    ensures
      var added := Node(NodeId(k, counter), position, DefaultNodeData(k, counter));
      UniqueIds(nodes + [added]) && IdsBelow(nodes + [added], counter + 1)
  {
    var added := Node(NodeId(k, counter), position, DefaultNodeData(k, counter));
    var nodes' := nodes + [added];
    forall i, k', n': nat | 0 <= i < |nodes'| && nodes'[i].id == NodeId(k', n')
      ensures n' < counter + 1
    {
      if i == |nodes| {
        NodeIdInjective(k, counter, k', n');
      } else {
        assert nodes'[i] == nodes[i];
      }
    }
    forall i, j | 0 <= i < j < |nodes'|
      ensures nodes'[i].id != nodes'[j].id
    {
      assert nodes'[i] == nodes[i];
      if j < |nodes| {
        assert nodes'[j] == nodes[j];
      }
    }
  }

  /** Two node lists with the same ids at the same positions. */
  predicate SameIds(nodes: seq<Node>, nodes': seq<Node>)
  {
    |nodes'| == |nodes| && forall i :: 0 <= i < |nodes| ==> nodes'[i].id == nodes[i].id
  }

  /** The id discipline depends only on the ids, position by position. */
  lemma SameIdsDiscipline(nodes: seq<Node>, nodes': seq<Node>, counter: nat)
    requires SameIds(nodes, nodes')
    ensures UniqueIds(nodes') == UniqueIds(nodes)
    ensures IdsBelow(nodes', counter) == IdsBelow(nodes, counter)
  {
  }

  /** A connection changes no node id. */
  lemma ConnectSameIds(w: Workflow, c: Connection)
    ensures SameIds(w.nodes, Connect(w, c).nodes)
  {
    forall i | 0 <= i < |w.nodes|
      ensures Connect(w, c).nodes[i].id == w.nodes[i].id
    {
      ConnectNodes(w, c, i);
    }
  }

  // ------------------------------------------------------------------ state

  class WorkflowContext {
    var nodes: seq<Node>
    var edges: seq<Edge>
    /** The next number `addNode` puts into an id. */
    var nodeIdCounter: nat

    /** Ids are unique and older than the counter, every edge joins two nodes
        the connection table allows, and no pair of nodes has two edges. */
    ghost predicate Valid()
      reads this
    {
      && 1 <= nodeIdCounter
      && UniqueIds(nodes) && IdsBelow(nodes, nodeIdCounter)
      && WellKinded(Workflow(nodes, edges)) && UniquePairs(edges)
    }

    /** An empty canvas; the counter starts at 1. */
    constructor ()
      ensures Valid()
      ensures nodes == [] && edges == [] && nodeIdCounter == 1
    {
      nodes := [];
      edges := [];
      nodeIdCounter := 1;
    }

    /** `addNode`: a node of kind `k` with id `{k}-{n}` and the default payload
        for `n` is appended, where `n` is the counter, which then moves on by
        one; the id was not in use. */
    method AddNode(k: NodeType, position: Position)
      requires Valid()
      modifies this
      ensures Valid()
      ensures FindNode(old(nodes), NodeId(k, old(nodeIdCounter))).None?
      ensures nodes == old(nodes) + [Node(NodeId(k, old(nodeIdCounter)), position,
                                          DefaultNodeData(k, old(nodeIdCounter)))]
      ensures nodeIdCounter == old(nodeIdCounter) + 1
      ensures edges == old(edges)
    {
      var newNode := Node(NodeId(k, nodeIdCounter), position, DefaultNodeData(k, nodeIdCounter));
      AppendFreshNode(nodes, nodeIdCounter, k, position);
      AppendWellKinded(Workflow(nodes, edges), newNode);
      nodeIdCounter := nodeIdCounter + 1;
      nodes := nodes + [newNode];
    }

    /** `updateNodeData`: the payload of the node with id `id` is merged with
        `p`; every other node, the edges and the counter stay as they were. */
    method UpdateNodeData(id: string, p: Patch)
      requires Valid()
      modifies this
      ensures Valid()
      ensures nodes == UpdateNodes(old(nodes), id, p)
      ensures edges == old(edges) && nodeIdCounter == old(nodeIdCounter)
    {
      UpdateWellKinded(Workflow(nodes, edges), id, p);
      SameIdsDiscipline(nodes, UpdateNodes(nodes, id, p), nodeIdCounter);
      nodes := UpdateNodes(nodes, id, p);
    }

    /** `onConnect`: the graph becomes `Connect` of the old graph; the counter
        does not move. */
    method OnConnect(c: Connection)
      requires Valid()
      modifies this
      ensures Valid()
      ensures Workflow(nodes, edges) == Connect(old(Workflow(nodes, edges)), c)
      ensures nodeIdCounter == old(nodeIdCounter)
    {
      ghost var w := Workflow(nodes, edges);
      if c.source.None? || c.target.None? || c.source.value == "" || c.target.value == "" {
        return;
      }
      var s, t := c.source.value, c.target.value;
      var sourceNode, targetNode := FindNode(nodes, s), FindNode(nodes, t);
      if sourceNode.None? || targetNode.None? {
        return;
      }
      var sn, tn := sourceNode.value, targetNode.value;
      var connectionType: ConnectionType;
      if sn.data.Kind() == Agent && tn.data.Kind() == Agent {
        connectionType := Handoff;
      } else if sn.data.Kind() == FunctionTool && tn.data.Kind() == Agent {
        connectionType := Tool;
      } else if sn.data.Kind() == Agent && tn.data.Kind() == Runner {
        connectionType := Execution;
      } else {
        return;
      }
      var newEdge := Edge(EdgeId(s, t), s, t, connectionType);
      AddEdgeWellKinded(w, newEdge);
      edges := AddEdge(edges, newEdge);
      if connectionType == Handoff {
        UpdateNodeData(sn.id, HandoffsPatch(sn.data.handoffs + [tn.id]));
      } else if connectionType == Tool {
        UpdateNodeData(tn.id, ToolsPatch(tn.data.tools + [sn.id]));
      }
    }

    /** `generateCode`: the text is accumulated piece by piece over the four
        groups of nodes, and is the program `Generate` describes; the graph is
        left untouched. */
    method GenerateCode() returns (code: string)
      ensures code == Generate(Workflow(nodes, edges))
    {
      var agentNodes := OfKind(nodes, Agent);
      var runnerNodes := OfKind(nodes, Runner);
      var functionToolNodes := OfKind(nodes, FunctionTool);
      var guardrailNodes := OfKind(nodes, Guardrail);
      code := EmitHeader(agentNodes, runnerNodes, functionToolNodes, guardrailNodes);
      code := EmitSchemaStubs(code, agentNodes);
      code := EmitToolBlocks(code, functionToolNodes);
      code := EmitGuardrailBlocks(code, guardrailNodes);
      code := EmitAgentBlocks(code, agentNodes, nodes, edges);
      code := code + EntryPoint(runnerNodes, nodes, edges);
    }
  }

  // ------------------------------------------------------- the += of generateCode

  /** The import header, appended to part by part. */
  method EmitHeader(agentNodes: seq<Node>, runnerNodes: seq<Node>, functionToolNodes: seq<Node>,
                    guardrailNodes: seq<Node>) returns (code: string)
    ensures code == Header(agentNodes, runnerNodes, functionToolNodes, guardrailNodes)
  {
    code := "from agents import Agent, Runner";
    ghost var part := code;
    if |functionToolNodes| > 0 {
      code := code + ", function_tool";
    }
    assert code == part + (if |functionToolNodes| > 0 then ", function_tool" else "");
    part := code;
    if |guardrailNodes| > 0 {
      code := code + ", InputGuardrail, GuardrailFunctionOutput";
    }
    assert code == part + (if |guardrailNodes| > 0 then ", InputGuardrail, GuardrailFunctionOutput" else "");
    part := code;
    var hasAsyncRunner := AnyAsync(runnerNodes);
    if hasAsyncRunner {
      code := code + "\nimport asyncio";
    }
    assert code == part + (if hasAsyncRunner then "\nimport asyncio" else "");
    part := code;
    var hasOutputType := AnyOutputType(agentNodes) || |guardrailNodes| > 0;
    if hasOutputType {
      code := code + "\nfrom pydantic import BaseModel";
    }
    assert code == part + (if hasOutputType then "\nfrom pydantic import BaseModel" else "");
    code := code + "\n\n";
  }

  /** `agentNodes.forEach(...)` appending the pydantic stubs. */
  method EmitSchemaStubs(code: string, agentNodes: seq<Node>) returns (code': string)
    ensures code' == code + SchemaStubs(agentNodes)
  {
    code' := code;
    var i := 0;
    while i < |agentNodes|
      invariant 0 <= i <= |agentNodes|
      invariant code' == code + SchemaStubs(agentNodes[..i])
    {
      code' := code' + SchemaStub(agentNodes[i]);
      SchemaStubsStep(code, agentNodes, i);
      i := i + 1;
    }
    assert agentNodes[..i] == agentNodes;
  }

  /** `functionToolNodes.forEach(...)` appending the tool functions. */
  method EmitToolBlocks(code: string, functionToolNodes: seq<Node>) returns (code': string)
    ensures code' == code + ToolBlocks(functionToolNodes)
  {
    code' := code;
    var i := 0;
    while i < |functionToolNodes|
      invariant 0 <= i <= |functionToolNodes|
      invariant code' == code + ToolBlocks(functionToolNodes[..i])
    {
      code' := code' + ToolBlock(functionToolNodes[i]);
      ToolBlocksStep(code, functionToolNodes, i);
      i := i + 1;
    }
    assert functionToolNodes[..i] == functionToolNodes;
  }

  /** `guardrailNodes.forEach(...)` appending the guardrail functions. */
  method EmitGuardrailBlocks(code: string, guardrailNodes: seq<Node>) returns (code': string)
    ensures code' == code + GuardrailBlocks(guardrailNodes)
  {
    code' := code;
    var i := 0;
    while i < |guardrailNodes|
      invariant 0 <= i <= |guardrailNodes|
      invariant code' == code + GuardrailBlocks(guardrailNodes[..i])
    {
      code' := code' + GuardrailBlock(guardrailNodes[i]);
      GuardrailBlocksStep(code, guardrailNodes, i);
      i := i + 1;
    }
    assert guardrailNodes[..i] == guardrailNodes;
  }

  /** `agentNodes.forEach(...)` appending the `Agent(...)` definitions. */
  method EmitAgentBlocks(code: string, agentNodes: seq<Node>, nodes: seq<Node>, edges: seq<Edge>)
    returns (code': string)
    ensures code' == code + AgentBlocks(agentNodes, nodes, edges)
  {
    code' := code;
    var i := 0;
    while i < |agentNodes|
      invariant 0 <= i <= |agentNodes|
      invariant code' == code + AgentBlocks(agentNodes[..i], nodes, edges)
    {
      code' := code' + AgentBlock(agentNodes[i], nodes, edges);
      AgentBlocksStep(code, agentNodes, i, nodes, edges);
      i := i + 1;
    }
    assert agentNodes[..i] == agentNodes;
  }

  // ------------------------------------------------ one step of each loop

  lemma SchemaStubsStep(code: string, xs: seq<Node>, i: nat)
    requires i < |xs|
    ensures code + SchemaStubs(xs[..i]) + SchemaStub(xs[i]) == code + SchemaStubs(xs[..i + 1])
  {
    assert xs[..i + 1][..i] == xs[..i];
    AppendAssoc(code, SchemaStubs(xs[..i]), SchemaStub(xs[i]));
  }

  lemma ToolBlocksStep(code: string, xs: seq<Node>, i: nat)
    requires i < |xs|
    ensures code + ToolBlocks(xs[..i]) + ToolBlock(xs[i]) == code + ToolBlocks(xs[..i + 1])
  {
    assert xs[..i + 1][..i] == xs[..i];
    AppendAssoc(code, ToolBlocks(xs[..i]), ToolBlock(xs[i]));
  }

  lemma GuardrailBlocksStep(code: string, xs: seq<Node>, i: nat)
    requires i < |xs|
    ensures code + GuardrailBlocks(xs[..i]) + GuardrailBlock(xs[i]) == code + GuardrailBlocks(xs[..i + 1])
  {
    assert xs[..i + 1][..i] == xs[..i];
    AppendAssoc(code, GuardrailBlocks(xs[..i]), GuardrailBlock(xs[i]));
  }

  lemma AgentBlocksStep(code: string, xs: seq<Node>, i: nat, nodes: seq<Node>, edges: seq<Edge>)
    requires i < |xs|
    ensures code + AgentBlocks(xs[..i], nodes, edges) + AgentBlock(xs[i], nodes, edges) == code + AgentBlocks(xs[..i + 1], nodes, edges)
  {
    assert xs[..i + 1][..i] == xs[..i];
    AppendAssoc(code, AgentBlocks(xs[..i], nodes, edges), AgentBlock(xs[i], nodes, edges));
  }
}
