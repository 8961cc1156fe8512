/** The data model of the workflow designer: node kinds, node payloads,
    typed edges and the workflow aggregate (src/types/index.ts). */
module Types {

  datatype Option<+T> = None | Some(value: T)

  /** The four node kinds. The tag string is what node ids are built from. */
  datatype NodeType = Agent | Runner | FunctionTool | Guardrail

  function Tag(k: NodeType): string
  {
    match k
    case Agent => "agent"
    case Runner => "runner"
    case FunctionTool => "functionTool"
    case Guardrail => "guardrail"
  }

  /** The three edge kinds; an edge's kind is inferred when it is connected. */
  datatype ConnectionType = Handoff | Tool | Execution

  /** One formal parameter of a function tool: `{name, type, description?}`. */
  datatype Parameter = Parameter(name: string, paramType: string, description: Option<string>)

  /** A node's payload. Every kind carries the base field `label` (named
      `displayLabel` here, `label` being a Dafny keyword); the kind itself is the
      constructor (the source's `data.type`). Agent `handoffs` and `tools` are the
      cached lists of node ids that a connection appends to. */
  datatype NodeData =
    | AgentData(displayLabel: string, name: string, instructions: string,
                handoffDescription: Option<string>, outputType: string,
                handoffs: seq<string>, tools: seq<string>)
    | RunnerData(displayLabel: string, input: string, isAsync: bool, context: Option<string>)
    | FunctionToolData(displayLabel: string, name: string, parameters: seq<Parameter>,
                       returnType: string, implementation: string)
    | GuardrailData(displayLabel: string, name: string, instructions: string, outputType: string)
  {
    function Kind(): NodeType
    {
      match this
      case AgentData(_, _, _, _, _, _, _) => Agent
      case RunnerData(_, _, _, _) => Runner
      case FunctionToolData(_, _, _, _, _) => FunctionTool
      case GuardrailData(_, _, _, _) => Guardrail
    }
  }

  /** A canvas position; only the view layer reads it. */
  datatype Position = Position(x: real, y: real)

  datatype Node = Node(id: string, position: Position, data: NodeData)

  /** Every custom edge carries exactly one connection type. */
  datatype Edge = Edge(id: string, source: string, target: string, connectionType: ConnectionType)

  /** A connection request from the canvas; either end may be missing. */
  datatype Connection = Connection(source: Option<string>, target: Option<string>)

  /** An ordered node list and an ordered edge list. */
  datatype Workflow = Workflow(nodes: seq<Node>, edges: seq<Edge>)
}
