# Agent workflow designer: graph model and code emitter

The agent workflow designer is a canvas where a user builds a graph with four
kinds of nodes: agents, runners, function tools and guardrails. Three kinds of
typed connection join them. The designer also turns the graph into a Python
program for the OpenAI Agents SDK.

This project models the core of that designer in Dafny. The core lives in
`src/context/WorkflowContext.tsx` and `src/types/index.ts`.

- **`types.dfy`, module `Types`: the data model.** Node kinds with their id tags, connection types, per-kind payloads, nodes, typed edges, connection requests and the workflow aggregate.
- **`text.dfy`, module `Text`: the JavaScript string built-ins the core uses.** These are `trim` (with JavaScript's whitespace set), ASCII `toLowerCase`/`toUpperCase`, `split` on one character, `join`, `replace(/\s+/g, '_')` and the decimal rendering of `${n}`. Each comes with the laws the emitter relies on, such as split/join round trips and number-to-string injectivity.
- **`graph.dfy`, module `Graph`: the graph operations as pure functions over a `Workflow`.**
  - The `{type}-{n}` node id and the per-kind default payload of `getDefaultNodeData`.
  - The connection table and `onConnect` (`Connect`).
  - The shallow merge of `updateNodeData` (`Merge`, `UpdateNodes`).
  - Edge insertion.
  - The invariants these operations keep.
- **`emitter.dfy`, module `Emitter`: `generateCode` as a function `Generate` from a workflow to the program text.** It has one function per part of the output: header, pydantic stubs, tool functions, guardrail functions, `Agent(...)` blocks and the entry point. The lemmas state:
  - exactly when each optional part appears;
  - the line structure of the blocks;
  - the field order of an agent block;
  - that handoffs and tools are read from the edge list;
  - that the program never depends on the cached `handoffs`/`tools` lists.
- **`context.dfy`, module `Context`: the provider's mutable state as the class `WorkflowContext`.**
  - The fields are `nodes`, `edges` and `nodeIdCounter`.
  - `AddNode`, `UpdateNodeData` and `OnConnect` change the fields in place. `UpdateNodeData` and `OnConnect` are proved to produce the state described by `Graph.UpdateNodes` and `Graph.Connect`. `AddNode` is proved to append the node built from `Graph.NodeId` and `Graph.DefaultNodeData`.
  - All three keep the class invariant `Valid`: unique ids, ids below the counter, well-kinded edges, and one edge per ordered pair.
  - `GenerateCode` accumulates the text with `+=` in loops, as the source does, and is proved equal to `Emitter.Generate` of the current graph. It changes nothing.
- **`scenarios.dfy`, module `Scenarios`: concrete graphs.** A single agent `assistant` executed by an asynchronous runner yields, character for character, the sample program shipped as `src/generated_code.py`.

**Behaviours of the source worth noting:**

- Schema stubs are not de-duplicated: two agents with the same `output_type` give two identical classes (`Emitter.SchemaStubsRepeat`).
- An `output_type` or `returnType` is emitted verbatim, even when it is `None`.
- Under the `addEdge` assumption stated under "## Left out", connecting a pair that is already connected adds no second edge, but the cached `handoffs` list still grows (`Graph.ConnectAgain`).
- A graph without nodes yields the base import line followed by a blank line (`Emitter.GenerateEmpty`).
- A non-blank tool implementation is appended without a newline of its own, so the tool block ends with a single newline and whatever follows starts on the very next line; the placeholder body, which ends in a newline, leaves a blank line after the block (`Emitter.ToolBlockLines`).

**Inputs that the model turns into parameters:**
- The canvas position of a new node is the `position` argument of `AddNode`.
- The connection request from the canvas is the `Connection` argument of `OnConnect`.
- The patch passed to `updateNodeData` is a `Patch` record with one optional entry per payload key.

## Model

| member | source | states |
|---|---|---|
| Text.TrimEmptyIffBlank | agent-workflow-designer/src/context/WorkflowContext.tsx:275 | `trim() !== ''` holds exactly when the string has a character outside JavaScript's whitespace set |
| Text.TrimStart | agent-workflow-designer/src/context/WorkflowContext.tsx:275 | the leading part `trim` removes is all whitespace, and what is left is a suffix that does not start with whitespace |
| Text.LeadingBlank | agent-workflow-designer/src/context/WorkflowContext.tsx:275 | the count of leading characters `trim` drops: all of them are whitespace and the next character, if any, is not |
| Text.TrimEnd | agent-workflow-designer/src/context/WorkflowContext.tsx:275 | the trailing part `trim` removes is all whitespace, and what is left is a prefix that does not end with whitespace |
| Text.ToLower | agent-workflow-designer/src/context/WorkflowContext.tsx:323 | `toLowerCase` keeps the length and lower-cases each ASCII letter in place |
| Text.ToLowerAppend | agent-workflow-designer/src/context/WorkflowContext.tsx:323 | lower-casing a concatenation lower-cases each side, and lower-casing never turns whitespace into non-whitespace or back |
| Text.ReplaceWhitespaceRuns | agent-workflow-designer/src/context/WorkflowContext.tsx:323 | `replace(/\s+/g, '_')` leaves no whitespace, never lengthens, is empty only for the empty string and is the identity on whitespace-free text |
| Text.ReplaceKeepsCharacters | agent-workflow-designer/src/context/WorkflowContext.tsx:323 | the replacement writes only underscores and characters taken from its input |
| Text.TrimStartRun | agent-workflow-designer/src/context/WorkflowContext.tsx:275 | trimming the front of a whitespace run followed by a non-whitespace character leaves exactly the text after the run |
| Text.ReplaceRun | agent-workflow-designer/src/context/WorkflowContext.tsx:323 | a maximal whitespace run, of any length, becomes exactly one underscore, the whitespace-free text before it is kept as it is, and the rest is replaced independently |
| Text.Split | agent-workflow-designer/src/context/WorkflowContext.tsx:278 | `split('\n')` gives at least one piece and no piece holds the separator |
| Text.SplitJoin | agent-workflow-designer/src/context/WorkflowContext.tsx:277-280 | splitting a join of separator-free lines gives back the lines |
| Text.JoinSplit | agent-workflow-designer/src/context/WorkflowContext.tsx:277-280 | joining the pieces of a split gives back the text |
| Text.SplitAppend | agent-workflow-designer/src/context/WorkflowContext.tsx:278 | a split at a separator splits the two sides independently |
| Text.NatToString | agent-workflow-designer/src/context/WorkflowContext.tsx:179 | `${n}` renders at least one decimal digit and nothing else |
| Text.ParseNatToString | agent-workflow-designer/src/context/WorkflowContext.tsx:179 | reading the digits of `${n}` back gives `n` |
| Text.NatToStringInjective | agent-workflow-designer/src/context/WorkflowContext.tsx:179 | different counter values render differently |
| Graph.NodeIdInjective | agent-workflow-designer/src/context/WorkflowContext.tsx:179 | an id `{type}-{n}` determines both the kind and the counter value (the tags of agent-workflow-designer/src/types/index.ts:4-9 differ in their first letter) |
| Graph.DefaultLabel | agent-workflow-designer/src/context/WorkflowContext.tsx:46-49 | the label is the kind's tag with its first letter upper-cased: `Agent`, `Runner`, `FunctionTool`, `Guardrail` |
| Graph.DefaultNodeData | agent-workflow-designer/src/context/WorkflowContext.tsx:51-87 | the default payload of each kind, every literal as written, with the names `Agent_n`, `function_tool_n`, `Guardrail_n` built from the same counter value as the id |
| Graph.DefaultNamesDistinct | agent-workflow-designer/src/context/WorkflowContext.tsx:56-84 | nodes of one kind created at different counter values get different default names |
| Graph.FindNode | agent-workflow-designer/src/context/WorkflowContext.tsx:128-129 | `nodes.find` returns a node with the id, and nothing exactly when no node has it |
| Graph.FindNodeFirst | agent-workflow-designer/src/context/WorkflowContext.tsx:128-129 | the node `nodes.find` returns is the first with the id: every node before it has another id |
| Graph.FindNodeAppend | agent-workflow-designer/src/context/WorkflowContext.tsx:186 | appending a node does not change what an id already present resolves to |
| Graph.Classify | agent-workflow-designer/src/context/WorkflowContext.tsx:133-144 | the connection table, in both directions: Handoff iff agent to agent, Tool iff tool to agent, Execution iff agent to runner, refused otherwise |
| Graph.Merge | agent-workflow-designer/src/context/WorkflowContext.tsx:192-199 | a shallow merge never changes the node's kind |
| Graph.MergeLaws | agent-workflow-designer/src/context/WorkflowContext.tsx:192-199 | merging nothing changes nothing, two merges are one merge of the combined patch, and merging the same patch twice is merging it once |
| Graph.MergeCachePatches | agent-workflow-designer/src/context/WorkflowContext.tsx:192-199 | merging a patch of one cached list replaces that list on an agent and leaves every other payload as it is |
| Graph.UpdateNodes | agent-workflow-designer/src/context/WorkflowContext.tsx:189-203 | the node list keeps its length, order, ids and positions; only the node with the id has its payload merged |
| Graph.UpdateUnknownId | agent-workflow-designer/src/context/WorkflowContext.tsx:189-203 | an id no node has leaves the list unchanged |
| Graph.FindNodeAfterUpdate | agent-workflow-designer/src/context/WorkflowContext.tsx:189-203 | after an update every id still resolves, to the same kind, with the merged payload exactly for the updated id |
| Graph.AddEdge | agent-workflow-designer/src/context/WorkflowContext.tsx:155 | the pair is connected afterwards, the edge is appended only when the pair was not connected before, and one edge per pair is kept |
| Graph.HandoffTargets | agent-workflow-designer/src/context/WorkflowContext.tsx:308-313 | an id is listed iff some Handoff edge leaves the agent towards it |
| Graph.HandoffTargetsAppend | agent-workflow-designer/src/context/WorkflowContext.tsx:308-313 | the filter runs in edge order: the targets of concatenated edge lists are the concatenated targets, and one edge contributes its target exactly when it is a Handoff edge leaving the agent |
| Graph.ToolSources | agent-workflow-designer/src/context/WorkflowContext.tsx:316-321 | an id is listed iff some Tool edge enters the agent from it |
| Graph.ToolSourcesAppend | agent-workflow-designer/src/context/WorkflowContext.tsx:316-321 | the filter runs in edge order: the sources of concatenated edge lists are the concatenated sources, and one edge contributes its source exactly when it is a Tool edge entering the agent |
| Graph.ConnectEdges | agent-workflow-designer/src/context/WorkflowContext.tsx:126-155 | a refused connection (missing or empty end, unknown id, pair outside the table) changes nothing; an accepted one leaves the pair connected, appending the edge `e{source}-{target}` of the classified type when it was new |
| Graph.ConnectUnfold | agent-workflow-designer/src/context/WorkflowContext.tsx:147-171 | an accepted connection's edge list and node list, case by case: Handoff updates the source agent's `handoffs`, Tool the target agent's `tools`, Execution no node |
| Graph.ConnectNodes | agent-workflow-designer/src/context/WorkflowContext.tsx:157-171 | node by node, a connection appends the target id to the source agent's cached `handoffs` (Handoff) or the source id to the target agent's `tools` (Tool), and changes nothing else |
| Graph.UpdateSameShape | agent-workflow-designer/src/context/WorkflowContext.tsx:189-203 | an update changes no id and no kind |
| Graph.ClassifiedSameShape | agent-workflow-designer/src/context/WorkflowContext.tsx:126-144 | classification depends only on the ids and kinds of the nodes |
| Graph.ConnectSameShape | agent-workflow-designer/src/context/WorkflowContext.tsx:147-171 | a connection changes no id and no kind |
| Graph.ConnectHandoffCache | agent-workflow-designer/src/context/WorkflowContext.tsx:158-164 | a Handoff appends the target id to the source agent's cached `handoffs` |
| Graph.ConnectKeepsClassification | agent-workflow-designer/src/context/WorkflowContext.tsx:126-171 | a connection does not change how any later connection is classified |
| Graph.ConnectReconnect | agent-workflow-designer/src/context/WorkflowContext.tsx:155 | connecting the same pair again leaves the edge list as it is |
| Graph.ConnectAgain | agent-workflow-designer/src/context/WorkflowContext.tsx:155-164 | connecting a Handoff pair that is already connected adds no edge but still appends the target to the cached `handoffs`, which then holds it twice |
| Graph.WellKindedSameShape | agent-workflow-designer/src/context/WorkflowContext.tsx:133-144 | well-kinded edges stay well-kinded over any node list with the same ids and kinds |
| Graph.AddEdgeWellKinded | agent-workflow-designer/src/context/WorkflowContext.tsx:147-155 | adding an edge that the table allows keeps every edge well-kinded |
| Graph.ConnectWellKinded | agent-workflow-designer/src/context/WorkflowContext.tsx:126-171 | after any connection every edge joins two existing nodes whose kinds the table maps to the edge's type |
| Graph.UpdateWellKinded | agent-workflow-designer/src/context/WorkflowContext.tsx:189-203 | updates keep every edge well-kinded |
| Graph.AppendWellKinded | agent-workflow-designer/src/context/WorkflowContext.tsx:186 | appending a node keeps every edge well-kinded |
| Emitter.OfKind | agent-workflow-designer/src/context/WorkflowContext.tsx:222-225 | the filter keeps only nodes of the kind and never more nodes than it is given |
| Emitter.OfKindMembers | agent-workflow-designer/src/context/WorkflowContext.tsx:222-225 | a node is kept iff it is in the list and has the kind |
| Emitter.OfKindAppend | agent-workflow-designer/src/context/WorkflowContext.tsx:222-225 | the filter keeps the order of the graph: filtering a concatenation concatenates the filtered parts, and a single node is kept exactly when it has the kind |
| Emitter.PartitionSizes | agent-workflow-designer/src/context/WorkflowContext.tsx:222-225 | the four filters together hold every node exactly once |
| Emitter.BindingNameFacts | agent-workflow-designer/src/context/WorkflowContext.tsx:323 | a binding name has no whitespace and no upper-case ASCII letter, is empty exactly when the name is, and is the lower-cased name when the name has no whitespace |
| Emitter.BindingNameRun | agent-workflow-designer/src/context/WorkflowContext.tsx:323 | a whitespace run in a name becomes one underscore in its binding name, with the part before it lower-cased |
| Emitter.LowerWordBinding | agent-workflow-designer/src/context/WorkflowContext.tsx:323 | a name made only of lower-case ASCII letters is its own binding name |
| Emitter.OfKindNonEmpty | agent-workflow-designer/src/context/WorkflowContext.tsx:231-237 | a filter is non-empty exactly when the graph has a node of that kind |
| Emitter.AnyAsyncOfKind | agent-workflow-designer/src/context/WorkflowContext.tsx:240 | some runner is asynchronous in the runner list iff in the whole graph |
| Emitter.AnyOutputTypeOfKind | agent-workflow-designer/src/context/WorkflowContext.tsx:246 | some agent names an output type in the agent list iff in the whole graph |
| Emitter.HeaderOfWorkflow | agent-workflow-designer/src/context/WorkflowContext.tsx:228-252 | the header is always `from agents import Agent, Runner`, with `, function_tool` iff there is a tool, the guardrail imports iff there is a guardrail, `import asyncio` iff some runner is asynchronous, pydantic iff some agent names an output type or there is a guardrail, then a blank line |
| Emitter.SchemaStubsEmpty | agent-workflow-designer/src/context/WorkflowContext.tsx:255-262 | no stub is emitted exactly when no agent names an output type |
| Emitter.SchemaStubsRepeat | agent-workflow-designer/src/context/WorkflowContext.tsx:255-262 | stubs are not de-duplicated: a repeated output type gives the class twice |
| Emitter.IndentLines | agent-workflow-designer/src/context/WorkflowContext.tsx:275-283 | the indented implementation has the same lines, each, blank ones included, prefixed with four spaces |
| Emitter.DedentIndent | agent-workflow-designer/src/context/WorkflowContext.tsx:275-283 | removing four characters from each line undoes the indentation |
| Emitter.IndentedBodyLines | agent-workflow-designer/src/context/WorkflowContext.tsx:275-287 | a non-blank implementation contributes its lines, each indented; the final empty piece only marks the newline that ends the block, so no blank line follows |
| Emitter.ToolBodyLines | agent-workflow-designer/src/context/WorkflowContext.tsx:275-287 | the body lines are the placeholder exactly when the implementation is blank, otherwise the indented implementation lines |
| Emitter.PlaceholderLines | agent-workflow-designer/src/context/WorkflowContext.tsx:284-285 | the placeholder body is one `return "Implementation for NAME"` line before the block's blank line |
| Emitter.ToolBlockLines | agent-workflow-designer/src/context/WorkflowContext.tsx:264-288 | a tool block is `@function_tool` right before `def name(p: t, ...) -> returnType:`, then either the placeholder line and a blank line (blank implementation) or the indented implementation lines, the block ending right after the last of them |
| Emitter.GuardrailNameCase | agent-workflow-designer/src/context/WorkflowContext.tsx:294 | the guardrail block starts with `async def <lower-cased name>_guardrail(ctx, agent, input_data):`, so names differing only in ASCII case emit the same function |
| Emitter.GuardrailBlockLines | agent-workflow-designer/src/context/WorkflowContext.tsx:291-301 | for a name and output type without line breaks, a guardrail block is, line by line, the `def` line with the lower-cased name, the guardrail run, `final_output_as(output_type)`, the `GuardrailFunctionOutput(` return with its two arguments, the closing parenthesis and a blank line |
| Emitter.HandoffVars | agent-workflow-designer/src/context/WorkflowContext.tsx:334-339 | at most one binding name per handoff id, and never an empty one |
| Emitter.HandoffVarsMembers | agent-workflow-designer/src/context/WorkflowContext.tsx:334-339 | a binding name is listed iff it is non-empty and some handoff id resolves to a node with that binding name |
| Emitter.ToolVars | agent-workflow-designer/src/context/WorkflowContext.tsx:348-353 | at most one name per tool id, and never an empty one |
| Emitter.ToolVarsMembers | agent-workflow-designer/src/context/WorkflowContext.tsx:348-353 | a name is listed iff it is non-empty and some tool id resolves to a node with that name |
| Emitter.HandoffVarsAppend | agent-workflow-designer/src/context/WorkflowContext.tsx:334-339 | handoff names follow the order of the ids: concatenated id lists give concatenated names, and one id gives its binding name exactly when that is non-empty |
| Emitter.ToolVarsAppend | agent-workflow-designer/src/context/WorkflowContext.tsx:348-353 | tool names follow the order of the ids: concatenated id lists give concatenated names, and one id gives its name exactly when that is non-empty |
| Emitter.Keys | agent-workflow-designer/src/context/WorkflowContext.tsx:324-362 | the keys of a field list, position by position |
| Emitter.KeysAppend | agent-workflow-designer/src/context/WorkflowContext.tsx:324-362 | the keys of concatenated field lists are the concatenated keys |
| Emitter.AgentFields | agent-workflow-designer/src/context/WorkflowContext.tsx:323-330 | an agent's field list starts with the quoted name and always holds the quoted instructions; the order of all fields is stated by `Emitter.AgentFieldKeys` |
| Emitter.AgentFieldKeys | agent-workflow-designer/src/context/WorkflowContext.tsx:324-362 | an agent's fields come in the order name, handoff_description (only when non-empty), instructions, handoffs (only when some resolve), tools (only when some resolve), output_type (only when non-empty) |
| Emitter.RenderFieldsAppend | agent-workflow-designer/src/context/WorkflowContext.tsx:324-362 | field lines of concatenated field lists are the concatenated field lines |
| Emitter.RenderAgentFields | agent-workflow-designer/src/context/WorkflowContext.tsx:324-362 | the agent's fields render as one `    key=value,` line each, in field order |
| Emitter.AgentBlockAsFields | agent-workflow-designer/src/context/WorkflowContext.tsx:304-366 | an agent block is the binding line, the agent's field lines in order, and the closing parenthesis |
| Emitter.AgentHandoffsFromEdges | agent-workflow-designer/src/context/WorkflowContext.tsx:308-343 | the handoffs listed for an agent are exactly the non-empty binding names of the targets of Handoff edges leaving it, read from the edge list, in edge order: no edges give none, and each further edge appends its name, if any, at the end |
| Emitter.HandoffsInEdgeOrder | agent-workflow-designer/src/context/WorkflowContext.tsx:308-339 | adding an edge at the end of the list adds its handoff name, if any, at the end of the handoffs |
| Emitter.AgentToolsFromEdges | agent-workflow-designer/src/context/WorkflowContext.tsx:316-357 | the tools listed for an agent are exactly the non-empty raw names of the sources of Tool edges entering it, in edge order: no edges give none, and each further edge appends its name, if any, at the end |
| Emitter.ToolsInEdgeOrder | agent-workflow-designer/src/context/WorkflowContext.tsx:316-353 | adding an edge at the end of the list adds its tool name, if any, at the end of the tools |
| Emitter.FindExecutionEdge | agent-workflow-designer/src/context/WorkflowContext.tsx:372-375 | the edge found is the first Execution edge into the runner (no earlier edge is one), and none is found exactly when there is no such edge |
| Emitter.ContextArgPresent | agent-workflow-designer/src/context/WorkflowContext.tsx:388-390 | `, context=...` appears exactly when the context is present and not blank |
| Emitter.EntryPointCases | agent-workflow-designer/src/context/WorkflowContext.tsx:369-408 | only the first runner matters, and the entry point is empty exactly when there is no runner, no Execution edge into it, or its source does not resolve |
| Emitter.MainGuardLines | agent-workflow-designer/src/context/WorkflowContext.tsx:393-395 | the lines after the awaited call: the print, a blank line and the `__main__` guard |
| Emitter.AsyncRunCallLines | agent-workflow-designer/src/context/WorkflowContext.tsx:384-395 | the asynchronous entry point is `async def main():`, the awaited call, the print, a blank line and the guard running `asyncio.run(main())` |
| Emitter.SyncRunCallLines | agent-workflow-designer/src/context/WorkflowContext.tsx:396-404 | the synchronous entry point is the `result = Runner.run_sync(...)` line, then `print(result.final_output)`, and ends in a newline |
| Emitter.GenerateEmpty | agent-workflow-designer/src/context/WorkflowContext.tsx:228-252 | a graph without nodes yields exactly `from agents import Agent, Runner` and a blank line |
| Emitter.OfKindSameButCaches | agent-workflow-designer/src/context/WorkflowContext.tsx:222-225 | filtering keeps two node lists that differ only in cached lists related |
| Emitter.FindNodeSameButCaches | agent-workflow-designer/src/context/WorkflowContext.tsx:336-337 | look-ups in such lists agree on presence and name |
| Emitter.VarsSameButCaches | agent-workflow-designer/src/context/WorkflowContext.tsx:334-353 | the handoff and tool names do not depend on cached lists |
| Emitter.BlocksSameButCaches | agent-workflow-designer/src/context/WorkflowContext.tsx:255-366 | stubs, tool, guardrail and agent blocks do not depend on cached lists |
| Emitter.HeaderSameButCaches | agent-workflow-designer/src/context/WorkflowContext.tsx:240-247 | the header's conditions do not depend on cached lists |
| Emitter.EntryPointSameButCaches | agent-workflow-designer/src/context/WorkflowContext.tsx:369-408 | the entry point does not depend on cached lists |
| Emitter.GenerateIgnoresCaches | agent-workflow-designer/src/context/WorkflowContext.tsx:220-411 | two graphs that differ only in the agents' cached `handoffs`/`tools` yield the same program |
| Emitter.GenerateIgnoresCacheUpdate | agent-workflow-designer/src/context/WorkflowContext.tsx:157-171 | rewriting a node's cached lists, as a connection does, leaves the program unchanged |
| Emitter.CacheUpdateSameButCaches | agent-workflow-designer/src/context/WorkflowContext.tsx:157-171 | an update whose patch writes only the cached `handoffs`/`tools` lists changes nothing else in any node |
| Context.AppendFreshNode | agent-workflow-designer/src/context/WorkflowContext.tsx:177-187 | the id `addNode` allocates is not in use, and appending the node keeps ids unique and below the incremented counter |
| Context.SameIdsDiscipline | agent-workflow-designer/src/context/WorkflowContext.tsx:189-203 | id uniqueness and freshness depend only on the ids, position by position |
| Context.ConnectSameIds | agent-workflow-designer/src/context/WorkflowContext.tsx:157-171 | a connection changes no node id |
| Context.WorkflowContext.constructor | agent-workflow-designer/src/context/WorkflowContext.tsx:43 | the state starts with no nodes, no edges and the counter at 1, and is valid |
| Context.WorkflowContext.AddNode | agent-workflow-designer/src/context/WorkflowContext.tsx:177-187 | the node `{type}-{n}` with the default payload for `n` is appended, its id was unused, the counter goes up by exactly one, the edges stay, and the invariant holds |
| Context.WorkflowContext.UpdateNodeData | agent-workflow-designer/src/context/WorkflowContext.tsx:189-203 | the node list becomes the merged list, edges and counter stay, and the invariant holds |
| Context.WorkflowContext.OnConnect | agent-workflow-designer/src/context/WorkflowContext.tsx:123-174 | the graph becomes `Connect` of the old graph, the counter stays, and the invariant holds |
| Context.WorkflowContext.GenerateCode | agent-workflow-designer/src/context/WorkflowContext.tsx:220-411 | the text accumulated by the loops is exactly `Generate` of the current graph, and nothing is modified |
| Context.EmitHeader | agent-workflow-designer/src/context/WorkflowContext.tsx:228-252 | the header built by the conditional `+=` steps is `Header` of the four groups |
| Context.EmitSchemaStubs | agent-workflow-designer/src/context/WorkflowContext.tsx:255-262 | the loop appends the stubs of all agents in order |
| Context.EmitToolBlocks | agent-workflow-designer/src/context/WorkflowContext.tsx:265-288 | the loop appends the blocks of all tools in order |
| Context.EmitGuardrailBlocks | agent-workflow-designer/src/context/WorkflowContext.tsx:291-301 | the loop appends the blocks of all guardrails in order |
| Context.EmitAgentBlocks | agent-workflow-designer/src/context/WorkflowContext.tsx:304-366 | the loop appends the blocks of all agents in order |
| Scenarios.SampleKinds | agent-workflow-designer/src/context/WorkflowContext.tsx:222-225 | the sample graph has one agent and one runner and no tool or guardrail |
| Scenarios.SpacedName | agent-workflow-designer/src/context/WorkflowContext.tsx:323 | the name `My  Agent`, with two spaces, binds as `my_agent` |
| Scenarios.SampleHeader | agent-workflow-designer/src/context/WorkflowContext.tsx:228-252 | the sample's header imports `Agent` and `Runner`, then `asyncio`, then a blank line |
| Scenarios.NameLineText | agent-workflow-designer/src/context/WorkflowContext.tsx:324 | the name line of the agent `assistant` reads `    name="assistant",` |
| Scenarios.InstructionsLineText | agent-workflow-designer/src/context/WorkflowContext.tsx:330 | the instructions line with the default instructions reads `    instructions="You are a helpful assistant.",` |
| Scenarios.SampleAgentBlock | agent-workflow-designer/src/context/WorkflowContext.tsx:323-365 | the sample agent's block is its binding line, its name and instructions lines, and the closing parenthesis, with no handoffs, tools or output type |
| Scenarios.AwaitLineText | agent-workflow-designer/src/context/WorkflowContext.tsx:386-392 | the awaited call names `assistant` and quotes the sample input, with no context argument |
| Scenarios.AsyncMainText | agent-workflow-designer/src/context/WorkflowContext.tsx:385-395 | the sample's asynchronous entry point, line by line |
| Scenarios.SampleEntryPoint | agent-workflow-designer/src/context/WorkflowContext.tsx:369-395 | the sample's entry point is the asynchronous call of `assistant` with the sample input |
| Scenarios.SampleParts | agent-workflow-designer/src/context/WorkflowContext.tsx:220-411 | the sample's program is its header, its one agent block and its entry point |
| Scenarios.SampleProgram | agent-workflow-designer/src/generated_code.py:1-14 | an agent `assistant` with the default instructions, executed by an asynchronous runner with the sample input, yields the shipped sample program line for line |

## Left out

- **React plumbing:** `useState`, `useCallback`, the context object and the `useWorkflow` hook. The provider's state is the class's fields. Stale closures (`onConnect` reading a captured `nodes`) are not modelled: every method reads the current fields.
- **The module-level counter:** `nodeIdCounter` is a field of the class, not a global shared by every provider instance. Starting at 1 and incrementing by one are modelled. In the source, incrementing by one is exact only up to 2^53 − 1 (`Number.MAX_SAFE_INTEGER`).
- **reactflow's library calls:**
  - `applyNodeChanges` and `applyEdgeChanges` (dragging and deleting on the canvas) are left out, so the model has no node or edge deletion.
  - `addEdge` is not part of this model. `Graph.AddEdge` assumes it appends the edge unless an edge with the same source and target is already present.
- Types.Connection: the `sourceHandle`/`targetHandle` that `...connection` copies into the new edge are dropped. reactflow's duplicate check also compares the handles, and an agent has two source handles (the unnamed bottom one and `handoff`). So the source can hold two edges for one agent pair, one per handle, both with id `e{source}-{target}`, and the generator then lists the target twice in `handoffs=[...]`. The one-edge-per-pair invariant `UniquePairs` and `Graph.ConnectReconnect` rest on the assumption above and do not capture that state.
- **`selectedNode` mirroring in `updateNodeData`:** this is UI selection state.
- **The `default` branch of `getDefaultNodeData`:** it is unreachable, because `NodeType` is a closed datatype.
- **Positions:** they are carried opaquely as a pair of reals and never read.
- **The rendering components, modals, App and bootstrap files:** these are UI only.
- Graph.Merge: patch keys that do not belong to the node's kind are ignored. In the source they are added to the payload object, but nothing in the core reads them. A patch cannot change `type`.
- Context.WorkflowContext.AddNode: the counter is an unbounded `nat`. The source's counter is a JavaScript number, so `nodeIdCounter++` stops increasing at 2^53. Ids are therefore fresh in the source only below that bound, while `Context.AppendFreshNode` proves freshness for every counter value.
- Text.ToLower: only ASCII letters are lowered. The source's `toLowerCase` also folds non-ASCII letters.
- Emitter.NameOf: a runner reached by a handoff or an execution edge reads as having the empty name. The source would fail on the missing `name` there. `Graph.ConnectWellKinded` and the class invariant show that edges made by `onConnect` never lead there.
