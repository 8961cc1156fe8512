/** The code emitter of src/context/WorkflowContext.tsx (`generateCode`) as a
    function from a workflow to the text of a Python program for the OpenAI
    Agents SDK, with the properties its parts promise. */
module Emitter {
  import opened Types
  import opened Text
  import opened Graph

  // -------------------------------------------------------------- partition

  /** `nodes.filter(node => node.data.type === k)`. */
  function OfKind(nodes: seq<Node>, k: NodeType): (r: seq<Node>)
    ensures |r| <= |nodes|
    ensures forall i :: 0 <= i < |r| ==> r[i].data.Kind() == k
  {
    if nodes == [] then []
    else (if nodes[0].data.Kind() == k then [nodes[0]] else []) + OfKind(nodes[1..], k)
  }

  /** The filter keeps the nodes in their original order: filtering a
      concatenation filters each part in turn, and a single node is kept
      exactly when it has the kind. */
  lemma OfKindAppend(a: seq<Node>, b: seq<Node>, k: NodeType)
    ensures OfKind(a + b, k) == OfKind(a, k) + OfKind(b, k)
    ensures |a| == 1 ==> OfKind(a, k) == if a[0].data.Kind() == k then a else []
  {
    OfKindAppendAt(a + b, a, b, k);
  }

  lemma {:induction false} OfKindAppendAt(s: seq<Node>, a: seq<Node>, b: seq<Node>, k: NodeType)
    requires s == a + b
    ensures OfKind(s, k) == OfKind(a, k) + OfKind(b, k)
    decreases |a|
  {
    if a != [] {
      var keep := if a[0].data.Kind() == k then [a[0]] else [];
      assert OfKind(s, k) == keep + OfKind(s[1..], k) by {
        assert s[0] == a[0];
      }
      assert s[1..] == a[1..] + b;
      OfKindAppendAt(s[1..], a[1..], b, k);
      assert OfKind(a, k) == keep + OfKind(a[1..], k);
    } else {
      assert s == b;
    }
  }

  /** A node is in a group exactly when it is in the graph and has that kind. */
  lemma {:induction false} OfKindMembers(nodes: seq<Node>, k: NodeType)
    ensures forall n :: n in OfKind(nodes, k) <==> n in nodes && n.data.Kind() == k
  {
    if nodes != [] {
      OfKindMembers(nodes[1..], k);
      assert nodes == [nodes[0]] + nodes[1..];
    }
  }

  /** The four groups split the node list: every node lands in exactly one. */
  lemma {:induction false} PartitionSizes(nodes: seq<Node>)
    ensures |OfKind(nodes, Agent)| + |OfKind(nodes, Runner)| + |OfKind(nodes, FunctionTool)|
            + |OfKind(nodes, Guardrail)| == |nodes|
  {
    if nodes != [] {
      PartitionSizes(nodes[1..]);
    }
  }

  // ------------------------------------------------------------------ names

  /** `name.toLowerCase().replace(/\s+/g, '_')`: the Python variable an agent is
      bound to. */
  function BindingName(name: string): string
  {
    ReplaceWhitespaceRuns(ToLower(name))
  }

  /** A binding name has no whitespace and no upper-case ASCII letter; it is
      empty exactly when the name is; a name already free of whitespace is only
      lower-cased. */
  lemma {:induction false} BindingNameFacts(name: string)
    ensures NoWhitespace(BindingName(name))
    ensures forall i :: 0 <= i < |BindingName(name)| ==> !('A' <= BindingName(name)[i] <= 'Z')
    ensures BindingName(name) == "" <==> name == ""
    ensures NoWhitespace(name) ==> BindingName(name) == ToLower(name)
  {
    var low := ToLower(name);
    ToLowerIdempotent(name);
    ReplaceKeepsCharacters(low);
    forall i | 0 <= i < |BindingName(name)|
      ensures !('A' <= BindingName(name)[i] <= 'Z')
    {
      var c := BindingName(name)[i];
      if c != '_' {
        assert c in low;
      }
    }
    if NoWhitespace(name) {
      assert NoWhitespace(low) by {
        forall i | 0 <= i < |low| ensures !IsWhitespace(low[i]) {
          assert low[i] == LowerChar(name[i]);
        }
      }
    }
  }

  /** In a name with a whitespace run, the part before the run is lower-cased,
      the run becomes one underscore, and the rest is bound as a name of its own:
      `My  Agent` binds to `my_agent`. */
  lemma BindingNameRun(a: string, w: string, b: string)
    requires NoWhitespace(a)
    requires w != [] && IsBlank(w)
    requires b == [] || !IsWhitespace(b[0])
    ensures BindingName(a + w + b) == ToLower(a) + "_" + BindingName(b)
  {
    ToLowerAppend(a + w, b);
    ToLowerAppend(a, w);
    ToLowerAppend(b, []);
    ToLowerAppend(w, []);
    ReplaceRun(ToLower(a), ToLower(w), ToLower(b));
  }

  /** A name made only of lower-case ASCII letters is its own binding name. */
  lemma LowerWordBinding(name: string)
    requires forall i :: 0 <= i < |name| ==> 'a' <= name[i] <= 'z'
    ensures BindingName(name) == name
  {
    assert NoWhitespace(name);
    assert ToLower(name) == name;
    BindingNameFacts(name);
  }

  /** The `name` key of a payload; a runner has none and reads as empty. */
  function NameOf(d: NodeData): string
  {
    if d.RunnerData? then "" else d.name
  }

  // ----------------------------------------------------------------- header

  function AnyOutputType(agents: seq<Node>): bool
  {
    exists i :: 0 <= i < |agents| && agents[i].data.AgentData? && agents[i].data.outputType != ""
  }

  function AnyAsync(runners: seq<Node>): bool
  {
    exists i :: 0 <= i < |runners| && runners[i].data.RunnerData? && runners[i].data.isAsync
  }

  /** The import header, built as the source builds it. */
  function Header(agents: seq<Node>, runners: seq<Node>, tools: seq<Node>, guards: seq<Node>): string
  {
    "from agents import Agent, Runner"
    + (if |tools| > 0 then ", function_tool" else "")
    + (if |guards| > 0 then ", InputGuardrail, GuardrailFunctionOutput" else "")
    + (if AnyAsync(runners) then "\nimport asyncio" else "")
    + (if AnyOutputType(agents) || |guards| > 0 then "\nfrom pydantic import BaseModel" else "")
    + "\n\n"
  }

  /** Some node of the graph has kind `k`. */
  predicate HasKind(nodes: seq<Node>, k: NodeType)
  {
    exists i :: 0 <= i < |nodes| && nodes[i].data.Kind() == k
  }

  lemma OfKindNonEmpty(nodes: seq<Node>, k: NodeType)
    ensures |OfKind(nodes, k)| > 0 <==> HasKind(nodes, k)
  {
    var f := OfKind(nodes, k);
    OfKindMembers(nodes, k);
    if |f| > 0 {
      assert f[0] in nodes;
    }
    if HasKind(nodes, k) {
      var i :| 0 <= i < |nodes| && nodes[i].data.Kind() == k;
      assert nodes[i] in f;
    }
  }

  lemma AnyAsyncOfKind(nodes: seq<Node>)
    ensures AnyAsync(OfKind(nodes, Runner)) <==> AnyAsync(nodes)
  {
    var f := OfKind(nodes, Runner);
    OfKindMembers(nodes, Runner);
    if AnyAsync(f) {
      var i :| 0 <= i < |f| && f[i].data.RunnerData? && f[i].data.isAsync;
      assert f[i] in nodes;
    }
    if AnyAsync(nodes) {
      var i :| 0 <= i < |nodes| && nodes[i].data.RunnerData? && nodes[i].data.isAsync;
      assert nodes[i] in f;
    }
  }

  lemma AnyOutputTypeOfKind(nodes: seq<Node>)
    ensures AnyOutputType(OfKind(nodes, Agent)) <==> AnyOutputType(nodes)
  {
    var f := OfKind(nodes, Agent);
    OfKindMembers(nodes, Agent);
    if AnyOutputType(f) {
      var i :| 0 <= i < |f| && f[i].data.AgentData? && f[i].data.outputType != "";
      assert f[i] in nodes;
    }
    if AnyOutputType(nodes) {
      var i :| 0 <= i < |nodes| && nodes[i].data.AgentData? && nodes[i].data.outputType != "";
      assert nodes[i] in f;
    }
  }

  /** The header of a workflow's program, with each optional part tied to the
      whole node list: `function_tool` iff there is a tool, the guardrail names
      iff there is a guardrail, `asyncio` iff some runner is asynchronous,
      pydantic iff some agent names an output type or there is a guardrail. */
  lemma HeaderOfWorkflow(w: Workflow)
    ensures Header(OfKind(w.nodes, Agent), OfKind(w.nodes, Runner), OfKind(w.nodes, FunctionTool),
                   OfKind(w.nodes, Guardrail))
            == "from agents import Agent, Runner"
               + (if HasKind(w.nodes, FunctionTool) then ", function_tool" else "")
               + (if HasKind(w.nodes, Guardrail) then ", InputGuardrail, GuardrailFunctionOutput" else "")
               + (if AnyAsync(w.nodes) then "\nimport asyncio" else "")
               + (if AnyOutputType(w.nodes) || HasKind(w.nodes, Guardrail)
                  then "\nfrom pydantic import BaseModel" else "")
               + "\n\n"
  {
    OfKindNonEmpty(w.nodes, FunctionTool);
    OfKindNonEmpty(w.nodes, Guardrail);
    AnyAsyncOfKind(w.nodes);
    AnyOutputTypeOfKind(w.nodes);
  }

  // ----------------------------------------------------------- schema stubs

  /** The pydantic stub for an agent that names an output type. */
  function SchemaStub(a: Node): string
  {
    if a.data.AgentData? && a.data.outputType != "" then
      "class " + a.data.outputType + "(BaseModel):\n"
      + "    # Define your model fields here\n"
      + "    pass\n\n"
    else ""
  }

  /** The stubs of a list of agents, in list order. */
  function SchemaStubs(agents: seq<Node>): string
  {
    if agents == [] then "" else SchemaStubs(agents[..|agents| - 1]) + SchemaStub(agents[|agents| - 1])
  }

  /** No stub is emitted exactly when no agent names an output type. */
  lemma {:induction false} SchemaStubsEmpty(agents: seq<Node>)
    ensures SchemaStubs(agents) == "" <==> !AnyOutputType(agents)
  {
    if agents != [] {
      var init := agents[..|agents| - 1];
      SchemaStubsEmpty(init);
      assert forall i :: 0 <= i < |init| ==> init[i] == agents[i];
      if AnyOutputType(agents) && !AnyOutputType(init) {
        var i :| 0 <= i < |agents| && agents[i].data.AgentData? && agents[i].data.outputType != "";
        assert i == |agents| - 1;
      }
    }
  }

  /** Stubs are not de-duplicated: two agents naming the same output type get
      two identical class declarations. */
  lemma SchemaStubsRepeat(a: Node)
    requires a.data.AgentData? && a.data.outputType != ""
    ensures SchemaStubs([a, a]) == SchemaStub(a) + SchemaStub(a) && SchemaStub(a) != ""
  {
    assert [a, a][..1] == [a];
    assert [a][..0] == [];
    assert SchemaStubs([a]) == SchemaStubs([]) + SchemaStub(a);
    assert SchemaStubs([a, a]) == SchemaStubs([a]) + SchemaStub(a);
  }

  // ------------------------------------------------------------ tool blocks

  /** `p.name: p.type` pairs joined by `, `. */
  function ParamList(ps: seq<Parameter>): string
  {
    Join(seq(|ps|, i requires 0 <= i < |ps| => ps[i].name + ": " + ps[i].paramType), ", ")
  }

  function IndentEach(lines: seq<string>): (r: seq<string>)
    ensures |r| == |lines|
    ensures forall i :: 0 <= i < |lines| ==> r[i] == "    " + lines[i]
  {
    seq(|lines|, i requires 0 <= i < |lines| => "    " + lines[i])
  }

  /** `implementation.split('\n').map(line => `    ${line}`).join('\n')`. */
  function Indent(s: string): string
  {
    Join(IndentEach(Split(s, '\n')), "\n")
  }

  /** Indenting keeps the lines and prefixes each of them, blank ones too, with
      four spaces. */
  lemma IndentLines(s: string)
    ensures Split(Indent(s), '\n') == IndentEach(Split(s, '\n'))
  {
    var lines := IndentEach(Split(s, '\n'));
    forall k | 0 <= k < |lines| ensures '\n' !in lines[k] {
      assert lines[k] == "    " + Split(s, '\n')[k];
    }
    SplitJoin(lines, '\n');
  }

  /** Removes the first four characters of every line. */
  function Dedent(s: string): string
  {
    var lines := Split(s, '\n');
    Join(seq(|lines|, i requires 0 <= i < |lines| => if "    " <= lines[i] then lines[i][4..] else lines[i]), "\n")
  }

  /** Dedenting undoes indenting. */
  lemma DedentIndent(s: string)
    ensures Dedent(Indent(s)) == s
  {
    IndentLines(s);
    var lines := Split(Indent(s), '\n');
    var orig := Split(s, '\n');
    assert seq(|lines|, i requires 0 <= i < |lines| => if "    " <= lines[i] then lines[i][4..] else lines[i])
           == orig
    by {
      forall i | 0 <= i < |lines|
        ensures (if "    " <= lines[i] then lines[i][4..] else lines[i]) == orig[i]
      {
        assert lines[i] == "    " + orig[i];
      }
    }
    JoinSplit(s, '\n');
  }

  /** The body of a tool: its implementation indented when it is not blank,
      otherwise a placeholder `return` naming the tool. */
  function ToolBody(name: string, implementation: string): string
  {
    if Trim(implementation) != "" then Indent(implementation)
    else "    return \"Implementation for " + name + "\"\n"
  }

  /** `def name(p1: t1, p2: t2) -> returnType`, without the colon. */
  function Signature(name: string, parameters: seq<Parameter>, returnType: string): string
  {
    "def " + name + "(" + ParamList(parameters) + ") -> " + returnType
  }

  function ToolBlock(t: Node): string
  {
    match t.data
    case FunctionToolData(_, name, parameters, returnType, implementation) =>
      ToolFunction(Signature(name, parameters, returnType), ToolBody(name, implementation))
    case _ => ""
  }

  /** The decorated function with the given signature and body. */
  function ToolFunction(signature: string, body: string): string
  {
    "@function_tool\n" + signature + ":\n" + body + "\n"
  }

  function ToolBlocks(tools: seq<Node>): string
  {
    if tools == [] then "" else ToolBlocks(tools[..|tools| - 1]) + ToolBlock(tools[|tools| - 1])
  }

  /** The placeholder body of a tool followed by the block's closing newline. */
  lemma PlaceholderLines(name: string)
    requires '\n' !in name
    ensures Split("    return \"Implementation for " + name + "\"\n" + "\n", '\n')
            == ["    return \"Implementation for " + name + "\"", "", ""]
  {
    var front := "    return \"Implementation for " + name;
    var ret := front + "\"";
    assert '\n' !in ret by {
      assert forall i :: 0 <= i < |front| ==> front[i] != '\n' by {
        assert front == "    return \"Implementation for " + name;
      }
    }
    assert front + "\"\n" + "\n" == ret + "\n" + ("" + "\n" + "") by {
      assert "\"\n" == "\"" + "\n";
      AppendAssoc(front, "\"", "\n");
      AppendAssoc(ret, "\n", "\n");
    }
    SplitLine(ret, "" + "\n" + "");
    SplitLine("", "");
  }

  /** A tool function is the decorator line, the signature line and the body
      followed by the closing newline. */
  lemma ToolFunctionShape(signature: string, body: string)
    ensures ToolFunction(signature, body)
            == "@function_tool" + "\n" + (signature + ":" + "\n" + (body + "\n"))
  {
    DecoratorLine();
    LinesShape("@function_tool", signature, body);
  }

  /** The lines of a non-blank implementation's body and the closing newline. */
  lemma IndentedBodyLines(name: string, implementation: string)
    requires !IsBlank(implementation)
    ensures Split(ToolBody(name, implementation) + "\n", '\n')
            == IndentEach(Split(implementation, '\n')) + [""]
  {
    TrimEmptyIffBlank(implementation);
    var body := ToolBody(name, implementation);
    assert body + "\n" == body + "\n" + "";
    SplitAppend(body, "", '\n');
    IndentLines(implementation);
  }

  /** The lines of a tool's body and the closing newline: the placeholder when
      the implementation is blank, otherwise every implementation line indented. */
  lemma ToolBodyLines(name: string, implementation: string)
    requires '\n' !in name
    ensures Split(ToolBody(name, implementation) + "\n", '\n') ==
      (if IsBlank(implementation)
       then ["    return \"Implementation for " + name + "\"", "", ""]
       else IndentEach(Split(implementation, '\n')) + [""])
  {
    if IsBlank(implementation) {
      TrimEmptyIffBlank(implementation);
      PlaceholderLines(name);
    } else {
      IndentedBodyLines(name, implementation);
    }
  }

  /** The lines of a tool block: the decorator right before the signature, then
      every implementation line indented (or the placeholder when the
      implementation is blank), then an empty line. */
  lemma ToolBlockLines(t: Node)
    requires t.data.FunctionToolData?
    requires '\n' !in t.data.name && '\n' !in Signature(t.data.name, t.data.parameters, t.data.returnType)
    ensures
      var d := t.data;
      Split(ToolBlock(t), '\n') ==
        ["@function_tool", Signature(d.name, d.parameters, d.returnType) + ":"]
        + (if IsBlank(d.implementation)
           then ["    return \"Implementation for " + d.name + "\"", "", ""]
           else IndentEach(Split(d.implementation, '\n')) + [""])
  {
    var d := t.data;
    var sig := Signature(d.name, d.parameters, d.returnType);
    assert ToolBlock(t) == ToolFunction(sig, ToolBody(d.name, d.implementation));
    ToolFunctionShape(sig, ToolBody(d.name, d.implementation));
    NoNewlineInDecorator();
    NoNewlineAfterColon(sig);
    TwoLines("@function_tool", sig + ":", ToolBody(d.name, d.implementation) + "\n");
    ToolBodyLines(d.name, d.implementation);
  }

  // ------------------------------------------------------- guardrail blocks

  function GuardrailBlock(g: Node): string
  {
    match g.data
    case GuardrailData(_, name, _, outputType) => GuardrailFunction(ToLower(name), outputType)
    case _ => ""
  }

  /** The guardrail function named `<functionName>_guardrail`, which runs the
      guardrail agent and reads its output as `outputType`; it is written line
      by line, each line with its newline, and ends with a blank line. */
  function GuardrailFunction(functionName: string, outputType: string): string
  {
    GuardrailDefLine(functionName) + "\n"
    + (GuardrailRunLine + "\n"
    + (GuardrailOutputLine(outputType) + "\n"
    + (GuardrailReturnLine + "\n"
    + (GuardrailInfoLine + "\n"
    + (GuardrailTripwireLine + "\n"
    + (GuardrailCloseLine + "\n" + "\n"))))))
  }

  function GuardrailDefLine(functionName: string): string
  {
    "async def " + functionName + "_guardrail(ctx, agent, input_data):"
  }

  const GuardrailRunLine := "    result = await Runner.run(" + "guardrail_agent, input_data, " + "context=ctx.context)"

  function GuardrailOutputLine(outputType: string): string
  {
    "    final_output = result.final_output_as(" + outputType + ")"
  }

  const GuardrailReturnLine := "    return GuardrailFunctionOutput("
  const GuardrailInfoLine := "        output_info=final_output,"
  const GuardrailTripwireLine := "        tripwire_triggered=False," + "  # Define your condition here"
  const GuardrailCloseLine := "    )"

  function GuardrailBlocks(guards: seq<Node>): string
  {
    if guards == [] then "" else GuardrailBlocks(guards[..|guards| - 1]) + GuardrailBlock(guards[|guards| - 1])
  }

  /** A guardrail function is named after its lower-cased name: its block opens
      with `async def <lower-cased name>_guardrail(...)`, so two guardrails whose
      names differ only in ASCII case emit the same function. */
  lemma GuardrailNameCase(g: Node, g': Node)
    requires g.data.GuardrailData? && g'.data.GuardrailData?
    requires ToLower(g.data.name) == ToLower(g'.data.name)
    requires g.data.outputType == g'.data.outputType
    ensures "async def " + ToLower(g.data.name) + "_guardrail(ctx, agent, input_data):" + "\n" <= GuardrailBlock(g)
    ensures GuardrailBlock(g) == GuardrailBlock(g')
  {
    var fn := ToLower(g.data.name);
    assert GuardrailBlock(g) == GuardrailFunction(fn, g.data.outputType);
    assert GuardrailBlock(g') == GuardrailFunction(ToLower(g'.data.name), g'.data.outputType);
    PrefixOfAppend(GuardrailDefLine(fn) + "\n", GuardrailFunction(fn, g.data.outputType)[|GuardrailDefLine(fn) + "\n"|..]);
  }

  /** The lines of a guardrail function: the `async def` line named after the
      lower-cased name, the awaited run of the guardrail agent, the read of its
      output as the output type, and a `GuardrailFunctionOutput` that never
      trips; then a blank line. */
  lemma GuardrailBlockLines(g: Node)
    requires g.data.GuardrailData?
    requires '\n' !in g.data.name && '\n' !in g.data.outputType
    ensures Split(GuardrailBlock(g), '\n') ==
      [ "async def " + ToLower(g.data.name) + "_guardrail(ctx, agent, input_data):",
        GuardrailRunLine,
        "    final_output = result.final_output_as(" + g.data.outputType + ")",
        GuardrailReturnLine,
        GuardrailInfoLine,
        GuardrailTripwireLine,
        GuardrailCloseLine,
        "", "" ]
  {
    var fn, ot := ToLower(g.data.name), g.data.outputType;
    assert GuardrailBlock(g) == GuardrailFunction(fn, ot);
    NoNewlineLower(g.data.name);
    NoNewlineInGuardrailLines(fn, ot);
    SevenLines(GuardrailDefLine(fn), GuardrailRunLine, GuardrailOutputLine(ot), GuardrailReturnLine,
               GuardrailInfoLine, GuardrailTripwireLine, GuardrailCloseLine);
  }

  lemma NoNewlineInGuardrailLines(fn: string, ot: string)
    requires '\n' !in fn && '\n' !in ot
    ensures '\n' !in GuardrailDefLine(fn) && '\n' !in GuardrailOutputLine(ot)
    ensures '\n' !in GuardrailRunLine && '\n' !in GuardrailReturnLine && '\n' !in GuardrailInfoLine
    ensures '\n' !in GuardrailTripwireLine && '\n' !in GuardrailCloseLine
  {
    NoNewlineInGuardrailLiterals();
    NoNewlineAppend("async def ", fn);
    NoNewlineAppend("async def " + fn, "_guardrail(ctx, agent, input_data):");
    NoNewlineAppend("    final_output = result.final_output_as(", ot);
    NoNewlineAppend("    final_output = result.final_output_as(" + ot, ")");
  }

  // ----------------------------------------------------------- agent blocks

  /** The binding name of the node `id` resolves to, or the empty string. */
  function HandoffVar(nodes: seq<Node>, id: string): string
  {
    match FindNode(nodes, id)
    case Some(n) => BindingName(NameOf(n.data))
    case None => ""
  }

  /** The binding names of the handoff targets: unresolved ids and targets whose
      binding name is empty are dropped. */
  function HandoffVars(nodes: seq<Node>, ids: seq<string>): (r: seq<string>)
    ensures |r| <= |ids|
    ensures forall k :: 0 <= k < |r| ==> r[k] != ""
  {
    if ids == [] then []
    else
      var v := HandoffVar(nodes, ids[0]);
      if v != "" then [v] + HandoffVars(nodes, ids[1..]) else HandoffVars(nodes, ids[1..])
  }

  /** A binding name is listed iff it is non-empty and some id resolves to it. */
  lemma {:induction false} HandoffVarsMembers(nodes: seq<Node>, ids: seq<string>)
    ensures forall x :: x in HandoffVars(nodes, ids) <==> x != "" && exists i :: 0 <= i < |ids| && HandoffVar(nodes, ids[i]) == x
  {
    if ids != [] {
      HandoffVarsMembers(nodes, ids[1..]);
      assert forall i :: 1 <= i < |ids| ==> ids[i] == ids[1..][i - 1];
    }
  }

  /** The raw name of the node `id` resolves to, or the empty string. */
  function ToolVar(nodes: seq<Node>, id: string): string
  {
    match FindNode(nodes, id)
    case Some(n) => NameOf(n.data)
    case None => ""
  }

  /** The raw names of the tool sources: unresolved ids and empty names are
      dropped. */
  function ToolVars(nodes: seq<Node>, ids: seq<string>): (r: seq<string>)
    ensures |r| <= |ids|
    ensures forall k :: 0 <= k < |r| ==> r[k] != ""
  {
    if ids == [] then []
    else
      var v := ToolVar(nodes, ids[0]);
      if v != "" then [v] + ToolVars(nodes, ids[1..]) else ToolVars(nodes, ids[1..])
  }

  /** A name is listed iff it is non-empty and some id resolves to it. */
  lemma {:induction false} ToolVarsMembers(nodes: seq<Node>, ids: seq<string>)
    ensures forall x :: x in ToolVars(nodes, ids) <==> x != "" && exists i :: 0 <= i < |ids| && ToolVar(nodes, ids[i]) == x
  {
    if ids != [] {
      ToolVarsMembers(nodes, ids[1..]);
      assert forall i :: 1 <= i < |ids| ==> ids[i] == ids[1..][i - 1];
    }
  }

  /** The handoff names follow the order of the ids, one per resolving id, so
      repeated ids give repeated names: the names of a concatenation are the
      names of each part in turn. */
  lemma {:induction false} HandoffVarsAppend(nodes: seq<Node>, a: seq<string>, b: seq<string>)
    ensures HandoffVars(nodes, a + b) == HandoffVars(nodes, a) + HandoffVars(nodes, b)
    ensures |a| == 1 ==>
      HandoffVars(nodes, a) == if HandoffVar(nodes, a[0]) != "" then [HandoffVar(nodes, a[0])] else []
  {
    if a != [] {
      assert (a + b)[0] == a[0];
      assert (a + b)[1..] == a[1..] + b;
      HandoffVarsAppend(nodes, a[1..], b);
    } else {
      assert a + b == b;
    }
  }

  /** The tool names follow the order of the ids, one per resolving id: the
      names of a concatenation are the names of each part in turn. */
  lemma {:induction false} ToolVarsAppend(nodes: seq<Node>, a: seq<string>, b: seq<string>)
    ensures ToolVars(nodes, a + b) == ToolVars(nodes, a) + ToolVars(nodes, b)
    ensures |a| == 1 ==>
      ToolVars(nodes, a) == if ToolVar(nodes, a[0]) != "" then [ToolVar(nodes, a[0])] else []
  {
    if a != [] {
      assert (a + b)[0] == a[0];
      assert (a + b)[1..] == a[1..] + b;
      ToolVarsAppend(nodes, a[1..], b);
    } else {
      assert a + b == b;
    }
  }

  /** One `    key=value,` line of an `Agent(...)` call. */
  function FieldLine(key: string, value: string): string
  {
    "    " + key + "=" + value + ",\n"
  }

  function Quote(s: string): string
  {
    "\"" + s + "\""
  }

  /** The `Agent(...)` block of one agent, built as the source builds it. */
  function AgentBlock(a: Node, nodes: seq<Node>, edges: seq<Edge>): string
  {
    match a.data
    case AgentData(_, name, instructions, handoffDescription, outputType, _, _) =>
      var handoffVars := HandoffVars(nodes, HandoffTargets(edges, a.id));
      var toolVars := ToolVars(nodes, ToolSources(edges, a.id));
      BindingName(name) + " = Agent(\n"
      + FieldLine("name", Quote(name))
      + (if handoffDescription.Some? && handoffDescription.value != ""
         then FieldLine("handoff_description", Quote(handoffDescription.value)) else "")
      + FieldLine("instructions", Quote(instructions))
      + (if |handoffVars| > 0 then FieldLine("handoffs", "[" + Join(handoffVars, ", ") + "]") else "")
      + (if |toolVars| > 0 then FieldLine("tools", "[" + Join(toolVars, ", ") + "]") else "")
      + (if outputType != "" then FieldLine("output_type", outputType) else "")
      + ")\n\n"
    case _ => ""
  }

  function AgentBlocks(agents: seq<Node>, nodes: seq<Node>, edges: seq<Edge>): string
  {
    if agents == [] then ""
    else AgentBlocks(agents[..|agents| - 1], nodes, edges) + AgentBlock(agents[|agents| - 1], nodes, edges)
  }

  /** The keyword arguments an `Agent(...)` call may carry, in their fixed order. */
  datatype FieldKey = NameKey | HandoffDescriptionKey | InstructionsKey | HandoffsKey | ToolsKey | OutputTypeKey

  function KeyText(k: FieldKey): string
  {
    match k
    case NameKey => "name"
    case HandoffDescriptionKey => "handoff_description"
    case InstructionsKey => "instructions"
    case HandoffsKey => "handoffs"
    case ToolsKey => "tools"
    case OutputTypeKey => "output_type"
  }

  /** One field of an `Agent(...)` call. */
  datatype Field = Field(key: FieldKey, value: string)

  function Keys(fs: seq<Field>): (r: seq<FieldKey>)
    ensures |r| == |fs| && forall i :: 0 <= i < |fs| ==> r[i] == fs[i].key
  {
    if fs == [] then [] else [fs[0].key] + Keys(fs[1..])
  }

  lemma {:induction false} KeysAppend(fs: seq<Field>, gs: seq<Field>)
    ensures Keys(fs + gs) == Keys(fs) + Keys(gs)
  {
    if fs == [] {
      assert fs + gs == gs;
    } else {
      assert (fs + gs)[1..] == fs[1..] + gs;
      KeysAppend(fs[1..], gs);
    }
  }

  lemma KeysOptional(opt: seq<Field>)
    requires |opt| <= 1
    ensures Keys(opt) == if opt == [] then [] else [opt[0].key]
  {
    if opt != [] {
      assert Keys(opt[1..]) == [];
    }
  }

  /** The fields of an agent's block: name and instructions always, the others
      only when they have something to say. */
  function AgentFields(name: string, handoffDescription: Option<string>, instructions: string,
                       handoffVars: seq<string>, toolVars: seq<string>, outputType: string): (r: seq<Field>)
    ensures |r| >= 2 && r[0] == Field(NameKey, Quote(name))
    ensures Field(InstructionsKey, Quote(instructions)) in r
  {
    var nm := [Field(NameKey, Quote(name))];
    var hd := if handoffDescription.Some? && handoffDescription.value != ""
              then [Field(HandoffDescriptionKey, Quote(handoffDescription.value))] else [];
    var ins := [Field(InstructionsKey, Quote(instructions))];
    var ho := if |handoffVars| > 0 then [Field(HandoffsKey, "[" + Join(handoffVars, ", ") + "]")] else [];
    var to := if |toolVars| > 0 then [Field(ToolsKey, "[" + Join(toolVars, ", ") + "]")] else [];
    var ot := if outputType != "" then [Field(OutputTypeKey, outputType)] else [];
    nm + hd + ins + ho + to + ot
  }

  /** The keys of an agent's fields come in the fixed order name,
      handoff_description, instructions, handoffs, tools, output_type, each
      optional one exactly when it has something to say. */
  lemma AgentFieldKeys(name: string, handoffDescription: Option<string>, instructions: string,
                       handoffVars: seq<string>, toolVars: seq<string>, outputType: string)
    ensures Keys(AgentFields(name, handoffDescription, instructions, handoffVars, toolVars, outputType)) ==
      [NameKey]
      + (if handoffDescription.Some? && handoffDescription.value != "" then [HandoffDescriptionKey] else [])
      + [InstructionsKey]
      + (if handoffVars != [] then [HandoffsKey] else [])
      + (if toolVars != [] then [ToolsKey] else [])
      + (if outputType != "" then [OutputTypeKey] else [])
  {
    var nm := [Field(NameKey, Quote(name))];
    var hd := if handoffDescription.Some? && handoffDescription.value != ""
              then [Field(HandoffDescriptionKey, Quote(handoffDescription.value))] else [];
    var ins := [Field(InstructionsKey, Quote(instructions))];
    var ho := if |handoffVars| > 0 then [Field(HandoffsKey, "[" + Join(handoffVars, ", ") + "]")] else [];
    var to := if |toolVars| > 0 then [Field(ToolsKey, "[" + Join(toolVars, ", ") + "]")] else [];
    var ot := if outputType != "" then [Field(OutputTypeKey, outputType)] else [];
    var k1 := [NameKey];
    var k2 := if handoffDescription.Some? && handoffDescription.value != "" then [HandoffDescriptionKey] else [];
    var k3 := [InstructionsKey];
    var k4 := if handoffVars != [] then [HandoffsKey] else [];
    var k5 := if toolVars != [] then [ToolsKey] else [];
    var k6 := if outputType != "" then [OutputTypeKey] else [];
    assert AgentFields(name, handoffDescription, instructions, handoffVars, toolVars, outputType)
           == nm + hd + ins + ho + to + ot;
    assert Keys(nm + hd) == k1 + k2 by {
      KeysAppend(nm, hd);
      KeysOptional(nm);
      KeysOptional(hd);
    }
    assert Keys(nm + hd + ins) == k1 + k2 + k3 by {
      KeysAppend(nm + hd, ins);
      KeysOptional(ins);
    }
    assert Keys(nm + hd + ins + ho) == k1 + k2 + k3 + k4 by {
      KeysAppend(nm + hd + ins, ho);
      KeysOptional(ho);
    }
    assert Keys(nm + hd + ins + ho + to) == k1 + k2 + k3 + k4 + k5 by {
      KeysAppend(nm + hd + ins + ho, to);
      KeysOptional(to);
    }
    KeysAppend(nm + hd + ins + ho + to, ot);
    KeysOptional(ot);
  }

  /** Each field on its own line. */
  function RenderFields(fs: seq<Field>): string
  {
    if fs == [] then "" else FieldLine(KeyText(fs[0].key), fs[0].value) + RenderFields(fs[1..])
  }

  lemma {:induction false} RenderFieldsAppend(fs: seq<Field>, gs: seq<Field>)
    ensures RenderFields(fs + gs) == RenderFields(fs) + RenderFields(gs)
  {
    if fs != [] {
      assert (fs + gs)[0] == fs[0];
      assert (fs + gs)[1..] == fs[1..] + gs;
      RenderFieldsAppend(fs[1..], gs);
      var line := FieldLine(KeyText(fs[0].key), fs[0].value);
      calc {
        RenderFields(fs + gs);
        line + RenderFields(fs[1..] + gs);
        line + (RenderFields(fs[1..]) + RenderFields(gs));
        (line + RenderFields(fs[1..])) + RenderFields(gs);
        RenderFields(fs) + RenderFields(gs);
      }
    } else {
      assert fs + gs == gs;
    }
  }

  /** A field that is present renders as its line, an absent one as nothing. */
  lemma RenderOptional(present: bool, k: FieldKey, value: string)
    ensures RenderFields(if present then [Field(k, value)] else [])
            == if present then FieldLine(KeyText(k), value) else ""
  {
    if present {
      assert [Field(k, value)][1..] == [];
    }
  }

  /** The field lines of an agent, one per present field, in field order. */
  lemma RenderAgentFields(name: string, handoffDescription: Option<string>, instructions: string,
                          handoffVars: seq<string>, toolVars: seq<string>, outputType: string)
    ensures RenderFields(AgentFields(name, handoffDescription, instructions, handoffVars, toolVars, outputType))
      == FieldLine("name", Quote(name))
         + (if handoffDescription.Some? && handoffDescription.value != ""
            then FieldLine("handoff_description", Quote(handoffDescription.value)) else "")
         + FieldLine("instructions", Quote(instructions))
         + (if |handoffVars| > 0 then FieldLine("handoffs", "[" + Join(handoffVars, ", ") + "]") else "")
         + (if |toolVars| > 0 then FieldLine("tools", "[" + Join(toolVars, ", ") + "]") else "")
         + (if outputType != "" then FieldLine("output_type", outputType) else "")
  {
    var c2 := handoffDescription.Some? && handoffDescription.value != "";
    var nm := [Field(NameKey, Quote(name))];
    var hd := if c2 then [Field(HandoffDescriptionKey, Quote(handoffDescription.value))] else [];
    var ins := [Field(InstructionsKey, Quote(instructions))];
    var ho := if |handoffVars| > 0 then [Field(HandoffsKey, "[" + Join(handoffVars, ", ") + "]")] else [];
    var to := if |toolVars| > 0 then [Field(ToolsKey, "[" + Join(toolVars, ", ") + "]")] else [];
    var ot := if outputType != "" then [Field(OutputTypeKey, outputType)] else [];
    assert AgentFields(name, handoffDescription, instructions, handoffVars, toolVars, outputType)
           == nm + hd + ins + ho + to + ot;
    assert RenderFields(nm) == FieldLine("name", Quote(name)) by {
      RenderOptional(true, NameKey, Quote(name));
    }
    assert RenderFields(hd) == if c2 then FieldLine("handoff_description", Quote(handoffDescription.value)) else "" by {
      if c2 {
        RenderOptional(true, HandoffDescriptionKey, Quote(handoffDescription.value));
      }
    }
    assert RenderFields(ins) == FieldLine("instructions", Quote(instructions)) by {
      RenderOptional(true, InstructionsKey, Quote(instructions));
    }
    assert RenderFields(ho) == if |handoffVars| > 0 then FieldLine("handoffs", "[" + Join(handoffVars, ", ") + "]") else "" by {
      RenderOptional(|handoffVars| > 0, HandoffsKey, "[" + Join(handoffVars, ", ") + "]");
    }
    assert RenderFields(to) == if |toolVars| > 0 then FieldLine("tools", "[" + Join(toolVars, ", ") + "]") else "" by {
      RenderOptional(|toolVars| > 0, ToolsKey, "[" + Join(toolVars, ", ") + "]");
    }
    assert RenderFields(ot) == if outputType != "" then FieldLine("output_type", outputType) else "" by {
      RenderOptional(outputType != "", OutputTypeKey, outputType);
    }
    RenderSix(nm, hd, ins, ho, to, ot);
  }

  /** Rendering six runs of fields one after the other. */
  lemma RenderSix(f1: seq<Field>, f2: seq<Field>, f3: seq<Field>, f4: seq<Field>, f5: seq<Field>, f6: seq<Field>)
    ensures RenderFields(f1 + f2 + f3 + f4 + f5 + f6)
            == RenderFields(f1) + RenderFields(f2) + RenderFields(f3) + RenderFields(f4)
               + RenderFields(f5) + RenderFields(f6)
  {
    RenderFieldsAppend(f1, f2);
    RenderFieldsAppend(f1 + f2, f3);
    RenderFieldsAppend(f1 + f2 + f3, f4);
    RenderFieldsAppend(f1 + f2 + f3 + f4, f5);
    RenderFieldsAppend(f1 + f2 + f3 + f4 + f5, f6);
  }

  /** The block the source builds is the binding line, the agent's fields one per
      line, and the closing parenthesis. */
  lemma AgentBlockAsFields(a: Node, nodes: seq<Node>, edges: seq<Edge>)
    requires a.data.AgentData?
    ensures
      var d := a.data;
      var fields := AgentFields(d.name, d.handoffDescription, d.instructions,
                                HandoffVars(nodes, HandoffTargets(edges, a.id)),
                                ToolVars(nodes, ToolSources(edges, a.id)), d.outputType);
      AgentBlock(a, nodes, edges) == BindingName(d.name) + " = Agent(\n" + RenderFields(fields) + ")\n\n"
  {
    var d := a.data;
    var handoffVars := HandoffVars(nodes, HandoffTargets(edges, a.id));
    var toolVars := ToolVars(nodes, ToolSources(edges, a.id));
    RenderAgentFields(d.name, d.handoffDescription, d.instructions, handoffVars, toolVars, d.outputType);
    var p1 := FieldLine("name", Quote(d.name));
    var p2 := if d.handoffDescription.Some? && d.handoffDescription.value != ""
              then FieldLine("handoff_description", Quote(d.handoffDescription.value)) else "";
    var p3 := FieldLine("instructions", Quote(d.instructions));
    var p4 := if |handoffVars| > 0 then FieldLine("handoffs", "[" + Join(handoffVars, ", ") + "]") else "";
    var p5 := if |toolVars| > 0 then FieldLine("tools", "[" + Join(toolVars, ", ") + "]") else "";
    var p6 := if d.outputType != "" then FieldLine("output_type", d.outputType) else "";
    var head := BindingName(d.name) + " = Agent(\n";
    assert AgentBlock(a, nodes, edges) == head + p1 + p2 + p3 + p4 + p5 + p6 + ")\n\n";
    AppendAssoc(head, p1, p2);
    AppendAssoc(head, p1 + p2, p3);
    AppendAssoc(head, p1 + p2 + p3, p4);
    AppendAssoc(head, p1 + p2 + p3 + p4, p5);
    AppendAssoc(head, p1 + p2 + p3 + p4 + p5, p6);
  }

  /** Edge `e` is a Handoff leaving `id` whose target resolves to a node with
      binding name `x`. */
  predicate HandoffNamed(nodes: seq<Node>, e: Edge, id: string, x: string)
  {
    && e.source == id && e.connectionType == Handoff
    && FindNode(nodes, e.target).Some?
    && BindingName(NameOf(FindNode(nodes, e.target).value.data)) == x
  }

  /** Edge `e` is a Tool edge entering `id` whose source resolves to a node named `x`. */
  predicate ToolNamed(nodes: seq<Node>, e: Edge, id: string, x: string)
  {
    && e.target == id && e.connectionType == Tool
    && FindNode(nodes, e.source).Some?
    && NameOf(FindNode(nodes, e.source).value.data) == x
  }

  /** The handoff name edge `e` contributes to the block of `id`, if any. */
  function EdgeHandoff(nodes: seq<Node>, e: Edge, id: string): seq<string>
  {
    if e.source == id && e.connectionType == Handoff && HandoffVar(nodes, e.target) != ""
    then [HandoffVar(nodes, e.target)] else []
  }

  /** The tool name edge `e` contributes to the block of `id`, if any. */
  function EdgeTool(nodes: seq<Node>, e: Edge, id: string): seq<string>
  {
    if e.target == id && e.connectionType == Tool && ToolVar(nodes, e.source) != ""
    then [ToolVar(nodes, e.source)] else []
  }

  /** Adding an edge at the end adds its handoff name, if any, at the end. */
  lemma HandoffsInEdgeOrder(nodes: seq<Node>, edges: seq<Edge>, id: string)
    requires edges != []
    ensures HandoffVars(nodes, HandoffTargets(edges, id))
            == HandoffVars(nodes, HandoffTargets(edges[..|edges| - 1], id)) + EdgeHandoff(nodes, edges[|edges| - 1], id)
  {
    var init, e := edges[..|edges| - 1], edges[|edges| - 1];
    assert init + [e] == edges;
    HandoffTargetsAppend(init, [e], id);
    HandoffTargetsAppend([e], [], id);
    HandoffVarsAppend(nodes, HandoffTargets(init, id), HandoffTargets([e], id));
    if e.source == id && e.connectionType == Handoff {
      HandoffVarsAppend(nodes, [e.target], []);
    }
  }

  /** Adding an edge at the end adds its tool name, if any, at the end. */
  lemma ToolsInEdgeOrder(nodes: seq<Node>, edges: seq<Edge>, id: string)
    requires edges != []
    ensures ToolVars(nodes, ToolSources(edges, id))
            == ToolVars(nodes, ToolSources(edges[..|edges| - 1], id)) + EdgeTool(nodes, edges[|edges| - 1], id)
  {
    var init, e := edges[..|edges| - 1], edges[|edges| - 1];
    assert init + [e] == edges;
    ToolSourcesAppend(init, [e], id);
    ToolSourcesAppend([e], [], id);
    ToolVarsAppend(nodes, ToolSources(init, id), ToolSources([e], id));
    if e.target == id && e.connectionType == Tool {
      ToolVarsAppend(nodes, [e.source], []);
    }
  }

  /** The handoff list of an agent's block names exactly the agents reached by
      Handoff edges leaving it (read from the edge list, not from the cached
      `handoffs`) that resolve to a node with a non-empty binding name, in edge
      order: each edge appends its name, if any, after those of the edges before
      it. */
  lemma AgentHandoffsFromEdges(a: Node, nodes: seq<Node>, edges: seq<Edge>, x: string)
    ensures x in HandoffVars(nodes, HandoffTargets(edges, a.id)) <==>
      (x != "" && exists j :: 0 <= j < |edges| && HandoffNamed(nodes, edges[j], a.id, x))
    ensures edges == [] ==> HandoffVars(nodes, HandoffTargets(edges, a.id)) == []
    ensures edges != [] ==>
      HandoffVars(nodes, HandoffTargets(edges, a.id))
      == HandoffVars(nodes, HandoffTargets(edges[..|edges| - 1], a.id)) + EdgeHandoff(nodes, edges[|edges| - 1], a.id)
  {
    AgentHandoffsMembers(a, nodes, edges, x);
    if edges != [] {
      HandoffsInEdgeOrder(nodes, edges, a.id);
    }
  }

  /** The membership half of `AgentHandoffsFromEdges`. */
  lemma AgentHandoffsMembers(a: Node, nodes: seq<Node>, edges: seq<Edge>, x: string)
    ensures x in HandoffVars(nodes, HandoffTargets(edges, a.id)) <==>
      (x != "" && exists j :: 0 <= j < |edges| && HandoffNamed(nodes, edges[j], a.id, x))
  {
    var ids := HandoffTargets(edges, a.id);
    assert x in HandoffVars(nodes, ids) <==> x != "" && exists i :: 0 <= i < |ids| && HandoffVar(nodes, ids[i]) == x by {
      HandoffVarsMembers(nodes, ids);
    }
    if x != "" && exists i :: 0 <= i < |ids| && HandoffVar(nodes, ids[i]) == x {
      var i :| 0 <= i < |ids| && HandoffVar(nodes, ids[i]) == x;
      assert ids[i] in ids;
    }
    if x != "" && exists j :: 0 <= j < |edges| && HandoffNamed(nodes, edges[j], a.id, x) {
      var j :| 0 <= j < |edges| && HandoffNamed(nodes, edges[j], a.id, x);
      assert edges[j].target in ids;
      var i :| 0 <= i < |ids| && ids[i] == edges[j].target;
    }
  }

  /** The tool list of an agent's block names exactly the raw names of the nodes
      reached by Tool edges entering it that resolve to a non-empty name, in edge
      order: each edge appends its name, if any, after those of the edges before
      it. */
  lemma AgentToolsFromEdges(a: Node, nodes: seq<Node>, edges: seq<Edge>, x: string)
    ensures x in ToolVars(nodes, ToolSources(edges, a.id)) <==>
      (x != "" && exists j :: 0 <= j < |edges| && ToolNamed(nodes, edges[j], a.id, x))
    ensures edges == [] ==> ToolVars(nodes, ToolSources(edges, a.id)) == []
    ensures edges != [] ==>
      ToolVars(nodes, ToolSources(edges, a.id))
      == ToolVars(nodes, ToolSources(edges[..|edges| - 1], a.id)) + EdgeTool(nodes, edges[|edges| - 1], a.id)
  {
    AgentToolsMembers(a, nodes, edges, x);
    if edges != [] {
      ToolsInEdgeOrder(nodes, edges, a.id);
    }
  }

  /** The membership half of `AgentToolsFromEdges`. */
  lemma AgentToolsMembers(a: Node, nodes: seq<Node>, edges: seq<Edge>, x: string)
    ensures x in ToolVars(nodes, ToolSources(edges, a.id)) <==>
      (x != "" && exists j :: 0 <= j < |edges| && ToolNamed(nodes, edges[j], a.id, x))
  {
    var ids := ToolSources(edges, a.id);
    assert x in ToolVars(nodes, ids) <==> x != "" && exists i :: 0 <= i < |ids| && ToolVar(nodes, ids[i]) == x by {
      ToolVarsMembers(nodes, ids);
    }
    if x != "" && exists i :: 0 <= i < |ids| && ToolVar(nodes, ids[i]) == x {
      var i :| 0 <= i < |ids| && ToolVar(nodes, ids[i]) == x;
      assert ids[i] in ids;
    }
    if x != "" && exists j :: 0 <= j < |edges| && ToolNamed(nodes, edges[j], a.id, x) {
      var j :| 0 <= j < |edges| && ToolNamed(nodes, edges[j], a.id, x);
      assert edges[j].source in ids;
      var i :| 0 <= i < |ids| && ids[i] == edges[j].source;
    }
  }

  // ------------------------------------------------------------ entry point

  /** `edges.find(edge => edge.target === id && edge.data?.connectionType === EXECUTION)`:
      the first Execution edge entering `id`. */
  function FindExecutionEdge(edges: seq<Edge>, id: string): (r: Option<Edge>)
    ensures r.Some? ==> r.value in edges && r.value.target == id && r.value.connectionType == Execution
    ensures r.Some? ==>
      exists i :: 0 <= i < |edges| && edges[i] == r.value && forall j :: 0 <= j < i ==> !EntersAsExecution(edges[j], id)
    ensures r.None? <==>
      forall i :: 0 <= i < |edges| ==> !(edges[i].target == id && edges[i].connectionType == Execution)
  {
    if edges == [] then None
    else if edges[0].target == id && edges[0].connectionType == Execution then Some(edges[0])
    else
      var r := FindExecutionEdge(edges[1..], id);
      FirstExecutionShift(edges, id, r);
      r
  }

  predicate EntersAsExecution(e: Edge, id: string)
  {
    e.target == id && e.connectionType == Execution
  }

  /** The first match in the tail is the first match of the whole list when
      the head does not match. */
  lemma FirstExecutionShift(edges: seq<Edge>, id: string, r: Option<Edge>)
    requires edges != [] && !EntersAsExecution(edges[0], id)
    requires r.Some? ==>
      exists i :: 0 <= i < |edges[1..]| && edges[1..][i] == r.value
                  && forall j :: 0 <= j < i ==> !EntersAsExecution(edges[1..][j], id)
    ensures r.Some? ==>
      exists i :: 0 <= i < |edges| && edges[i] == r.value && forall j :: 0 <= j < i ==> !EntersAsExecution(edges[j], id)
  {
    if r.Some? {
      var i :| 0 <= i < |edges[1..]| && edges[1..][i] == r.value
               && forall j :: 0 <= j < i ==> !EntersAsExecution(edges[1..][j], id);
      assert forall j :: 1 <= j < i + 1 ==> edges[j] == edges[1..][j - 1];
      assert edges[i + 1] == r.value;
    }
  }

  /** `, context=...` when the runner's context is present and not blank. */
  function ContextArg(context: Option<string>): string
  {
    if context.Some? && Trim(context.value) != "" then ", context=" + context.value else ""
  }

  /** The context argument appears exactly when the context is not blank. */
  lemma ContextArgPresent(context: Option<string>)
    ensures ContextArg(context) != "" <==> context.Some? && !IsBlank(context.value)
    ensures ContextArg(context) != "" ==> ContextArg(context) == ", context=" + context.value
  {
    if context.Some? {
      TrimEmptyIffBlank(context.value);
    }
  }

  /** The awaited call inside `main()`, without its newline. */
  function AwaitLine(binding: string, input: string, context: Option<string>): string
  {
    "    result = await Runner.run(" + binding + ", input=\"" + input + "\"" + ContextArg(context) + ")"
  }

  /** The synchronous call, without its newline. */
  function SyncLine(binding: string, input: string, context: Option<string>): string
  {
    "result = Runner.run_sync(" + binding + ", \"" + input + "\"" + ContextArg(context) + ")"
  }

  /** The call that runs the agent bound to `binding`, synchronously or as an
      awaited call inside `main()` with the `__main__` guard. */
  function RunCall(binding: string, input: string, isAsync: bool, context: Option<string>): string
  {
    if isAsync then
      "async def main():\n"
      + AwaitLine(binding, input, context) + "\n"
      + "    print(result.final_output)\n\n"
      + "if __name__ == \"__main__\":\n"
      + "    asyncio.run(main())\n"
    else
      SyncLine(binding, input, context) + "\n"
      + "print(result.final_output)\n"
  }

  /** The entry point: only the first runner counts, and only when an Execution
      edge enters it and its source resolves. */
  function EntryPoint(runners: seq<Node>, nodes: seq<Node>, edges: seq<Edge>): string
  {
    if |runners| == 0 then ""
    else
      var r := runners[0];
      match FindExecutionEdge(edges, r.id)
      case None => ""
      case Some(e) =>
        match FindNode(nodes, e.source)
        case None => ""
        case Some(agent) =>
          match r.data
          case RunnerData(_, input, isAsync, context) =>
            RunCall(BindingName(NameOf(agent.data)), input, isAsync, context)
          case _ => ""
  }

  /** Runners after the first never reach the entry point, and the entry point
      is empty exactly when there is no runner, no Execution edge into the first
      one, or that edge's source does not resolve. */
  lemma EntryPointCases(runners: seq<Node>, nodes: seq<Node>, edges: seq<Edge>)
    requires forall i :: 0 <= i < |runners| ==> runners[i].data.RunnerData?
    ensures |runners| > 0 ==> EntryPoint(runners, nodes, edges) == EntryPoint(runners[..1], nodes, edges)
    ensures EntryPoint(runners, nodes, edges) == "" <==>
      || |runners| == 0
      || FindExecutionEdge(edges, runners[0].id).None?
      || FindNode(nodes, FindExecutionEdge(edges, runners[0].id).value.source).None?
  {
  }

  /** The lines after the awaited call. */
  lemma MainGuardLines()
    ensures Split("    print(result.final_output)\n\n" + "if __name__ == \"__main__\":\n"
                  + "    asyncio.run(main())\n", '\n')
            == ["    print(result.final_output)", "", "if __name__ == \"__main__\":",
                "    asyncio.run(main())", ""]
  {
    var p, g, r := "    print(result.final_output)", "if __name__ == \"__main__\":", "    asyncio.run(main())";
    GuardPieces();
    NoNewlineInPrint();
    NoNewlineInGuard();
    NoNewlineInRun();
    GuardShape(p, g, r);
    SplitLine(p, "" + "\n" + (g + "\n" + (r + "\n" + "")));
    SplitLine("", g + "\n" + (r + "\n" + ""));
    SplitLine(g, r + "\n" + "");
    SplitLine(r, "");
  }

  /** The asynchronous entry point is the `main()` line, the awaited call and
      the lines after it. */
  lemma AsyncRunCallShape(binding: string, input: string, context: Option<string>)
    ensures RunCall(binding, input, true, context)
            == "async def main():" + "\n"
               + (AwaitLine(binding, input, context) + "\n"
                  + ("    print(result.final_output)\n\n" + "if __name__ == \"__main__\":\n"
                     + "    asyncio.run(main())\n"))
  {
    var l := AwaitLine(binding, input, context);
    var a := "async def main():\n";
    assert a == "async def main():" + "\n";
    var p, g, r := "    print(result.final_output)\n\n", "if __name__ == \"__main__\":\n", "    asyncio.run(main())\n";
    assert RunCall(binding, input, true, context) == a + l + "\n" + p + g + r;
    AppendAssoc(a, l, "\n");
    AppendAssoc(a, l + "\n", p);
    AppendAssoc(a, l + "\n" + p, g);
    AppendAssoc(a, l + "\n" + p + g, r);
    AppendAssoc(l + "\n", p, g);
    AppendAssoc(l + "\n", p + g, r);
    AppendAssoc(p, g, r);
  }

  /** The lines of the asynchronous entry point: `main()` holding the awaited
      call and the print, a blank line, and the `__main__` guard. */
  lemma AsyncRunCallLines(binding: string, input: string, context: Option<string>)
    requires '\n' !in AwaitLine(binding, input, context)
    ensures Split(RunCall(binding, input, true, context), '\n') ==
      ["async def main():", AwaitLine(binding, input, context)]
      + ["    print(result.final_output)", "", "if __name__ == \"__main__\":", "    asyncio.run(main())", ""]
  {
    var l := AwaitLine(binding, input, context);
    var rest := "    print(result.final_output)\n\n" + "if __name__ == \"__main__\":\n" + "    asyncio.run(main())\n";
    var guard := ["    print(result.final_output)", "", "if __name__ == \"__main__\":", "    asyncio.run(main())", ""];
    AsyncRunCallShape(binding, input, context);
    assert Split(l + "\n" + rest, '\n') == [l] + guard by {
      SplitLine(l, rest);
      MainGuardLines();
    }
    assert '\n' !in "async def main():" by {
      NoNewlineInMainLine();
    }
    SplitLine("async def main():", l + "\n" + rest);
    ConsTwo("async def main():", l, guard);
  }

  /** The lines of the synchronous entry point: the `run_sync` call and the
      print of its final output. */
  lemma SyncRunCallLines(binding: string, input: string, context: Option<string>)
    requires '\n' !in SyncLine(binding, input, context)
    ensures Split(RunCall(binding, input, false, context), '\n') ==
      [SyncLine(binding, input, context), "print(result.final_output)", ""]
  {
    var l, p := SyncLine(binding, input, context), "print(result.final_output)";
    assert RunCall(binding, input, false, context) == l + "\n" + (p + "\n" + "") by {
      SyncPieces();
    }
    NoNewlineInSyncPrint();
    TwoLinesEnd(l, p);
  }

  // ------------------------------------------------------------ the program

  /** `generateCode()`: header, stubs, tools, guardrails, agents, entry point. */
  function Generate(w: Workflow): string
  {
    var agents := OfKind(w.nodes, Agent);
    var runners := OfKind(w.nodes, Runner);
    var tools := OfKind(w.nodes, FunctionTool);
    var guards := OfKind(w.nodes, Guardrail);
    Header(agents, runners, tools, guards)
    + SchemaStubs(agents)
    + ToolBlocks(tools)
    + GuardrailBlocks(guards)
    + AgentBlocks(agents, w.nodes, w.edges)
    + EntryPoint(runners, w.nodes, w.edges)
  }

  /** A workflow without nodes yields only the base import line and a blank line,
      whatever its edges. */
  lemma GenerateEmpty(edges: seq<Edge>)
    ensures Generate(Workflow([], edges)) == "from agents import Agent, Runner\n\n"
  {
  }

  // ------------------------------------------------ the cached id lists

  /** A payload with the cached `handoffs`/`tools` lists of an agent cleared. */
  function StripCaches(d: NodeData): NodeData
  {
    if d.AgentData? then d.(handoffs := [], tools := []) else d
  }

  /** Two node lists that differ at most in the agents' cached id lists. */
  predicate SameButCaches(nodes: seq<Node>, nodes': seq<Node>)
  {
    && |nodes| == |nodes'|
    && forall i :: 0 <= i < |nodes| ==>
         nodes[i].id == nodes'[i].id && StripCaches(nodes[i].data) == StripCaches(nodes'[i].data)
  }

  lemma SameButCachesAppend(a: seq<Node>, a': seq<Node>, b: seq<Node>, b': seq<Node>)
    requires SameButCaches(a, a') && SameButCaches(b, b')
    ensures SameButCaches(a + b, a' + b')
  {
    forall i | 0 <= i < |a| + |b|
      ensures (a + b)[i].id == (a' + b')[i].id
      ensures StripCaches((a + b)[i].data) == StripCaches((a' + b')[i].data)
    {
      if i >= |a| {
        assert (a + b)[i] == b[i - |a|] && (a' + b')[i] == b'[i - |a|];
      }
    }
  }

  lemma {:induction false} OfKindSameButCaches(nodes: seq<Node>, nodes': seq<Node>, k: NodeType)
    requires SameButCaches(nodes, nodes')
    ensures SameButCaches(OfKind(nodes, k), OfKind(nodes', k))
  {
    if nodes != [] {
      assert SameButCaches(nodes[1..], nodes'[1..]) by {
        forall i | 0 <= i < |nodes| - 1
          ensures nodes[1..][i] == nodes[i + 1] && nodes'[1..][i] == nodes'[i + 1] {}
      }
      OfKindSameButCaches(nodes[1..], nodes'[1..], k);
      assert nodes[0].data.Kind() == nodes'[0].data.Kind() by {
        assert StripCaches(nodes[0].data) == StripCaches(nodes'[0].data);
        assert StripCaches(nodes[0].data).Kind() == nodes[0].data.Kind();
        assert StripCaches(nodes'[0].data).Kind() == nodes'[0].data.Kind();
      }
      var head, head' := if nodes[0].data.Kind() == k then [nodes[0]] else [],
                         if nodes'[0].data.Kind() == k then [nodes'[0]] else [];
      var rest, rest' := OfKind(nodes[1..], k), OfKind(nodes'[1..], k);
      assert OfKind(nodes, k) == head + rest;
      assert OfKind(nodes', k) == head' + rest';
      assert SameButCaches(head, head');
      SameButCachesAppend(head, head', rest, rest');
    }
  }

  lemma {:induction false} FindNodeSameButCaches(nodes: seq<Node>, nodes': seq<Node>, id: string)
    requires SameButCaches(nodes, nodes')
    ensures FindNode(nodes, id).Some? <==> FindNode(nodes', id).Some?
    ensures FindNode(nodes, id).Some? ==>
      NameOf(FindNode(nodes, id).value.data) == NameOf(FindNode(nodes', id).value.data)
  {
    if nodes != [] {
      FindNodeSameButCaches(nodes[1..], nodes'[1..], id);
      assert NameOf(nodes[0].data) == NameOf(StripCaches(nodes[0].data));
      assert NameOf(nodes'[0].data) == NameOf(StripCaches(nodes'[0].data));
    }
  }

  lemma {:induction false} VarsSameButCaches(nodes: seq<Node>, nodes': seq<Node>, ids: seq<string>)
    requires SameButCaches(nodes, nodes')
    ensures HandoffVars(nodes, ids) == HandoffVars(nodes', ids)
    ensures ToolVars(nodes, ids) == ToolVars(nodes', ids)
  {
    if ids != [] {
      VarsSameButCaches(nodes, nodes', ids[1..]);
      FindNodeSameButCaches(nodes, nodes', ids[0]);
    }
  }

  lemma AgentBlockSameButCaches(a: Node, a': Node, nodes: seq<Node>, nodes': seq<Node>, edges: seq<Edge>)
    requires a.id == a'.id && StripCaches(a.data) == StripCaches(a'.data)
    requires SameButCaches(nodes, nodes')
    ensures AgentBlock(a, nodes, edges) == AgentBlock(a', nodes', edges)
  {
    VarsSameButCaches(nodes, nodes', HandoffTargets(edges, a.id));
    VarsSameButCaches(nodes, nodes', ToolSources(edges, a.id));
  }

  lemma {:induction false} BlocksSameButCaches(xs: seq<Node>, xs': seq<Node>, nodes: seq<Node>,
                                               nodes': seq<Node>, edges: seq<Edge>)
    requires SameButCaches(xs, xs') && SameButCaches(nodes, nodes')
    ensures SchemaStubs(xs) == SchemaStubs(xs')
    ensures ToolBlocks(xs) == ToolBlocks(xs')
    ensures GuardrailBlocks(xs) == GuardrailBlocks(xs')
    ensures AgentBlocks(xs, nodes, edges) == AgentBlocks(xs', nodes', edges)
  {
    if xs != [] {
      var n := |xs| - 1;
      BlocksSameButCaches(xs[..n], xs'[..n], nodes, nodes', edges);
      AgentBlockSameButCaches(xs[n], xs'[n], nodes, nodes', edges);
      var d, d' := xs[n].data, xs'[n].data;
      assert StripCaches(d) == StripCaches(d');
      if !d.AgentData? {
        assert d == StripCaches(d);
        assert d'.Kind() == StripCaches(d').Kind();
      }
    }
  }

  lemma HeaderSameButCaches(nodes: seq<Node>, nodes': seq<Node>)
    requires SameButCaches(nodes, nodes')
    ensures AnyAsync(nodes) == AnyAsync(nodes')
    ensures AnyOutputType(nodes) == AnyOutputType(nodes')
  {
    forall i | 0 <= i < |nodes|
      ensures (nodes[i].data.RunnerData? && nodes[i].data.isAsync)
              == (nodes'[i].data.RunnerData? && nodes'[i].data.isAsync)
      ensures (nodes[i].data.AgentData? && nodes[i].data.outputType != "")
              == (nodes'[i].data.AgentData? && nodes'[i].data.outputType != "")
    {
      var d, d' := nodes[i].data, nodes'[i].data;
      assert StripCaches(d) == StripCaches(d');
      assert StripCaches(d).Kind() == d.Kind() && StripCaches(d').Kind() == d'.Kind();
    }
  }

  lemma EntryPointSameButCaches(runners: seq<Node>, runners': seq<Node>, nodes: seq<Node>,
                                nodes': seq<Node>, edges: seq<Edge>)
    requires SameButCaches(runners, runners') && SameButCaches(nodes, nodes')
    requires forall i :: 0 <= i < |runners| ==> runners[i].data.RunnerData?
    ensures EntryPoint(runners, nodes, edges) == EntryPoint(runners', nodes', edges)
  {
    if |runners| > 0 {
      assert runners[0].data == runners'[0].data by {
        assert StripCaches(runners[0].data) == StripCaches(runners'[0].data);
        assert runners[0].data == StripCaches(runners[0].data);
        assert StripCaches(runners'[0].data).Kind() == runners'[0].data.Kind();
      }
      var e := FindExecutionEdge(edges, runners[0].id);
      if e.Some? {
        FindNodeSameButCaches(nodes, nodes', e.value.source);
      }
    }
  }

  /** The program never reads the cached `handoffs`/`tools` lists: two graphs
      that differ only in them yield the same program. */
  lemma GenerateIgnoresCaches(nodes: seq<Node>, nodes': seq<Node>, edges: seq<Edge>)
    requires SameButCaches(nodes, nodes')
    ensures Generate(Workflow(nodes, edges)) == Generate(Workflow(nodes', edges))
  {
    var agents, agents' := OfKind(nodes, Agent), OfKind(nodes', Agent);
    var runners, runners' := OfKind(nodes, Runner), OfKind(nodes', Runner);
    var tools, tools' := OfKind(nodes, FunctionTool), OfKind(nodes', FunctionTool);
    var guards, guards' := OfKind(nodes, Guardrail), OfKind(nodes', Guardrail);
    OfKindSameButCaches(nodes, nodes', Agent);
    OfKindSameButCaches(nodes, nodes', Runner);
    OfKindSameButCaches(nodes, nodes', FunctionTool);
    OfKindSameButCaches(nodes, nodes', Guardrail);
    assert Header(agents, runners, tools, guards) == Header(agents', runners', tools', guards') by {
      HeaderSameButCaches(agents, agents');
      HeaderSameButCaches(runners, runners');
    }
    assert SchemaStubs(agents) == SchemaStubs(agents')
           && AgentBlocks(agents, nodes, edges) == AgentBlocks(agents', nodes', edges) by {
      BlocksSameButCaches(agents, agents', nodes, nodes', edges);
    }
    assert ToolBlocks(tools) == ToolBlocks(tools') by {
      BlocksSameButCaches(tools, tools', nodes, nodes', edges);
    }
    assert GuardrailBlocks(guards) == GuardrailBlocks(guards') by {
      BlocksSameButCaches(guards, guards', nodes, nodes', edges);
    }
    assert EntryPoint(runners, nodes, edges) == EntryPoint(runners', nodes', edges) by {
      EntryPointSameButCaches(runners, runners', nodes, nodes', edges);
    }
  }

  /** In particular, rewriting one node's cached lists, as a connection does,
      leaves the program unchanged. */
  lemma GenerateIgnoresCacheUpdate(w: Workflow, id: string, ids: seq<string>)
    ensures Generate(Workflow(UpdateNodes(w.nodes, id, HandoffsPatch(ids)), w.edges)) == Generate(w)
    ensures Generate(Workflow(UpdateNodes(w.nodes, id, ToolsPatch(ids)), w.edges)) == Generate(w)
  {
    CacheUpdateSameButCaches(w.nodes, id, HandoffsPatch(ids));
    CacheUpdateSameButCaches(w.nodes, id, ToolsPatch(ids));
    GenerateIgnoresCaches(UpdateNodes(w.nodes, id, HandoffsPatch(ids)), w.nodes, w.edges);
    GenerateIgnoresCaches(UpdateNodes(w.nodes, id, ToolsPatch(ids)), w.nodes, w.edges);
  }

  /** A patch that writes only the cached lists changes nothing else. */
  lemma CacheUpdateSameButCaches(nodes: seq<Node>, id: string, p: Patch)
    requires p.(handoffs := None, tools := None) == EmptyPatch
    ensures SameButCaches(UpdateNodes(nodes, id, p), nodes)
  {
    var u := UpdateNodes(nodes, id, p);
    forall i | 0 <= i < |nodes|
      ensures StripCaches(u[i].data) == StripCaches(nodes[i].data)
    {
      var d := nodes[i].data;
      assert p.displayLabel.None? && p.name.None?;
      if d.AgentData? {
        assert p.instructions.None? && p.handoffDescription.None? && p.outputType.None?;
      }
    }
  }

  // ---------------------------------------------------------- proof helpers
  // Literal and line-splitting facts the lemmas above rely on.

  /** Splitting a line off the front of a text. */
  lemma SplitLine(a: string, b: string)
    requires '\n' !in a
    ensures Split(a + "\n" + b, '\n') == [a] + Split(b, '\n')
  {
    SplitAppend(a, b, '\n');
    SplitNoSeparator(a, '\n');
  }

  lemma DecoratorLine()
    ensures "@function_tool\n" == "@function_tool" + "\n"
  {
  }

  /** Regrouping `a\n` + `s:\n` + `b` + `\n` line by line. */
  lemma LinesShape(a: string, s: string, b: string)
    ensures (a + "\n") + s + ":\n" + b + "\n" == a + "\n" + (s + ":" + "\n" + (b + "\n"))
  {
    assert ":\n" == ":" + "\n";
    AppendAssoc(s, ":", "\n");
    var l := s + ":" + "\n";
    AppendAssoc(a + "\n", s, ":\n");
    AppendAssoc(a + "\n", l, b);
    AppendAssoc(a + "\n", l + b, "\n");
    AppendAssoc(l, b, "\n");
  }

  /** Two lines split off the front of a text. */
  lemma TwoLines(a: string, b: string, rest: string)
    requires '\n' !in a && '\n' !in b
    ensures Split(a + "\n" + (b + "\n" + rest), '\n') == [a, b] + Split(rest, '\n')
  {
    SplitLine(a, b + "\n" + rest);
    SplitLine(b, rest);
    ConsTwo(a, b, Split(rest, '\n'));
  }

  lemma NoNewlineInDecorator()
    ensures '\n' !in "@function_tool"
  {
  }

  lemma NoNewlineAfterColon(s: string)
    requires '\n' !in s
    ensures '\n' !in s + ":"
  {
    assert forall i :: 0 <= i < |s| ==> (s + ":")[i] == s[i];
  }

  lemma PrefixOfAppend(a: string, b: string)
    ensures a <= a + b
  {
    assert (a + b)[..|a|] == a;
  }

  lemma NoNewlineInGuardrailLiterals()
    ensures '\n' !in "async def " && '\n' !in "_guardrail(ctx, agent, input_data):"
    ensures '\n' !in "    final_output = result.final_output_as(" && '\n' !in ")"
    ensures '\n' !in GuardrailRunLine && '\n' !in GuardrailReturnLine && '\n' !in GuardrailInfoLine
    ensures '\n' !in GuardrailTripwireLine && '\n' !in GuardrailCloseLine
  {
    NoNewlineInGuardrailDefPieces();
    NoNewlineInGuardrailOutputPieces();
    NoNewlineInGuardrailRunPieces();
    NoNewlineInGuardrailReturnLineText();
    NoNewlineInGuardrailInfoLineText();
    NoNewlineInGuardrailTripwirePieces();
    NoNewlineInGuardrailCloseLineText();
    NoNewlineAppend("    result = await Runner.run(", "guardrail_agent, input_data, ");
    NoNewlineAppend("    result = await Runner.run(" + "guardrail_agent, input_data, ", "context=ctx.context)");
    NoNewlineAppend("        tripwire_triggered=False,", "  # Define your condition here");
  }

  lemma NoNewlineInGuardrailDefPieces()
    ensures '\n' !in "async def " && '\n' !in "_guardrail(ctx, agent, input_data):"
  {
  }

  lemma NoNewlineInGuardrailOutputPieces()
    ensures '\n' !in "    final_output = result.final_output_as(" && '\n' !in ")"
  {
  }

  lemma NoNewlineInGuardrailRunPieces()
    ensures '\n' !in "    result = await Runner.run(" && '\n' !in "guardrail_agent, input_data, "
      && '\n' !in "context=ctx.context)"
  {
  }

  lemma NoNewlineInGuardrailReturnLineText()
    ensures '\n' !in GuardrailReturnLine
  {
  }

  lemma NoNewlineInGuardrailInfoLineText()
    ensures '\n' !in GuardrailInfoLine
  {
  }

  lemma NoNewlineInGuardrailTripwirePieces()
    ensures '\n' !in "        tripwire_triggered=False," && '\n' !in "  # Define your condition here"
  {
  }

  lemma NoNewlineInGuardrailCloseLineText()
    ensures '\n' !in GuardrailCloseLine
  {
  }

  lemma AppendAssoc(a: string, b: string, c: string)
    ensures a + b + c == a + (b + c)
  {
  }

  lemma GuardPieces()
    ensures "    print(result.final_output)\n\n" == "    print(result.final_output)" + "\n" + "\n"
    ensures "if __name__ == \"__main__\":\n" == "if __name__ == \"__main__\":" + "\n"
    ensures "    asyncio.run(main())\n" == "    asyncio.run(main())" + "\n"
  {
  }

  lemma NoNewlineInPrint()
    ensures '\n' !in "    print(result.final_output)"
  {
  }

  lemma NoNewlineInGuard()
    ensures '\n' !in "if __name__ == \"__main__\":"
  {
  }

  lemma NoNewlineInRun()
    ensures '\n' !in "    asyncio.run(main())"
  {
  }

  /** Regrouping a line, an empty line and two more lines. */
  lemma GuardShape(p: string, g: string, r: string)
    ensures p + "\n" + "\n" + (g + "\n") + (r + "\n")
            == p + "\n" + ("" + "\n" + (g + "\n" + (r + "\n" + "")))
  {
    assert "" + "\n" == "\n";
    assert r + "\n" + "" == r + "\n";
    AppendAssoc(p + "\n", "\n", g + "\n");
    AppendAssoc(p + "\n", "\n" + (g + "\n"), r + "\n");
    AppendAssoc("\n", g + "\n", r + "\n");
  }

  lemma NoNewlineInMainLine()
    ensures '\n' !in "async def main():"
  {
  }

  lemma NoNewlineAppend(a: string, b: string)
    requires '\n' !in a && '\n' !in b
    ensures '\n' !in a + b
  {
    assert forall i :: 0 <= i < |a + b| ==> (a + b)[i] == if i < |a| then a[i] else b[i - |a|];
  }

  lemma NoNewlineLower(s: string)
    requires '\n' !in s
    ensures '\n' !in ToLower(s)
  {
    assert forall i :: 0 <= i < |s| ==> ToLower(s)[i] == LowerChar(s[i]);
  }

  /** Seven lines, each with its newline, and a final empty line. */
  lemma SevenLines(l1: string, l2: string, l3: string, l4: string, l5: string, l6: string, l7: string)
    requires '\n' !in l1 && '\n' !in l2 && '\n' !in l3 && '\n' !in l4
    requires '\n' !in l5 && '\n' !in l6 && '\n' !in l7
    ensures Split(l1 + "\n" + (l2 + "\n" + (l3 + "\n" + (l4 + "\n" + (l5 + "\n" + (l6 + "\n" + (l7 + "\n" + "\n")))))), '\n')
            == [l1, l2, l3, l4, l5, l6, l7, "", ""]
  {
    var t4 := l4 + "\n" + (l5 + "\n" + (l6 + "\n" + (l7 + "\n" + "\n")));
    FourLines(l4, l5, l6, l7);
    ConsLine(l3, t4, [l4, l5, l6, l7, "", ""]);
    ConsLine(l2, l3 + "\n" + t4, [l3, l4, l5, l6, l7, "", ""]);
    ConsLine(l1, l2 + "\n" + (l3 + "\n" + t4), [l2, l3, l4, l5, l6, l7, "", ""]);
  }

  /** Four lines, each with its newline, and a final empty line. */
  lemma FourLines(l4: string, l5: string, l6: string, l7: string)
    requires '\n' !in l4 && '\n' !in l5 && '\n' !in l6 && '\n' !in l7
    ensures Split(l4 + "\n" + (l5 + "\n" + (l6 + "\n" + (l7 + "\n" + "\n"))), '\n') == [l4, l5, l6, l7, "", ""]
  {
    assert "\n" == "" + "\n" + "";
    SplitLine("", "");
    ConsLine(l7, "\n", ["", ""]);
    ConsLine(l6, l7 + "\n" + "\n", [l7, "", ""]);
    ConsLine(l5, l6 + "\n" + (l7 + "\n" + "\n"), [l6, l7, "", ""]);
    ConsLine(l4, l5 + "\n" + (l6 + "\n" + (l7 + "\n" + "\n")), [l5, l6, l7, "", ""]);
  }

  /** A line without a newline, in front of text already split. */
  lemma ConsLine(a: string, rest: string, lines: seq<string>)
    requires '\n' !in a && Split(rest, '\n') == lines
    ensures Split(a + "\n" + rest, '\n') == [a] + lines
  {
    SplitLine(a, rest);
  }

  lemma ConsTwo(a: string, b: string, rest: seq<string>)
    ensures [a] + ([b] + rest) == [a, b] + rest
  {
  }

  lemma NoNewlineInSyncPrint()
    ensures '\n' !in "print(result.final_output)"
  {
  }

  /** Two lines, each ended by a newline. */
  lemma TwoLinesEnd(l: string, p: string)
    requires '\n' !in l && '\n' !in p
    ensures Split(l + "\n" + (p + "\n" + ""), '\n') == [l, p, ""]
  {
    SplitLine(p, "");
    SplitLine(l, p + "\n" + "");
  }

  lemma SyncPieces()
    ensures "print(result.final_output)\n" == "print(result.final_output)" + "\n" + ""
  {
  }
}
