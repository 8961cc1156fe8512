/** Concrete workflows and the exact programs the emitter produces for them,
    among them the sample program shipped with the designer
    (src/generated_code.py). */
module Scenarios {
  import opened Types
  import opened Text
  import opened Graph
  import opened Emitter

  const SampleInput := "用Python实现斐波那契数列"

  const SampleAgent := Node("agent-1", Position(0.0, 0.0),
    AgentData("Agent", "assistant", DefaultAgentInstructions, Some(""), "", [], []))

  const SampleRunner := Node("runner-2", Position(0.0, 0.0),
    RunnerData("Runner", SampleInput, true, Some("")))

  const SampleEdge := Edge("eagent-1-runner-2", "agent-1", "runner-2", Execution)

  /** The workflow behind the sample: one agent executed by an asynchronous runner. */
  const SampleWorkflow := Workflow([SampleAgent, SampleRunner], [SampleEdge])

  lemma AssistantName()
    ensures BindingName("assistant") == "assistant"
  {
    var name := "assistant";
    assert forall i :: 0 <= i < |name| ==> 'a' <= name[i] <= 'z';
    LowerWordBinding(name);
  }

  /** A name with a double space binds to one underscore: `My  Agent` becomes
      `my_agent`. */
  lemma SpacedName()
    ensures BindingName("My  Agent") == "my_agent"
  {
    SpacedNameParts();
    BindingNameRun("My", "  ", "Agent");
    LowerMy();
    AgentBinding();
    UnderscoreJoin();
  }

  /** The header imports `Agent` and `Runner`, then `asyncio` for the
      asynchronous runner; no tool, guardrail or output type asks for more. */
  lemma SampleHeader()
    ensures Header([SampleAgent], [SampleRunner], [], [])
            == "from agents import Agent, Runner" + "\nimport asyncio" + "\n\n"
  {
    assert [SampleRunner][0].data.isAsync;
    assert !AnyOutputType([SampleAgent]);
  }

  lemma NameLineText()
    ensures FieldLine("name", Quote("assistant")) == "    name=\"assistant\",\n"
  {
    NameKeyText();
    QuotedAssistant();
    NameFieldText();
    NameLineEnd();
  }

  lemma InstructionsLineText()
    ensures FieldLine("instructions", Quote(DefaultAgentInstructions))
            == "    instructions=\"You are a helpful assistant.\",\n"
  {
    InstructionsKeyText();
    OpenQuotedInstructions();
    CloseQuotedInstructions();
    InstructionsFieldText();
    InstructionsLineEnd();
  }

  /** The sample agent's block: its binding, its name and instructions, and no
      handoffs, tools or output type. */
  lemma SampleAgentBlock()
    ensures AgentBlock(SampleAgent, SampleWorkflow.nodes, SampleWorkflow.edges)
            == "assistant = Agent(\n"
               + "    name=\"assistant\",\n"
               + "    instructions=\"You are a helpful assistant.\",\n"
               + ")\n\n"
  {
    var nodes, edges := SampleWorkflow.nodes, SampleWorkflow.edges;
    assert HandoffVars(nodes, HandoffTargets(edges, "agent-1")) == [] by {
      assert HandoffTargets(edges, "agent-1") == [];
    }
    assert ToolVars(nodes, ToolSources(edges, "agent-1")) == [] by {
      assert "runner-2" != "agent-1";
      assert ToolSources(edges, "agent-1") == [];
    }
    var b := BindingName("assistant") + " = Agent(\n";
    var n := FieldLine("name", Quote("assistant"));
    var i := FieldLine("instructions", Quote(DefaultAgentInstructions));
    assert AgentBlock(SampleAgent, nodes, edges) == b + n + "" + i + "" + "" + "" + ")\n\n";
    AppendEmpty(b + n);
    AppendEmpty(b + n + i);
    AppendEmpty(b + n + i + "");
    AppendEmpty(b + n + i + "" + "");
    AssistantName();
    BindingLineText();
    NameLineText();
    InstructionsLineText();
  }

  /** The awaited call names `assistant` and quotes the sample input; the empty
      context adds no argument. */
  lemma AwaitLineText()
    ensures AwaitLine("assistant", SampleInput, Some(""))
            == "    result = await Runner.run(assistant, input=\"用Python实现斐波那契数列\")"
  {
    assert ContextArg(Some("")) == "" by {
      assert Trim("") == "";
    }
    AwaitCallText();
    AwaitInputKeyText();
    AwaitInputText();
    AwaitInputEnd();
    AwaitCallEnd();
  }

  lemma AsyncMainText()
    ensures RunCall("assistant", SampleInput, true, Some(""))
            == "async def main():\n"
               + "    result = await Runner.run(assistant, input=\"用Python实现斐波那契数列\")" + "\n"
               + "    print(result.final_output)\n\n"
               + "if __name__ == \"__main__\":\n"
               + "    asyncio.run(main())\n"
  {
    AwaitLineText();
  }

  lemma SampleLookups()
    ensures FindExecutionEdge(SampleWorkflow.edges, SampleRunner.id) == Some(SampleEdge)
    ensures FindNode(SampleWorkflow.nodes, SampleEdge.source) == Some(SampleAgent)
  {
  }

  lemma SampleEntryPoint()
    ensures EntryPoint([SampleRunner], SampleWorkflow.nodes, SampleWorkflow.edges)
            == RunCall("assistant", SampleInput, true, Some(""))
  {
    AssistantName();
    SampleLookups();
  }

  lemma SampleKinds()
    ensures OfKind(SampleWorkflow.nodes, Agent) == [SampleAgent]
    ensures OfKind(SampleWorkflow.nodes, Runner) == [SampleRunner]
    ensures OfKind(SampleWorkflow.nodes, FunctionTool) == []
    ensures OfKind(SampleWorkflow.nodes, Guardrail) == []
  {
  }

  /** The sample workflow's program is its header, its one agent block and its
      entry point: no stubs, tools or guardrails. */
  lemma SampleParts()
    ensures Generate(SampleWorkflow)
            == Header([SampleAgent], [SampleRunner], [], [])
               + AgentBlock(SampleAgent, SampleWorkflow.nodes, SampleWorkflow.edges)
               + EntryPoint([SampleRunner], SampleWorkflow.nodes, SampleWorkflow.edges)
  {
    var nodes, edges := SampleWorkflow.nodes, SampleWorkflow.edges;
    var h := Header([SampleAgent], [SampleRunner], [], []);
    var a := AgentBlock(SampleAgent, nodes, edges);
    var e := EntryPoint([SampleRunner], nodes, edges);
    SampleKinds();
    assert SchemaStubs([SampleAgent]) == "" && AgentBlocks([SampleAgent], nodes, edges) == "" + a by {
      assert [SampleAgent][..0] == [];
    }
    assert Generate(SampleWorkflow) == h + "" + "" + "" + ("" + a) + e;
    AppendEmpty(h);
    AppendEmpty(a);
  }

  /** An agent named `assistant` with the default instructions, executed by an
      asynchronous runner with the sample input, yields the sample program: the
      header, the agent block and the asynchronous entry point, piece by piece
      in the order the generator appends them. */
  lemma SampleProgram()
    ensures Generate(SampleWorkflow) ==
      ( "from agents import Agent, Runner"
      + "\nimport asyncio"
      + "\n\n")
      + ( "assistant = Agent(\n"
        + "    name=\"assistant\",\n"
        + "    instructions=\"You are a helpful assistant.\",\n"
        + ")\n\n")
      + ( "async def main():\n"
        + "    result = await Runner.run(assistant, input=\"用Python实现斐波那契数列\")" + "\n"
        + "    print(result.final_output)\n\n"
        + "if __name__ == \"__main__\":\n"
        + "    asyncio.run(main())\n")
  {
    SampleParts();
    SampleHeader();
    SampleAgentBlock();
    SampleEntryPoint();
    AsyncMainText();
  }

  // ---------------------------------------------------------- proof helpers
  // One step per literal fact: each joins a short piece onto a known text.

  lemma AppendEmpty(s: string)
    ensures s + "" == s && "" + s == s
  {
  }

  lemma SpacedNameParts()
    ensures "My  Agent" == "My" + "  " + "Agent"
    ensures NoWhitespace("My") && IsBlank("  ") && !IsWhitespace("Agent"[0])
  {
  }

  lemma LowerMy()
    ensures ToLower("My") == "my"
  {
  }

  lemma AgentBinding()
    ensures BindingName("Agent") == "agent"
  {
    AgentWord();
    BindingNameFacts("Agent");
  }

  lemma AgentWord()
    ensures NoWhitespace("Agent") && ToLower("Agent") == "agent"
  {
    assert NoWhitespace("Agent") by {
      AgentLetters();
    }
    assert ToLower("Agent") == "agent" by {
      LowerAgent();
    }
  }

  lemma AgentLetters()
    ensures forall i :: 0 <= i < |"Agent"| ==> 'A' <= "Agent"[i] <= 'z'
  {
  }

  lemma LowerAgent()
    ensures ToLower("Agent") == "agent"
  {
  }

  lemma UnderscoreJoin()
    ensures "my" + "_" + "agent" == "my_agent"
  {
  }

  lemma BindingLineText()
    ensures "assistant" + " = Agent(\n" == "assistant = Agent(\n"
  {
  }

  lemma NameKeyText()
    ensures "    " + "name" + "=" == "    name="
  {
  }

  lemma QuotedAssistant()
    ensures "\"" + "assistant" + "\"" == "\"assistant\""
  {
  }

  lemma NameFieldText()
    ensures "    name=" + "\"assistant\"" == "    name=\"assistant\""
  {
  }

  lemma NameLineEnd()
    ensures "    name=\"assistant\"" + ",\n" == "    name=\"assistant\",\n"
  {
  }

  lemma InstructionsKeyText()
    ensures "    " + "instructions" + "=" == "    instructions="
  {
  }

  lemma OpenQuotedInstructions()
    ensures "\"" + DefaultAgentInstructions == "\"You are a helpful assistant."
  {
  }

  lemma CloseQuotedInstructions()
    ensures "\"You are a helpful assistant." + "\"" == "\"You are a helpful assistant.\""
  {
  }

  lemma InstructionsFieldText()
    ensures "    instructions=" + "\"You are a helpful assistant.\""
            == "    instructions=\"You are a helpful assistant.\""
  {
  }

  lemma InstructionsLineEnd()
    ensures "    instructions=\"You are a helpful assistant.\"" + ",\n"
            == "    instructions=\"You are a helpful assistant.\",\n"
  {
  }

  lemma AwaitCallText()
    ensures "    result = await Runner.run(" + "assistant" == "    result = await Runner.run(assistant"
  {
  }

  lemma AwaitInputKeyText()
    ensures "    result = await Runner.run(assistant" + ", input=\""
            == "    result = await Runner.run(assistant, input=\""
  {
  }

  lemma AwaitInputText()
    ensures "    result = await Runner.run(assistant, input=\"" + SampleInput
            == "    result = await Runner.run(assistant, input=\"用Python实现斐波那契数列"
  {
  }

  lemma AwaitInputEnd()
    ensures "    result = await Runner.run(assistant, input=\"用Python实现斐波那契数列" + "\""
            == "    result = await Runner.run(assistant, input=\"用Python实现斐波那契数列\""
  {
  }

  lemma AwaitCallEnd()
    ensures "    result = await Runner.run(assistant, input=\"用Python实现斐波那契数列\"" + ")"
            == "    result = await Runner.run(assistant, input=\"用Python实现斐波那契数列\")"
  {
  }
}
