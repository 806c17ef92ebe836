/**
  The reasoning recorder of agents/base/callbacks.py: a LangChain callback handler that turns
  the agent's events into a list of step dicts for the chat UI.

  Steps are Python dicts, shared by reference: `on_agent_action` appends the very dict it keeps
  as `current_step`, and `on_tool_end` later writes `output` into that dict, which changes the
  entry already in `steps`. The model keeps that aliasing: a dict is an object (`StepDict`),
  `steps` is a sequence of such objects, and `GetSteps` reads their current contents.
*/
module Callbacks {
  import opened Common
  import opened Text

  /** The step types the chat UI knows how to show. */
  const StepTypes: set<string> := {"thinking", "tool_decision", "tool_execution", "tool_result", "conclusion"}

  function ThinkingStep(): StringMap {
    map["type" := "thinking", "content" := "Analyzing your request..."]
  }

  /** The sentence recorded as the reasoning of a tool decision. */
  function ReasoningSentence(tool: string, toolInput: string): string {
    "I need to use the " + tool + " tool to find information about: " + toolInput
  }

  function ToolDecisionStep(tool: string, toolInput: string): StringMap {
    map["type" := "tool_decision", "tool" := tool, "input" := toolInput,
        "reasoning" := ReasoningSentence(tool, toolInput)]
  }

  function ToolExecutionStep(toolName: string, inputStr: string): StringMap {
    map["type" := "tool_execution", "tool" := toolName, "status" := "running",
        "content" := "Searching for: " + inputStr]
  }

  function ToolResultStep(): StringMap {
    map["type" := "tool_result", "content" := "Found relevant information. Processing..."]
  }

  function ConclusionStep(): StringMap {
    map["type" := "conclusion", "content" := "Formulating response based on the information found..."]
  }

  /** `on_chain_start` records a step only for a chain whose lowercased name mentions "agent". */
  predicate IsAgentChain(serialized: StringMap): (agent: bool)
    ensures "name" !in serialized ==> !agent
  {
    Contains(Lower(Get(serialized, "name", "")), "agent")
  }

  /** The step has a `type`, and the chat UI knows it. */
  predicate HasKnownType(step: StringMap) {
    "type" in step && step["type"] in StepTypes
  }

  predicate IsToolDecision(step: StringMap) {
    "type" in step && step["type"] == "tool_decision"
  }

  /** A Python dict holding one step; it may be referenced from several places. */
  class StepDict {
    var entries: StringMap

    constructor (entries: StringMap)
      ensures this.entries == entries
    {
      this.entries := entries;
    }
  }

  class AgentReasoningCallback {
    var steps: seq<StepDict>
    var currentStep: StepDict
    /** Where `currentStep` sits in `steps`, once it has been appended. */
    ghost var current: int

    /**
      The recorder's invariant: the step dicts are distinct objects; `current_step` is truthy
      exactly when it is one of them, namely the last tool decision recorded; every step has a
      type the chat UI knows.
    */
    ghost predicate Valid()
      reads this, steps, currentStep
    {
      && (forall i, j :: 0 <= i < j < |steps| ==> steps[i] != steps[j])
      && (currentStep in steps <==> currentStep.entries != map[])
      && (currentStep in steps ==> 0 <= current < |steps| && steps[current] == currentStep)
      && (forall i :: 0 <= i < |steps| ==> HasKnownType(steps[i].entries))
      && (forall i :: 0 <= i < |steps| && IsToolDecision(steps[i].entries) ==> currentStep in steps && i <= current)
      && (currentStep in steps ==> IsToolDecision(steps[current].entries))
    }

    /** `__init__`: no steps, and an empty dict as the current step. */
    constructor ()
      ensures Valid() && GetSteps() == [] && currentStep.entries == map[]
    {
      steps := [];
      currentStep := new StepDict(map[]);
    }

    /** `get_steps`: the steps recorded so far, with their current contents. */
    function GetSteps(): (s: seq<StringMap>)
      reads this, steps
      ensures |s| == |steps|
      ensures forall i :: 0 <= i < |steps| ==> s[i] == steps[i].entries
    {
      seq(|steps|, i reads this, steps requires 0 <= i < |steps| => steps[i].entries)
    }

    /** `on_chain_start`: one thinking step when the chain is the agent's, otherwise nothing. */
    method OnChainStart(serialized: StringMap)
      requires Valid()
      modifies this
      ensures Valid() && currentStep == old(currentStep) && current == old(current)
      ensures GetSteps() == old(GetSteps()) + (if IsAgentChain(serialized) then [ThinkingStep()] else [])
    {
      if IsAgentChain(serialized) {
        var step := new StepDict(ThinkingStep());
        steps := steps + [step];
      }
    }

    /** `on_agent_action`: one tool decision step, which also becomes the current step. */
    method OnAgentAction(tool: string, toolInput: string)
      requires Valid()
      modifies this
      ensures Valid()
      ensures GetSteps() == old(GetSteps()) + [ToolDecisionStep(tool, toolInput)]
      ensures currentStep == steps[|steps| - 1]
    {
      var step := new StepDict(ToolDecisionStep(tool, toolInput));
      assert "type" in step.entries;
      currentStep := step;
      steps := steps + [step];
      current := |steps| - 1;
    }

    /** `on_tool_start`: always one running tool execution step; the tool is "Unknown Tool" when unnamed. */
    method OnToolStart(serialized: StringMap, inputStr: string)
      requires Valid()
      modifies this
      ensures Valid() && currentStep == old(currentStep) && current == old(current)
      ensures GetSteps() == old(GetSteps()) + [ToolExecutionStep(Get(serialized, "name", "Unknown Tool"), inputStr)]
    {
      var toolName := Get(serialized, "name", "Unknown Tool");
      var step := new StepDict(ToolExecutionStep(toolName, inputStr));
      steps := steps + [step];
    }

    /**
      `on_tool_end`: nothing while the current step is the initial empty dict. Otherwise the
      output is written into the current step, which is the last tool decision already in
      `steps`, and one tool result step is appended.
    */
    method OnToolEnd(output: string)
      requires Valid()
      modifies this, currentStep
      ensures Valid() && currentStep == old(currentStep) && current == old(current)
      ensures old(currentStep.entries) == map[] ==> GetSteps() == old(GetSteps())
      ensures old(currentStep.entries) != map[] ==>
        && 0 <= current < |old(GetSteps())|
        && old(GetSteps())[current]["type"] == "tool_decision"
        && GetSteps() == old(GetSteps())[current := old(GetSteps())[current]["output" := output]] + [ToolResultStep()]
    {
      if currentStep.entries != map[] {
        ghost var before := GetSteps();
        currentStep.entries := currentStep.entries["output" := output];
        // Only the dict at `current` is the current step; the others are different objects.
        assert forall i :: 0 <= i < |steps| && i != current ==> steps[i].entries == before[i];
        ghost var updated := GetSteps();
        assert updated == before[current := before[current]["output" := output]];
        assert IsToolDecision(steps[current].entries);
        var step := new StepDict(ToolResultStep());
        steps := steps + [step];
        assert GetSteps() == updated + [ToolResultStep()];
      }
    }

    /** `on_agent_finish`: always one conclusion step. */
    method OnAgentFinish()
      requires Valid()
      modifies this
      ensures Valid() && currentStep == old(currentStep) && current == old(current)
      ensures GetSteps() == old(GetSteps()) + [ConclusionStep()]
    {
      var step := new StepDict(ConclusionStep());
      steps := steps + [step];
    }
  }

  /** Every step the recorder builds has one of the types the chat UI renders. */
  lemma RecordedStepTypesAreKnown(tool: string, toolInput: string, toolName: string, inputStr: string)
    ensures ThinkingStep()["type"] in StepTypes
    ensures ToolDecisionStep(tool, toolInput)["type"] in StepTypes
    ensures ToolExecutionStep(toolName, inputStr)["type"] in StepTypes
    ensures ToolResultStep()["type"] in StepTypes
    ensures ConclusionStep()["type"] in StepTypes
  {
  }

  /** A chain named like "AgentExecutor" records a thinking step; the match ignores case. */
  lemma {:induction false} AgentExecutorIsAnAgentChain()
    ensures IsAgentChain(map["name" := "AgentExecutor"])
    ensures !IsAgentChain(map[])
  {
    var name := Lower("AgentExecutor");
    assert name[0..5] == "agent";
    assert OccursAt(name, "agent", 0);
  }
}
