/**
  The session logic of the Streamlit chat client (streamlit_chat.py): the message history kept in
  the session state, the example question that waits to be sent, how a reasoning step is shown,
  and the simulated streaming of an answer.

  One run of the script is one `Session.Run`. The UI events of that run (the Clear Chat button,
  the example buttons, the chat input, the reasoning toggle) and the outcome of the single POST to
  `/agent/chat` are parameters; rendering, delays and the HTTP call itself are not modelled.
*/
module StreamlitChat {
  import opened Common
  import Callbacks

  /** One entry of `st.session_state.messages`. */
  datatype Message =
    | UserMessage(content: string)
    | AssistantMessage(content: string, steps: seq<StringMap>)

  /** The JSON object returned with status 200; `None` for a key that is absent. */
  datatype ReplyBody = ReplyBody(response: Option<string>, steps: Option<seq<StringMap>>)

  /**
    What the POST to `/agent/chat` gives: it raised a connection error, timed out or failed
    otherwise, or it returned a status and a text whose JSON is an object (`Some`) or is not
    (`None`: unparseable, or not an object, so `data.get` raises).
  */
  datatype ApiReply =
    | ConnectionFailed
    | TimedOut
    | RequestFailed
    | Http(status: int, text: string, body: Option<ReplyBody>)

  /** A step as the UI shows it: a caption and the (italicised) text under it. */
  datatype RenderedStep = RenderedStep(caption: string, text: string)

  /** What the prompt handling shows. */
  datatype Outcome =
    | NoPrompt
    | Answered(reasoning: seq<RenderedStep>, frames: seq<string>, response: string)
    | ParseError
    | StatusError(status: int, details: Option<string>)
    | CannotConnect
    | RequestTimedOut
    | UnexpectedError

  /** How one message of the history is shown. */
  datatype MessageView =
    | UserView(content: string)
    | AssistantView(reasoning: seq<RenderedStep>, content: string)

  /** The result of one run of the script: cut short by Clear Chat, or the history shown and the prompt's outcome. */
  datatype RunResult =
    | Rerun
    | Ran(history: seq<MessageView>, outcome: Outcome)

  const Examples: seq<string> := [
    "What sales data is available?",
    "Show me recent deals",
    "Analyze our top customers",
    "What's our pipeline status?"
  ]

  const NoResponse := "No response received"

  const ThinkingCaption := "\U{1F914} Thinking"
  const ToolDecisionCaption := "\U{1F527} Using tool"
  const ToolExecutionCaption := "\U{1F50D} Searching"
  const ToolResultCaption := "\U{2705} Found information"
  const ConclusionCaption := "\U{1F4A1} Preparing response"

  /** A Python string is truthy when it is non-empty; a missing value is falsy. */
  predicate Truthy(s: Option<string>) {
    s.Some? && s.value != ""
  }

  /**
    The text of a tool decision: `reasoning`, else `content`, else "Using " and the tool name
    ("tool" when there is none); a missing or empty value counts as falsy.
  */
  function StepText(step: StringMap): (text: string)
    ensures text != ""
  {
    if "reasoning" in step && step["reasoning"] != "" then step["reasoning"]
    else if "content" in step && step["content"] != "" then step["content"]
    else "Using " + Get(step, "tool", "tool")
  }

  /**
    The precedence of a tool decision's text: a non-empty `reasoning` wins; failing that, a
    non-empty `content`; failing both, "Using " and the tool's name, or "Using tool".
  */
  lemma StepTextPrecedence(step: StringMap)
    ensures "reasoning" in step && step["reasoning"] != "" ==> StepText(step) == step["reasoning"]
    ensures ("reasoning" !in step || step["reasoning"] == "") && "content" in step && step["content"] != "" ==>
      StepText(step) == step["content"]
    ensures ("reasoning" !in step || step["reasoning"] == "") && ("content" !in step || step["content"] == "") ==>
      StepText(step) == "Using " + (if "tool" in step then step["tool"] else "tool")
  {
  }

  /**
    How one step is shown. A step without a `type` makes `step["type"]` raise, which the loop
    swallows; a step of another type matches no branch. Both show nothing, so a step is shown
    exactly when it has one of the five types the recorder produces.
  */
  function RenderStep(step: StringMap): (shown: Option<RenderedStep>)
    ensures shown.Some? <==> "type" in step && step["type"] in Callbacks.StepTypes
  {
    if "type" !in step then None
    else
      var t := step["type"];
      if t == "thinking" then Some(RenderedStep(ThinkingCaption, Get(step, "content", "Analyzing your request...")))
      else if t == "tool_decision" then Some(RenderedStep(ToolDecisionCaption, StepText(step)))
      else if t == "tool_execution" then Some(RenderedStep(ToolExecutionCaption, Get(step, "content", "Searching documents...")))
      else if t == "tool_result" then Some(RenderedStep(ToolResultCaption, Get(step, "content", "Processing results...")))
      else if t == "conclusion" then Some(RenderedStep(ConclusionCaption, Get(step, "content", "Formulating answer...")))
      else None
  }

  /** The steps shown, in order: every step that renders. */
  function RenderAll(steps: seq<StringMap>): (r: seq<RenderedStep>)
    ensures |r| <= |steps|
  {
    if steps == [] then []
    else
      var last := steps[|steps| - 1];
      RenderAll(steps[..|steps| - 1]) + (if RenderStep(last).Some? then [RenderStep(last).value] else [])
  }

  /** The number of steps with a type the UI knows. */
  function KnownSteps(steps: seq<StringMap>): nat {
    if steps == [] then 0
    else
      var last := steps[|steps| - 1];
      KnownSteps(steps[..|steps| - 1]) + (if "type" in last && last["type"] in Callbacks.StepTypes then 1 else 0)
  }

  /** Exactly the steps of a known type are shown, so a list of recorder steps is shown in full. */
  lemma {:induction false} RenderAllCountsKnownSteps(steps: seq<StringMap>)
    ensures |RenderAll(steps)| == KnownSteps(steps)
    ensures (forall i :: 0 <= i < |steps| ==> "type" in steps[i] && steps[i]["type"] in Callbacks.StepTypes) ==>
      |RenderAll(steps)| == |steps|
  {
    if steps != [] {
      var init := steps[..|steps| - 1];
      RenderAllCountsKnownSteps(init);
      if forall i :: 0 <= i < |steps| ==> "type" in steps[i] && steps[i]["type"] in Callbacks.StepTypes {
        assert forall i :: 0 <= i < |init| ==> init[i] == steps[i];
      }
    }
  }

  /** A tool decision recorded by the reasoning recorder is shown with its reasoning sentence. */
  lemma RecordedDecisionShowsReasoning(tool: string, toolInput: string)
    ensures RenderStep(Callbacks.ToolDecisionStep(tool, toolInput))
      == Some(RenderedStep(ToolDecisionCaption, Callbacks.ReasoningSentence(tool, toolInput)))
  {
  }

  /** A tool decision with neither reasoning nor content names its tool, or "tool" when unnamed. */
  lemma BareDecisionNamesTool(tool: string)
    ensures RenderStep(map["type" := "tool_decision", "tool" := tool]) == Some(RenderedStep(ToolDecisionCaption, "Using " + tool))
    ensures RenderStep(map["type" := "tool_decision", "content" := ""]) == Some(RenderedStep(ToolDecisionCaption, "Using tool"))
  {
    assert "Using " + "tool" == "Using tool";
  }

  /** The reasoning shown for a message: its rendered steps, when reasoning is shown and there are steps. */
  function Reasoning(showReasoning: bool, steps: seq<StringMap>): seq<RenderedStep> {
    if showReasoning && steps != [] then RenderAll(steps) else []
  }

  /** How a message of the history is shown. */
  function ViewMessage(m: Message, showReasoning: bool): MessageView {
    match m
    case UserMessage(content) => UserView(content)
    case AssistantMessage(content, steps) => AssistantView(Reasoning(showReasoning, steps), content)
  }

  function ViewHistory(ms: seq<Message>, showReasoning: bool): (views: seq<MessageView>)
    ensures |views| == |ms|
    ensures forall i :: 0 <= i < |ms| ==> views[i] == ViewMessage(ms[i], showReasoning)
  {
    seq(|ms|, i requires 0 <= i < |ms| => ViewMessage(ms[i], showReasoning))
  }

  /** The parsed body of a reply with status 200, if there is one. */
  function AnsweredBody(reply: ApiReply): Option<ReplyBody> {
    if reply.Http? && reply.status == 200 then reply.body else None
  }

  /** The assistant entry saved for a parsed body: missing `response` and `steps` take their defaults. */
  function AssistantEntry(body: ReplyBody): Message {
    AssistantMessage(body.response.GetOr(NoResponse), body.steps.GetOr([]))
  }

  /**
    The history after handling `prompt`: unchanged for a falsy prompt; otherwise the user's
    message, followed by the assistant's only when the reply has status 200 and a parsed body.
  */
  function AfterPrompt(ms: seq<Message>, prompt: Option<string>, reply: ApiReply): (after: seq<Message>)
    ensures |after| >= |ms| && after[..|ms|] == ms
  {
    if !Truthy(prompt) then ms
    else
      ms + [UserMessage(prompt.value)]
         + (if AnsweredBody(reply).Some? then [AssistantEntry(AnsweredBody(reply).value)] else [])
  }

  /** Every assistant message directly follows a user message, and no user message is empty. */
  ghost predicate WellPaired(ms: seq<Message>) {
    && (forall i :: 0 <= i < |ms| && ms[i].AssistantMessage? ==> 0 < i && ms[i - 1].UserMessage?)
    && (forall i :: 0 <= i < |ms| && ms[i].UserMessage? ==> ms[i].content != "")
  }

  /**
    Handling a prompt adds nothing, the user's message alone, or the user's message and the
    answer; it adds the answer exactly when the reply is a parsed 200; it keeps the pairing.
  */
  lemma AfterPromptGrowth(ms: seq<Message>, prompt: Option<string>, reply: ApiReply)
    ensures var after := AfterPrompt(ms, prompt, reply);
      && after[..|ms|] == ms
      && (!Truthy(prompt) <==> |after| == |ms|)
      && (|after| == |ms| + 2 <==> Truthy(prompt) && AnsweredBody(reply).Some?)
      && |after| <= |ms| + 2
      && (Truthy(prompt) ==> after[|ms|] == UserMessage(prompt.value))
      && (|after| == |ms| + 2 ==> after[|ms| + 1] == AssistantEntry(AnsweredBody(reply).value))
  {
  }

  lemma AfterPromptKeepsPairing(ms: seq<Message>, prompt: Option<string>, reply: ApiReply)
    requires WellPaired(ms)
    ensures WellPaired(AfterPrompt(ms, prompt, reply))
  {
    var after := AfterPrompt(ms, prompt, reply);
    if Truthy(prompt) {
      assert forall i :: 0 <= i < |ms| ==> after[i] == ms[i];
      assert after[|ms|] == UserMessage(prompt.value);
    }
  }

  /** A bare answer is saved with the default text and no steps. */
  lemma EmptyAnswerTakesDefaults(ms: seq<Message>, prompt: string)
    requires prompt != ""
    ensures AfterPrompt(ms, Some(prompt), Http(200, "{}", Some(ReplyBody(None, None))))
      == ms + [UserMessage(prompt), AssistantMessage(NoResponse, [])]
  {
  }

  /** The largest `i < n` for which `clicked(i)` holds, if any. */
  function LastClicked(clicked: nat -> bool, n: nat): (r: Option<nat>)
    ensures r.Some? ==> r.value < n && clicked(r.value)
    ensures r.Some? ==> forall j :: r.value < j < n ==> !clicked(j)
    ensures r.None? ==> forall j :: 0 <= j < n ==> !clicked(j)
  {
    if n == 0 then None
    else if clicked(n - 1) then Some(n - 1)
    else LastClicked(clicked, n - 1)
  }

  /**
    The snapshots of the simulated streaming, `resp[:i+5]` for i = 0, 5, 10, ... below `len(resp)`:
    one per started block of five characters, each the first 5(k+1) characters, clipped to the text.
  */
  ghost predicate RevealSnapshots(resp: string, frames: seq<string>) {
    && |frames| == (|resp| + 4) / 5
    && forall k :: 0 <= k < |frames| ==> frames[k] == resp[..if 5 * k + 5 <= |resp| then 5 * k + 5 else |resp|]
  }

  /** The snapshots are prefixes of the answer of strictly growing length; the last one is the whole answer. */
  lemma RevealProperties(resp: string, frames: seq<string>)
    requires RevealSnapshots(resp, frames)
    ensures forall k :: 0 <= k < |frames| ==> |frames[k]| <= |resp| && frames[k] == resp[..|frames[k]|]
    ensures forall k :: 0 < k < |frames| ==> |frames[k - 1]| < |frames[k]|
    ensures resp != [] <==> |frames| > 0
    ensures |frames| > 0 ==> frames[|frames| - 1] == resp
  {
    forall k | 0 < k < |frames|
      ensures |frames[k - 1]| < |frames[k]|
    {
      assert 5 * k <= 5 * (|frames| - 1) < |resp|;
    }
  }

  /** The reveal loop: the successive values of `full_response` (each shown with a cursor). */
  method Reveal(resp: string) returns (frames: seq<string>)
    ensures RevealSnapshots(resp, frames)
  {
    frames := [];
    var i := 0;
    while i < |resp|
      invariant i == 5 * |frames|
      invariant i <= |resp| + 4 && (|resp| <= i ==> i < |resp| + 5)
      invariant forall k :: 0 <= k < |frames| ==> frames[k] == resp[..if 5 * k + 5 <= |resp| then 5 * k + 5 else |resp|]
    {
      var fullResponse := resp[..if i + 5 <= |resp| then i + 5 else |resp|];
      frames := frames + [fullResponse];
      i := i + 5;
    }
  }

  /** The session state of the chat page. */
  class Session {
    /** `st.session_state.messages`; `None` while the key is absent. */
    var messages: Option<seq<Message>>
    /** `st.session_state.pending_message`; `None` while the key is absent. */
    var pendingMessage: Option<string>

    /** A new browser session: nothing in the session state. */
    constructor ()
      ensures messages == None && pendingMessage == None
    {
      messages := None;
      pendingMessage := None;
    }

    ghost predicate Valid()
      reads this
    {
      messages.Some? ==> WellPaired(messages.value)
    }

    /** The history starts empty, and is kept as it is on later runs. */
    method InitMessages()
      modifies this
      ensures messages == if old(messages).None? then Some([]) else old(messages)
      ensures pendingMessage == old(pendingMessage)
      ensures old(Valid()) ==> Valid()
    {
      if messages.None? {
        messages := Some([]);
      }
    }

    /** The Clear Chat button: the history becomes empty. */
    method ClearChat()
      modifies this
      ensures messages == Some([]) && pendingMessage == old(pendingMessage) && Valid()
    {
      messages := Some([]);
    }

    /** The example buttons, in order: each clicked one sets the pending message, so the last clicked wins. */
    method ClickExamples(clicked: nat -> bool)
      modifies this
      ensures messages == old(messages)
      ensures pendingMessage == match LastClicked(clicked, |Examples|)
                                case Some(i) => Some(Examples[i])
                                case None => old(pendingMessage)
    {
      for i := 0 to |Examples|
        invariant messages == old(messages)
        invariant pendingMessage == match LastClicked(clicked, i)
                                    case Some(j) => Some(Examples[j])
                                    case None => old(pendingMessage)
      {
        if clicked(i) {
          pendingMessage := Some(Examples[i]);
        }
      }
    }

    /** The prompt of this run: a pending example, which is consumed, takes precedence over the typed input. */
    method TakePrompt(userInput: Option<string>) returns (prompt: Option<string>)
      modifies this
      ensures old(pendingMessage).Some? ==> prompt == old(pendingMessage)
      ensures old(pendingMessage).None? ==> prompt == userInput
      ensures pendingMessage == None && messages == old(messages)
    {
      if pendingMessage.Some? {
        prompt := pendingMessage;
        pendingMessage := None;
      } else {
        prompt := userInput;
      }
    }

    /**
      Handling a prompt: for a truthy prompt the user's message is saved, then the reply decides
      what is shown and whether the answer is saved with its steps.
    */
    method ProcessPrompt(prompt: Option<string>, reply: ApiReply, showReasoning: bool) returns (outcome: Outcome)
      requires messages.Some?
      modifies this
      ensures messages == Some(AfterPrompt(old(messages).value, prompt, reply))
      ensures pendingMessage == old(pendingMessage)
      ensures old(Valid()) ==> Valid()
      ensures !Truthy(prompt) <==> outcome == NoPrompt
      ensures Truthy(prompt) ==> match reply
        case ConnectionFailed => outcome == CannotConnect
        case TimedOut => outcome == RequestTimedOut
        case RequestFailed => outcome == UnexpectedError
        case Http(status, text, body) =>
          if status != 200 then outcome == StatusError(status, if text != "" then Some(text) else None)
          else if body.None? then outcome == ParseError
          else outcome.Answered?
      ensures outcome.Answered? ==>
        && AnsweredBody(reply).Some?
        && RevealSnapshots(outcome.response, outcome.frames)
        && ViewMessage(messages.value[|messages.value| - 1], showReasoning) == AssistantView(outcome.reasoning, outcome.response)
    {
      if !Truthy(prompt) {
        return NoPrompt;
      }
      if WellPaired(messages.value) {
        AfterPromptKeepsPairing(messages.value, prompt, reply);
      }
      messages := Some(messages.value + [UserMessage(prompt.value)]);
      assert messages.value + [] == messages.value;
      match reply {
        case ConnectionFailed => outcome := CannotConnect;
        case TimedOut => outcome := RequestTimedOut;
        case RequestFailed => outcome := UnexpectedError;
        case Http(status, text, body) =>
          if status != 200 {
            outcome := StatusError(status, if text != "" then Some(text) else None);
          } else if body.None? {
            outcome := ParseError;
          } else {
            var steps := body.value.steps.GetOr([]);
            var assistantResponse := body.value.response.GetOr(NoResponse);
            var reasoning := Reasoning(showReasoning, steps);
            var frames := Reveal(assistantResponse);
            assert AnsweredBody(reply) == body && AssistantEntry(body.value) == AssistantMessage(assistantResponse, steps);
            messages := Some(messages.value + [AssistantMessage(assistantResponse, steps)]);
            outcome := Answered(reasoning, frames, assistantResponse);
          }
      }
    }

    /**
      One run of the script: the history is initialised; Clear Chat empties it and restarts the
      script; otherwise the example buttons are read, the history is shown, and the prompt of the
      run is handled.
    */
    method Run(clear: bool, clicked: nat -> bool, userInput: Option<string>, showReasoning: bool, reply: ApiReply)
      returns (result: RunResult)
      modifies this
      ensures old(Valid()) ==> Valid()
      ensures clear ==> result == Rerun && messages == Some([]) && pendingMessage == old(pendingMessage)
      ensures !clear ==>
        var before := if old(messages).None? then [] else old(messages).value;
        var pending := match LastClicked(clicked, |Examples|)
                       case Some(i) => Some(Examples[i])
                       case None => old(pendingMessage);
        var prompt := if pending.Some? then pending else userInput;
        && pendingMessage == None
        && messages == Some(AfterPrompt(before, prompt, reply))
        && result.Ran?
        && result.history == ViewHistory(before, showReasoning)
    {
      InitMessages();
      if clear {
        ClearChat();
        return Rerun;
      }
      ClickExamples(clicked);
      var history := ViewHistory(messages.value, showReasoning);
      var prompt := TakePrompt(userInput);
      var outcome := ProcessPrompt(prompt, reply, showReasoning);
      result := Ran(history, outcome);
    }
  }
}
