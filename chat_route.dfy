/** The `POST /api/chat` route: default the user's input, run the agent,
    choose which text to send back, and fall back to one direct model call
    when the agent produced nothing usable. The agent executor and the
    model are external; they appear here as functions from the user input
    to what the awaited call returned or that it threw. */
module ChatRoute {
  import opened JsValues

  /** The input used when the request body carries none. */
  const DefaultInput := "Hello!"

  /** The agent library's message for a run cut off at its iteration cap. */
  const IterationCapMessage := "Agent stopped due to max iterations."

  /** The body of the error reply. */
  const ServerErrorMessage := "Server error occurred."

  const StatusOk: nat := 200
  const StatusServerError: nat := 500

  /** One tool invocation of an agent run and the tool's return value. */
  datatype Step = Step(observation: string)

  /** What one agent run returns. A missing `intermediateSteps` is the
      empty sequence. */
  datatype AgentResult = AgentResult(output: Option<string>, intermediateSteps: seq<Step>)

  /** What one direct model call returns. */
  datatype ModelResult = ModelResult(text: string)

  /** An awaited external call either returns a value or throws. Every
      failure is handled alike, so the cause is not kept. */
  datatype Outcome<+T> = Returned(value: T) | Threw

  /** The response: HTTP status and the `output` field of the JSON body. */
  datatype ChatReply = ChatReply(status: nat, output: string)

  /** An external call the handler makes, with the text it sends. */
  datatype ExternalCall = InvokeAgent(input: string) | CallModel(input: string)

  /** The reply to one request and the external calls made for it, in order. */
  datatype Exchange = Exchange(reply: ChatReply, calls: seq<ExternalCall>)

  /** What the handler does with a completed agent run: send a text, or
      ask the model directly. */
  datatype Decision = Reply(text: string) | UseFallback

  /** `req.body.input || "Hello!"` */
  function UserInput(input: Option<string>): (u: string)
    ensures u != ""
    ensures Truthy(input) ==> u == input.value
    ensures !Truthy(input) ==> u == DefaultInput
  {
    Or(input, DefaultInput)
  }

  /** The agent invoked at least one tool. */
  predicate ToolUsed(r: AgentResult)
  {
    |r.intermediateSteps| > 0
  }

  /** The choice among the agent's answer, the first tool observation and
      the fallback, first match wins. */
  function Select(r: AgentResult): (d: Decision)
    ensures !ToolUsed(r) ==> d == UseFallback
    ensures !Truthy(r.output) ==> d == UseFallback
    ensures (ToolUsed(r) && Truthy(r.output) && r.output.value != IterationCapMessage) ==>
              d == Reply(r.output.value)
    ensures (ToolUsed(r) && r.output == Some(IterationCapMessage)) ==>
              d == Reply(r.intermediateSteps[0].observation)
  {
    if ToolUsed(r) && Truthy(r.output) && r.output.value != IterationCapMessage then
      Reply(r.output.value)
    else if ToolUsed(r) && Truthy(r.output) && r.output.value == IterationCapMessage then
      Reply(r.intermediateSteps[0].observation)
    else
      UseFallback
  }

  /** The whole route, for the given agent and model behaviour. */
  function HandleChat(input: Option<string>,
                      agent: string -> Outcome<AgentResult>,
                      model: string -> Outcome<ModelResult>): (e: Exchange)
    // the agent is run once, on the defaulted input
    ensures 1 <= |e.calls| <= 2 && e.calls[0] == InvokeAgent(UserInput(input))
    // the direct model call happens at most once, on the same input, and
    // only after a completed agent run that gave nothing to send
    ensures |e.calls| == 2 <==>
              agent(UserInput(input)).Returned? && Select(agent(UserInput(input)).value) == UseFallback
    ensures |e.calls| == 2 ==> e.calls[1] == CallModel(UserInput(input))
    // a failed external call gives the fixed error reply and nothing else
    ensures e.reply.status == StatusOk || e.reply == ChatReply(StatusServerError, ServerErrorMessage)
    ensures e.reply.status == StatusServerError <==>
              agent(UserInput(input)).Threw? || (|e.calls| == 2 && model(UserInput(input)).Threw?)
    // a completed exchange sends the chosen text or the model's text
    ensures e.reply.status == StatusOk && |e.calls| == 1 ==>
              Select(agent(UserInput(input)).value) == Reply(e.reply.output)
    ensures e.reply.status == StatusOk && |e.calls| == 2 ==>
              model(UserInput(input)) == Returned(ModelResult(e.reply.output))
  {
    var u := UserInput(input);
    match agent(u)
    case Threw => Exchange(ChatReply(StatusServerError, ServerErrorMessage), [InvokeAgent(u)])
    case Returned(r) =>
      match Select(r)
      case Reply(text) => Exchange(ChatReply(StatusOk, text), [InvokeAgent(u)])
      case UseFallback =>
        match model(u)
        case Threw =>
          Exchange(ChatReply(StatusServerError, ServerErrorMessage), [InvokeAgent(u), CallModel(u)])
        case Returned(m) =>
          Exchange(ChatReply(StatusOk, m.text), [InvokeAgent(u), CallModel(u)])
  }

  /** Exactly one of the three outcomes of the choice applies to every
      agent result: the final answer, the first observation, or the
      fallback. */
  lemma SelectCasesPartition(r: AgentResult)
    ensures var answered := ToolUsed(r) && Truthy(r.output) && r.output.value != IterationCapMessage;
            var capped := ToolUsed(r) && r.output == Some(IterationCapMessage);
            var fallback := !ToolUsed(r) || !Truthy(r.output);
            && (answered ==> Select(r) == Reply(r.output.value))
            && (capped ==> Select(r) == Reply(r.intermediateSteps[0].observation))
            && (Select(r) == UseFallback <==> fallback)
            && (answered || capped || fallback)
            && !(answered && capped) && !(answered && fallback) && !(capped && fallback)
  {
  }

  /** No tool step: the model is asked directly, whatever the agent said. */
  lemma NoToolStepFallsBack(input: Option<string>, agent: string -> Outcome<AgentResult>,
                            model: string -> Outcome<ModelResult>, r: AgentResult)
    requires agent(UserInput(input)) == Returned(r)
    requires r.intermediateSteps == []
    ensures HandleChat(input, agent, model).calls
              == [InvokeAgent(UserInput(input)), CallModel(UserInput(input))]
    ensures model(UserInput(input)).Returned? ==>
              HandleChat(input, agent, model).reply
                == ChatReply(StatusOk, model(UserInput(input)).value.text)
  {
  }

  /** A tool step and a final answer: the answer is sent unchanged and the
      model is not called. */
  lemma FinalAnswerSentAsIs(input: Option<string>, agent: string -> Outcome<AgentResult>,
                            model: string -> Outcome<ModelResult>, r: AgentResult)
    requires agent(UserInput(input)) == Returned(r)
    requires ToolUsed(r) && Truthy(r.output) && r.output.value != IterationCapMessage
    ensures HandleChat(input, agent, model)
              == Exchange(ChatReply(StatusOk, r.output.value), [InvokeAgent(UserInput(input))])
  {
  }

  /** A tool step and the iteration-cap message: the first observation is
      sent verbatim, even when empty, and the model is not called. */
  lemma IterationCapSendsFirstObservation(input: Option<string>, agent: string -> Outcome<AgentResult>,
                                          model: string -> Outcome<ModelResult>, r: AgentResult)
    requires agent(UserInput(input)) == Returned(r)
    requires ToolUsed(r) && r.output == Some(IterationCapMessage)
    ensures HandleChat(input, agent, model)
              == Exchange(ChatReply(StatusOk, r.intermediateSteps[0].observation),
                          [InvokeAgent(UserInput(input))])
  {
  }

  /** No output, or an empty one: the model is asked directly even when
      tools were used. */
  lemma MissingOutputFallsBack(input: Option<string>, agent: string -> Outcome<AgentResult>,
                               model: string -> Outcome<ModelResult>, r: AgentResult)
    requires agent(UserInput(input)) == Returned(r)
    requires !Truthy(r.output)
    ensures HandleChat(input, agent, model).calls
              == [InvokeAgent(UserInput(input)), CallModel(UserInput(input))]
  {
  }

  /** The agent run throws: the error reply, and no model call. */
  lemma AgentFailureGivesServerError(input: Option<string>, agent: string -> Outcome<AgentResult>,
                                     model: string -> Outcome<ModelResult>)
    requires agent(UserInput(input)) == Threw
    ensures HandleChat(input, agent, model)
              == Exchange(ChatReply(StatusServerError, ServerErrorMessage), [InvokeAgent(UserInput(input))])
  {
  }

  /** The fallback call throws: the error reply, with no part of the agent's
      result in it. */
  lemma FallbackFailureGivesServerError(input: Option<string>, agent: string -> Outcome<AgentResult>,
                                        model: string -> Outcome<ModelResult>)
    requires agent(UserInput(input)).Returned?
    requires Select(agent(UserInput(input)).value) == UseFallback
    requires model(UserInput(input)) == Threw
    ensures HandleChat(input, agent, model).reply == ChatReply(StatusServerError, ServerErrorMessage)
  {
  }

  /** The iteration-cap message is matched exactly: any other spelling or
      spacing of it is an ordinary final answer. */
  lemma IterationCapMatchedExactly(r: AgentResult)
    requires ToolUsed(r)
    requires r.output == Some("agent stopped due to max iterations.")
              || r.output == Some("Agent stopped due to max iterations. ")
    ensures Select(r) == Reply(r.output.value)
  {
  }
}
