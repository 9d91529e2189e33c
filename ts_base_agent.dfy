/** The TypeScript agents' common base (src/core/agents/base-agent.ts): every
    agent asks the model through `ask` or `askJson`, which put an optional
    context ahead of the user prompt and fix the temperature. */
module TsBaseAgent {
  import opened Results
  import opened Json
  import opened LlmClient
  import opened TsTypes

  /** The three members each concrete agent declares. */
  datatype Agent = Agent(role: AgentRole, name: string, systemPrompt: string)

  const AskTemperature: Tenths := 7
  const AskJsonTemperature: Tenths := 2

  /** The user message: the bare user prompt, or the context followed by it. */
  function FullPrompt(userPrompt: string, context: string): (r: string)
    ensures context == "" ==> r == userPrompt
    ensures context != "" ==> |r| == |context| + |userPrompt| + 17
    ensures context != "" ==> r[..9] == "Context:\n" && r[9..9 + |context|] == context
    ensures context != "" ==> r[9 + |context|..] == "\n\nTask: " + userPrompt
  {
    if context != "" then "Context:\n" + context + "\n\nTask: " + userPrompt else userPrompt
  }

  /** The user prompt is sent alone exactly when there is no context. */
  lemma BarePromptIffNoContext(userPrompt: string, context: string)
    ensures FullPrompt(userPrompt, context) == userPrompt <==> context == ""
  {
  }

  function AskParams(a: Agent, userPrompt: string, context: string): LlmParams {
    LlmParams(a.systemPrompt, FullPrompt(userPrompt, context), Some(AskTemperature), None)
  }

  function AskJsonParams(a: Agent, userPrompt: string, context: string): LlmParams {
    LlmParams(a.systemPrompt, FullPrompt(userPrompt, context), Some(AskJsonTemperature), None)
  }

  /** `ask`. */
  function Ask(a: Agent, userPrompt: string, context: string, client: Client): Result<string, Error> {
    CallAgent(AskParams(a, userPrompt, context), client)
  }

  /** `askJson`. */
  function AskJson(a: Agent, userPrompt: string, context: string, client: Client, parse: Parser): Result<Json, Error> {
    CallAgentJson(AskJsonParams(a, userPrompt, context), client, parse)
  }

  /** `ask` returns what the model answers to one request: the agent's own
      system prompt, the default model and temperature 0.7, whatever the
      prompt and context. */
  lemma AskRequest(a: Agent, userPrompt: string, context: string, client: Client)
    ensures var sent := ChatRequest(DefaultModel, [Message("system", a.systemPrompt), Message("user", FullPrompt(userPrompt, context))], 7);
      && (Ask(a, userPrompt, context, client).Failure? <==> client(sent).Failure?)
      && (Ask(a, userPrompt, context, client).Success? ==> Ask(a, userPrompt, context, client).value == FirstContent(client(sent).value))
  {
  }

  /** `askJson` decodes what the model answers to one request: the system
      prompt with the JSON instruction appended, the default model and
      temperature 0.2. */
  lemma AskJsonRequest(a: Agent, userPrompt: string, context: string, client: Client, parse: Parser)
    ensures var sent := ChatRequest(DefaultModel, [Message("system", a.systemPrompt + JsonInstruction), Message("user", FullPrompt(userPrompt, context))], 2);
      && (AskJson(a, userPrompt, context, client, parse).Success?
          <==> client(sent).Success? && parse(Clean(FirstContent(client(sent).value))).Some?)
      && (AskJson(a, userPrompt, context, client, parse).Success?
          ==> AskJson(a, userPrompt, context, client, parse).value == parse(Clean(FirstContent(client(sent).value))).value)
  {
    assert RequestFor(JsonParams(AskJsonParams(a, userPrompt, context)))
        == ChatRequest(DefaultModel, [Message("system", a.systemPrompt + JsonInstruction), Message("user", FullPrompt(userPrompt, context))], 2);
  }
}
