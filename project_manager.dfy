/** The Project Manager agent: turns the user's request into a project brief. */
module ProjectManager {
  import opened Results
  import opened Json
  import opened Python
  import opened BaseAgent

  const Name := "Project Manager"
  const Role := "project_manager"
  const PreferredModel := "anthropic/claude-3.5-sonnet"
  const Temperature: Tenths := 5

  predicate IsInstance(a: Agent) {
    a.name == Name && a.role == Role && a.model == PreferredModel
  }

  /** `ProjectManagerAgent()`. */
  method New(files: Files) returns (a: Agent)
    ensures IsInstance(a)
    ensures a.systemPrompt == LoadSystemPrompt(Name, Role, files)
  {
    a := new Agent(Name, Role, PreferredModel, files);
  }

  /** `context.get('prompt', '')`. */
  function UserPrompt(ctx: Context): Json {
    ContextGet(ctx, "prompt", JStr(""))
  }

  /** The line of the analysis prompt that carries the request. */
  function AnalysisPrompt(userPrompt: Json): string {
    "User Request: " + PyStr(userPrompt)
  }

  /** The request sent to the model; the first log line takes `len` of the
      prompt, which raises unless it is a string, list or dict. */
  function Request(self: Agent, ctx: Context): Result<AiRequest, Exception> {
    var up := UserPrompt(ctx);
    var n :- Len(up);
    Success(CallAiRequest(self, AnalysisPrompt(up), None, Temperature))
  }

  /** The brief used when the reply does not decode; `user_prompt[:100]` is
      evaluated inside the `except` block. */
  function Fallback(userPrompt: Json): Result<Json, Exception> {
    var summary :- Head(userPrompt, 100);
    Success(JObj([
      Field("summary", summary),
      Field("target_users", JStr("General users")),
      Field("key_features", JArr([JStr("Core Feature 1"), JStr("Core Feature 2"), JStr("Core Feature 3")])),
      Field("technical_requirements", JStr("Modern web standards")),
      Field("design_direction", JStr("Modern and clean")),
      Field("timeline_estimate", JStr("2-4 hours")),
      Field("success_metrics", JArr([JStr("Functional"), JStr("Responsive"), JStr("Fast")]))]))
  }

  /** `ProjectManagerAgent.execute` given the model's decoded API response. */
  function Execute(self: Agent, ctx: Context, response: Json, parse: Parser): (r: Result<AgentResult, Exception>)
    requires IsInstance(self)
    ensures r.Success? ==> r.value.agent == Name && r.value.role == Role && r.value.status == Completed
    ensures r.Success? <==>
      && Request(self, ctx).Success? && ExtractContent(response).Success?
      && ParseOrFallback(ExtractContent(response).value, parse, Fallback(UserPrompt(ctx))).Success?
      && LogCount(ParseOrFallback(ExtractContent(response).value, parse, Fallback(UserPrompt(ctx))).value, "key_features").Success?
    ensures r.Success? ==>
      Success(r.value.output) == ParseOrFallback(ExtractContent(response).value, parse, Fallback(UserPrompt(ctx)))
  {
    var req :- Request(self, ctx);
    var content :- ExtractContent(response);
    var output :- ParseOrFallback(content, parse, Fallback(UserPrompt(ctx)));
    var features :- LogCount(output, "key_features");
    Success(AgentResult(self.name, self.role, output, Completed))
  }

  /** The default brief keeps the first 100 characters of the request as its
      summary and lists three features and three success metrics. */
  lemma FallbackFacts(prompt: string)
    ensures Fallback(JStr(prompt)).Success?
    ensures var b := Fallback(JStr(prompt)).value;
      && b.JObj? && DistinctKeys(b.fields)
      && Lookup(b.fields, "summary") == Some(JStr(prompt[..if |prompt| < 100 then |prompt| else 100]))
      && Lookup(b.fields, "key_features").Some? && |Lookup(b.fields, "key_features").value.items| == 3
      && Lookup(b.fields, "success_metrics").Some? && |Lookup(b.fields, "success_metrics").value.items| == 3
  {
    var b := Fallback(JStr(prompt)).value;
    LookupDistinct(b.fields, 0);
    LookupDistinct(b.fields, 2);
    LookupDistinct(b.fields, 6);
  }

  /** For a string request, a reply that decodes to a brief whose
      key_features is a list, or is missing, completes with that brief as
      the output. */
  lemma DecodedBriefCompletes(self: Agent, prompt: string, response: Json, parse: Parser)
    requires IsInstance(self)
    requires ExtractContent(response).Success? && ParseReply(ExtractContent(response).value, parse).Some?
    requires var brief := ParseReply(ExtractContent(response).value, parse).value;
      brief.JObj? && (Lookup(brief.fields, "key_features").None? || Lookup(brief.fields, "key_features").value.JArr?)
    ensures Execute(self, map["prompt" := JStr(prompt)], response, parse)
         == Success(AgentResult(Name, Role, ParseReply(ExtractContent(response).value, parse).value, Completed))
  {
    assert Request(self, map["prompt" := JStr(prompt)]).Success?;
  }

  /** For a string request, a reply that does not decode still completes, with
      the default brief. */
  lemma UndecodableReplyCompletes(self: Agent, prompt: string, response: Json, parse: Parser)
    requires IsInstance(self)
    requires ExtractContent(response).Success? && ParseReply(ExtractContent(response).value, parse).None?
    ensures Execute(self, map["prompt" := JStr(prompt)], response, parse)
         == Success(AgentResult(Name, Role, Fallback(JStr(prompt)).value, Completed))
  {
    var ctx := map["prompt" := JStr(prompt)];
    FallbackFacts(prompt);
    assert UserPrompt(ctx) == JStr(prompt);
    var b := Fallback(JStr(prompt)).value;
    assert LogCount(b, "key_features").Success?;
  }

  /** In particular a failed HTTP call never makes the agent fail. */
  lemma TransportFailureCompletes(self: Agent, prompt: string, error: string, parse: Parser)
    requires IsInstance(self) && FollowsRfc8259(parse)
    ensures Execute(self, map["prompt" := JStr(prompt)], ErrorResponse(error), parse)
         == Success(AgentResult(Name, Role, Fallback(JStr(prompt)).value, Completed))
  {
    TransportFailureFallsBack(error, parse);
    UndecodableReplyCompletes(self, prompt, ErrorResponse(error), parse);
  }

  /** Without a `prompt` entry the request is the empty string, so the default
      brief's summary is empty. */
  lemma MissingPromptIsEmpty(ctx: Context)
    requires "prompt" !in ctx
    ensures UserPrompt(ctx) == JStr("")
    ensures Lookup(Fallback(UserPrompt(ctx)).value.fields, "summary") == Some(JStr(""))
  {
    FallbackFacts("");
  }

  /** The log line after parsing sits outside the `try`: a decoded brief whose
      `key_features` is a number makes `execute` raise. */
  lemma NumericFeaturesRaise(self: Agent, prompt: string, reply: string, parse: Parser)
    requires IsInstance(self)
    requires parse(Candidate(reply)) == Some(JObj([Field("key_features", JNum(5))]))
    ensures Execute(self, map["prompt" := JStr(prompt)], JObj([Field("choices",
              JArr([JObj([Field("message", JObj([Field("content", JStr(reply))]))])]))]), parse).Failure?
  {
  }
}
