/** The Code Reviewer agent: reviews the generated frontend, of which the model
    is told only the sizes. */
module CodeReviewer {
  import opened Results
  import opened Json
  import opened Python
  import opened BaseAgent

  const Name := "Code Reviewer"
  const Role := "code_reviewer"
  const PreferredModel := "anthropic/claude-3.5-sonnet"
  const Temperature: Tenths := 4

  predicate IsInstance(a: Agent) {
    a.name == Name && a.role == Role && a.model == PreferredModel
  }

  /** `CodeReviewerAgent()`. */
  method New(files: Files) returns (a: Agent)
    ensures IsInstance(a)
    ensures a.systemPrompt == LoadSystemPrompt(Name, Role, files)
  {
    a := new Agent(Name, Role, PreferredModel, files);
  }

  /** `context.get('frontend_code', {})`. */
  function Frontend(ctx: Context): Json {
    ContextGet(ctx, "frontend_code", JObj([]))
  }

  /** `len(str(frontend_code.get(part, '')))`: raises when the frontend code
      is not a dict. */
  function PartSize(frontend: Json, part: string): (r: Result<nat, Exception>)
    ensures r.Success? <==> frontend.JObj?
    ensures frontend.JObj? && Lookup(frontend.fields, part).None? ==> r == Success(0)
    ensures frontend.JObj? && Lookup(frontend.fields, part).Some? && Lookup(frontend.fields, part).value.JStr? ==>
      r == Success(|Lookup(frontend.fields, part).value.s|)
  {
    var v :- DictGet(frontend, part, JStr(""));
    Success(|PyStr(v)|)
  }

  /** The lines of the review prompt that carry the three sizes. */
  function ReviewPrompt(html: nat, css: nat, js: nat): string {
    "HTML: " + NatToString(html) + " chars\nCSS: " + NatToString(css) + " chars\nJS: " + NatToString(js) + " chars"
  }

  /** The request sent to the model. */
  function Request(self: Agent, ctx: Context): Result<AiRequest, Exception> {
    var fe := Frontend(ctx);
    var html :- PartSize(fe, "html");
    var css :- PartSize(fe, "css");
    var js :- PartSize(fe, "js");
    Success(CallAiRequest(self, ReviewPrompt(html, css, js), None, Temperature))
  }

  const Issue := JObj([
    Field("severity", JStr("low")),
    Field("component", JStr("CSS")),
    Field("description", JStr("Consider using CSS custom properties for colors")),
    Field("suggestion", JStr("Use :root variables for better maintainability"))])

  /** The review used when the reply does not decode. */
  const Fallback := JObj([
    Field("issues", JArr([Issue])),
    Field("improvements", JArr([JStr("Add loading states for better UX"), JStr("Implement error boundaries")])),
    Field("score", JNum(8)),
    Field("summary", JStr("Code is well-structured and follows best practices"))])

  /** `CodeReviewerAgent.execute` given the model's decoded API response. */
  function Execute(self: Agent, ctx: Context, response: Json, parse: Parser): (r: Result<AgentResult, Exception>)
    requires IsInstance(self)
    ensures r.Success? ==> r.value.agent == Name && r.value.role == Role && r.value.status == Completed
    ensures r.Success? <==>
      && Request(self, ctx).Success? && ExtractContent(response).Success?
      && ParseOrFallback(ExtractContent(response).value, parse, Success(Fallback)).Success?
      && LogCount(ParseOrFallback(ExtractContent(response).value, parse, Success(Fallback)).value, "issues").Success?
    ensures r.Success? ==>
      Success(r.value.output) == ParseOrFallback(ExtractContent(response).value, parse, Success(Fallback))
  {
    var req :- Request(self, ctx);
    var content :- ExtractContent(response);
    var output :- ParseOrFallback(content, parse, Success(Fallback));
    var issues :- LogCount(output, "issues");
    Success(AgentResult(self.name, self.role, output, Completed))
  }

  /** The default review reports one low-severity CSS issue and a score of 8. */
  lemma FallbackFacts()
    ensures DistinctKeys(Fallback.fields)
    ensures Lookup(Fallback.fields, "issues") == Some(JArr([Issue]))
    ensures Lookup(Issue.fields, "severity") == Some(JStr("low"))
    ensures Lookup(Issue.fields, "component") == Some(JStr("CSS"))
    ensures Lookup(Fallback.fields, "score") == Some(JNum(8))
  {
    LookupDistinct(Fallback.fields, 0);
    LookupDistinct(Fallback.fields, 2);
    LookupDistinct(Issue.fields, 0);
    LookupDistinct(Issue.fields, 1);
  }

  /** When the frontend code can be read, a reply that does not decode still
      completes, with the default review. */
  lemma UndecodableReplyCompletes(self: Agent, ctx: Context, response: Json, parse: Parser)
    requires IsInstance(self) && Request(self, ctx).Success?
    requires ExtractContent(response).Success? && ParseReply(ExtractContent(response).value, parse).None?
    ensures Execute(self, ctx, response, parse) == Success(AgentResult(Name, Role, Fallback, Completed))
  {
    FallbackFacts();
  }

  /** The model sees the sizes of the three parts and nothing else: two
      frontends whose parts have the same sizes give the same request. */
  lemma {:induction false} OnlySizesReachModel(self: Agent, ctx1: Context, ctx2: Context)
    requires Frontend(ctx1).JObj? && Frontend(ctx2).JObj?
    requires forall part :: part in ["html", "css", "js"] ==>
      PartSize(Frontend(ctx1), part) == PartSize(Frontend(ctx2), part)
    ensures Request(self, ctx1) == Request(self, ctx2)
  {
    assert "html" in ["html", "css", "js"];
    assert "css" in ["html", "css", "js"];
    assert "js" in ["html", "css", "js"];
  }

  /** The backend code the agent reads from its context changes nothing it does. */
  lemma BackendCodeIgnored(self: Agent, ctx: Context, code: Json, response: Json, parse: Parser)
    requires IsInstance(self)
    ensures Execute(self, ctx["backend_code" := code], response, parse) == Execute(self, ctx, response, parse)
  {
    assert Frontend(ctx["backend_code" := code]) == Frontend(ctx);
  }

  /** Without frontend code every size in the prompt is 0. */
  lemma MissingFrontendIsEmpty(self: Agent, ctx: Context)
    requires "frontend_code" !in ctx
    ensures Request(self, ctx) == Success(CallAiRequest(self, ReviewPrompt(0, 0, 0), None, Temperature))
  {
  }
}
