/** The Debugger agent: asks for fixes to the first issues the review found. */
module Debugger {
  import opened Results
  import opened Json
  import opened Python
  import opened BaseAgent

  const Name := "Debugger"
  const Role := "debugger"
  const PreferredModel := "deepseek/deepseek-coder"
  const Temperature: Tenths := 4

  /** How many of the review's issues reach the prompt. */
  const Shown: nat := 3

  predicate IsInstance(a: Agent) {
    a.name == Name && a.role == Role && a.model == PreferredModel
  }

  /** `DebuggerAgent()`. */
  method New(files: Files) returns (a: Agent)
    ensures IsInstance(a)
    ensures a.systemPrompt == LoadSystemPrompt(Name, Role, files)
  {
    a := new Agent(Name, Role, PreferredModel, files);
  }

  /** `context.get('code_review', {})`. */
  function Review(ctx: Context): Json {
    ContextGet(ctx, "code_review", JObj([]))
  }

  /** The lines of the debug prompt that carry the issues. */
  function DebugPrompt(shown: Json): string {
    "Issues to fix:\n" + Dumps(shown)
  }

  /** `code_review.get('issues', [])[:3]`: raises when the review is not a
      dict or its issues cannot be sliced. */
  function ShownIssues(review: Json): (r: Result<Json, Exception>)
    ensures review.JObj? && Lookup(review.fields, "issues").None? ==> r == Success(JArr([]))
    ensures review.JObj? && Lookup(review.fields, "issues").Some? && Lookup(review.fields, "issues").value.JArr? ==>
      var xs := Lookup(review.fields, "issues").value.items;
      r.Success? && r.value.JArr? && |r.value.items| == (if |xs| < Shown then |xs| else Shown)
      && r.value.items == xs[..|r.value.items|]
  {
    var issues :- DictGet(review, "issues", JArr([]));
    Head(issues, Shown)
  }

  /** The request sent to the model. */
  function Request(self: Agent, ctx: Context): Result<AiRequest, Exception> {
    var shown :- ShownIssues(Review(ctx));
    Success(CallAiRequest(self, DebugPrompt(shown), None, Temperature))
  }

  const Fix := JObj([
    Field("issue", JStr("Missing error handling")),
    Field("root_cause", JStr("Async operation without try-catch")),
    Field("fixed_code", JStr("wrap in try-catch block")),
    Field("testing_approach", JStr("Test with network errors"))])

  /** The fixes used when the reply does not decode. */
  const Fallback := JObj([
    Field("fixes", JArr([Fix])),
    Field("optimization_tips", JArr([JStr("Lazy load images"), JStr("Minify CSS and JS"), JStr("Use CSS containment")])),
    Field("performance_improvements", JArr([JStr("Remove unused CSS"), JStr("Defer non-critical JS"), JStr("Implement caching")]))])

  /** `DebuggerAgent.execute` given the model's decoded API response. */
  function Execute(self: Agent, ctx: Context, response: Json, parse: Parser): (r: Result<AgentResult, Exception>)
    requires IsInstance(self)
    ensures r.Success? ==> r.value.agent == Name && r.value.role == Role && r.value.status == Completed
    ensures r.Success? <==>
      && Request(self, ctx).Success? && ExtractContent(response).Success?
      && ParseOrFallback(ExtractContent(response).value, parse, Success(Fallback)).Success?
      && LogCount(ParseOrFallback(ExtractContent(response).value, parse, Success(Fallback)).value, "fixes").Success?
    ensures r.Success? ==>
      Success(r.value.output) == ParseOrFallback(ExtractContent(response).value, parse, Success(Fallback))
  {
    var req :- Request(self, ctx);
    var content :- ExtractContent(response);
    var output :- ParseOrFallback(content, parse, Success(Fallback));
    var fixes :- LogCount(output, "fixes");
    Success(AgentResult(self.name, self.role, output, Completed))
  }

  /** The default result proposes one fix, three optimisation tips and three
      performance improvements. */
  lemma FallbackFacts()
    ensures DistinctKeys(Fallback.fields)
    ensures Lookup(Fallback.fields, "fixes") == Some(JArr([Fix]))
    ensures Lookup(Fix.fields, "issue") == Some(JStr("Missing error handling"))
    ensures Lookup(Fallback.fields, "optimization_tips").Some? && |Lookup(Fallback.fields, "optimization_tips").value.items| == 3
    ensures Lookup(Fallback.fields, "performance_improvements").Some? && |Lookup(Fallback.fields, "performance_improvements").value.items| == 3
  {
    LookupDistinct(Fallback.fields, 0);
    LookupDistinct(Fallback.fields, 1);
    LookupDistinct(Fallback.fields, 2);
    LookupDistinct(Fix.fields, 0);
  }

  /** When the review can be read, a reply that does not decode still
      completes, with the default fixes. */
  lemma UndecodableReplyCompletes(self: Agent, ctx: Context, response: Json, parse: Parser)
    requires IsInstance(self) && Request(self, ctx).Success?
    requires ExtractContent(response).Success? && ParseReply(ExtractContent(response).value, parse).None?
    ensures Execute(self, ctx, response, parse) == Success(AgentResult(Name, Role, Fallback, Completed))
  {
    FallbackFacts();
  }

  /** Only the first three issues reach the model: two reviews whose issue
      lists agree on those give the same request. */
  lemma OnlyFirstIssuesReachModel(self: Agent, ctx1: Context, ctx2: Context, xs: seq<Json>, ys: seq<Json>)
    requires Review(ctx1).JObj? && Lookup(Review(ctx1).fields, "issues") == Some(JArr(xs))
    requires Review(ctx2).JObj? && Lookup(Review(ctx2).fields, "issues") == Some(JArr(ys))
    requires xs[..if |xs| < Shown then |xs| else Shown] == ys[..if |ys| < Shown then |ys| else Shown]
    ensures Request(self, ctx1) == Request(self, ctx2)
  {
    assert ShownIssues(Review(ctx1)) == ShownIssues(Review(ctx2));
  }

  /** The frontend code the agent reads from its context changes nothing it does. */
  lemma FrontendCodeIgnored(self: Agent, ctx: Context, code: Json, response: Json, parse: Parser)
    requires IsInstance(self)
    ensures Execute(self, ctx["frontend_code" := code], response, parse) == Execute(self, ctx, response, parse)
  {
    assert Review(ctx["frontend_code" := code]) == Review(ctx);
  }

  /** Without a review the prompt lists no issues. */
  lemma MissingReviewIsEmpty(self: Agent, ctx: Context)
    requires "code_review" !in ctx
    ensures Request(self, ctx) == Success(CallAiRequest(self, DebugPrompt(JArr([])), None, Temperature))
  {
  }

  /** Issues given as a dict cannot be sliced, so the agent raises before the
      model is asked. */
  lemma IssuesDictRaises(self: Agent, ctx: Context, fields: seq<Field>, response: Json, parse: Parser)
    requires IsInstance(self)
    requires Review(ctx).JObj? && Lookup(Review(ctx).fields, "issues") == Some(JObj(fields))
    ensures Execute(self, ctx, response, parse).Failure?
    ensures Execute(self, ctx, response, parse).error.kind == TypeError
  {
  }
}
