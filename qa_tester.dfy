/** The QA Tester agent: writes a test plan for the project brief and logs how
    many scenarios it holds. */
module QaTester {
  import opened Results
  import opened Json
  import opened Python
  import opened BaseAgent

  const Name := "QA Tester"
  const Role := "qa_tester"
  const PreferredModel := "google/gemini-pro"
  const Temperature: Tenths := 5

  predicate IsInstance(a: Agent) {
    a.name == Name && a.role == Role && a.model == PreferredModel
  }

  /** `QATesterAgent()`. */
  method New(files: Files) returns (a: Agent)
    ensures IsInstance(a)
    ensures a.systemPrompt == LoadSystemPrompt(Name, Role, files)
  {
    a := new Agent(Name, Role, PreferredModel, files);
  }

  /** `context.get('project_brief', {})`. */
  function Brief(ctx: Context): Json {
    ContextGet(ctx, "project_brief", JObj([]))
  }

  /** The line of the test prompt that carries the brief's summary. */
  function TestPrompt(summary: Json): string {
    "Create comprehensive test plan for: " + PyStr(summary)
  }

  /** The request sent to the model. */
  function Request(self: Agent, ctx: Context): Result<AiRequest, Exception> {
    var summary :- DictGet(Brief(ctx), "summary", JStr(""));
    Success(CallAiRequest(self, TestPrompt(summary), None, Temperature))
  }

  /** What one value of the plan adds to the scenario count: a list its
      length, anything else 1. */
  function Weight(v: Json): nat {
    if v.JArr? then |v.items| else 1
  }

  /** The sum of the weights of the dict's values. A key bound again later in
      the field list is counted once, for its last binding, as a Python dict
      keeps only that one. */
  function SumWeights(fields: seq<Field>): nat {
    if |fields| == 0 then 0
    else (if Lookup(fields[1..], fields[0].key).Some? then 0 else Weight(fields[0].value)) + SumWeights(fields[1..])
  }

  /** The plain sum of the weights of a field list. */
  function Total(fields: seq<Field>): nat {
    if |fields| == 0 then 0 else Weight(fields[0].value) + Total(fields[1..])
  }

  /** The number the post-parse log line prints; a plan that is not a dict has
      no `values` and raises. */
  function ScenarioCount(plan: Json): (r: Result<nat, Exception>)
    ensures r.Success? <==> plan.JObj?
    ensures plan.JObj? && DistinctKeys(plan.fields) ==> r == Success(Total(plan.fields))
    ensures r.Failure? ==> r.error.kind == AttributeError
  {
    if plan.JObj? then
      if DistinctKeys(plan.fields) then DistinctSumsAll(plan.fields); Success(SumWeights(plan.fields))
      else Success(SumWeights(plan.fields))
    else Failure(Exception(AttributeError, "'" + TypeName(plan) + "' object has no attribute 'values'"))
  }

  /** With distinct keys every field is counted. */
  lemma {:induction false} DistinctSumsAll(fields: seq<Field>)
    requires DistinctKeys(fields)
    ensures SumWeights(fields) == Total(fields)
  {
    if |fields| > 0 {
      var rest := fields[1..];
      assert Lookup(rest, fields[0].key).None? by {
        forall i | 0 <= i < |rest| ensures rest[i].key != fields[0].key {
          assert rest[i] == fields[i + 1];
        }
      }
      assert DistinctKeys(rest) by {
        forall a, b | 0 <= a < b < |rest| ensures rest[a].key != rest[b].key {
          assert rest[a] == fields[a + 1] && rest[b] == fields[b + 1];
        }
      }
      DistinctSumsAll(rest);
    }
  }

  const HappyPath := JArr([JStr("User lands on homepage"), JStr("User navigates to features section"),
                           JStr("User clicks CTA button"), JStr("Form submission successful")])

  /** The test plan used when the reply does not decode. */
  const Fallback := JObj([
    Field("happy_path", HappyPath),
    Field("edge_cases", JArr([JStr("Empty form submission"), JStr("Very long input strings"), JStr("Special characters in forms")])),
    Field("error_scenarios", JArr([JStr("Network timeout"), JStr("API errors")])),
    Field("mobile_tests", JArr([JStr("iPhone 12"), JStr("Android latest")])),
    Field("performance_tests", JArr([JStr("Page load < 3s"), JStr("First input delay < 100ms")])),
    Field("accessibility_tests", JArr([JStr("Keyboard navigation"), JStr("Screen reader compatibility")])),
    Field("browser_compatibility", JArr([JStr("Chrome"), JStr("Firefox"), JStr("Safari")])),
    Field("security_tests", JArr([JStr("XSS prevention"), JStr("CSRF protection")]))])

  /** `QATesterAgent.execute` given the model's decoded API response. */
  function Execute(self: Agent, ctx: Context, response: Json, parse: Parser): (r: Result<AgentResult, Exception>)
    requires IsInstance(self)
    ensures r.Success? ==> r.value.agent == Name && r.value.role == Role && r.value.status == Completed
    ensures r.Success? ==> r.value.output.JObj?
    ensures r.Success? ==> Request(self, ctx).Success? && ExtractContent(response).Success?
    ensures r.Success? ==>
      Success(r.value.output) == ParseOrFallback(ExtractContent(response).value, parse, Success(Fallback))
  {
    var req :- Request(self, ctx);
    var content :- ExtractContent(response);
    var output :- ParseOrFallback(content, parse, Success(Fallback));
    var scenarios :- ScenarioCount(output);
    Success(AgentResult(self.name, self.role, output, Completed))
  }

  /** The default plan has eight categories, all lists, holding 20 scenarios. */
  lemma FallbackFacts()
    ensures DistinctKeys(Fallback.fields)
    ensures |Fallback.fields| == 8
    ensures ScenarioCount(Fallback) == Success(20)
  {
    var fs := Fallback.fields;
    DistinctSumsAll(fs);
    assert Total(fs[7..]) == 2;
    assert Total(fs[6..]) == 5;
    assert Total(fs[5..]) == 7;
    assert Total(fs[4..]) == 9;
    assert Total(fs[3..]) == 11;
    assert Total(fs[2..]) == 13;
    assert Total(fs[1..]) == 16;
  }

  /** When the brief can be read, a reply that does not decode still completes,
      with the default plan. */
  lemma UndecodableReplyCompletes(self: Agent, ctx: Context, response: Json, parse: Parser)
    requires IsInstance(self) && Request(self, ctx).Success?
    requires ExtractContent(response).Success? && ParseReply(ExtractContent(response).value, parse).None?
    ensures Execute(self, ctx, response, parse) == Success(AgentResult(Name, Role, Fallback, Completed))
  {
    FallbackFacts();
  }

  /** Unlike the other roles' log lines, this one cannot raise on a decoded
      reply: whatever decodes is an object, and any object has values. So
      once the brief is read and the response holds a reply, the agent
      completes. */
  lemma DecodedPlanCompletes(self: Agent, ctx: Context, response: Json, parse: Parser)
    requires IsInstance(self) && FollowsRfc8259(parse)
    requires Request(self, ctx).Success? && ExtractContent(response).Success?
    ensures Execute(self, ctx, response, parse).Success?
  {
    var content := ExtractContent(response).value;
    if ParseReply(content, parse).Some? {
      ParsedIsObject(content, parse);
    }
  }
}
