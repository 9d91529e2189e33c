/** The Content Writer agent: writes the site copy from the project brief. */
module ContentWriter {
  import opened Results
  import opened Json
  import opened Python
  import opened BaseAgent

  const Name := "Content Writer"
  const Role := "content_writer"
  const PreferredModel := "google/gemini-2.0-flash-exp:free"
  const Temperature: Tenths := 7

  predicate IsInstance(a: Agent) {
    a.name == Name && a.role == Role && a.model == PreferredModel
  }

  /** `ContentWriterAgent()`. */
  method New(files: Files) returns (a: Agent)
    ensures IsInstance(a)
    ensures a.systemPrompt == LoadSystemPrompt(Name, Role, files)
  {
    a := new Agent(Name, Role, PreferredModel, files);
  }

  /** `context.get('project_brief', {})`. */
  function Brief(ctx: Context): Json {
    ContextGet(ctx, "project_brief", JObj([]))
  }

  /** The line of the copy prompt that carries the brief's summary. */
  function ContentPrompt(summary: Json): string {
    "Write professional, engaging copy for: " + PyStr(summary)
  }

  /** The request sent to the model; the design specification the agent also
      reads from its context never reaches it. */
  function Request(self: Agent, ctx: Context): Result<AiRequest, Exception> {
    var summary :- DictGet(Brief(ctx), "summary", JStr(""));
    Success(CallAiRequest(self, ContentPrompt(summary), None, Temperature))
  }

  const Features := JArr([
    JObj([Field("title", JStr("Fast")), Field("description", JStr("Lightning quick performance"))]),
    JObj([Field("title", JStr("Secure")), Field("description", JStr("Enterprise-grade security"))]),
    JObj([Field("title", JStr("Scalable")), Field("description", JStr("Grows with your business"))])])

  const Buttons := JObj([Field("cta", JStr("Get Started")), Field("learn_more", JStr("Learn More"))])

  /** The default copy for a given page title. */
  function DefaultCopy(title: Json): Json {
    JObj([
      Field("page_title", title),
      Field("meta_description", JStr("Professional website powered by FABRI8")),
      Field("hero_headline", JStr("Welcome to our website")),
      Field("hero_subheading", JStr("We create amazing experiences")),
      Field("features", Features),
      Field("buttons", Buttons),
      Field("forms", JArr([JObj([Field("name", JStr("Email")), Field("placeholder", JStr("your@email.com"))])])),
      Field("error_messages", JArr([JStr("Please fill all required fields"), JStr("Invalid email format")])),
      Field("footer_text", JStr("\U{A9} 2024 FABRI8. All rights reserved."))])
  }

  /** The copy used when the reply does not decode: its title is the brief's
      summary, or "Welcome" when the brief has none. The agent only gets here
      after reading the summary for the prompt, so the brief is a dict. */
  function Fallback(brief: Json): Json
    requires brief.JObj?
  {
    DefaultCopy(Lookup(brief.fields, "summary").GetOr(JStr("Welcome")))
  }

  /** `ContentWriterAgent.execute` given the model's decoded API response. No
      count is logged after parsing, so any decoded value is returned. */
  function Execute(self: Agent, ctx: Context, response: Json, parse: Parser): (r: Result<AgentResult, Exception>)
    requires IsInstance(self)
    ensures r.Success? ==> r.value.agent == Name && r.value.role == Role && r.value.status == Completed
    ensures r.Success? <==> Request(self, ctx).Success? && ExtractContent(response).Success?
    ensures r.Success? ==>
      Success(r.value.output) == ParseOrFallback(ExtractContent(response).value, parse, Success(Fallback(Brief(ctx))))
  {
    var req :- Request(self, ctx);
    var content :- ExtractContent(response);
    var output := ParseOrFallback(content, parse, Success(Fallback(Brief(ctx)))).value;
    Success(AgentResult(self.name, self.role, output, Completed))
  }

  /** The default copy's title is the brief's summary (or "Welcome"), and it
      offers the three features Fast, Secure and Scalable and the buttons
      "Get Started" and "Learn More". */
  lemma FallbackFacts(brief: Json)
    requires brief.JObj?
    ensures DistinctKeys(Fallback(brief).fields)
    ensures Lookup(Fallback(brief).fields, "page_title") == Some(Lookup(brief.fields, "summary").GetOr(JStr("Welcome")))
    ensures Lookup(Fallback(brief).fields, "features") == Some(Features)
    ensures Lookup(Fallback(brief).fields, "buttons") == Some(Buttons)
    ensures Lookup(Buttons.fields, "cta") == Some(JStr("Get Started"))
    ensures Lookup(Buttons.fields, "learn_more") == Some(JStr("Learn More"))
  {
    var fs := Fallback(brief).fields;
    LookupDistinct(fs, 0);
    LookupDistinct(fs, 4);
    LookupDistinct(fs, 5);
    LookupDistinct(Buttons.fields, 0);
    LookupDistinct(Buttons.fields, 1);
  }

  /** A reply that does not decode still completes, with the default copy. */
  lemma UndecodableReplyCompletes(self: Agent, ctx: Context, response: Json, parse: Parser)
    requires IsInstance(self) && Request(self, ctx).Success?
    requires ExtractContent(response).Success? && ParseReply(ExtractContent(response).value, parse).None?
    ensures Brief(ctx).JObj?
    ensures Execute(self, ctx, response, parse) == Success(AgentResult(Name, Role, Fallback(Brief(ctx)), Completed))
  {
    FallbackFacts(Brief(ctx));
  }

  /** The design specification in the context changes nothing the agent does. */
  lemma DesignSpecIgnored(self: Agent, ctx: Context, spec: Json, response: Json, parse: Parser)
    requires IsInstance(self)
    ensures Execute(self, ctx["design_spec" := spec], response, parse) == Execute(self, ctx, response, parse)
  {
    assert Brief(ctx["design_spec" := spec]) == Brief(ctx);
  }
}
