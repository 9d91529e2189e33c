/** The UI/UX Designer agent: turns the project brief into a design specification. */
module UiDesigner {
  import opened Results
  import opened Json
  import opened Python
  import opened BaseAgent

  const Name := "UI/UX Designer"
  const Role := "ui_designer"
  const PreferredModel := "openai/gpt-4o"
  const Temperature: Tenths := 8

  predicate IsInstance(a: Agent) {
    a.name == Name && a.role == Role && a.model == PreferredModel
  }

  /** `UIDesignerAgent()`. */
  method New(files: Files) returns (a: Agent)
    ensures IsInstance(a)
    ensures a.systemPrompt == LoadSystemPrompt(Name, Role, files)
  {
    a := new Agent(Name, Role, PreferredModel, files);
  }

  /** `context.get('project_brief', {})`. */
  function Brief(ctx: Context): Json {
    ContextGet(ctx, "project_brief", JObj([]))
  }

  /** The lines of the design prompt that carry the brief's fields. */
  function DesignPrompt(summary: Json, direction: Json, users: Json): string {
    "Project: " + PyStr(summary) + "\nDesign Direction: " + PyStr(direction) + "\nTarget Users: " + PyStr(users)
  }

  /** The request sent to the model; reading the brief's fields raises when the
      brief is not a dict. */
  function Request(self: Agent, ctx: Context): Result<AiRequest, Exception> {
    var brief := Brief(ctx);
    var summary :- DictGet(brief, "summary", JStr(""));
    var direction :- DictGet(brief, "design_direction", JStr(""));
    var users :- DictGet(brief, "target_users", JStr(""));
    Success(CallAiRequest(self, DesignPrompt(summary, direction, users), None, Temperature))
  }

  const Components := [JStr("Header"), JStr("Hero"), JStr("Features"), JStr("CTA"), JStr("Footer")]

  const Colors := JObj([Field("primary", JStr("#3498db")), Field("secondary", JStr("#2c3e50")),
                        Field("accent", JStr("#e74c3c"))])

  const Breakpoints := JObj([Field("mobile", JStr("320px")), Field("tablet", JStr("768px")),
                             Field("desktop", JStr("1024px"))])

  /** The design specification used when the reply does not decode. */
  const Fallback := JObj([
    Field("layout", JStr("Hero section + Features + Footer")),
    Field("colors", Colors),
    Field("typography", JObj([Field("font_family", JStr("Inter, sans-serif")),
                              Field("sizes", JArr([JStr("12px"), JStr("14px"), JStr("16px"), JStr("24px"), JStr("32px")]))])),
    Field("components", JArr(Components)),
    Field("breakpoints", Breakpoints),
    Field("visual_hierarchy", JStr("Bold headers, subtle backgrounds")),
    Field("accessibility_notes", JStr("WCAG 2.1 AA compliant"))])

  /** `UIDesignerAgent.execute` given the model's decoded API response. */
  function Execute(self: Agent, ctx: Context, response: Json, parse: Parser): (r: Result<AgentResult, Exception>)
    requires IsInstance(self)
    ensures r.Success? ==> r.value.agent == Name && r.value.role == Role && r.value.status == Completed
    ensures r.Success? <==>
      && Request(self, ctx).Success? && ExtractContent(response).Success?
      && ParseOrFallback(ExtractContent(response).value, parse, Success(Fallback)).Success?
      && LogCount(ParseOrFallback(ExtractContent(response).value, parse, Success(Fallback)).value, "components").Success?
    ensures r.Success? ==>
      Success(r.value.output) == ParseOrFallback(ExtractContent(response).value, parse, Success(Fallback))
  {
    var req :- Request(self, ctx);
    var content :- ExtractContent(response);
    var output :- ParseOrFallback(content, parse, Success(Fallback));
    var components :- LogCount(output, "components");
    Success(AgentResult(self.name, self.role, output, Completed))
  }

  /** The default specification lists exactly the components Header, Hero,
      Features, CTA and Footer, uses the colours #3498db, #2c3e50 and #e74c3c,
      and breaks at 320px, 768px and 1024px. */
  lemma FallbackFacts()
    ensures DistinctKeys(Fallback.fields)
    ensures Lookup(Fallback.fields, "components") == Some(JArr(Components))
    ensures Lookup(Fallback.fields, "colors") == Some(Colors)
    ensures Lookup(Colors.fields, "primary") == Some(JStr("#3498db"))
    ensures Lookup(Colors.fields, "secondary") == Some(JStr("#2c3e50"))
    ensures Lookup(Colors.fields, "accent") == Some(JStr("#e74c3c"))
    ensures Lookup(Fallback.fields, "breakpoints") == Some(Breakpoints)
    ensures Lookup(Breakpoints.fields, "mobile") == Some(JStr("320px"))
    ensures Lookup(Breakpoints.fields, "tablet") == Some(JStr("768px"))
    ensures Lookup(Breakpoints.fields, "desktop") == Some(JStr("1024px"))
  {
    FallbackKeysDistinct();
    LookupDistinct(Fallback.fields, 1);
    LookupDistinct(Fallback.fields, 3);
    LookupDistinct(Fallback.fields, 4);
    NestedLookups();
  }

  lemma FallbackKeysDistinct()
    ensures DistinctKeys(Fallback.fields)
  {
  }

  lemma NestedLookups()
    ensures Lookup(Colors.fields, "primary") == Some(JStr("#3498db"))
    ensures Lookup(Colors.fields, "secondary") == Some(JStr("#2c3e50"))
    ensures Lookup(Colors.fields, "accent") == Some(JStr("#e74c3c"))
    ensures Lookup(Breakpoints.fields, "mobile") == Some(JStr("320px"))
    ensures Lookup(Breakpoints.fields, "tablet") == Some(JStr("768px"))
    ensures Lookup(Breakpoints.fields, "desktop") == Some(JStr("1024px"))
  {
  }

  /** When the brief can be read, a reply that does not decode still completes,
      with the default specification. */
  lemma UndecodableReplyCompletes(self: Agent, ctx: Context, response: Json, parse: Parser)
    requires IsInstance(self) && Request(self, ctx).Success?
    requires ExtractContent(response).Success? && ParseReply(ExtractContent(response).value, parse).None?
    ensures Execute(self, ctx, response, parse) == Success(AgentResult(Name, Role, Fallback, Completed))
  {
    FallbackFacts();
  }

  /** A context without `project_brief` reads as an empty brief: every field
      of the prompt is the empty string, and the call cannot raise there. */
  lemma MissingBriefIsEmpty(self: Agent, ctx: Context)
    requires "project_brief" !in ctx
    ensures Request(self, ctx) == Success(CallAiRequest(self, DesignPrompt(JStr(""), JStr(""), JStr("")), None, Temperature))
  {
  }
}
