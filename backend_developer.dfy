/** The Backend Developer agent: designs the data models and the API from the
    project brief. */
module BackendDeveloper {
  import opened Results
  import opened Json
  import opened Python
  import opened BaseAgent

  const Name := "Backend Developer"
  const Role := "backend_dev"
  const PreferredModel := "deepseek/deepseek-coder"
  const Temperature: Tenths := 5

  predicate IsInstance(a: Agent) {
    a.name == Name && a.role == Role && a.model == PreferredModel
  }

  /** `BackendDeveloperAgent()`. */
  method New(files: Files) returns (a: Agent)
    ensures IsInstance(a)
    ensures a.systemPrompt == LoadSystemPrompt(Name, Role, files)
  {
    a := new Agent(Name, Role, PreferredModel, files);
  }

  /** `context.get('project_brief', {})`. */
  function Brief(ctx: Context): Json {
    ContextGet(ctx, "project_brief", JObj([]))
  }

  /** The line of the backend prompt that carries the brief's summary. */
  function BackendPrompt(summary: Json): string {
    "Design backend architecture for: " + PyStr(summary)
  }

  /** The request sent to the model; reading the summary raises when the brief
      is not a dict. */
  function Request(self: Agent, ctx: Context): Result<AiRequest, Exception> {
    var summary :- DictGet(Brief(ctx), "summary", JStr(""));
    Success(CallAiRequest(self, BackendPrompt(summary), None, Temperature))
  }

  const UserModel := JObj([Field("name", JStr("User")), Field("fields", JArr([JStr("id"), JStr("email"), JStr("name"), JStr("created_at")]))])
  const ProjectModel := JObj([Field("name", JStr("Project")), Field("fields", JArr([JStr("id"), JStr("user_id"), JStr("title"), JStr("description")]))])

  const ListProjects := JObj([
    Field("method", JStr("GET")),
    Field("path", JStr("/api/projects")),
    Field("description", JStr("Get all projects")),
    Field("response", JObj([Field("projects", JArr([]))]))])

  /** The backend design used when the reply does not decode. */
  const Fallback := JObj([
    Field("database_models", JArr([UserModel, ProjectModel])),
    Field("api_endpoints", JArr([ListProjects])),
    Field("authentication", JStr("JWT tokens")),
    Field("error_handling", JStr("RESTful error codes (400, 401, 404, 500)")),
    Field("validation_rules", JArr([JStr("Email validation"), JStr("Required fields check")]))])

  /** `BackendDeveloperAgent.execute` given the model's decoded API response. */
  function Execute(self: Agent, ctx: Context, response: Json, parse: Parser): (r: Result<AgentResult, Exception>)
    requires IsInstance(self)
    ensures r.Success? ==> r.value.agent == Name && r.value.role == Role && r.value.status == Completed
    ensures r.Success? <==>
      && Request(self, ctx).Success? && ExtractContent(response).Success?
      && ParseOrFallback(ExtractContent(response).value, parse, Success(Fallback)).Success?
      && LogCount(ParseOrFallback(ExtractContent(response).value, parse, Success(Fallback)).value, "api_endpoints").Success?
    ensures r.Success? ==>
      Success(r.value.output) == ParseOrFallback(ExtractContent(response).value, parse, Success(Fallback))
  {
    var req :- Request(self, ctx);
    var content :- ExtractContent(response);
    var output :- ParseOrFallback(content, parse, Success(Fallback));
    var endpoints :- LogCount(output, "api_endpoints");
    Success(AgentResult(self.name, self.role, output, Completed))
  }

  /** The default design has the two models User and Project, the single
      endpoint `GET /api/projects`, JWT authentication and two validation
      rules. */
  lemma FallbackFacts()
    ensures DistinctKeys(Fallback.fields)
    ensures Lookup(Fallback.fields, "database_models") == Some(JArr([UserModel, ProjectModel]))
    ensures Lookup(UserModel.fields, "name") == Some(JStr("User"))
    ensures Lookup(ProjectModel.fields, "name") == Some(JStr("Project"))
    ensures Lookup(Fallback.fields, "api_endpoints") == Some(JArr([ListProjects]))
    ensures Lookup(ListProjects.fields, "method") == Some(JStr("GET"))
    ensures Lookup(ListProjects.fields, "path") == Some(JStr("/api/projects"))
    ensures Lookup(Fallback.fields, "authentication") == Some(JStr("JWT tokens"))
    ensures Lookup(Fallback.fields, "validation_rules") == Some(JArr([JStr("Email validation"), JStr("Required fields check")]))
  {
    FallbackKeysDistinct();
    LookupDistinct(Fallback.fields, 0);
    LookupDistinct(Fallback.fields, 1);
    LookupDistinct(Fallback.fields, 2);
    LookupDistinct(Fallback.fields, 4);
    NestedLookups();
  }

  lemma FallbackKeysDistinct()
    ensures DistinctKeys(Fallback.fields)
  {
  }

  lemma NestedLookups()
    ensures Lookup(UserModel.fields, "name") == Some(JStr("User"))
    ensures Lookup(ProjectModel.fields, "name") == Some(JStr("Project"))
    ensures Lookup(ListProjects.fields, "method") == Some(JStr("GET"))
    ensures Lookup(ListProjects.fields, "path") == Some(JStr("/api/projects"))
  {
    LookupDistinct(UserModel.fields, 0);
    LookupDistinct(ProjectModel.fields, 0);
    LookupDistinct(ListProjects.fields, 0);
    LookupDistinct(ListProjects.fields, 1);
  }

  /** The activity log line of the default design counts one endpoint. */
  lemma FallbackEndpointCount()
    ensures LogCount(Fallback, "api_endpoints") == Success(1)
  {
    FallbackFacts();
  }

  /** When the brief can be read, a reply that does not decode still completes,
      with the default design. */
  lemma UndecodableReplyCompletes(self: Agent, ctx: Context, response: Json, parse: Parser)
    requires IsInstance(self) && Request(self, ctx).Success?
    requires ExtractContent(response).Success? && ParseReply(ExtractContent(response).value, parse).None?
    ensures Execute(self, ctx, response, parse) == Success(AgentResult(Name, Role, Fallback, Completed))
  {
    FallbackFacts();
  }

  /** A context without `project_brief` reads as an empty brief. */
  lemma MissingBriefIsEmpty(self: Agent, ctx: Context)
    requires "project_brief" !in ctx
    ensures Request(self, ctx) == Success(CallAiRequest(self, BackendPrompt(JStr("")), None, Temperature))
  {
  }

  /** A brief that is not a dict makes the agent raise before the model is asked. */
  lemma NonDictBriefRaises(self: Agent, ctx: Context, response: Json, parse: Parser)
    requires IsInstance(self)
    requires "project_brief" in ctx && !ctx["project_brief"].JObj?
    ensures Execute(self, ctx, response, parse).Failure?
    ensures Execute(self, ctx, response, parse).error.kind == AttributeError
  {
  }
}
