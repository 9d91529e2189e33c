/** The TypeScript pipeline (src/core/orchestrator.ts): seven agents run in
    a fixed order over the shared `projectState`, three of them together;
    there is no error handling, so the first rejection rejects the run. */
module TsOrchestrator {
  import opened Results
  import opened Json
  import opened TsTypes
  import opened LlmClient
  import opened TsStateManager

  /** The agents' entry points. Each wraps one `askJson` call and resolves
      with a value or rejects with an error. */
  datatype Team = Team(
    analyze: string -> Result<Json, Error>,
    createDesign: Json -> Result<Json, Error>,
    generateCode: (Json, Json) -> Result<seq<CodeFile>, Error>,
    generateApis: Json -> Result<seq<CodeFile>, Error>,
    writeContent: (Json, Json) -> Result<Json, Error>,
    reviewCode: (seq<CodeFile>, seq<CodeFile>) -> Result<Json, Error>,
    test: (seq<CodeFile>, seq<CodeFile>) -> Result<Json, Error>)

  /** What happened, in order: an agent was called or the state was saved. */
  datatype Event =
    | Analyze(prompt: string)
    | CreateDesign(brief: Json)
    | GenerateCode(brief: Json, design: Json)
    | GenerateApis(brief: Json)
    | WriteContent(brief: Json, design: Json)
    | ReviewCode(frontend: seq<CodeFile>, backend: seq<CodeFile>)
    | Test(frontend: seq<CodeFile>, backend: seq<CodeFile>)
    | Saved(op: Save)

  /** `{...projectState.getState(), content, review, qaReport}`. */
  datatype FinalState = FinalState(
    step: Step,
    projectBrief: Option<Json>,
    uiDesign: Option<Json>,
    architecture: Architecture,
    code: Code,
    content: Json,
    qaReport: Json,
    review: Json)

  datatype Outcome = Outcome(status: string, message: string, finalState: FinalState)

  const Done := "Project Completed with 8 Agents!"

  function Overlaid(s: ProjectState, content: Json, review: Json, qaReport: Json): FinalState {
    FinalState(s.step, s.projectBrief, s.uiDesign, s.architecture, s.code, content, qaReport, review)
  }

  /** `Promise.all` over the three parallel calls; a rejection is reported
      as the first rejecting call in list order. */
  function All3(a: Result<seq<CodeFile>, Error>, b: Result<seq<CodeFile>, Error>, c: Result<Json, Error>)
    : (r: Result<(seq<CodeFile>, seq<CodeFile>, Json), Error>)
    ensures r.Success? <==> a.Success? && b.Success? && c.Success?
    ensures r.Success? ==> r.value == (a.value, b.value, c.value)
  {
    if a.Failure? then Failure(a.error)
    else if b.Failure? then Failure(b.error)
    else if c.Failure? then Failure(c.error)
    else Success((a.value, b.value, c.value))
  }

  /** A run: the shared record afterwards, the events, the settled promise. */
  datatype Run = Run(state: ProjectState, events: seq<Event>, result: Result<Outcome, Error>)

  /** `startProject`, from the shared record `s`. */
  function Start(team: Team, prompt: string, s: ProjectState): Run {
    var e1 := [Analyze(prompt)];
    match team.analyze(prompt)
    case Failure(err) => Run(s, e1, Failure(err))
    case Success(brief) =>
      var s1 := WithBrief(s, brief);
      var e2 := e1 + [Saved(BriefSaved(brief)), CreateDesign(brief)];
      match team.createDesign(brief)
      case Failure(err) => Run(s1, e2, Failure(err))
      case Success(design) =>
        var s2 := WithDesign(s1, design);
        var e3 := e2 + [Saved(DesignSaved(design)), GenerateCode(brief, design), GenerateApis(brief), WriteContent(brief, design)];
        match All3(team.generateCode(brief, design), team.generateApis(brief), team.writeContent(brief, design))
        case Failure(err) => Run(s2, e3, Failure(err))
        case Success(parts) =>
          var s3 := WithBackendCode(WithFrontendCode(s2, parts.0), parts.1);
          var e4 := e3 + [Saved(FrontendSaved(parts.0)), Saved(BackendSaved(parts.1)), ReviewCode(parts.0, parts.1)];
          match team.reviewCode(parts.0, parts.1)
          case Failure(err) => Run(s3, e4, Failure(err))
          case Success(review) =>
            var e5 := e4 + [Test(parts.0, parts.1)];
            match team.test(parts.0, parts.1)
            case Failure(err) => Run(s3, e5, Failure(err))
            case Success(qa) => Run(s3, e5, Success(Outcome("SUCCESS", Done, Overlaid(s3, parts.2, review, qa))))
  }

  // ------------------------------------------------------------- properties

  datatype Outputs = Outputs(brief: Json, design: Json, frontend: seq<CodeFile>, backend: seq<CodeFile>,
                             content: Json, review: Json, qa: Json)

  /** Every agent's value, each fed from the earlier ones, when all resolve. */
  function Threaded(team: Team, prompt: string): Option<Outputs> {
    var brief := team.analyze(prompt);
    if brief.Failure? then None else
    var design := team.createDesign(brief.value);
    if design.Failure? then None else
    var fe := team.generateCode(brief.value, design.value);
    var be := team.generateApis(brief.value);
    var content := team.writeContent(brief.value, design.value);
    if fe.Failure? || be.Failure? || content.Failure? then None else
    var review := team.reviewCode(fe.value, be.value);
    if review.Failure? then None else
    var qa := team.test(fe.value, be.value);
    if qa.Failure? then None else
    Some(Outputs(brief.value, design.value, fe.value, be.value, content.value, review.value, qa.value))
  }

  /** The order of a successful run. */
  function ExpectedEvents(prompt: string, o: Outputs): seq<Event> {
    [Analyze(prompt), Saved(BriefSaved(o.brief)),
     CreateDesign(o.brief), Saved(DesignSaved(o.design)),
     GenerateCode(o.brief, o.design), GenerateApis(o.brief), WriteContent(o.brief, o.design),
     Saved(FrontendSaved(o.frontend)), Saved(BackendSaved(o.backend)),
     ReviewCode(o.frontend, o.backend), Test(o.frontend, o.backend)]
  }

  /** The run resolves exactly when every agent resolves; it then has run
      the agents and saves in the fixed order, left the project at the
      implementation step with both code lists saved, and resolved with the
      record overlaid by the content, the review and the QA report. */
  lemma StartSucceeds(team: Team, prompt: string, s: ProjectState)
    ensures Start(team, prompt, s).result.Success? <==> Threaded(team, prompt).Some?
    ensures Threaded(team, prompt).Some? ==>
      var o, r := Threaded(team, prompt).value, Start(team, prompt, s);
      && r.events == ExpectedEvents(prompt, o)
      && r.state == s.(step := Implementation, projectBrief := Some(o.brief), uiDesign := Some(o.design),
                       code := Code(o.frontend, o.backend))
      && r.result.value == Outcome("SUCCESS", Done, FinalState(Implementation, Some(o.brief), Some(o.design), s.architecture,
                                                               Code(o.frontend, o.backend), o.content, o.qa, o.review))
  {
  }

  /** The saves a run made, in order. */
  function SavesOf(events: seq<Event>): (ops: seq<Save>)
    ensures |ops| <= |events|
  {
    if events == [] then []
    else if events[|events| - 1].Saved? then SavesOf(events[..|events| - 1]) + [events[|events| - 1].op]
    else SavesOf(events[..|events| - 1])
  }

  /** The save an event records, if any. */
  function OpOf(e: Event): seq<Save> {
    if e.Saved? then [e.op] else []
  }

  lemma SavesOfSnoc(a: seq<Event>, e: Event)
    ensures SavesOf(a + [e]) == SavesOf(a) + OpOf(e)
  {
    assert (a + [e])[..|a + [e]| - 1] == a;
  }

  lemma SavesOfFirstStage(prompt: string, b: Json)
    ensures SavesOf([Analyze(prompt)] + [Saved(BriefSaved(b)), CreateDesign(b)]) == [BriefSaved(b)]
  {
    var x0, x1, x2 := Analyze(prompt), Saved(BriefSaved(b)), CreateDesign(b);
    SavesOfSnoc([], x0);
    assert [] + [x0] == [x0];
    SavesOfSnoc([x0], x1);
    SavesOfSnoc([x0] + [x1], x2);
    assert [x0] + [x1, x2] == [x0] + [x1] + [x2];
  }

  lemma SavesOfDesignStage(e: seq<Event>, b: Json, g: Json)
    ensures SavesOf(e + [Saved(DesignSaved(g)), GenerateCode(b, g), GenerateApis(b), WriteContent(b, g)])
         == SavesOf(e) + [DesignSaved(g)]
  {
    var x1, x2, x3, x4 := Saved(DesignSaved(g)), GenerateCode(b, g), GenerateApis(b), WriteContent(b, g);
    SavesOfSnoc(e, x1);
    SavesOfSnoc(e + [x1], x2);
    SavesOfSnoc(e + [x1] + [x2], x3);
    SavesOfSnoc(e + [x1] + [x2] + [x3], x4);
    assert e + [x1, x2, x3, x4] == e + [x1] + [x2] + [x3] + [x4];
  }

  lemma SavesOfCodeStage(e: seq<Event>, fe: seq<CodeFile>, be: seq<CodeFile>)
    ensures SavesOf(e + [Saved(FrontendSaved(fe)), Saved(BackendSaved(be)), ReviewCode(fe, be)])
         == SavesOf(e) + [FrontendSaved(fe), BackendSaved(be)]
  {
    var y1, y2, y3 := Saved(FrontendSaved(fe)), Saved(BackendSaved(be)), ReviewCode(fe, be);
    SavesOfSnoc(e, y1);
    SavesOfSnoc(e + [y1], y2);
    SavesOfSnoc(e + [y1] + [y2], y3);
    assert e + [y1, y2, y3] == e + [y1] + [y2] + [y3];
  }

  lemma ApplyAllSaves(s: ProjectState, b: Json, g: Json, fe: seq<CodeFile>, be: seq<CodeFile>)
    ensures ApplyAll(s, [BriefSaved(b)]) == WithBrief(s, b)
    ensures ApplyAll(s, [BriefSaved(b), DesignSaved(g)]) == WithDesign(WithBrief(s, b), g)
    ensures ApplyAll(s, [BriefSaved(b), DesignSaved(g), FrontendSaved(fe), BackendSaved(be)])
         == WithBackendCode(WithFrontendCode(WithDesign(WithBrief(s, b), g), fe), be)
  {
    var ops := [BriefSaved(b), DesignSaved(g), FrontendSaved(fe), BackendSaved(be)];
    assert [BriefSaved(b)][..0] == [];
    assert ops[..2][..1] == [BriefSaved(b)];
    assert ops[..3][..2] == ops[..2] == [BriefSaved(b), DesignSaved(g)];
  }

  /** Whatever happens, the shared record changes only through the save
      methods: it is the record with the run's saves applied in order. */
  lemma StateIsSaves(team: Team, prompt: string, s: ProjectState)
    ensures Start(team, prompt, s).state == ApplyAll(s, SavesOf(Start(team, prompt, s).events))
  {
    var brief := team.analyze(prompt);
    if brief.Failure? {
      SavesOfSnoc([], Analyze(prompt));
      assert [] + [Analyze(prompt)] == [Analyze(prompt)];
    } else {
      var b := brief.value;
      var e2 := [Analyze(prompt)] + [Saved(BriefSaved(b)), CreateDesign(b)];
      SavesOfFirstStage(prompt, b);
      var d := team.createDesign(b);
      if d.Success? {
        var g := d.value;
        SavesOfDesignStage(e2, b, g);
        var e3 := e2 + [Saved(DesignSaved(g)), GenerateCode(b, g), GenerateApis(b), WriteContent(b, g)];
        var all := All3(team.generateCode(b, g), team.generateApis(b), team.writeContent(b, g));
        if all.Success? {
          var fe, be := all.value.0, all.value.1;
          SavesOfCodeStage(e3, fe, be);
          var e4 := e3 + [Saved(FrontendSaved(fe)), Saved(BackendSaved(be)), ReviewCode(fe, be)];
          assert SavesOf(e3) == [BriefSaved(b), DesignSaved(g)];
          assert SavesOf(e4) == [BriefSaved(b), DesignSaved(g), FrontendSaved(fe), BackendSaved(be)];
          SavesOfSnoc(e4, Test(fe, be));
          assert SavesOf(e4 + [Test(fe, be)]) == SavesOf(e4);
          ApplyAllSaves(s, b, g, fe, be);
        } else {
          ApplyAllSaves(s, b, g, [], []);
        }
      } else {
        ApplyAllSaves(s, b, JNull, [], []);
      }
    }
  }

  /** Starting from a fresh record, a run, settled either way, leaves the
      project at discovery, design or implementation, never later. */
  lemma RunNeverPastImplementation(team: Team, prompt: string)
    ensures Start(team, prompt, Initial).state.step in {Discovery, Design, Implementation}
  {
    StateIsSaves(team, prompt, Initial);
    NeverPastImplementation(SavesOf(Start(team, prompt, Initial).events));
  }

  /** When one of the three parallel calls rejects, nothing is saved after
      the design: the code lists are untouched and the run rejects. */
  lemma ParallelRejectionKeepsCode(team: Team, prompt: string, s: ProjectState)
    requires team.analyze(prompt).Success?
    requires team.createDesign(team.analyze(prompt).value).Success?
    requires var b, d := team.analyze(prompt).value, team.createDesign(team.analyze(prompt).value).value;
      team.generateCode(b, d).Failure? || team.generateApis(b).Failure? || team.writeContent(b, d).Failure?
    ensures Start(team, prompt, s).result.Failure?
    ensures Start(team, prompt, s).state.code == s.code
    ensures forall i :: 0 <= i < |Start(team, prompt, s).events| ==>
              !(Start(team, prompt, s).events[i].Saved? && Start(team, prompt, s).events[i].op.FrontendSaved?)
  {
  }

  /** The reviewer and the QA tester are given the very code lists that were
      saved, in every run. */
  lemma ReviewAndTestSeeSavedCode(team: Team, prompt: string, s: ProjectState)
    ensures forall i :: 0 <= i < |Start(team, prompt, s).events| ==>
      var e := Start(team, prompt, s).events[i];
      (e.ReviewCode? || e.Test?) ==> Start(team, prompt, s).state.code == Code(e.frontend, e.backend)
  {
  }

  /** A rejection is the rejecting agent's own error, passed on unchanged. */
  lemma RejectionPassesErrorOn(team: Team, prompt: string, s: ProjectState)
    ensures team.analyze(prompt).Failure? ==> Start(team, prompt, s) == Run(s, [Analyze(prompt)], Failure(team.analyze(prompt).error))
    ensures Start(team, prompt, s).result.Failure? ==> Start(team, prompt, s).state.architecture == s.architecture
  {
  }

  // ------------------------------------------------------------- the class

  /** `Orchestrator`, working on the shared `projectState`. */
  class Orchestrator {
    const team: Team
    const projectState: StateManager
    ghost var events: seq<Event>

    constructor (team: Team, projectState: StateManager)
      ensures this.team == team && this.projectState == projectState && events == []
    {
      this.team := team;
      this.projectState := projectState;
      events := [];
    }

    /** `startProject`. The record is written to disk after every save; a
        save happens exactly when the project manager resolves. */
    method StartProject(prompt: string) returns (r: Result<Outcome, Error>)
      modifies this`events, projectState
      ensures var run := Start(team, prompt, old(projectState.state));
        && r == run.result
        && projectState.state == run.state
        && events == old(events) + run.events
      ensures projectState.file
           == if projectState.diskWritable && team.analyze(prompt).Success? then Some(projectState.state) else old(projectState.file)
    {
      events := events + [Analyze(prompt)];
      var brief := team.analyze(prompt);
      if brief.Failure? {
        return Failure(brief.error);
      }
      projectState.SaveBrief(brief.value);
      events := events + [Saved(BriefSaved(brief.value)), CreateDesign(brief.value)];
      var design := team.createDesign(brief.value);
      if design.Failure? {
        return Failure(design.error);
      }
      projectState.SaveDesign(design.value);
      events := events + [Saved(DesignSaved(design.value)), GenerateCode(brief.value, design.value),
                          GenerateApis(brief.value), WriteContent(brief.value, design.value)];
      var parts := All3(team.generateCode(brief.value, design.value), team.generateApis(brief.value),
                        team.writeContent(brief.value, design.value));
      if parts.Failure? {
        return Failure(parts.error);
      }
      var frontendFiles, backendFiles, content := parts.value.0, parts.value.1, parts.value.2;
      projectState.SaveFrontendCode(frontendFiles);
      projectState.SaveBackendCode(backendFiles);
      events := events + [Saved(FrontendSaved(frontendFiles)), Saved(BackendSaved(backendFiles)),
                          ReviewCode(frontendFiles, backendFiles)];
      var review := team.reviewCode(frontendFiles, backendFiles);
      if review.Failure? {
        return Failure(review.error);
      }
      events := events + [Test(frontendFiles, backendFiles)];
      var qaReport := team.test(frontendFiles, backendFiles);
      if qaReport.Failure? {
        return Failure(qaReport.error);
      }
      var snapshot := projectState.GetState();
      r := Success(Outcome("SUCCESS", Done, Overlaid(snapshot, content, review.value, qaReport.value)));
    }
  }
}
