/** The Python orchestrator: eight agents driven through seven phases. Each
    agent's output is threaded into the next agents' contexts and written
    into the workflow state, progress notifications go to an optional
    socket, and any exception is announced as a phase-0 notification and
    re-raised.

    The run is specified by functions over a `World` (state, notifications,
    socket sends, agent calls) that return a `Step`: the next world with a
    value, or the world at the point an exception was raised. The
    orchestrator class is proved to follow them. */
module PyOrchestrator {
  import opened Results
  import opened Json
  import opened Python
  import opened BaseAgent

  /** The keys of the orchestrator's agents dict. */
  datatype AgentKey = Pm | Ui | Frontend | Backend | Writer | Reviewer | Qa | Debugger

  /** Every agent's `execute`; the role modules model each one for a given
      model response and decoder. */
  type Agents = (AgentKey, Context) -> Result<AgentResult, Exception>

  /** The socket's behaviour: whether its n-th `send_status` raises. */
  type Socket = nat -> Option<Exception>

  /** The payload of one `send_status`. */
  datatype Notification = Notification(phase: int, message: string, data: Json)

  datatype Invocation = Invocation(agent: AgentKey, context: Context)

  /** What a run changes: the workflow state, the notifications that went out,
      the number of sends attempted, and the agent calls made. */
  datatype World = World(state: map<string, Json>, notices: seq<Notification>, sends: nat, calls: seq<Invocation>)

  datatype At<+T> = At(w: World, v: T)

  /** One step of a run: it either continues with a value or raises. */
  datatype Step<+T> = Done(w: World, v: T) | Raised(w: World, e: Exception) {
    predicate IsFailure() {
      Raised?
    }

    function PropagateFailure<U>(): Step<U>
      requires Raised?
    {
      Raised(w, e)
    }

    function Extract(): At<T>
      requires Done?
    {
      At(w, v)
    }
  }

  const Phase1Start := "\U{1F914} Phase 1: Discovery & Planning started"
  const Phase1Done := "\U{2705} Phase 1 complete"
  const Phase2Start := "\U{1F3A8} Phase 2: Design & Architecture started"
  const Phase2Done := "\U{2705} Phase 2 complete"
  const Phase3Start := "\U{1F4BB} Phase 3: Implementation started"
  const Phase3Done := "\U{2705} Phase 3 complete"
  const Phase4Start := "\U{1F517} Phase 4: Integration Standup"
  const Phase4Done := "\U{2705} Phase 4 complete - All systems aligned"
  const Phase5Start := "\U{1F440} Phase 5: Code Review started"
  const Phase5Done := "\U{2705} Phase 5 complete"
  const Phase6Start := "\U{1F9EA} Phase 6: QA Testing started"
  const Phase6Done := "\U{2705} Phase 6 complete"
  const Phase7Start := "\U{1F41B} Phase 7: Debugging & Delivery"
  const Phase7Done := "\U{1F389} Project complete!"

  function ErrorMessage(e: Exception): string {
    "\U{274C} Error: " + e.text
  }

  /** `data or {}`. */
  function DataOr(data: Option<Json>): Json {
    if data.Some? && Truthy(data.value) then data.value else JObj([])
  }

  /** `notify`: with a socket, the send is attempted and its exception is not
      caught; without one the notification is only printed. */
  function Emit(ws: Option<Socket>, w: World, phase: int, message: string, data: Option<Json>): (r: Step<()>)
    ensures r.w.state == w.state && r.w.calls == w.calls
    ensures r.w.sends == if ws.Some? then w.sends + 1 else w.sends
    ensures r.Done? <==> ws.None? || ws.value(w.sends).None?
    ensures r.Done? ==> r.w.notices == w.notices + [Notification(phase, message, DataOr(data))]
    ensures r.Raised? ==> r.w.notices == w.notices && r.e == ws.value(w.sends).value
  {
    var n := Notification(phase, message, DataOr(data));
    if ws.None? then Done(w.(notices := w.notices + [n]), ())
    else
      var w1 := w.(sends := w.sends + 1);
      match ws.value(w.sends)
      case Some(e) => Raised(w1, e)
      case None => Done(w1.(notices := w.notices + [n]), ())
  }

  /** `await self.agents[key].execute(ctx)` followed by `['output']`. */
  function Invoke(agents: Agents, w: World, key: AgentKey, ctx: Context): Step<Json> {
    var w1 := w.(calls := w.calls + [Invocation(key, ctx)]);
    match agents(key, ctx)
    case Success(res) => Done(w1, res.output)
    case Failure(e) => Raised(w1, e)
  }

  /** `asyncio.gather` of two calls: both run; if either raises, the gather
      raises (the first listed failure here). */
  function Gather(agents: Agents, w: World, k1: AgentKey, c1: Context, k2: AgentKey, c2: Context): Step<(Json, Json)> {
    var w1 := w.(calls := w.calls + [Invocation(k1, c1), Invocation(k2, c2)]);
    var r1, r2 := agents(k1, c1), agents(k2, c2);
    if r1.Failure? then Raised(w1, r1.error)
    else if r2.Failure? then Raised(w1, r2.error)
    else Done(w1, (r1.value.output, r2.value.output))
  }

  function Write(w: World, key: string, v: Json): World {
    w.(state := w.state[key := v])
  }

  function PmContext(prompt: string): Context {
    map["prompt" := JStr(prompt)]
  }

  function BriefContext(brief: Json): Context {
    map["project_brief" := brief]
  }

  function BuildContext(brief: Json, design: Json): Context {
    map["design_spec" := design, "project_brief" := brief]
  }

  function ReviewContext(frontend: Json, backend: Json): Context {
    map["frontend_code" := frontend, "backend_code" := backend]
  }

  function DebugContext(review: Json, frontend: Json): Context {
    map["code_review" := review, "frontend_code" := frontend]
  }

  /** The dict `start_project` returns. */
  function FinalOutput(projectId: string, frontend: Json, content: Json, qa: Json, review: Json, fixes: Json): Json {
    JObj([Field("project_id", JStr(projectId)), Field("status", JStr("completed")),
          Field("frontend_code", frontend), Field("content", content), Field("test_plan", qa),
          Field("review_summary", review), Field("fixes", fixes)])
  }

  /** Phase 1: the project manager turns the prompt into the brief. */
  function Phase1(ws: Option<Socket>, agents: Agents, prompt: string, w: World): Step<Json> {
    var s :- Emit(ws, w, 1, Phase1Start, None);
    var pm :- Invoke(agents, s.w, Pm, PmContext(prompt));
    var c :- Emit(ws, Write(pm.w, "project_brief", pm.v), 1, Phase1Done, Some(pm.v));
    Done(c.w, pm.v)
  }

  /** Phase 2: the UI designer and the backend developer, both on the brief;
      both keys are written only once both have returned. */
  function Phase2(ws: Option<Socket>, agents: Agents, brief: Json, w: World): Step<(Json, Json)> {
    var s :- Emit(ws, w, 2, Phase2Start, None);
    var g :- Gather(agents, s.w, Ui, BriefContext(brief), Backend, BriefContext(brief));
    var c :- Emit(ws, Write(Write(g.w, "design_spec", g.v.0), "backend_design", g.v.1), 2, Phase2Done, None);
    Done(c.w, g.v)
  }

  /** Phase 3: the frontend developer and the content writer, both on the
      brief and the design. */
  function Phase3(ws: Option<Socket>, agents: Agents, brief: Json, design: Json, w: World): Step<(Json, Json)> {
    var s :- Emit(ws, w, 3, Phase3Start, None);
    var g :- Gather(agents, s.w, Frontend, BuildContext(brief, design), Writer, BuildContext(brief, design));
    var c :- Emit(ws, Write(Write(g.w, "frontend_code", g.v.0), "content", g.v.1), 3, Phase3Done, None);
    Done(c.w, g.v)
  }

  /** Phase 4: two notifications around a pause; no agent runs. */
  function Phase4(ws: Option<Socket>, w: World): (r: Step<()>)
    ensures r.w.state == w.state && r.w.calls == w.calls
  {
    var s :- Emit(ws, w, 4, Phase4Start, None);
    Emit(ws, s.w, 4, Phase4Done, None)
  }

  /** Phase 5: the code reviewer on the frontend and backend outputs. */
  function Phase5(ws: Option<Socket>, agents: Agents, frontend: Json, backend: Json, w: World): Step<Json> {
    var s :- Emit(ws, w, 5, Phase5Start, None);
    var rv :- Invoke(agents, s.w, Reviewer, ReviewContext(frontend, backend));
    var c :- Emit(ws, Write(rv.w, "review", rv.v), 5, Phase5Done, Some(rv.v));
    Done(c.w, rv.v)
  }

  /** Phase 6: the QA tester on the brief. */
  function Phase6(ws: Option<Socket>, agents: Agents, brief: Json, w: World): Step<Json> {
    var s :- Emit(ws, w, 6, Phase6Start, None);
    var qa :- Invoke(agents, s.w, Qa, BriefContext(brief));
    var c :- Emit(ws, Write(qa.w, "qa", qa.v), 6, Phase6Done, None);
    Done(c.w, qa.v)
  }

  /** Phase 7: the debugger on the review and the frontend, then the final
      result, which the last notification carries. */
  function Phase7(ws: Option<Socket>, agents: Agents, projectId: string, frontend: Json, content: Json,
                  review: Json, qa: Json, w: World): Step<Json> {
    var s :- Emit(ws, w, 7, Phase7Start, None);
    var dbg :- Invoke(agents, s.w, Debugger, DebugContext(review, frontend));
    var final := FinalOutput(projectId, frontend, content, qa, review, dbg.v);
    var c :- Emit(ws, Write(dbg.w, "debug", dbg.v), 7, Phase7Done, Some(final));
    Done(c.w, final)
  }

  /** The body of the `try` block, written phase by phase: each function
      runs one phase and continues with the rest, carrying the outputs the
      later phases read. */
  function Phases(projectId: string, ws: Option<Socket>, agents: Agents, prompt: string, w: World): Step<Json> {
    var p1 :- Phase1(ws, agents, prompt, w);
    FromPhase2(projectId, ws, agents, p1.v, p1.w)
  }

  function FromPhase2(projectId: string, ws: Option<Socket>, agents: Agents, brief: Json, w: World): Step<Json> {
    var p2 :- Phase2(ws, agents, brief, w);
    FromPhase3(projectId, ws, agents, brief, p2.v.0, p2.v.1, p2.w)
  }

  function FromPhase3(projectId: string, ws: Option<Socket>, agents: Agents, brief: Json, design: Json, backend: Json,
                      w: World): Step<Json> {
    var p3 :- Phase3(ws, agents, brief, design, w);
    FromPhase4(projectId, ws, agents, brief, backend, p3.v.0, p3.v.1, p3.w)
  }

  function FromPhase4(projectId: string, ws: Option<Socket>, agents: Agents, brief: Json, backend: Json,
                      frontend: Json, content: Json, w: World): Step<Json> {
    var p4 :- Phase4(ws, w);
    FromPhase5(projectId, ws, agents, brief, backend, frontend, content, p4.w)
  }

  function FromPhase5(projectId: string, ws: Option<Socket>, agents: Agents, brief: Json, backend: Json,
                      frontend: Json, content: Json, w: World): Step<Json> {
    var p5 :- Phase5(ws, agents, frontend, backend, w);
    FromPhase6(projectId, ws, agents, brief, frontend, content, p5.v, p5.w)
  }

  function FromPhase6(projectId: string, ws: Option<Socket>, agents: Agents, brief: Json, frontend: Json,
                      content: Json, review: Json, w: World): Step<Json> {
    var p6 :- Phase6(ws, agents, brief, w);
    Phase7(ws, agents, projectId, frontend, content, review, p6.v, p6.w)
  }

  /** `start_project`: on an exception, announce it in phase 0 and re-raise;
      an exception from that announcement replaces the original. */
  function Run(projectId: string, ws: Option<Socket>, agents: Agents, prompt: string, w: World): Step<Json> {
    match Phases(projectId, ws, agents, prompt, w)
    case Done(w1, v) => Done(w1, v)
    case Raised(w1, e) =>
      match Emit(ws, w1, 0, ErrorMessage(e), None)
      case Done(w2, _) => Raised(w2, e)
      case Raised(w2, e2) => Raised(w2, e2)
  }

  // ------------------------------------------------------------- properties

  /** The outputs of the eight agents. */
  datatype Outputs = Outputs(pm: Json, ui: Json, backend: Json, frontend: Json, writer: Json,
                             reviewer: Json, qa: Json, debugger: Json)

  /** What the agents produce when each is given the context the workflow is
      meant to give it: the brief to the designer, the backend developer and
      the tester; the brief and the design to the frontend developer and the
      writer; both kinds of code to the reviewer; the review and the frontend
      to the debugger. `None` when one of them raises. */
  function Threaded(agents: Agents, prompt: string): Option<Outputs> {
    var pm := agents(Pm, map["prompt" := JStr(prompt)]);
    if pm.Failure? then None else
    var brief := pm.value.output;
    var ui := agents(Ui, map["project_brief" := brief]);
    var be := agents(Backend, map["project_brief" := brief]);
    if ui.Failure? || be.Failure? then None else
    var fe := agents(Frontend, map["design_spec" := ui.value.output, "project_brief" := brief]);
    var wr := agents(Writer, map["design_spec" := ui.value.output, "project_brief" := brief]);
    if fe.Failure? || wr.Failure? then None else
    var rv := agents(Reviewer, map["frontend_code" := fe.value.output, "backend_code" := be.value.output]);
    if rv.Failure? then None else
    var qa := agents(Qa, map["project_brief" := brief]);
    if qa.Failure? then None else
    var dbg := agents(Debugger, map["code_review" := rv.value.output, "frontend_code" := fe.value.output]);
    if dbg.Failure? then None else
    Some(Outputs(brief, ui.value.output, be.value.output, fe.value.output, wr.value.output,
                 rv.value.output, qa.value.output, dbg.value.output))
  }

  /** The workflow state a successful run leaves: eight keys, each bound to
      its agent's output. */
  function Bound(state: map<string, Json>, o: Outputs): map<string, Json> {
    state["project_brief" := o.pm]["design_spec" := o.ui]["backend_design" := o.backend]
         ["frontend_code" := o.frontend]["content" := o.writer]["review" := o.reviewer]
         ["qa" := o.qa]["debug" := o.debugger]
  }

  function Tags(ns: seq<Notification>): (tags: seq<int>)
    ensures |tags| == |ns|
    ensures forall i :: 0 <= i < |ns| ==> tags[i] == ns[i].phase
  {
    if |ns| == 0 then [] else [ns[0].phase] + Tags(ns[1..])
  }

  function Messages(ns: seq<Notification>): (ms: seq<string>)
    ensures |ms| == |ns|
    ensures forall i :: 0 <= i < |ns| ==> ms[i] == ns[i].message
  {
    if |ns| == 0 then [] else [ns[0].message] + Messages(ns[1..])
  }

  function CalledAgents(cs: seq<Invocation>): (ks: seq<AgentKey>)
    ensures |ks| == |cs|
    ensures forall i :: 0 <= i < |cs| ==> ks[i] == cs[i].agent
  {
    if |cs| == 0 then [] else [cs[0].agent] + CalledAgents(cs[1..])
  }

  const SuccessTags: seq<int> := [1, 1, 2, 2, 3, 3, 4, 4, 5, 5, 6, 6, 7, 7]

  const SuccessMessages := [Phase1Start, Phase1Done, Phase2Start, Phase2Done, Phase3Start, Phase3Done,
                            Phase4Start, Phase4Done, Phase5Start, Phase5Done, Phase6Start, Phase6Done,
                            Phase7Start, Phase7Done]

  const AgentOrder := [Pm, Ui, Backend, Frontend, Writer, Reviewer, Qa, Debugger]

  /** The eight agent calls of a successful run, each on the context the
      workflow means it to get. */
  function ExpectedCalls(prompt: string, o: Outputs): seq<Invocation> {
    [Invocation(Pm, PmContext(prompt)),
     Invocation(Ui, BriefContext(o.pm)),
     Invocation(Backend, BriefContext(o.pm)),
     Invocation(Frontend, BuildContext(o.pm, o.ui)),
     Invocation(Writer, BuildContext(o.pm, o.ui)),
     Invocation(Reviewer, ReviewContext(o.frontend, o.backend)),
     Invocation(Qa, BriefContext(o.pm)),
     Invocation(Debugger, DebugContext(o.reviewer, o.frontend))]
  }

  /** Every agent is called once, in workflow order. */
  lemma ExpectedCallsInOrder(prompt: string, o: Outputs)
    ensures CalledAgents(ExpectedCalls(prompt, o)) == AgentOrder
  {
  }

  function StartMessage(phase: int): string {
    match phase
    case 1 => Phase1Start
    case 2 => Phase2Start
    case 3 => Phase3Start
    case 4 => Phase4Start
    case 5 => Phase5Start
    case 6 => Phase6Start
    case _ => Phase7Start
  }

  function DoneMessage(phase: int): string {
    match phase
    case 1 => Phase1Done
    case 2 => Phase2Done
    case 3 => Phase3Done
    case 4 => Phase4Done
    case 5 => Phase5Done
    case 6 => Phase6Done
    case _ => Phase7Done
  }

  /** The two notifications of a phase that completes. */
  function Pair(phase: int, data: Json): seq<Notification> {
    [Notification(phase, StartMessage(phase), JObj([])), Notification(phase, DoneMessage(phase), data)]
  }

  /** The fourteen notifications of a successful run. */
  function SuccessNotices(brief: Json, review: Json, final: Json): seq<Notification> {
    Pair(1, DataOr(Some(brief))) + Pair(2, JObj([])) + Pair(3, JObj([])) + Pair(4, JObj([]))
    + Pair(5, DataOr(Some(review))) + Pair(6, JObj([])) + Pair(7, DataOr(Some(final)))
  }

  /** The phases of a successful run's notifications are 1,1,2,2,...,7,7. */
  lemma SuccessTagsInOrder(brief: Json, review: Json, final: Json)
    ensures Tags(SuccessNotices(brief, review, final)) == SuccessTags
  {
    var ts := Tags(SuccessNotices(brief, review, final));
    assert forall i :: 0 <= i < 14 ==> ts[i] == SuccessTags[i];
  }

  /** Each phase announces its start before its completion. */
  lemma SuccessMessagesInOrder(brief: Json, review: Json, final: Json)
    ensures Messages(SuccessNotices(brief, review, final)) == SuccessMessages
  {
    var ms := Messages(SuccessNotices(brief, review, final));
    assert forall i :: 0 <= i < 14 ==> ms[i] == SuccessMessages[i];
  }

  /** The last notification carries the final result, which, being a
      non-empty dict, survives `data or {}`. */
  lemma LastNoticeCarriesResult(brief: Json, review: Json, final: Json)
    requires final.JObj? && final.fields != []
    ensures SuccessNotices(brief, review, final)[13].data == final
  {
  }

  lemma Phase1Completes(ws: Option<Socket>, agents: Agents, prompt: string, w: World)
    requires Phase1(ws, agents, prompt, w).Done?
    ensures var r := Phase1(ws, agents, prompt, w);
      && agents(Pm, PmContext(prompt)).Success? && r.v == agents(Pm, PmContext(prompt)).value.output
      && r.w.state == w.state["project_brief" := r.v]
      && r.w.calls == w.calls + [Invocation(Pm, PmContext(prompt))]
      && r.w.notices == w.notices + Pair(1, DataOr(Some(r.v)))
  {
  }

  lemma Phase2Completes(ws: Option<Socket>, agents: Agents, brief: Json, w: World)
    requires Phase2(ws, agents, brief, w).Done?
    ensures var r := Phase2(ws, agents, brief, w);
      && agents(Ui, BriefContext(brief)).Success? && r.v.0 == agents(Ui, BriefContext(brief)).value.output
      && agents(Backend, BriefContext(brief)).Success? && r.v.1 == agents(Backend, BriefContext(brief)).value.output
      && r.w.state == w.state["design_spec" := r.v.0]["backend_design" := r.v.1]
      && r.w.calls == w.calls + [Invocation(Ui, BriefContext(brief)), Invocation(Backend, BriefContext(brief))]
      && r.w.notices == w.notices + Pair(2, JObj([]))
  {
  }

  lemma Phase3Completes(ws: Option<Socket>, agents: Agents, brief: Json, design: Json, w: World)
    requires Phase3(ws, agents, brief, design, w).Done?
    ensures var r, c := Phase3(ws, agents, brief, design, w), BuildContext(brief, design);
      && agents(Frontend, c).Success? && r.v.0 == agents(Frontend, c).value.output
      && agents(Writer, c).Success? && r.v.1 == agents(Writer, c).value.output
      && r.w.state == w.state["frontend_code" := r.v.0]["content" := r.v.1]
      && r.w.calls == w.calls + [Invocation(Frontend, c), Invocation(Writer, c)]
      && r.w.notices == w.notices + Pair(3, JObj([]))
  {
  }

  lemma Phase4Completes(ws: Option<Socket>, w: World)
    requires Phase4(ws, w).Done?
    ensures var r := Phase4(ws, w);
      && r.w.state == w.state && r.w.calls == w.calls
      && r.w.notices == w.notices + Pair(4, JObj([]))
  {
  }

  lemma Phase5Completes(ws: Option<Socket>, agents: Agents, frontend: Json, backend: Json, w: World)
    requires Phase5(ws, agents, frontend, backend, w).Done?
    ensures var r, c := Phase5(ws, agents, frontend, backend, w), ReviewContext(frontend, backend);
      && agents(Reviewer, c).Success? && r.v == agents(Reviewer, c).value.output
      && r.w.state == w.state["review" := r.v]
      && r.w.calls == w.calls + [Invocation(Reviewer, c)]
      && r.w.notices == w.notices + Pair(5, DataOr(Some(r.v)))
  {
  }

  lemma Phase6Completes(ws: Option<Socket>, agents: Agents, brief: Json, w: World)
    requires Phase6(ws, agents, brief, w).Done?
    ensures var r := Phase6(ws, agents, brief, w);
      && agents(Qa, BriefContext(brief)).Success? && r.v == agents(Qa, BriefContext(brief)).value.output
      && r.w.state == w.state["qa" := r.v]
      && r.w.calls == w.calls + [Invocation(Qa, BriefContext(brief))]
      && r.w.notices == w.notices + Pair(6, JObj([]))
  {
  }

  lemma Phase7Completes(ws: Option<Socket>, agents: Agents, projectId: string, frontend: Json, content: Json,
                   review: Json, qa: Json, w: World)
    requires Phase7(ws, agents, projectId, frontend, content, review, qa, w).Done?
    ensures var r, c := Phase7(ws, agents, projectId, frontend, content, review, qa, w), DebugContext(review, frontend);
      && agents(Debugger, c).Success?
      && r.v == FinalOutput(projectId, frontend, content, qa, review, agents(Debugger, c).value.output)
      && r.w.state == w.state["debug" := agents(Debugger, c).value.output]
      && r.w.calls == w.calls + [Invocation(Debugger, c)]
      && r.w.notices == w.notices + Pair(7, DataOr(Some(r.v)))
  {
  }

  /** A successful run means every agent returned on the context the
      workflow means it to get; the run then binds the eight state keys to
      the agents' outputs and returns the result built from them. */
  lemma {:induction false} RunSucceeds(projectId: string, ws: Option<Socket>, agents: Agents, prompt: string, w: World)
    requires Run(projectId, ws, agents, prompt, w).Done?
    ensures Threaded(agents, prompt).Some?
    ensures var o, r := Threaded(agents, prompt).value, Run(projectId, ws, agents, prompt, w);
      && r.v == FinalOutput(projectId, o.frontend, o.writer, o.qa, o.reviewer, o.debugger)
      && r.w.state == Bound(w.state, o)
  {
    var p1 := Phase1(ws, agents, prompt, w);
    Phase1Completes(ws, agents, prompt, w);
    var p2 := Phase2(ws, agents, p1.v, p1.w);
    Phase2Completes(ws, agents, p1.v, p1.w);
    var p3 := Phase3(ws, agents, p1.v, p2.v.0, p2.w);
    Phase3Completes(ws, agents, p1.v, p2.v.0, p2.w);
    var p4 := Phase4(ws, p3.w);
    Phase4Completes(ws, p3.w);
    var p5 := Phase5(ws, agents, p3.v.0, p2.v.1, p4.w);
    Phase5Completes(ws, agents, p3.v.0, p2.v.1, p4.w);
    var p6 := Phase6(ws, agents, p1.v, p5.w);
    Phase6Completes(ws, agents, p1.v, p5.w);
    var p7 := Phase7(ws, agents, projectId, p3.v.0, p3.v.1, p5.v, p6.v, p6.w);
    Phase7Completes(ws, agents, projectId, p3.v.0, p3.v.1, p5.v, p6.v, p6.w);
    assert p7 == Run(projectId, ws, agents, prompt, w);
  }

  /** A successful run calls the eight agents once each, in workflow order,
      each on its intended context. */
  lemma {:induction false} RunCallsThreaded(projectId: string, ws: Option<Socket>, agents: Agents, prompt: string, w: World)
    requires Run(projectId, ws, agents, prompt, w).Done?
    ensures Threaded(agents, prompt).Some?
    ensures var o, r := Threaded(agents, prompt).value, Run(projectId, ws, agents, prompt, w);
      r.w.calls == w.calls + ExpectedCalls(prompt, o)
  {
    var p1 := Phase1(ws, agents, prompt, w);
    Phase1Completes(ws, agents, prompt, w);
    var p2 := Phase2(ws, agents, p1.v, p1.w);
    Phase2Completes(ws, agents, p1.v, p1.w);
    var p3 := Phase3(ws, agents, p1.v, p2.v.0, p2.w);
    Phase3Completes(ws, agents, p1.v, p2.v.0, p2.w);
    var p4 := Phase4(ws, p3.w);
    Phase4Completes(ws, p3.w);
    var p5 := Phase5(ws, agents, p3.v.0, p2.v.1, p4.w);
    Phase5Completes(ws, agents, p3.v.0, p2.v.1, p4.w);
    var p6 := Phase6(ws, agents, p1.v, p5.w);
    Phase6Completes(ws, agents, p1.v, p5.w);
    var p7 := Phase7(ws, agents, projectId, p3.v.0, p3.v.1, p5.v, p6.v, p6.w);
    Phase7Completes(ws, agents, projectId, p3.v.0, p3.v.1, p5.v, p6.v, p6.w);
    assert p7 == Run(projectId, ws, agents, prompt, w);
    var c7 := DebugContext(p5.v, p3.v.0);
    ThreadedFrom(agents, prompt, Outputs(p1.v, p2.v.0, p2.v.1, p3.v.0, p3.v.1, p5.v, p6.v, agents(Debugger, c7).value.output));
    var xs := ExpectedCalls(prompt, Threaded(agents, prompt).value);
    assert p7.w.calls == w.calls + [xs[0]] + [xs[1], xs[2]] + [xs[3], xs[4]] + [] + [xs[5]] + [xs[6]] + [xs[7]];
    AppendSeven(w.calls, [xs[0]], [xs[1], xs[2]], [xs[3], xs[4]], [], [xs[5]], [xs[6]], [xs[7]]);
  }

  /** The outputs are threaded exactly when each agent, given its
      predecessors' outputs, returned the output listed. */
  lemma ThreadedFrom(agents: Agents, prompt: string, o: Outputs)
    requires agents(Pm, PmContext(prompt)).Success? && agents(Pm, PmContext(prompt)).value.output == o.pm
    requires agents(Ui, BriefContext(o.pm)).Success? && agents(Ui, BriefContext(o.pm)).value.output == o.ui
    requires agents(Backend, BriefContext(o.pm)).Success? && agents(Backend, BriefContext(o.pm)).value.output == o.backend
    requires agents(Frontend, BuildContext(o.pm, o.ui)).Success? && agents(Frontend, BuildContext(o.pm, o.ui)).value.output == o.frontend
    requires agents(Writer, BuildContext(o.pm, o.ui)).Success? && agents(Writer, BuildContext(o.pm, o.ui)).value.output == o.writer
    requires agents(Reviewer, ReviewContext(o.frontend, o.backend)).Success?
    requires agents(Reviewer, ReviewContext(o.frontend, o.backend)).value.output == o.reviewer
    requires agents(Qa, BriefContext(o.pm)).Success? && agents(Qa, BriefContext(o.pm)).value.output == o.qa
    requires agents(Debugger, DebugContext(o.reviewer, o.frontend)).Success?
    requires agents(Debugger, DebugContext(o.reviewer, o.frontend)).value.output == o.debugger
    ensures Threaded(agents, prompt) == Some(o)
  {
  }

  /** A successful run sends the fourteen notifications of phases 1 to 7. */
  lemma AppendSeven<T>(w: seq<T>, a: seq<T>, b: seq<T>, c: seq<T>, d: seq<T>, e: seq<T>, f: seq<T>, g: seq<T>)
    ensures w + a + b + c + d + e + f + g == w + (a + b + c + d + e + f + g)
  {
  }

  lemma {:induction false} RunNotifies(projectId: string, ws: Option<Socket>, agents: Agents, prompt: string, w: World)
    requires Run(projectId, ws, agents, prompt, w).Done?
    ensures Threaded(agents, prompt).Some?
    ensures var o, r := Threaded(agents, prompt).value, Run(projectId, ws, agents, prompt, w);
      r.w.notices == w.notices + SuccessNotices(o.pm, o.reviewer, r.v)
  {
    var p1 := Phase1(ws, agents, prompt, w);
    Phase1Completes(ws, agents, prompt, w);
    var p2 := Phase2(ws, agents, p1.v, p1.w);
    Phase2Completes(ws, agents, p1.v, p1.w);
    var p3 := Phase3(ws, agents, p1.v, p2.v.0, p2.w);
    Phase3Completes(ws, agents, p1.v, p2.v.0, p2.w);
    var p4 := Phase4(ws, p3.w);
    Phase4Completes(ws, p3.w);
    var p5 := Phase5(ws, agents, p3.v.0, p2.v.1, p4.w);
    Phase5Completes(ws, agents, p3.v.0, p2.v.1, p4.w);
    var p6 := Phase6(ws, agents, p1.v, p5.w);
    Phase6Completes(ws, agents, p1.v, p5.w);
    var p7 := Phase7(ws, agents, projectId, p3.v.0, p3.v.1, p5.v, p6.v, p6.w);
    Phase7Completes(ws, agents, projectId, p3.v.0, p3.v.1, p5.v, p6.v, p6.w);
    var ps := [Pair(1, DataOr(Some(p1.v))), Pair(2, JObj([])), Pair(3, JObj([])), Pair(4, JObj([])),
               Pair(5, DataOr(Some(p5.v))), Pair(6, JObj([])), Pair(7, DataOr(Some(p7.v)))];
    assert p7.w.notices == w.notices + ps[0] + ps[1] + ps[2] + ps[3] + ps[4] + ps[5] + ps[6];
    AppendSeven(w.notices, ps[0], ps[1], ps[2], ps[3], ps[4], ps[5], ps[6]);
    assert p7 == Run(projectId, ws, agents, prompt, w);
  }

  // ------------------------------------------------------- a run that raises

  /** A failed run: the `except` block adds exactly one notification, of
      phase 0 with the exception's text, and re-raises; when that send itself
      raises, nothing is added and its exception propagates instead. State
      and agent calls are those the `try` block left. */
  lemma RunAnnouncesFailure(projectId: string, ws: Option<Socket>, agents: Agents, prompt: string, w: World)
    requires Run(projectId, ws, agents, prompt, w).Raised?
    ensures Phases(projectId, ws, agents, prompt, w).Raised?
    ensures var p, r := Phases(projectId, ws, agents, prompt, w), Run(projectId, ws, agents, prompt, w);
      && r.w.state == p.w.state && r.w.calls == p.w.calls
      && (ws.None? || ws.value(p.w.sends).None? ==>
            r.w.notices == p.w.notices + [Notification(0, ErrorMessage(p.e), JObj([]))] && r.e == p.e)
      && (ws.Some? && ws.value(p.w.sends).Some? ==>
            r.w.notices == p.w.notices && r.e == ws.value(p.w.sends).value)
  {
  }

  /** The agents each phase calls. */
  function PhaseAgents(k: int): seq<AgentKey> {
    match k
    case 1 => [Pm]
    case 2 => [Ui, Backend]
    case 3 => [Frontend, Writer]
    case 4 => []
    case 5 => [Reviewer]
    case 6 => [Qa]
    case _ => [Debugger]
  }

  /** The state keys each phase writes. */
  function PhaseKeys(k: int): set<string> {
    match k
    case 1 => {"project_brief"}
    case 2 => {"design_spec", "backend_design"}
    case 3 => {"frontend_code", "content"}
    case 4 => {}
    case 5 => {"review"}
    case 6 => {"qa"}
    case _ => {"debug"}
  }

  /** How many agents the phases before phase k call. */
  function CallsBefore(k: nat): nat {
    match k
    case 0 => 0
    case 1 => 0
    case 2 => 1
    case 3 => 3
    case 4 => 5
    case 5 => 5
    case 6 => 6
    case 7 => 7
    case _ => 8
  }

  /** Phase k's slice of the successful run's tags and agent order. */
  lemma PhaseSlices(k: nat)
    requires 1 <= k <= 7
    ensures SuccessTags[..2 * k - 1] == SuccessTags[..2 * k - 2] + [k]
    ensures SuccessTags[..2 * k] == SuccessTags[..2 * k - 2] + [k, k]
    ensures AgentOrder[..CallsBefore(k + 1)] == AgentOrder[..CallsBefore(k)] + PhaseAgents(k)
  {
    if k == 1 {
    } else if k == 2 {
    } else if k == 3 {
    } else if k == 4 {
    } else if k == 5 {
    } else if k == 6 {
    } else {
    }
  }

  /** The keys phases 1 to k write. */
  function KeysThrough(k: nat): set<string>
    requires k <= 7
  {
    if k == 0 then {} else KeysThrough(k - 1) + PhaseKeys(k)
  }

  /** `w` continues `w0`: notifications and calls were only appended. */
  ghost predicate Extends(w0: World, w: World) {
    && |w0.notices| <= |w.notices| && w.notices[..|w0.notices|] == w0.notices
    && |w0.calls| <= |w.calls| && w.calls[..|w0.calls|] == w0.calls
  }

  function NewTags(w0: World, w: World): seq<int>
    requires |w0.notices| <= |w.notices|
  {
    Tags(w.notices[|w0.notices|..])
  }

  function NewAgents(w0: World, w: World): seq<AgentKey>
    requires |w0.calls| <= |w.calls|
  {
    CalledAgents(w.calls[|w0.calls|..])
  }

  /** From `w0` to `w`, phases 1 to k ran to completion and nothing else happened. */
  ghost predicate Through(k: nat, w0: World, w: World)
    requires k <= 7
  {
    && Extends(w0, w)
    && NewTags(w0, w) == SuccessTags[..2 * k]
    && NewAgents(w0, w) == AgentOrder[..CallsBefore(k + 1)]
    && w.state.Keys == w0.state.Keys + KeysThrough(k)
  }

  /** From `w0` to `w`, phases before k completed and phase k raised: at most
      its start notification went out, its agents were all called or none
      was, and its keys were all written or none was. */
  ghost predicate StoppedIn(k: nat, w0: World, w: World)
    requires 1 <= k <= 7
  {
    && Extends(w0, w)
    && (NewTags(w0, w) == SuccessTags[..2 * k - 2] || NewTags(w0, w) == SuccessTags[..2 * k - 1])
    && (NewAgents(w0, w) == AgentOrder[..CallsBefore(k)] || NewAgents(w0, w) == AgentOrder[..CallsBefore(k + 1)])
    && (w.state.Keys == w0.state.Keys + KeysThrough(k - 1) || w.state.Keys == w0.state.Keys + KeysThrough(k))
  }

  lemma TagsAppend(a: seq<Notification>, b: seq<Notification>)
    ensures Tags(a + b) == Tags(a) + Tags(b)
  {
    assert forall i :: 0 <= i < |a + b| ==> Tags(a + b)[i] == (Tags(a) + Tags(b))[i];
  }

  lemma CalledAgentsAppend(a: seq<Invocation>, b: seq<Invocation>)
    ensures CalledAgents(a + b) == CalledAgents(a) + CalledAgents(b)
  {
    assert forall i :: 0 <= i < |a + b| ==> CalledAgents(a + b)[i] == (CalledAgents(a) + CalledAgents(b))[i];
  }

  lemma ThroughNothing(w: World)
    ensures Through(0, w, w)
  {
    assert w.notices[|w.notices|..] == [];
    assert w.calls[|w.calls|..] == [];
  }

  lemma NoticesGrow(n0: seq<Notification>, n1: seq<Notification>, added: seq<Notification>)
    requires |n0| <= |n1| && n1[..|n0|] == n0
    ensures (n1 + added)[..|n0|] == n0
    ensures Tags((n1 + added)[|n0|..]) == Tags(n1[|n0|..]) + Tags(added)
  {
    assert (n1 + added)[|n0|..] == n1[|n0|..] + added;
    TagsAppend(n1[|n0|..], added);
  }

  lemma CallsGrow(c0: seq<Invocation>, c1: seq<Invocation>, added: seq<Invocation>)
    requires |c0| <= |c1| && c1[..|c0|] == c0
    ensures (c1 + added)[..|c0|] == c0
    ensures CalledAgents((c1 + added)[|c0|..]) == CalledAgents(c1[|c0|..]) + CalledAgents(added)
  {
    assert (c1 + added)[|c0|..] == c1[|c0|..] + added;
    CalledAgentsAppend(c1[|c0|..], added);
  }

  /** Appending a completed phase k to a run through phase k - 1. */
  lemma {:induction false} StepDone(k: nat, w0: World, w1: World, w2: World, data: Json, cs: seq<Invocation>)
    requires 1 <= k <= 7 && Through(k - 1, w0, w1)
    requires w2.notices == w1.notices + Pair(k, data)
    requires w2.calls == w1.calls + cs && CalledAgents(cs) == PhaseAgents(k)
    requires w2.state.Keys == w1.state.Keys + PhaseKeys(k)
    ensures Through(k, w0, w2)
  {
    StepDoneNotices(k, w0.notices, w1.notices, data);
    StepDoneCalls(k, w0.calls, w1.calls, cs);
    assert w2.state.Keys == w0.state.Keys + KeysThrough(k);
  }

  lemma StepDoneNotices(k: nat, n0: seq<Notification>, n1: seq<Notification>, data: Json)
    requires 1 <= k <= 7
    requires |n0| <= |n1| && n1[..|n0|] == n0 && Tags(n1[|n0|..]) == SuccessTags[..2 * k - 2]
    ensures (n1 + Pair(k, data))[..|n0|] == n0
    ensures Tags((n1 + Pair(k, data))[|n0|..]) == SuccessTags[..2 * k]
  {
    PhaseSlices(k);
    NoticesGrow(n0, n1, Pair(k, data));
    assert Tags(Pair(k, data)) == [k, k];
  }

  lemma StepDoneCalls(k: nat, c0: seq<Invocation>, c1: seq<Invocation>, cs: seq<Invocation>)
    requires 1 <= k <= 7 && CalledAgents(cs) == PhaseAgents(k)
    requires |c0| <= |c1| && c1[..|c0|] == c0 && CalledAgents(c1[|c0|..]) == AgentOrder[..CallsBefore(k)]
    ensures (c1 + cs)[..|c0|] == c0
    ensures CalledAgents((c1 + cs)[|c0|..]) == AgentOrder[..CallsBefore(k + 1)]
  {
    PhaseSlices(k);
    CallsGrow(c0, c1, cs);
  }

  /** Phase k raising after a run through phase k - 1. */
  lemma {:induction false} StepRaised(k: nat, w0: World, w1: World, w2: World, cs: seq<Invocation>)
    requires 1 <= k <= 7 && Through(k - 1, w0, w1)
    requires w2.notices == w1.notices || w2.notices == w1.notices + [Notification(k, StartMessage(k), JObj([]))]
    requires w2.calls == w1.calls || (w2.calls == w1.calls + cs && CalledAgents(cs) == PhaseAgents(k))
    requires w2.state.Keys == w1.state.Keys || w2.state.Keys == w1.state.Keys + PhaseKeys(k)
    ensures StoppedIn(k, w0, w2)
  {
    PhaseSlices(k);
    if w2.notices != w1.notices {
      NoticesGrow(w0.notices, w1.notices, [Notification(k, StartMessage(k), JObj([]))]);
    }
    if w2.calls != w1.calls {
      CallsGrow(w0.calls, w1.calls, cs);
    }
  }

  lemma Phase1Raises(ws: Option<Socket>, agents: Agents, prompt: string, w: World)
    requires Phase1(ws, agents, prompt, w).Raised?
    ensures var r := Phase1(ws, agents, prompt, w);
      && (r.w.notices == w.notices || r.w.notices == w.notices + [Notification(1, StartMessage(1), JObj([]))])
      && (r.w.calls == w.calls || r.w.calls == w.calls + [Invocation(Pm, PmContext(prompt))])
      && (r.w.state.Keys == w.state.Keys || r.w.state.Keys == w.state.Keys + PhaseKeys(1))
  {
  }

  lemma Phase2Raises(ws: Option<Socket>, agents: Agents, brief: Json, w: World)
    requires Phase2(ws, agents, brief, w).Raised?
    ensures var r := Phase2(ws, agents, brief, w);
      && (r.w.notices == w.notices || r.w.notices == w.notices + [Notification(2, StartMessage(2), JObj([]))])
      && (r.w.calls == w.calls || r.w.calls == w.calls + [Invocation(Ui, BriefContext(brief)), Invocation(Backend, BriefContext(brief))])
      && (r.w.state.Keys == w.state.Keys || r.w.state.Keys == w.state.Keys + PhaseKeys(2))
  {
  }

  lemma Phase3Raises(ws: Option<Socket>, agents: Agents, brief: Json, design: Json, w: World)
    requires Phase3(ws, agents, brief, design, w).Raised?
    ensures var r := Phase3(ws, agents, brief, design, w);
      && (r.w.notices == w.notices || r.w.notices == w.notices + [Notification(3, StartMessage(3), JObj([]))])
      && (r.w.calls == w.calls || r.w.calls == w.calls + [Invocation(Frontend, BuildContext(brief, design)), Invocation(Writer, BuildContext(brief, design))])
      && (r.w.state.Keys == w.state.Keys || r.w.state.Keys == w.state.Keys + PhaseKeys(3))
  {
  }

  lemma Phase4Raises(ws: Option<Socket>, w: World)
    requires Phase4(ws, w).Raised?
    ensures var r := Phase4(ws, w);
      && (r.w.notices == w.notices || r.w.notices == w.notices + [Notification(4, StartMessage(4), JObj([]))])
      && (r.w.calls == w.calls || r.w.calls == w.calls + [])
      && (r.w.state.Keys == w.state.Keys || r.w.state.Keys == w.state.Keys + PhaseKeys(4))
  {
  }

  lemma Phase5Raises(ws: Option<Socket>, agents: Agents, frontend: Json, backend: Json, w: World)
    requires Phase5(ws, agents, frontend, backend, w).Raised?
    ensures var r := Phase5(ws, agents, frontend, backend, w);
      && (r.w.notices == w.notices || r.w.notices == w.notices + [Notification(5, StartMessage(5), JObj([]))])
      && (r.w.calls == w.calls || r.w.calls == w.calls + [Invocation(Reviewer, ReviewContext(frontend, backend))])
      && (r.w.state.Keys == w.state.Keys || r.w.state.Keys == w.state.Keys + PhaseKeys(5))
  {
  }

  lemma Phase6Raises(ws: Option<Socket>, agents: Agents, brief: Json, w: World)
    requires Phase6(ws, agents, brief, w).Raised?
    ensures var r := Phase6(ws, agents, brief, w);
      && (r.w.notices == w.notices || r.w.notices == w.notices + [Notification(6, StartMessage(6), JObj([]))])
      && (r.w.calls == w.calls || r.w.calls == w.calls + [Invocation(Qa, BriefContext(brief))])
      && (r.w.state.Keys == w.state.Keys || r.w.state.Keys == w.state.Keys + PhaseKeys(6))
  {
  }

  lemma Phase7Raises(ws: Option<Socket>, agents: Agents, projectId: string, frontend: Json, content: Json,
                   review: Json, qa: Json, w: World)
    requires Phase7(ws, agents, projectId, frontend, content, review, qa, w).Raised?
    ensures var r := Phase7(ws, agents, projectId, frontend, content, review, qa, w);
      && (r.w.notices == w.notices || r.w.notices == w.notices + [Notification(7, StartMessage(7), JObj([]))])
      && (r.w.calls == w.calls || r.w.calls == w.calls + [Invocation(Debugger, DebugContext(review, frontend))])
      && (r.w.state.Keys == w.state.Keys || r.w.state.Keys == w.state.Keys + PhaseKeys(7))
  {
  }

  /** A `try` block that raises stops in some phase k: the notifications
      sent are those of a successful run cut before phase k's completion,
      the agents called are those of the phases before k, plus all or none
      of phase k's, and the keys written are those of the phases before k,
      plus all or none of phase k's. In particular no later phase runs, the
      keys of completed phases stay, and phases 2 and 3 write both of their
      keys or neither. */
  lemma {:induction false} PhasesStopEarly(projectId: string, ws: Option<Socket>, agents: Agents, prompt: string, w: World)
    requires Phases(projectId, ws, agents, prompt, w).Raised?
    ensures exists k :: 1 <= k <= 7 && StoppedIn(k, w, Phases(projectId, ws, agents, prompt, w).w)
  {
    ThroughNothing(w);
    var p1 := Phase1(ws, agents, prompt, w);
    var c1 := [Invocation(Pm, PmContext(prompt))];
    if p1.Raised? {
      Phase1Raises(ws, agents, prompt, w);
      StepRaised(1, w, w, p1.w, c1);
      assert StoppedIn(1, w, p1.w);
    } else {
      Phase1Completes(ws, agents, prompt, w);
      StepDone(1, w, w, p1.w, DataOr(Some(p1.v)), c1);
      StopFrom2(projectId, ws, agents, p1.v, w, p1.w);
    }
  }

  lemma {:induction false} StopFrom2(projectId: string, ws: Option<Socket>, agents: Agents, brief: Json, w0: World, w: World)
    requires Through(1, w0, w) && FromPhase2(projectId, ws, agents, brief, w).Raised?
    ensures exists k :: 1 <= k <= 7 && StoppedIn(k, w0, FromPhase2(projectId, ws, agents, brief, w).w)
  {
    var p2 := Phase2(ws, agents, brief, w);
    var c2 := [Invocation(Ui, BriefContext(brief)), Invocation(Backend, BriefContext(brief))];
    if p2.Raised? {
      Phase2Raises(ws, agents, brief, w);
      StepRaised(2, w0, w, p2.w, c2);
      assert StoppedIn(2, w0, p2.w);
    } else {
      Phase2Completes(ws, agents, brief, w);
      StepDone(2, w0, w, p2.w, JObj([]), c2);
      StopFrom3(projectId, ws, agents, brief, p2.v.0, p2.v.1, w0, p2.w);
    }
  }

  lemma {:induction false} StopFrom3(projectId: string, ws: Option<Socket>, agents: Agents, brief: Json, design: Json,
                                     backend: Json, w0: World, w: World)
    requires Through(2, w0, w) && FromPhase3(projectId, ws, agents, brief, design, backend, w).Raised?
    ensures exists k :: 1 <= k <= 7 && StoppedIn(k, w0, FromPhase3(projectId, ws, agents, brief, design, backend, w).w)
  {
    var p3 := Phase3(ws, agents, brief, design, w);
    var c3 := [Invocation(Frontend, BuildContext(brief, design)), Invocation(Writer, BuildContext(brief, design))];
    if p3.Raised? {
      Phase3Raises(ws, agents, brief, design, w);
      StepRaised(3, w0, w, p3.w, c3);
      assert StoppedIn(3, w0, p3.w);
    } else {
      Phase3Completes(ws, agents, brief, design, w);
      StepDone(3, w0, w, p3.w, JObj([]), c3);
      StopFrom4(projectId, ws, agents, brief, backend, p3.v.0, p3.v.1, w0, p3.w);
    }
  }

  lemma {:induction false} StopFrom4(projectId: string, ws: Option<Socket>, agents: Agents, brief: Json, backend: Json,
                                     frontend: Json, content: Json, w0: World, w: World)
    requires Through(3, w0, w) && FromPhase4(projectId, ws, agents, brief, backend, frontend, content, w).Raised?
    ensures exists k :: 1 <= k <= 7 && StoppedIn(k, w0, FromPhase4(projectId, ws, agents, brief, backend, frontend, content, w).w)
  {
    var p4 := Phase4(ws, w);
    if p4.Raised? {
      Phase4Raises(ws, w);
      StepRaised(4, w0, w, p4.w, []);
      assert StoppedIn(4, w0, p4.w);
    } else {
      Phase4Completes(ws, w);
      StepDone(4, w0, w, p4.w, JObj([]), []);
      StopFrom5(projectId, ws, agents, brief, backend, frontend, content, w0, p4.w);
    }
  }

  lemma {:induction false} StopFrom5(projectId: string, ws: Option<Socket>, agents: Agents, brief: Json, backend: Json,
                                     frontend: Json, content: Json, w0: World, w: World)
    requires Through(4, w0, w) && FromPhase5(projectId, ws, agents, brief, backend, frontend, content, w).Raised?
    ensures exists k :: 1 <= k <= 7 && StoppedIn(k, w0, FromPhase5(projectId, ws, agents, brief, backend, frontend, content, w).w)
  {
    var p5 := Phase5(ws, agents, frontend, backend, w);
    var c5 := [Invocation(Reviewer, ReviewContext(frontend, backend))];
    if p5.Raised? {
      Phase5Raises(ws, agents, frontend, backend, w);
      StepRaised(5, w0, w, p5.w, c5);
      assert StoppedIn(5, w0, p5.w);
    } else {
      Phase5Completes(ws, agents, frontend, backend, w);
      StepDone(5, w0, w, p5.w, DataOr(Some(p5.v)), c5);
      StopFrom6(projectId, ws, agents, brief, frontend, content, p5.v, w0, p5.w);
    }
  }

  lemma {:induction false} StopFrom6(projectId: string, ws: Option<Socket>, agents: Agents, brief: Json, frontend: Json,
                                     content: Json, review: Json, w0: World, w: World)
    requires Through(5, w0, w) && FromPhase6(projectId, ws, agents, brief, frontend, content, review, w).Raised?
    ensures exists k :: 1 <= k <= 7 && StoppedIn(k, w0, FromPhase6(projectId, ws, agents, brief, frontend, content, review, w).w)
  {
    var p6 := Phase6(ws, agents, brief, w);
    var c6 := [Invocation(Qa, BriefContext(brief))];
    if p6.Raised? {
      Phase6Raises(ws, agents, brief, w);
      StepRaised(6, w0, w, p6.w, c6);
      assert StoppedIn(6, w0, p6.w);
    } else {
      Phase6Completes(ws, agents, brief, w);
      StepDone(6, w0, w, p6.w, JObj([]), c6);
      var p7 := Phase7(ws, agents, projectId, frontend, content, review, p6.v, p6.w);
      Phase7Raises(ws, agents, projectId, frontend, content, review, p6.v, p6.w);
      StepRaised(7, w0, p6.w, p7.w, [Invocation(Debugger, DebugContext(review, frontend))]);
      assert StoppedIn(7, w0, p7.w);
    }
  }

  // ------------------------------------------------------------- the socket

  /** Without a socket `notify` cannot raise: the notification is only
      printed, and no send is attempted. */
  lemma NotifyWithoutSocket(w: World, phase: int, message: string, data: Option<Json>)
    ensures Emit(None, w, phase, message, data) == Done(w.(notices := w.notices + [Notification(phase, message, DataOr(data))]), ())
  {
  }

  /** `data or {}`: a missing or falsy payload goes out as an empty dict. */
  lemma MissingDataIsEmptyDict(data: Option<Json>)
    ensures data.None? ==> DataOr(data) == JObj([])
    ensures data.Some? && !Truthy(data.value) ==> DataOr(data) == JObj([])
    ensures data.Some? && Truthy(data.value) ==> DataOr(data) == data.value
  {
  }

  /** Without a socket, a run raises exactly when one of the agents raises. */
  lemma {:induction false} RunWithoutSocket(projectId: string, agents: Agents, prompt: string, w: World)
    ensures Run(projectId, None, agents, prompt, w).Done? <==> Threaded(agents, prompt).Some?
  {
    if Run(projectId, None, agents, prompt, w).Done? {
      RunSucceeds(projectId, None, agents, prompt, w);
    }
  }

  /** A failing first send aborts the run before any agent is called; the
      phase-0 announcement is the next send, and if it goes out it carries
      the send's own error text. */
  lemma FirstSendFails(projectId: string, ws: Option<Socket>, agents: Agents, prompt: string, w: World)
    requires ws.Some? && ws.value(w.sends).Some? && ws.value(w.sends + 1).None?
    ensures var r, e := Run(projectId, ws, agents, prompt, w), ws.value(w.sends).value;
      && r == Raised(w.(sends := w.sends + 2, notices := w.notices + [Notification(0, ErrorMessage(e), JObj([]))]), e)
  {
  }

  /** `RealTeamOrchestrator`. */
  class RealTeamOrchestrator {
    const projectId: string
    const ws: Option<Socket>
    const agents: Agents
    var workflowState: map<string, Json>
    /** The notifications sent (or, without a socket, printed). */
    var notices: seq<Notification>
    /** How many sends the socket has been asked for. */
    var sends: nat
    ghost var calls: seq<Invocation>

    ghost function Snapshot(): World
      reads this
    {
      World(workflowState, notices, sends, calls)
    }

    /** The method's outcome and the object's new state are those of the step. */
    ghost predicate Follows<T>(r: Result<T, Exception>, s: Step<T>)
      reads this
    {
      s.w == Snapshot() && (if s.Done? then r == Success(s.v) else r == Failure(s.e))
    }

    constructor (projectId: string, ws: Option<Socket>, agents: Agents)
      ensures this.projectId == projectId && this.ws == ws && this.agents == agents
      ensures workflowState == map[] && notices == [] && sends == 0 && calls == []
    {
      this.projectId := projectId;
      this.ws := ws;
      this.agents := agents;
      workflowState := map[];
      notices := [];
      sends := 0;
      calls := [];
    }

    method Notify(phase: int, message: string, data: Option<Json>) returns (r: Result<(), Exception>)
      modifies this`notices, this`sends
      ensures Follows(r, Emit(ws, old(Snapshot()), phase, message, data))
    {
      var n := Notification(phase, message, DataOr(data));
      if ws.Some? {
        var outcome := ws.value(sends);
        sends := sends + 1;
        if outcome.Some? {
          return Failure(outcome.value);
        }
      }
      notices := notices + [n];
      r := Success(());
    }

    method Call(key: AgentKey, ctx: Context) returns (r: Result<Json, Exception>)
      modifies this`calls
      ensures Follows(r, Invoke(agents, old(Snapshot()), key, ctx))
    {
      calls := calls + [Invocation(key, ctx)];
      var res := agents(key, ctx);
      r := if res.Success? then Success(res.value.output) else Failure(res.error);
    }

    method GatherPair(k1: AgentKey, c1: Context, k2: AgentKey, c2: Context) returns (r: Result<(Json, Json), Exception>)
      modifies this`calls
      ensures Follows(r, Gather(agents, old(Snapshot()), k1, c1, k2, c2))
    {
      calls := calls + [Invocation(k1, c1), Invocation(k2, c2)];
      var r1 := agents(k1, c1);
      var r2 := agents(k2, c2);
      if r1.Failure? {
        r := Failure(r1.error);
      } else if r2.Failure? {
        r := Failure(r2.error);
      } else {
        r := Success((r1.value.output, r2.value.output));
      }
    }

    method RunPhase1(prompt: string) returns (r: Result<Json, Exception>)
      modifies this
      ensures Follows(r, Phase1(ws, agents, prompt, old(Snapshot())))
    {
      var s := Notify(1, Phase1Start, None);
      if s.Failure? { return Failure(s.error); }
      var pm := Call(Pm, PmContext(prompt));
      if pm.Failure? { return Failure(pm.error); }
      workflowState := workflowState["project_brief" := pm.value];
      var c := Notify(1, Phase1Done, Some(pm.value));
      if c.Failure? { return Failure(c.error); }
      r := Success(pm.value);
    }

    method RunPhase2(brief: Json) returns (r: Result<(Json, Json), Exception>)
      modifies this
      ensures Follows(r, Phase2(ws, agents, brief, old(Snapshot())))
    {
      var s := Notify(2, Phase2Start, None);
      if s.Failure? { return Failure(s.error); }
      var g := GatherPair(Ui, BriefContext(brief), Backend, BriefContext(brief));
      if g.Failure? { return Failure(g.error); }
      workflowState := workflowState["design_spec" := g.value.0];
      workflowState := workflowState["backend_design" := g.value.1];
      var c := Notify(2, Phase2Done, None);
      if c.Failure? { return Failure(c.error); }
      r := Success(g.value);
    }

    method RunPhase3(brief: Json, design: Json) returns (r: Result<(Json, Json), Exception>)
      modifies this
      ensures Follows(r, Phase3(ws, agents, brief, design, old(Snapshot())))
    {
      var s := Notify(3, Phase3Start, None);
      if s.Failure? { return Failure(s.error); }
      var g := GatherPair(Frontend, BuildContext(brief, design), Writer, BuildContext(brief, design));
      if g.Failure? { return Failure(g.error); }
      workflowState := workflowState["frontend_code" := g.value.0];
      workflowState := workflowState["content" := g.value.1];
      var c := Notify(3, Phase3Done, None);
      if c.Failure? { return Failure(c.error); }
      r := Success(g.value);
    }

    method RunPhase4() returns (r: Result<(), Exception>)
      modifies this
      ensures Follows(r, Phase4(ws, old(Snapshot())))
    {
      var s := Notify(4, Phase4Start, None);
      if s.Failure? { return Failure(s.error); }
      r := Notify(4, Phase4Done, None);
    }

    method RunPhase5(frontend: Json, backend: Json) returns (r: Result<Json, Exception>)
      modifies this
      ensures Follows(r, Phase5(ws, agents, frontend, backend, old(Snapshot())))
    {
      var s := Notify(5, Phase5Start, None);
      if s.Failure? { return Failure(s.error); }
      var rv := Call(Reviewer, ReviewContext(frontend, backend));
      if rv.Failure? { return Failure(rv.error); }
      workflowState := workflowState["review" := rv.value];
      var c := Notify(5, Phase5Done, Some(rv.value));
      if c.Failure? { return Failure(c.error); }
      r := Success(rv.value);
    }

    method RunPhase6(brief: Json) returns (r: Result<Json, Exception>)
      modifies this
      ensures Follows(r, Phase6(ws, agents, brief, old(Snapshot())))
    {
      var s := Notify(6, Phase6Start, None);
      if s.Failure? { return Failure(s.error); }
      var qa := Call(Qa, BriefContext(brief));
      if qa.Failure? { return Failure(qa.error); }
      workflowState := workflowState["qa" := qa.value];
      var c := Notify(6, Phase6Done, None);
      if c.Failure? { return Failure(c.error); }
      r := Success(qa.value);
    }

    method RunPhase7(frontend: Json, content: Json, review: Json, qa: Json) returns (r: Result<Json, Exception>)
      modifies this
      ensures Follows(r, Phase7(ws, agents, projectId, frontend, content, review, qa, old(Snapshot())))
    {
      var s := Notify(7, Phase7Start, None);
      if s.Failure? { return Failure(s.error); }
      var dbg := Call(Debugger, DebugContext(review, frontend));
      if dbg.Failure? { return Failure(dbg.error); }
      workflowState := workflowState["debug" := dbg.value];
      var final := FinalOutput(projectId, frontend, content, qa, review, dbg.value);
      var c := Notify(7, Phase7Done, Some(final));
      if c.Failure? { return Failure(c.error); }
      r := Success(final);
    }

    method RunPhases(prompt: string) returns (r: Result<Json, Exception>)
      modifies this
      ensures Follows(r, Phases(projectId, ws, agents, prompt, old(Snapshot())))
    {
      var brief := RunPhase1(prompt);
      if brief.Failure? { return Failure(brief.error); }
      var p2 := RunPhase2(brief.value);
      if p2.Failure? { return Failure(p2.error); }
      var p3 := RunPhase3(brief.value, p2.value.0);
      if p3.Failure? { return Failure(p3.error); }
      var p4 := RunPhase4();
      if p4.Failure? { return Failure(p4.error); }
      var review := RunPhase5(p3.value.0, p2.value.1);
      if review.Failure? { return Failure(review.error); }
      var qa := RunPhase6(brief.value);
      if qa.Failure? { return Failure(qa.error); }
      r := RunPhase7(p3.value.0, p3.value.1, review.value, qa.value);
    }

    /** `start_project`. */
    method StartProject(prompt: string) returns (r: Result<Json, Exception>)
      modifies this
      ensures Follows(r, Run(projectId, ws, agents, prompt, old(Snapshot())))
    {
      r := RunPhases(prompt);
      if r.Failure? {
        var announced := Notify(0, ErrorMessage(r.error), None);
        if announced.Failure? {
          r := Failure(announced.error);
        }
      }
    }
  }
}
