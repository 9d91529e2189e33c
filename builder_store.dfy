/** The front end's builder store (frontend/src/store/builderStore.ts, types
    from frontend/src/types/agent.ts): workflow progress, one status card per
    agent, the generated page and the project's identity, changed only
    through the store's actions. */
module Store {
  import opened Results
  import opened Json

  datatype AgentRole = Pm | Ui | Frontend | Backend | Writer | Reviewer | Qa | Debugger

  /** `AgentStatus`; `'error'` is `Errored`. */
  datatype AgentStatus = Idle | Working | Completed | Errored

  datatype Agent = Agent(name: string, role: AgentRole, status: AgentStatus, progress: int, message: string, output: Option<Json>)

  /** `Partial<Agent>`: the fields the update carries. */
  datatype AgentUpdate = AgentUpdate(
    name: Option<string>,
    role: Option<AgentRole>,
    status: Option<AgentStatus>,
    progress: Option<int>,
    message: Option<string>,
    output: Option<Json>)

  const NoChange := AgentUpdate(None, None, None, None, None, None)

  function Pick<T>(given: Option<T>, current: T): T {
    if given.Some? then given.value else current
  }

  function PickOpt<T>(given: Option<T>, current: Option<T>): Option<T> {
    if given.Some? then given else current
  }

  /** `{ ...agent, ...update }`. */
  function Merge(a: Agent, u: AgentUpdate): Agent {
    Agent(Pick(u.name, a.name), Pick(u.role, a.role), Pick(u.status, a.status),
          Pick(u.progress, a.progress), Pick(u.message, a.message), PickOpt(u.output, a.output))
  }

  /** Two updates applied one after the other, as one update. */
  function Then(first: AgentUpdate, second: AgentUpdate): AgentUpdate {
    AgentUpdate(PickOpt(second.name, first.name), PickOpt(second.role, first.role),
                PickOpt(second.status, first.status), PickOpt(second.progress, first.progress),
                PickOpt(second.message, first.message), PickOpt(second.output, first.output))
  }

  /** A field present in the update is overwritten; every other field keeps
      its value. */
  lemma MergeFields(a: Agent, u: AgentUpdate)
    ensures Merge(a, u).status == (if u.status.Some? then u.status.value else a.status)
    ensures Merge(a, u).progress == (if u.progress.Some? then u.progress.value else a.progress)
    ensures Merge(a, u).message == (if u.message.Some? then u.message.value else a.message)
    ensures u == NoChange ==> Merge(a, u) == a
  {
  }

  /** Successive updates of one card merge like one combined update. */
  lemma MergeThen(a: Agent, first: AgentUpdate, second: AgentUpdate)
    ensures Merge(Merge(a, first), second) == Merge(a, Then(first, second))
  {
  }

  datatype GeneratedCode = GeneratedCode(html: string, css: string, js: string)

  const EmptyCode := GeneratedCode("", "", "")

  /** `Record<AgentRole, Agent>` holds a card for every role. */
  predicate EveryRole(agents: map<AgentRole, Agent>) {
    forall r: AgentRole :: r in agents
  }

  function Card(name: string, role: AgentRole): Agent {
    Agent(name, role, Idle, 0, "", None)
  }

  const InitialAgents: map<AgentRole, Agent> := map[
    Pm := Card("Project Manager", Pm),
    Ui := Card("UI/UX Designer", Ui),
    Frontend := Card("Frontend Dev", Frontend),
    Backend := Card("Backend Dev", Backend),
    Writer := Card("Content Writer", Writer),
    Reviewer := Card("Code Reviewer", Reviewer),
    Qa := Card("QA Tester", Qa),
    Debugger := Card("Debugger", Debugger)]

  /** Every role starts with an idle card of its own role, no progress and
      no message. */
  lemma InitialAgentsIdle()
    ensures EveryRole(InitialAgents)
    ensures forall r: AgentRole :: r in InitialAgents ==>
      var a := InitialAgents[r];
      a.role == r && a.status == Idle && a.progress == 0 && a.message == "" && a.output.None?
  {
    forall r: AgentRole ensures r in InitialAgents && InitialAgents[r].role == r && InitialAgents[r].status == Idle {
      match r
      case Pm =>
      case Ui =>
      case Frontend =>
      case Backend =>
      case Writer =>
      case Reviewer =>
      case Qa =>
      case Debugger =>
    }
  }

  /** `BuilderState` without its actions, with the actions as functions. */
  datatype BuilderState = BuilderState(
    currentPhase: int,
    totalPhases: int,
    isGenerating: bool,
    agents: map<AgentRole, Agent>,
    generatedCode: GeneratedCode,
    projectId: Option<string>,
    projectName: string)
  {
    function SetPhase(phase: int): BuilderState {
      this.(currentPhase := phase)
    }

    function UpdateAgent(role: AgentRole, update: AgentUpdate): BuilderState
      requires role in agents
    {
      this.(agents := agents[role := Merge(agents[role], update)])
    }

    function SetGeneratedCode(code: GeneratedCode): BuilderState {
      this.(generatedCode := code)
    }

    function SetGenerating(generating: bool): BuilderState {
      this.(isGenerating := generating)
    }

    function SetProjectId(id: string): BuilderState {
      this.(projectId := Some(id))
    }

    function Reset(): BuilderState {
      this.(currentPhase := 0, isGenerating := false, agents := InitialAgents, generatedCode := EmptyCode, projectId := None)
    }
  }

  const Initial := BuilderState(0, 7, false, InitialAgents, EmptyCode, None, "Untitled Project")

  /** `updateAgent` changes the one card, and in it only the fields the
      update carries; every other card and every other field of the store
      is as before. */
  lemma UpdateAgentFrame(s: BuilderState, role: AgentRole, u: AgentUpdate)
    requires role in s.agents
    ensures s.UpdateAgent(role, u).agents.Keys == s.agents.Keys
    ensures s.UpdateAgent(role, u).agents[role] == Merge(s.agents[role], u)
    ensures forall r :: r in s.agents && r != role ==> s.UpdateAgent(role, u).agents[r] == s.agents[r]
    ensures s.UpdateAgent(role, u).(agents := s.agents) == s
  {
  }

  /** `reset` brings back the initial values of five fields and keeps the
      phase count and the project name. */
  lemma ResetRestores(s: BuilderState)
    ensures s.Reset() == Initial.(totalPhases := s.totalPhases, projectName := s.projectName)
    ensures s.Reset().Reset() == s.Reset()
  {
  }

  /** One call of an action. */
  datatype Action =
    | Phase(phase: int)
    | Update(role: AgentRole, update: AgentUpdate)
    | Code(code: GeneratedCode)
    | Generating(generating: bool)
    | ProjectId(id: string)
    | ResetAll

  function Apply(s: BuilderState, a: Action): BuilderState
    requires EveryRole(s.agents)
  {
    match a
    case Phase(p) => s.SetPhase(p)
    case Update(r, u) => s.UpdateAgent(r, u)
    case Code(c) => s.SetGeneratedCode(c)
    case Generating(g) => s.SetGenerating(g)
    case ProjectId(id) => s.SetProjectId(id)
    case ResetAll => s.Reset()
  }

  /** The store after a series of actions; the result keeps a card for
      every role, so every `updateAgent` finds its card. */
  function ApplyAll(s: BuilderState, actions: seq<Action>): (r: BuilderState)
    requires EveryRole(s.agents)
    ensures EveryRole(r.agents)
  {
    if actions == [] then s
    else
      var t := ApplyAll(s, actions[..|actions| - 1]);
      InitialAgentsIdle();
      Apply(t, actions[|actions| - 1])
  }

  /** No action changes the phase count or the project name. */
  lemma {:induction false} NameAndTotalFixed(s: BuilderState, actions: seq<Action>)
    requires EveryRole(s.agents)
    ensures ApplyAll(s, actions).totalPhases == s.totalPhases
    ensures ApplyAll(s, actions).projectName == s.projectName
  {
    if actions != [] {
      NameAndTotalFixed(s, actions[..|actions| - 1]);
    }
  }

  /** Whatever happened before, `reset` leads to the same store. */
  lemma ResetForgets(s: BuilderState, actions: seq<Action>)
    requires EveryRole(s.agents)
    ensures ApplyAll(s, actions).Reset() == s.Reset()
  {
    NameAndTotalFixed(s, actions);
  }

  /** `useBuilderStore`: the store's fields, updated in place by its actions. */
  class BuilderStore {
    var currentPhase: int
    var totalPhases: int
    var isGenerating: bool
    var agents: map<AgentRole, Agent>
    var generatedCode: GeneratedCode
    var projectId: Option<string>
    var projectName: string

    function State(): BuilderState
      reads this
    {
      BuilderState(currentPhase, totalPhases, isGenerating, agents, generatedCode, projectId, projectName)
    }

    ghost predicate Valid()
      reads this
    {
      EveryRole(agents)
    }

    constructor ()
      ensures State() == Initial && Valid()
    {
      currentPhase := 0;
      totalPhases := 7;
      isGenerating := false;
      agents := InitialAgents;
      generatedCode := EmptyCode;
      projectId := None;
      projectName := "Untitled Project";
      InitialAgentsIdle();
    }

    method SetPhase(phase: int)
      requires Valid()
      modifies this
      ensures State() == old(State()).SetPhase(phase) && Valid()
    {
      currentPhase := phase;
    }

    method UpdateAgent(role: AgentRole, update: AgentUpdate)
      requires Valid()
      modifies this
      ensures State() == old(State()).UpdateAgent(role, update) && Valid()
    {
      agents := agents[role := Merge(agents[role], update)];
    }

    method SetGeneratedCode(code: GeneratedCode)
      requires Valid()
      modifies this
      ensures State() == old(State()).SetGeneratedCode(code) && Valid()
    {
      generatedCode := code;
    }

    method SetGenerating(generating: bool)
      requires Valid()
      modifies this
      ensures State() == old(State()).SetGenerating(generating) && Valid()
    {
      isGenerating := generating;
    }

    method SetProjectId(id: string)
      requires Valid()
      modifies this
      ensures State() == old(State()).SetProjectId(id) && Valid()
    {
      projectId := Some(id);
    }

    method Reset()
      requires Valid()
      modifies this
      ensures State() == old(State()).Reset() && Valid()
    {
      currentPhase := 0;
      isGenerating := false;
      agents := InitialAgents;
      generatedCode := EmptyCode;
      projectId := None;
      InitialAgentsIdle();
    }
  }
}
