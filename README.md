# FABRI8 agent workflow in Dafny

FABRI8 turns a one-line website idea into a project through a team of AI
agents. This project models the core of that workflow in three parts.

- **The Python back end.** `RealTeamOrchestrator.start_project` runs a
  seven-phase workflow over eight role agents: project manager, UI designer,
  frontend and backend developers, content writer, code reviewer, QA tester
  and debugger. Phases 2 and 3 run two agents side by side. Every phase
  announces its start and its end over an optional web socket. Each outcome
  is recorded in a workflow-state dictionary. Any exception is announced as
  phase 0 and raised again. Each role agent builds a prompt from its context
  and asks the model through `BaseAgent.call_ai`. It cuts the first `{` to the
  last `}` out of the reply and decodes that. When decoding fails, it falls
  back to a fixed default. It then logs a count and returns
  `{agent, role, output, status: 'completed'}`.
- **The TypeScript variant.**
  - A `StateManager` keeps the project record and writes it to disk after
    every save. A failed write is only logged.
  - An `Orchestrator` chains the agents over that record.
  - A `BaseAgent` adds an optional context to every task.
  - The `llm-client` sends one chat request. In JSON mode it also strips
    Markdown fences and white space before decoding.
  - The reviewer shows the model the first 500 characters of every
    front-end file.
- **The front-end builder store** (Zustand). It holds the workflow progress
  and one status card per agent. It also holds the generated page, the
  project id and the project name. Only its actions change it.

The model follows each file's own form:

- Pure code is written as datatypes and functions, with lemmas about them.
  This covers the role agents, the LLM client, the prompts and the store's
  actions.
- Objects whose fields change are written as classes. Each method states its
  new state as a specification function applied to the old state:
  - `PyOrchestrator.RealTeamOrchestrator`;
  - `TsStateManager.StateManager`;
  - `TsOrchestrator.Orchestrator`;
  - `Store.BuilderStore`.
- The AI service, the socket, the prompt files and `json.loads` /
  `JSON.parse` are parameters:
  - the AI service is a response value, or a `Client` function;
  - the socket is a script saying which send fails, and with which
    exception;
  - the prompt files are a `Files` function;
  - the decoder is a `Parser` function.
- Lemmas that need a real decoder rely only on what RFC 8259 fixes: the empty
  text and `}` do not decode, and a text that starts with `{` decodes to an
  object, if it decodes at all.

## Model

| member | source | states |
|---|---|---|
| Json.Lookup | backend/app/agents/roles/project_manager.py:74 | a key is found iff some field carries it, and the value found is the one of its last binding, as `json.loads` keeps the last duplicate |
| Json.Keys | backend/app/agents/roles/project_manager.py:74 | the key set of an object: exactly the keys Lookup finds, no more of them than fields |
| Json.DistinctKeysCount | backend/app/agents/roles/project_manager.py:74 | with distinct keys, an object has as many keys as fields |
| Json.LookupDistinct | backend/app/agents/roles/ui_designer.py:64-79 | in an object literal with distinct keys, each key reads back its own value |
| Json.NatToString | backend/app/agents/roles/code_reviewer.py:38-40 | a size is written as a non-empty string of decimal digits that spells that size, with no leading zero |
| Python.Find | backend/app/agents/roles/project_manager.py:59 | `str.find`: -1 iff the character is absent, else the first index holding it |
| Python.RFind | backend/app/agents/roles/project_manager.py:60 | `str.rfind`: -1 iff absent, else the last index holding it |
| Python.SliceBound | backend/app/agents/roles/project_manager.py:65 | a slice bound, negative counting from the end, clamped into the string |
| Python.Slice | backend/app/agents/roles/project_manager.py:61 | `s[start:stop]` is `s[start..stop]` for in-range bounds, and empty when the normalised bounds cross |
| Python.StripLeft | backend/app/agents/base_agent.py:39 | the result is a suffix with no leading white space, and only white space was removed |
| Python.StripRight | backend/app/agents/base_agent.py:39 | the result is a prefix with no trailing white space, and only white space was removed |
| Python.Len | backend/app/agents/roles/project_manager.py:74 | `len` succeeds exactly on strings, lists and dicts, giving their size; a dict counts each key once (the dict `json.loads` builds), which is its field count when keys are distinct; on anything else it raises TypeError |
| Python.Head | backend/app/agents/roles/debugger.py:38 | `xs[:n]` on a string or list is its first min(n, len) elements; on other types it raises TypeError (as CPython up to 3.11 does for a dict) |
| Python.DictGet | backend/app/agents/roles/project_manager.py:74 | `.get` on a dict gives the bound value or the default; on other types it raises AttributeError |
| Python.GetItem | backend/app/agents/base_agent.py:91 | subscripting gives the bound field or the item, negative indices counting from the end; a missing key raises KeyError, an index out of range IndexError, a string index into a list or any subscript of None, a bool or a number TypeError |
| Python.In | backend/app/agents/base_agent.py:90 | `in` tests a dict's keys, a list's elements and a string's substrings; it raises TypeError exactly on None, booleans and numbers |
| Python.ContextGet | backend/app/agents/roles/project_manager.py:29 | `context.get(key, default)`: the bound value, or the default when the key is missing |
| BaseAgent.Agent.constructor | backend/app/agents/base_agent.py:15-42 | name, role and model are set; the system prompt is the stripped prompt file, or the default sentence when the file is missing |
| BaseAgent.PromptPath | backend/app/agents/base_agent.py:36 | the prompt file is `ai/prompts/`, then the role, then `_prompt.txt` |
| BaseAgent.LoadSystemPrompt | backend/app/agents/base_agent.py:29-42 | the stripped file text, or `You are a {name}. Perform your role professionally.` when the file is missing; the constructor's contract states this for every agent |
| BaseAgent.CallAiRequest | backend/app/agents/base_agent.py:62-88 | two messages, system prompt then user prompt; the model is a non-empty override, else the agent's own; the temperature is passed through |
| BaseAgent.ExtractContent | backend/app/agents/base_agent.py:90-92 | a falsy response, or one where `'choices' in response` is false, gives the empty string; a dict whose `choices[0].message.content` exists gives that content; it raises exactly when the response is truthy, `in` does not say no, and that path does not exist |
| BaseAgent.FirstChoiceIsReply | backend/app/agents/base_agent.py:90-91 | a response whose `choices` lists a first message with content yields that content, whatever other fields it has |
| BaseAgent.CandidateSpan | backend/app/agents/roles/project_manager.py:59-61 | with a `{` before a `}`, the candidate runs from the first `{` to the last `}`; without one it is empty or a lone `}` |
| BaseAgent.Candidate | backend/app/agents/roles/project_manager.py:59-61 | the slice `response[find('{') : rfind('}') + 1]`; CandidateSpan states what it yields in the braced and the unbraced case |
| BaseAgent.UnbracedFallsBack | backend/app/agents/roles/project_manager.py:59-63 | a reply without a `{ ... }` span never decodes, so the agent falls back |
| BaseAgent.ErrorResponseContent | backend/app/services/ai_service.py:67-72 | the service's error response yields "Error generating content" as the reply |
| BaseAgent.TransportFailureFallsBack | backend/app/services/ai_service.py:67-72 | a failed HTTP call gives a reply that never decodes, so every role falls back |
| BaseAgent.ErrorContentUnbraced | backend/app/services/ai_service.py:71 | the error text contains no `{` |
| BaseAgent.ParsedIsObject | backend/app/agents/roles/project_manager.py:59-61 | whatever decodes from the candidate is a JSON object |
| BaseAgent.ParseReply | backend/app/agents/roles/project_manager.py:57-63 | the `try` block: the decoded candidate of a string reply, and nothing for a reply that is not a string; UnbracedFallsBack and ParsedIsObject state what it can yield |
| BaseAgent.ParseOrFallback | backend/app/agents/roles/project_manager.py:57-72 | the decoded object when decoding succeeds, the fallback otherwise |
| BaseAgent.LogCount | backend/app/agents/roles/project_manager.py:74 | the logged count exists iff the output is a dict and the value under the key (default `[]`) has a length |
| ProjectManager.New | backend/app/agents/roles/project_manager.py:15-19 | a project-manager instance whose prompt is loaded from its role file |
| ProjectManager.Request | backend/app/agents/roles/project_manager.py:29-55 | the call the manager makes: the prompt from `context.get('prompt', '')` at temperature 0.5; MissingPromptIsEmpty states the empty-prompt case |
| ProjectManager.Fallback | backend/app/agents/roles/project_manager.py:64-72 | the default brief built from the prompt; FallbackFacts states its summary, features and metrics |
| ProjectManager.Execute | backend/app/agents/roles/project_manager.py:25-81 | succeeds iff the prompt builds, the reply extracts, the decoded reply or fallback is available and `len(key_features)` in the log line succeeds; then this agent and role, completed, with the decoded or the fallback brief |
| ProjectManager.FallbackFacts | backend/app/agents/roles/project_manager.py:63-72 | the fallback brief has distinct keys, the first 100 characters of the prompt as summary, and three features and three metrics |
| ProjectManager.DecodedBriefCompletes | backend/app/agents/roles/project_manager.py:57-81 | a reply that decodes to a dict whose key_features is absent or a list completes, with the decoded brief as output |
| ProjectManager.UndecodableReplyCompletes | backend/app/agents/roles/project_manager.py:57-81 | an undecodable reply still completes, with the fallback brief as output |
| ProjectManager.TransportFailureCompletes | backend/app/services/ai_service.py:67-72 | when the service fails, the manager completes with the fallback brief |
| ProjectManager.MissingPromptIsEmpty | backend/app/agents/roles/project_manager.py:29 | without a prompt the user prompt is "", and so is the fallback summary |
| ProjectManager.NumericFeaturesRaise | backend/app/agents/roles/project_manager.py:74 | a decoded brief whose key_features is a number makes the log line raise TypeError |
| UiDesigner.New | backend/app/agents/roles/ui_designer.py:15-19 | a UI-designer instance whose prompt is loaded from its role file |
| UiDesigner.Request | backend/app/agents/roles/ui_designer.py:29-57 | the call the designer makes from the brief's `.get` values at temperature 0.8; MissingBriefIsEmpty states the missing-brief case |
| UiDesigner.Execute | backend/app/agents/roles/ui_designer.py:25-88 | succeeds iff the prompt builds, the reply extracts, the decoded reply or fallback is available and `len(components)` in the log line succeeds; then this agent and role, completed, with the decoded or the fallback design |
| UiDesigner.FallbackFacts | backend/app/agents/roles/ui_designer.py:64-79 | the fallback design's components, its three colours and its three breakpoints |
| UiDesigner.UndecodableReplyCompletes | backend/app/agents/roles/ui_designer.py:60-88 | an undecodable reply completes with the fallback design |
| UiDesigner.MissingBriefIsEmpty | backend/app/agents/roles/ui_designer.py:29-57 | without a brief the prompt is built from empty strings at temperature 0.8 |
| BackendDeveloper.New | backend/app/agents/roles/backend_developer.py:15-19 | a backend-developer instance whose prompt is loaded from its role file |
| BackendDeveloper.Request | backend/app/agents/roles/backend_developer.py:29-51 | the call made from the brief's summary at temperature 0.5; MissingBriefIsEmpty and NonDictBriefRaises state its cases |
| BackendDeveloper.Execute | backend/app/agents/roles/backend_developer.py:25-83 | succeeds iff the prompt builds, the reply extracts, the decoded reply or fallback is available and `len(api_endpoints)` in the log line succeeds; then this agent and role, completed, with the decoded or the fallback architecture |
| BackendDeveloper.FallbackFacts | backend/app/agents/roles/backend_developer.py:58-74 | the fallback has a User and a Project model, one GET /api/projects endpoint, JWT authentication and the two validation rules (email validation, required fields check) |
| BackendDeveloper.FallbackEndpointCount | backend/app/agents/roles/backend_developer.py:76 | the log line counts one endpoint for the fallback |
| BackendDeveloper.UndecodableReplyCompletes | backend/app/agents/roles/backend_developer.py:54-83 | an undecodable reply completes with the fallback architecture |
| BackendDeveloper.MissingBriefIsEmpty | backend/app/agents/roles/backend_developer.py:29-51 | without a brief the prompt is built from an empty summary |
| BackendDeveloper.NonDictBriefRaises | backend/app/agents/roles/backend_developer.py:33 | a brief that is not a dict makes `.get` raise AttributeError |
| ContentWriter.New | backend/app/agents/roles/content_writer.py:15-19 | a content-writer instance whose prompt is loaded from its role file |
| ContentWriter.Request | backend/app/agents/roles/content_writer.py:29-58 | the call made from the brief's summary alone at temperature 0.7; DesignSpecIgnored states that the design never reaches it |
| ContentWriter.Fallback | backend/app/agents/roles/content_writer.py:65-79 | the default copy built from the brief; FallbackFacts states its title, features and buttons |
| ContentWriter.Execute | backend/app/agents/roles/content_writer.py:25-88 | succeeds iff the prompt builds and the reply extracts; then this agent and role, completed, with the decoded or the fallback copy |
| ContentWriter.FallbackFacts | backend/app/agents/roles/content_writer.py:64-79 | the fallback's page title is the brief's summary or "Welcome", with fixed features and buttons |
| ContentWriter.UndecodableReplyCompletes | backend/app/agents/roles/content_writer.py:61-88 | an undecodable reply completes with the fallback built from the brief |
| ContentWriter.DesignSpecIgnored | backend/app/agents/roles/content_writer.py:29-34 | the design spec read from the context never changes the result |
| CodeReviewer.New | backend/app/agents/roles/code_reviewer.py:15-19 | a code-reviewer instance whose prompt is loaded from its role file |
| CodeReviewer.PartSize | backend/app/agents/roles/code_reviewer.py:38-40 | a part's size is defined iff the code is a dict; a missing part counts 0 and a string counts its length |
| CodeReviewer.Request | backend/app/agents/roles/code_reviewer.py:29-57 | the call made from the three part sizes at temperature 0.4; OnlySizesReachModel and MissingFrontendIsEmpty state what reaches it |
| CodeReviewer.Execute | backend/app/agents/roles/code_reviewer.py:25-88 | succeeds iff the prompt builds, the reply extracts, the decoded reply or fallback is available and `len(issues)` in the log line succeeds; then this agent and role, completed, with the decoded or the fallback review |
| CodeReviewer.FallbackFacts | backend/app/agents/roles/code_reviewer.py:63-79 | the fallback review has one low-severity CSS issue and score 8 |
| CodeReviewer.UndecodableReplyCompletes | backend/app/agents/roles/code_reviewer.py:60-88 | an undecodable reply completes with the fallback review |
| CodeReviewer.OnlySizesReachModel | backend/app/agents/roles/code_reviewer.py:34-57 | two front ends with the same html, css and js sizes give the same request |
| CodeReviewer.BackendCodeIgnored | backend/app/agents/roles/code_reviewer.py:29-30 | the back-end code never changes the result |
| CodeReviewer.MissingFrontendIsEmpty | backend/app/agents/roles/code_reviewer.py:29-57 | without front-end code the prompt reports three zero sizes |
| QaTester.New | backend/app/agents/roles/qa_tester.py:15-19 | a QA-tester instance whose prompt is loaded from its role file |
| QaTester.Request | backend/app/agents/roles/qa_tester.py:29-57 | the call made from the brief's summary at temperature 0.5 |
| QaTester.ScenarioCount | backend/app/agents/roles/qa_tester.py:84 | the scenario count is defined iff the plan is a dict; for a dict with distinct keys it is the sum of its list lengths plus 1 for each other value; anything else raises AttributeError |
| QaTester.DistinctSumsAll | backend/app/agents/roles/qa_tester.py:84 | for distinct keys, summing over the fields equals summing over the dict's keys |
| QaTester.Execute | backend/app/agents/roles/qa_tester.py:25-91 | on success: this agent and role, completed, with a dict as the test plan |
| QaTester.FallbackFacts | backend/app/agents/roles/qa_tester.py:63-82 | the fallback plan has eight sections and counts 20 scenarios |
| QaTester.UndecodableReplyCompletes | backend/app/agents/roles/qa_tester.py:60-91 | an undecodable reply completes with the fallback plan |
| QaTester.DecodedPlanCompletes | backend/app/agents/roles/qa_tester.py:60-91 | with a conforming decoder, the tester always completes once the request builds and the reply extracts |
| Debugger.New | backend/app/agents/roles/debugger.py:15-19 | a debugger instance whose prompt is loaded from its role file |
| Debugger.ShownIssues | backend/app/agents/roles/debugger.py:38 | the issues shown are a prefix of at most three of the review's issues; none when there are no issues |
| Debugger.Request | backend/app/agents/roles/debugger.py:29-51 | the call made from the first three issues at temperature 0.4; OnlyFirstIssuesReachModel and MissingReviewIsEmpty state what reaches it |
| Debugger.Execute | backend/app/agents/roles/debugger.py:25-86 | succeeds iff the prompt builds, the reply extracts, the decoded reply or fallback is available and `len(fixes)` in the log line succeeds; then this agent and role, completed, with the decoded or the fallback fixes |
| Debugger.FallbackFacts | backend/app/agents/roles/debugger.py:57-77 | the fallback has one fix for missing error handling and three tips of each kind |
| Debugger.UndecodableReplyCompletes | backend/app/agents/roles/debugger.py:54-86 | an undecodable reply completes with the fallback fixes |
| Debugger.OnlyFirstIssuesReachModel | backend/app/agents/roles/debugger.py:34-51 | any two reviews whose first min(3, len) issues agree give the same request, whatever their lengths |
| Debugger.FrontendCodeIgnored | backend/app/agents/roles/debugger.py:29-30 | the front-end code never changes the result |
| Debugger.MissingReviewIsEmpty | backend/app/agents/roles/debugger.py:29-51 | without a review, the prompt shows an empty issue list |
| Debugger.IssuesDictRaises | backend/app/agents/roles/debugger.py:38 | issues given as a dict make the slice raise TypeError (CPython up to 3.11) |
| PyOrchestrator.Phase4 | backend/app/agents/orchestrator.py:96-98 | the integration phase only notifies: it leaves the workflow state and the agent calls as they were |
| PyOrchestrator.Emit | backend/app/agents/orchestrator.py:41-49 | `notify`: state and calls unchanged; a send is attempted iff there is a socket; it returns iff there is no socket or that send succeeds, and then the notice `(phase, message, data or {})` is appended; a failed send raises its own exception and records no notice |
| PyOrchestrator.Phase1 | backend/app/agents/orchestrator.py:60-63 | phase 1 as a step on the run's world; Phase1Completes and Phase1Raises state its two outcomes |
| PyOrchestrator.Phase2 | backend/app/agents/orchestrator.py:66-77 | phase 2, with both keys written after the gather; Phase2Completes and Phase2Raises state its two outcomes |
| PyOrchestrator.Phase3 | backend/app/agents/orchestrator.py:80-93 | phase 3, with both keys written after the gather; Phase3Completes and Phase3Raises state its two outcomes |
| PyOrchestrator.Phase5 | backend/app/agents/orchestrator.py:101-107 | phase 5; Phase5Completes and Phase5Raises state its two outcomes |
| PyOrchestrator.Phase6 | backend/app/agents/orchestrator.py:110-115 | phase 6; Phase6Completes and Phase6Raises state its two outcomes |
| PyOrchestrator.Phase7 | backend/app/agents/orchestrator.py:118-136 | phase 7 and the final output; Phase7Completes and Phase7Raises state its two outcomes |
| PyOrchestrator.Phases | backend/app/agents/orchestrator.py:55-138 | the body of the `try` block, phase after phase; RunSucceeds, RunCallsThreaded, RunNotifies and PhasesStopEarly state what it does |
| PyOrchestrator.Run | backend/app/agents/orchestrator.py:51-144 | `start_project` with its `except` block; RunSucceeds and RunAnnouncesFailure state its two outcomes |
| PyOrchestrator.ExpectedCallsInOrder | backend/app/agents/orchestrator.py:61-122 | a successful run calls pm, ui, backend, frontend, writer, reviewer, qa and debugger, in this order |
| PyOrchestrator.SuccessTagsInOrder | backend/app/agents/orchestrator.py:60-136 | the notices of a successful run carry the phases 1,1,2,2,…,7,7 |
| PyOrchestrator.SuccessMessagesInOrder | backend/app/agents/orchestrator.py:60-136 | and the start and end message of each phase, in order |
| PyOrchestrator.LastNoticeCarriesResult | backend/app/agents/orchestrator.py:136 | the last notice carries the final output |
| PyOrchestrator.Phase1Completes | backend/app/agents/orchestrator.py:60-63 | the manager succeeded, its output is stored as project_brief and sent with the end notice |
| PyOrchestrator.Phase2Completes | backend/app/agents/orchestrator.py:66-77 | UI designer and backend developer both succeeded; design_spec and backend_design are stored |
| PyOrchestrator.Phase3Completes | backend/app/agents/orchestrator.py:80-93 | frontend developer and writer both succeeded; frontend_code and content are stored |
| PyOrchestrator.Phase4Completes | backend/app/agents/orchestrator.py:96-98 | two notices and nothing else |
| PyOrchestrator.Phase5Completes | backend/app/agents/orchestrator.py:101-107 | the reviewer succeeded on both codes; review is stored and sent with the end notice |
| PyOrchestrator.Phase6Completes | backend/app/agents/orchestrator.py:110-115 | the tester succeeded on the brief; qa is stored |
| PyOrchestrator.Phase7Completes | backend/app/agents/orchestrator.py:118-136 | the debugger succeeded; debug is stored; the final output is built and sent with the last notice |
| PyOrchestrator.Phase1Raises | backend/app/agents/orchestrator.py:60-63 | a failing phase 1 adds at most its start notice, its call and its key |
| PyOrchestrator.Phase2Raises | backend/app/agents/orchestrator.py:66-77 | a failing phase 2 adds at most its start notice, its calls and its keys |
| PyOrchestrator.Phase3Raises | backend/app/agents/orchestrator.py:80-93 | a failing phase 3 adds at most its start notice, its calls and its keys |
| PyOrchestrator.Phase4Raises | backend/app/agents/orchestrator.py:96-98 | a failing phase 4 changes no state and calls no agent |
| PyOrchestrator.Phase5Raises | backend/app/agents/orchestrator.py:101-107 | a failing phase 5 adds at most its start notice, its call and its key |
| PyOrchestrator.Phase6Raises | backend/app/agents/orchestrator.py:110-115 | a failing phase 6 adds at most its start notice, its call and its key |
| PyOrchestrator.Phase7Raises | backend/app/agents/orchestrator.py:118-136 | a failing phase 7 adds at most its start notice, its call and its key |
| PyOrchestrator.RunSucceeds | backend/app/agents/orchestrator.py:51-138 | a run that returns had every agent succeed; it returns the final output and stores all eight keys |
| PyOrchestrator.RunCallsThreaded | backend/app/agents/orchestrator.py:61-122 | a successful run makes exactly the expected calls, each agent fed its predecessors' outputs |
| PyOrchestrator.RunNotifies | backend/app/agents/orchestrator.py:60-136 | a successful run sends exactly the fourteen success notices |
| PyOrchestrator.RunAnnouncesFailure | backend/app/agents/orchestrator.py:140-144 | a failed run announces the error as phase 0 and raises it again, unless that notice fails to send, whose exception then propagates |
| PyOrchestrator.PhasesStopEarly | backend/app/agents/orchestrator.py:55-138 | a failing workflow stopped in one of the seven phases, with the earlier phases complete |
| PyOrchestrator.NotifyWithoutSocket | backend/app/agents/orchestrator.py:41-49 | without a socket, a notice is recorded and nothing can fail |
| PyOrchestrator.MissingDataIsEmptyDict | backend/app/agents/orchestrator.py:47 | missing or falsy data goes out as `{}` |
| PyOrchestrator.RunWithoutSocket | backend/app/agents/orchestrator.py:51-144 | without a socket, a run returns iff every agent succeeds |
| PyOrchestrator.FirstSendFails | backend/app/agents/orchestrator.py:60-144 | when the first send fails, no agent runs and that exception is raised after the phase-0 notice |
| PyOrchestrator.RealTeamOrchestrator.constructor | backend/app/agents/orchestrator.py:22-39 | empty workflow state, no notices, no sends, no calls |
| PyOrchestrator.RealTeamOrchestrator.Notify | backend/app/agents/orchestrator.py:41-49 | the object now stands where the notify step leads from its old state |
| PyOrchestrator.RealTeamOrchestrator.Call | backend/app/agents/orchestrator.py:61 | one agent call: the result and the new state follow the call step |
| PyOrchestrator.RealTeamOrchestrator.GatherPair | backend/app/agents/orchestrator.py:67-74 | both calls are made; the first listed failure is reported |
| PyOrchestrator.RealTeamOrchestrator.RunPhase1 | backend/app/agents/orchestrator.py:60-63 | follows phase 1 from the old state |
| PyOrchestrator.RealTeamOrchestrator.RunPhase2 | backend/app/agents/orchestrator.py:66-77 | follows phase 2 from the old state |
| PyOrchestrator.RealTeamOrchestrator.RunPhase3 | backend/app/agents/orchestrator.py:80-93 | follows phase 3 from the old state |
| PyOrchestrator.RealTeamOrchestrator.RunPhase4 | backend/app/agents/orchestrator.py:96-98 | follows phase 4 from the old state |
| PyOrchestrator.RealTeamOrchestrator.RunPhase5 | backend/app/agents/orchestrator.py:101-107 | follows phase 5 from the old state |
| PyOrchestrator.RealTeamOrchestrator.RunPhase6 | backend/app/agents/orchestrator.py:110-115 | follows phase 6 from the old state |
| PyOrchestrator.RealTeamOrchestrator.RunPhase7 | backend/app/agents/orchestrator.py:118-136 | follows phase 7 from the old state |
| PyOrchestrator.RealTeamOrchestrator.RunPhases | backend/app/agents/orchestrator.py:55-138 | follows the seven phases in turn |
| PyOrchestrator.RealTeamOrchestrator.StartProject | backend/app/agents/orchestrator.py:51-144 | follows the whole run, including the phase-0 notice and the re-raise |
| LlmClient.CallAgent | src/lib/llm-client.ts:16-31 | fails iff the client fails, and then with "Failed to get response from Agent"; otherwise it returns the first choice's content, or "" |
| LlmClient.RequestFor | src/lib/llm-client.ts:18-25 | the request `callAgent` sends; RequestDefaults states its defaults and its message order |
| LlmClient.FirstContent | src/lib/llm-client.ts:26 | the first choice's content, or "" when it has none; MissingContentIsEmpty states the empty cases |
| LlmClient.RequestDefaults | src/lib/llm-client.ts:18-25 | two messages, system then user; a missing or empty model becomes the default model and a missing or zero temperature 0.7, any other value is passed through |
| LlmClient.MissingContentIsEmpty | src/lib/llm-client.ts:26 | no choice, or a choice without content, gives "" |
| LlmClient.RemoveAll | src/lib/llm-client.ts:43 | removing a pattern never lengthens the text |
| LlmClient.RemoveAbsent | src/lib/llm-client.ts:43 | a text without the pattern is left as it is |
| LlmClient.KeepsLead | src/lib/llm-client.ts:43 | removal keeps a text's lead character when that character starts no fence |
| LlmClient.FencesGone | src/lib/llm-client.ts:43 | no three-backtick fence is left after the second replace |
| LlmClient.TrimStart | src/lib/llm-client.ts:43 | a suffix of the text that starts with no JS white space, after only white space was dropped |
| LlmClient.TrimEnd | src/lib/llm-client.ts:43 | a prefix that ends with no JS white space, after only white space was dropped |
| LlmClient.SliceHasNoFence | src/lib/llm-client.ts:43 | a slice of a fence-free text is fence-free |
| LlmClient.Clean | src/lib/llm-client.ts:43 | the cleaned reply contains no fence and has no white space at either end |
| LlmClient.CleanIdempotent | src/lib/llm-client.ts:43 | cleaning a cleaned reply changes nothing |
| LlmClient.JsonModeRequest | src/lib/llm-client.ts:34-40 | JSON mode appends the instruction to the system prompt and changes nothing else in the request |
| LlmClient.CallAgentJson | src/lib/llm-client.ts:33-49 | succeeds iff the call succeeds and the cleaned reply decodes, with the decoded value; otherwise it fails with the call's error or "AI did not return valid JSON" |
| LlmClient.BlankReplyIsNotJson | src/lib/llm-client.ts:43-48 | a reply that cleans to nothing fails with "AI did not return valid JSON" |
| TsBaseAgent.FullPrompt | src/core/agents/base-agent.ts:10 | with no context, the bare user prompt; otherwise "Context:\n", the context, then "\n\nTask: " and the user prompt |
| TsBaseAgent.BarePromptIffNoContext | src/core/agents/base-agent.ts:10 | the user prompt is sent alone iff the context is empty |
| TsBaseAgent.Ask | src/core/agents/base-agent.ts:9-17 | `ask`; AskRequest states the request it sends and what it returns |
| TsBaseAgent.AskJson | src/core/agents/base-agent.ts:19-27 | `askJson`; AskJsonRequest states the request it sends and what it returns |
| TsBaseAgent.AskRequest | src/core/agents/base-agent.ts:9-17 | `ask` fails iff the request with the agent's system prompt, the default model and temperature 0.7 fails; otherwise it returns that reply's content |
| TsBaseAgent.AskJsonRequest | src/core/agents/base-agent.ts:19-27 | `askJson` sends the JSON-mode system prompt at temperature 0.2 and returns the decoded clean reply |
| TsReviewer.Segment | src/core/agents/reviewer.ts:18 | one file's segment: its path, its first min(500, length) characters, then "..." always |
| TsReviewer.JoinAppend | src/core/agents/reviewer.ts:18 | joining a longer list adds the separator and the new element at the end |
| TsReviewer.JoinStartsWithHead | src/core/agents/reviewer.ts:18 | a join is at least as long as its first element |
| TsReviewer.Segments | src/core/agents/reviewer.ts:18 | one segment per file, in list order |
| TsReviewer.CodeSummary | src/core/agents/reviewer.ts:18 | the segments joined by line breaks; SummaryAppend and SummaryEmptyIff state its shape |
| TsReviewer.ReviewCode | src/core/agents/reviewer.ts:17-20 | `reviewCode`; ReviewMessage and BackendIgnored state what the model receives |
| TsReviewer.SummaryAppend | src/core/agents/reviewer.ts:18 | the summary is the segments in file order, separated by line breaks |
| TsReviewer.SummaryEmptyIff | src/core/agents/reviewer.ts:18 | the summary is empty iff there are no front-end files |
| TsReviewer.ReviewMessage | src/core/agents/reviewer.ts:17-20 | the user message is the bare task without front-end files, the summary as context otherwise |
| TsReviewer.BackendIgnored | src/core/agents/reviewer.ts:17-20 | the back-end files never change the review |
| TsStateManager.StepAfter | src/core/state-manager.ts:24-44 | after any saves the step is discovery, design or implementation; it stays discovery iff only code was saved |
| TsStateManager.WithBrief | src/core/state-manager.ts:24-26 | the record `saveBrief` leaves before the write; SavesFromInitial and NeverPastImplementation state what saves do |
| TsStateManager.WithDesign | src/core/state-manager.ts:30-32 | the record `saveDesign` leaves before the write; SavesFromInitial states it |
| TsStateManager.WithFrontendCode | src/core/state-manager.ts:36-37 | the record `saveFrontendCode` leaves before the write; CodeSavesCommute states it |
| TsStateManager.WithBackendCode | src/core/state-manager.ts:41-42 | the record `saveBackendCode` leaves before the write; CodeSavesCommute states it |
| TsStateManager.SavesFromInitial | src/core/state-manager.ts:10-44 | from the initial record, every field holds the value of the last save that writes it; the architecture, content and QA report stay empty |
| TsStateManager.NeverPastImplementation | src/core/state-manager.ts:24-34 | no save moves the project past implementation |
| TsStateManager.CodeSavesCommute | src/core/state-manager.ts:36-44 | the two code saves commute, and both together set the code to exactly the two lists |
| TsStateManager.SaveIdempotent | src/core/state-manager.ts:24-44 | repeating a save changes nothing |
| TsStateManager.StateManager.constructor | src/core/state-manager.ts:10-20 | the record starts at discovery with everything empty |
| TsStateManager.StateManager.GetState | src/core/state-manager.ts:22 | returns the current record |
| TsStateManager.StateManager.Persist | src/core/state-manager.ts:46-51 | the file receives the record when the disk accepts writes, otherwise it keeps its old content, and the call returns either way |
| TsStateManager.StateManager.SaveBrief | src/core/state-manager.ts:24-28 | the brief is set, the step becomes design, then the record is written |
| TsStateManager.StateManager.SaveDesign | src/core/state-manager.ts:30-34 | the design is set, the step becomes implementation, then the record is written |
| TsStateManager.StateManager.SaveFrontendCode | src/core/state-manager.ts:36-39 | the front-end files are replaced, then the record is written |
| TsStateManager.StateManager.SaveBackendCode | src/core/state-manager.ts:41-44 | the back-end files are replaced, then the record is written |
| TsOrchestrator.All3 | src/core/orchestrator.ts:34-38 | the three parallel results succeed iff each does, yielding the three values |
| TsOrchestrator.Start | src/core/orchestrator.ts:19-61 | `startProject` on the shared record; StartSucceeds, StateIsSaves and ParallelRejectionKeepsCode state its outcomes |
| TsOrchestrator.StartSucceeds | src/core/orchestrator.ts:19-61 | a run succeeds iff every agent does; it then makes the eleven expected steps, leaves the record at implementation with brief, design and code, and reports completion |
| TsOrchestrator.SavesOf | src/core/orchestrator.ts:19-61 | a run's saves are no more than its steps |
| TsOrchestrator.StateIsSaves | src/core/orchestrator.ts:24-41 | whatever happens, the record is the old record with the run's saves applied in order |
| TsOrchestrator.RunNeverPastImplementation | src/core/orchestrator.ts:19-61 | from a fresh record, a run never moves the project past implementation, although it reports completion |
| TsOrchestrator.ParallelRejectionKeepsCode | src/core/orchestrator.ts:34-41 | when a parallel agent rejects, the run fails, the code is untouched and no code is saved |
| TsOrchestrator.ReviewAndTestSeeSavedCode | src/core/orchestrator.ts:40-49 | the reviewer and the tester receive exactly the code lists that were saved |
| TsOrchestrator.RejectionPassesErrorOn | src/core/orchestrator.ts:19-61 | a rejection reaches the caller unchanged, and a failed run never touches the architecture |
| TsOrchestrator.Orchestrator.constructor | src/core/orchestrator.ts:11-17 | the seven agents it creates (no debugger) and the shared state manager are fixed |
| TsOrchestrator.Orchestrator.StartProject | src/core/orchestrator.ts:19-61 | the result, the steps taken and the record follow the run from the old record; the file last received that record when the brief was saved and the disk accepts writes |
| Store.MergeFields | frontend/src/store/builderStore.ts:59-64 | a field present in the update is overwritten and every other one kept; an empty update changes nothing |
| Store.MergeThen | frontend/src/store/builderStore.ts:59-64 | two successive updates of a card act as one combined update |
| Store.Merge | frontend/src/store/builderStore.ts:62 | `{ ...agent, ...update }`; MergeFields and MergeThen state it |
| Store.InitialAgentsIdle | frontend/src/store/builderStore.ts:37-46 | every role has an idle card of its own role, with no progress, message or output |
| Store.UpdateAgentFrame | frontend/src/store/builderStore.ts:59-64 | `updateAgent` merges into one card and leaves every other card and every other field unchanged |
| Store.BuilderState.SetPhase | frontend/src/store/builderStore.ts:57 | `setPhase` on a store value; BuilderStore.SetPhase follows it |
| Store.BuilderState.UpdateAgent | frontend/src/store/builderStore.ts:59-64 | `updateAgent` on a store value; UpdateAgentFrame states its frame |
| Store.BuilderState.SetGeneratedCode | frontend/src/store/builderStore.ts:66 | `setGeneratedCode` on a store value; BuilderStore.SetGeneratedCode follows it |
| Store.BuilderState.SetGenerating | frontend/src/store/builderStore.ts:68 | `setGenerating` on a store value; BuilderStore.SetGenerating follows it |
| Store.BuilderState.SetProjectId | frontend/src/store/builderStore.ts:70 | `setProjectId` on a store value; BuilderStore.SetProjectId follows it |
| Store.BuilderState.Reset | frontend/src/store/builderStore.ts:72-78 | `reset` on a store value; ResetRestores and ResetForgets state it |
| Store.ResetRestores | frontend/src/store/builderStore.ts:72-78 | `reset` restores five initial fields, keeps the phase count and name, and is idempotent |
| Store.ApplyAll | frontend/src/store/builderStore.ts:57-78 | any sequence of actions keeps a card for every role |
| Store.NameAndTotalFixed | frontend/src/store/builderStore.ts:57-78 | no action changes the phase count or the project name |
| Store.ResetForgets | frontend/src/store/builderStore.ts:72-78 | after any actions, `reset` leads to the same store as a reset of the start |
| Store.BuilderStore.constructor | frontend/src/store/builderStore.ts:48-55 | the initial store: phase 0 of 7, idle cards, empty code, no id, "Untitled Project" |
| Store.BuilderStore.SetPhase | frontend/src/store/builderStore.ts:57 | only the current phase changes |
| Store.BuilderStore.UpdateAgent | frontend/src/store/builderStore.ts:59-64 | the store is the old one with the card merged |
| Store.BuilderStore.SetGeneratedCode | frontend/src/store/builderStore.ts:66 | only the generated code changes |
| Store.BuilderStore.SetGenerating | frontend/src/store/builderStore.ts:68 | only the generating flag changes |
| Store.BuilderStore.SetProjectId | frontend/src/store/builderStore.ts:70 | only the project id changes |
| Store.BuilderStore.Reset | frontend/src/store/builderStore.ts:72-78 | the store is reset as `Reset` states, still with every card |

## Left out

- **Floating point.** Temperatures are tenths (0.5 is 5), and JSON numbers are integers.
- **Text rendering.** Python's `repr`, `str` and `json.dumps` are rendered in a simplified form, and so are the f-string prompts. Only the parts of a prompt that depend on the input are modelled exactly; the fixed wording is not.
- **The AI service.** The HTTP client, its headers, its rate limiter and its retries are not modelled. A reply is a given JSON value or `Client` function. Only the error response from `backend/app/services/ai_service.py:67-72` is written out. A `generate` call that itself raises is outside the role models: for example, `response.json()` on a 2xx body that is not JSON raises a `ValueError` that `backend/app/services/ai_service.py:67` does not catch. Such an exception would leave the role's `execute` and reach the orchestrator as an agent failure.
- Python.Head: a dict sliced as `d[:n]` raises `TypeError("unhashable type: 'slice'")`, as CPython up to 3.11 does. From 3.12 slices are hashable and the same slice raises `KeyError`. The repository names no Python version, so the model follows 3.11. The error text also reaches the phase-0 notice.
- Debugger.IssuesDictRaises: states the CPython 3.11 `TypeError` for `issues[:3]` on a dict. On 3.12 and later the exception kind is `KeyError`.
- **Side effects without state.** `print`, `console.log` / `console.error`, `log_activity` output and `asyncio.sleep` are not modelled. `log_activity` is kept only for the exception its `len(...)` argument can raise.
- **Concurrency.** `asyncio.gather` and `Promise.all` run their calls one after the other. The failure reported is the first failing call in list order, so timing-dependent ordering is not modelled.
- **The socket.** It is a script telling, for each send in order, whether it raises and with which exception.
- **Frontend developer agent.** `frontend_developer.py` is called as an opaque agent, like every role from the orchestrator's side. Its own body is not part of this model.
- **The TypeScript role agents.** The pm, ui-designer, frontend, backend, writer, qa and debugger wrappers are opaque `Team` functions. Their `as T` casts are taken on trust: every agent is taken to return a value of the declared shape. The reviewer is modelled in full in `TsReviewer`.
- **Prompt files.** Any OS error other than a missing file is not modelled.
- **Disk writes.** `persist` succeeds or fails according to a flag fixed for the object's lifetime. The file's JSON encoding is not modelled.
- **`getState`.** It returns a snapshot. The live object it returns could be changed by a later save; that aliasing is not modelled.
- **`substring(0, 500)`.** It counts UTF-16 code units, while this model counts characters.
- **Regular expressions.** The two `replace` calls with global regular expressions are modelled as removing every non-overlapping match, left to right.
- **`Partial<Agent>`.** A field given as explicit `undefined` is treated as absent.
- Store.BuilderStore.UpdateAgent: requires a card for the role. The store always holds one, since every action keeps one, so an update that would create a card from nothing is not modelled.
- **NaN temperature.** The `||` default for a NaN temperature cannot occur with natural-number tenths.
- **Other repository parts.** The HTTP routes, the file manager, the configuration and the React components are not part of this model. Neither are `communication` and `state_manager`, which `backend/app/agents/__init__.py` imports but which are not in the repository.
- TsOrchestrator.Orchestrator.StartProject: the steps it takes are a ghost trace of the agents called and the saves made.

