/** The shared project record of the TypeScript variant
    (src/core/state-manager.ts): four save methods update it in place and
    then write it to project-data.json, where a failed write is only logged. */
module TsStateManager {
  import opened Results
  import opened Json
  import opened TsTypes

  datatype Architecture = Architecture(frontend: Option<Json>, backend: Option<Json>)

  datatype Code = Code(frontend: seq<CodeFile>, backend: seq<CodeFile>)

  /** `ProjectState`. */
  datatype ProjectState = ProjectState(
    step: Step,
    projectBrief: Option<Json>,
    uiDesign: Option<Json>,
    architecture: Architecture,
    code: Code,
    content: map<string, string>,
    qaReport: Option<Json>)

  /** The record the constructor builds. */
  const Initial := ProjectState(Discovery, None, None, Architecture(None, None), Code([], []), map[], None)

  // ------------------------------------------- the saves, on values

  /** `saveBrief` before the write. */
  function WithBrief(s: ProjectState, brief: Json): ProjectState {
    s.(projectBrief := Some(brief), step := Design)
  }

  /** `saveDesign` before the write. */
  function WithDesign(s: ProjectState, design: Json): ProjectState {
    s.(uiDesign := Some(design), step := Implementation)
  }

  /** `saveFrontendCode` before the write. */
  function WithFrontendCode(s: ProjectState, files: seq<CodeFile>): ProjectState {
    s.(code := s.code.(frontend := files))
  }

  /** `saveBackendCode` before the write. */
  function WithBackendCode(s: ProjectState, files: seq<CodeFile>): ProjectState {
    s.(code := s.code.(backend := files))
  }

  /** One call of a save method. */
  datatype Save =
    | BriefSaved(brief: Json)
    | DesignSaved(design: Json)
    | FrontendSaved(frontend: seq<CodeFile>)
    | BackendSaved(backend: seq<CodeFile>)

  function Apply(s: ProjectState, op: Save): ProjectState {
    match op
    case BriefSaved(b) => WithBrief(s, b)
    case DesignSaved(d) => WithDesign(s, d)
    case FrontendSaved(fs) => WithFrontendCode(s, fs)
    case BackendSaved(fs) => WithBackendCode(s, fs)
  }

  /** The record after a series of saves, the last one applied last. */
  function ApplyAll(s: ProjectState, ops: seq<Save>): ProjectState {
    if ops == [] then s else Apply(ApplyAll(s, ops[..|ops| - 1]), ops[|ops| - 1])
  }

  // ------------------------------- what a series of saves leaves behind

  /** The step of the last brief or design save; discovery when there was none. */
  function StepAfter(ops: seq<Save>): (r: Step)
    ensures r == Discovery || r == Design || r == Implementation
    ensures r == Discovery <==> forall i :: 0 <= i < |ops| ==> ops[i].FrontendSaved? || ops[i].BackendSaved?
  {
    if ops == [] then Discovery
    else
      match ops[|ops| - 1]
      case BriefSaved(_) => Design
      case DesignSaved(_) => Implementation
      case _ =>
        var r := StepAfter(ops[..|ops| - 1]);
        assert forall i :: 0 <= i < |ops| - 1 ==> ops[..|ops| - 1][i] == ops[i];
        r
  }

  function LastBrief(ops: seq<Save>): Option<Json> {
    if ops == [] then None
    else if ops[|ops| - 1].BriefSaved? then Some(ops[|ops| - 1].brief)
    else LastBrief(ops[..|ops| - 1])
  }

  function LastDesign(ops: seq<Save>): Option<Json> {
    if ops == [] then None
    else if ops[|ops| - 1].DesignSaved? then Some(ops[|ops| - 1].design)
    else LastDesign(ops[..|ops| - 1])
  }

  function LastFrontend(ops: seq<Save>): seq<CodeFile> {
    if ops == [] then []
    else if ops[|ops| - 1].FrontendSaved? then ops[|ops| - 1].frontend
    else LastFrontend(ops[..|ops| - 1])
  }

  function LastBackend(ops: seq<Save>): seq<CodeFile> {
    if ops == [] then []
    else if ops[|ops| - 1].BackendSaved? then ops[|ops| - 1].backend
    else LastBackend(ops[..|ops| - 1])
  }

  /** From the initial record, any series of saves leaves each field holding
      the value of the last save that writes it; the architecture, the
      content and the QA report are never written. */
  lemma {:induction false} SavesFromInitial(ops: seq<Save>)
    ensures ApplyAll(Initial, ops)
         == ProjectState(StepAfter(ops), LastBrief(ops), LastDesign(ops), Architecture(None, None),
                         Code(LastFrontend(ops), LastBackend(ops)), map[], None)
  {
    if ops != [] {
      SavesFromInitial(ops[..|ops| - 1]);
    }
  }

  /** This class never moves the project to review, testing or completion. */
  lemma NeverPastImplementation(ops: seq<Save>)
    ensures ApplyAll(Initial, ops).step in {Discovery, Design, Implementation}
  {
    SavesFromInitial(ops);
  }

  /** Saving the two code lists in either order gives the same record. */
  lemma CodeSavesCommute(s: ProjectState, frontend: seq<CodeFile>, backend: seq<CodeFile>)
    ensures WithBackendCode(WithFrontendCode(s, frontend), backend) == WithFrontendCode(WithBackendCode(s, backend), frontend)
    ensures WithBackendCode(WithFrontendCode(s, frontend), backend).code == Code(frontend, backend)
  {
  }

  /** Repeating a save changes nothing more. */
  lemma SaveIdempotent(s: ProjectState, op: Save)
    ensures Apply(Apply(s, op), op) == Apply(s, op)
  {
  }

  // ------------------------------------------------------------- the class

  /** `StateManager`. The file is what project-data.json last received;
      whether the disk accepts writes is fixed for the object's lifetime. */
  class StateManager {
    var state: ProjectState
    var file: Option<ProjectState>
    const diskWritable: bool

    constructor (diskWritable: bool, file: Option<ProjectState>)
      ensures state == Initial
      ensures this.file == file && this.diskWritable == diskWritable
    {
      state := Initial;
      this.file := file;
      this.diskWritable := diskWritable;
    }

    /** `getState`: a snapshot of the record. */
    method GetState() returns (s: ProjectState)
      ensures s == state
    {
      s := state;
    }

    /** `persist`: a failed write is caught, so the call always returns. */
    method Persist()
      modifies this`file
      ensures file == if diskWritable then Some(state) else old(file)
    {
      if diskWritable {
        file := Some(state);
      }
    }

    method SaveBrief(brief: Json)
      modifies this`state, this`file
      ensures state == WithBrief(old(state), brief)
      ensures file == if diskWritable then Some(state) else old(file)
    {
      state := state.(projectBrief := Some(brief));
      state := state.(step := Design);
      Persist();
    }

    method SaveDesign(design: Json)
      modifies this`state, this`file
      ensures state == WithDesign(old(state), design)
      ensures file == if diskWritable then Some(state) else old(file)
    {
      state := state.(uiDesign := Some(design));
      state := state.(step := Implementation);
      Persist();
    }

    method SaveFrontendCode(files: seq<CodeFile>)
      modifies this`state, this`file
      ensures state == WithFrontendCode(old(state), files)
      ensures file == if diskWritable then Some(state) else old(file)
    {
      state := state.(code := state.code.(frontend := files));
      Persist();
    }

    method SaveBackendCode(files: seq<CodeFile>)
      modifies this`state, this`file
      ensures state == WithBackendCode(old(state), files)
      ensures file == if diskWritable then Some(state) else old(file)
    {
      state := state.(code := state.code.(backend := files));
      Persist();
    }
  }
}
