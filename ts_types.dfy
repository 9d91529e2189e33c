/** The declarations of the TypeScript variant (src/types/index.ts) that its
    state manager, orchestrator and reviewer work with. Briefs, designs,
    architectures and QA reports arrive from `JSON.parse` and are cast without
    a check, so they are kept as decoded JSON values. */
module TsTypes {
  import opened Json

  /** `ProjectState['step']`. */
  datatype Step = Discovery | Design | Implementation | Review | Testing | Complete

  /** `AgentRole` of the back-end package. */
  datatype AgentRole = Pm | Ui | Frontend | Backend | Writer | Reviewer | Qa | Debugger

  /** `CodeFile['language']`. */
  datatype Language = TypeScript | Python | Css | JsonFile

  datatype CodeFile = CodeFile(path: string, content: string, language: Language)
}
