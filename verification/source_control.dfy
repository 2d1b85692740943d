/** The source-control capability a project may hold (core/src/source_control.rs).
    Concrete implementations are foreign code, so a capability is modelled by
    what this core can observe of it: its name and the outcome its
    `clone_source` reports. `get_pipeline` returns unit and is not modelled. */
module SourceControls {
  import opened Results
  import opened Errors

  datatype SourceControl = SourceControl(name: string, cloneOutcome: Result<(), BaseEngineError>)

  function GetSourceControlName(s: SourceControl): string {
    s.name
  }

  function CloneSource(s: SourceControl): Result<(), BaseEngineError> {
    s.cloneOutcome
  }
}
