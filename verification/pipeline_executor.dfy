/** The executor registry of pipelines/src/pipeline_executor.rs: the generic
    registry instantiated with `PipelineExecutor`, whose only operation `run`
    consumes a `ProjectLineData` and is foreign code. */
module PipelineExecutors {
  import opened Results
  import opened Errors
  import opened ExecutorRegistry

  datatype ProjectLineData = ProjectLineData(
    id: string,
    name: string,
    workspaceDir: Option<string>,
    configuration: map<string, string>,
    environmentVariables: map<string, string>,
    commands: seq<string>)

  datatype PipelineExecutor = PipelineExecutor(run: ProjectLineData -> ())

  type PipelineExecutorRegistry = PipeExecutorManager<PipelineExecutor>

  /** Registering then resolving a pipeline executor gives it back; other
      names are unaffected; an unknown name gets the fixed error. */
  lemma PipelineExecutorRegistration(m: PipelineExecutorRegistry, name: string, executor: PipelineExecutor, other: string)
    requires other != name
    ensures AddExecutor(m, name, executor).1 == Ok(())
    ensures GetExecutor(AddExecutor(m, name, executor).0, name) == Ok(executor)
    ensures GetExecutor(AddExecutor(m, name, executor).0, other) == GetExecutor(m, other)
    ensures other !in m.executors ==>
              GetExecutor(AddExecutor(m, name, executor).0, other) == Err(Errors.New(ExecutorNotFoundMessage, ExecutorNotFoundCode))
  {
  }
}
