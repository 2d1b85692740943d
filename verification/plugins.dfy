/** The executor registry of pipelines/src/pipeline.rs: the same generic
    registry instantiated with `RBXPlugin`, whose only operation `run`
    consumes that file's `Project` record and is foreign code. */
module Plugins {
  import opened Results
  import opened Errors
  import opened ExecutorRegistry

  /** The plugin-facing project record (not the core's `Project`). */
  datatype PluginProject = PluginProject(
    id: string,
    name: string,
    workspaceDir: Option<string>,
    configuration: map<string, string>,
    environmentVariables: map<string, string>,
    commands: seq<string>)

  datatype RbxPlugin = RbxPlugin(run: PluginProject -> ())

  type PluginRegistry = PipeExecutorManager<RbxPlugin>

  /** Registering then resolving a plugin gives it back, the last
      registration of a name wins, other names are unaffected, and an
      unknown name gets the fixed error. */
  lemma PluginRegistration(m: PluginRegistry, name: string, first: RbxPlugin, second: RbxPlugin, other: string)
    requires other != name
    ensures AddExecutor(m, name, first).1 == Ok(())
    ensures GetExecutor(AddExecutor(m, name, first).0, name) == Ok(first)
    ensures GetExecutor(AddExecutor(AddExecutor(m, name, first).0, name, second).0, name) == Ok(second)
    ensures GetExecutor(AddExecutor(m, name, first).0, other) == GetExecutor(m, other)
    ensures other !in m.executors ==>
              GetExecutor(AddExecutor(m, name, first).0, other) == Err(Errors.New(ExecutorNotFoundMessage, ExecutorNotFoundCode))
  {
  }
}
