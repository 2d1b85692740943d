/** `BuildOrchestrator` (core/src/build_orchestrator.rs): source acquisition
    for a project. Cloning itself is delegated to the project's source-control
    capability; `execute_pipeline` has an empty body in the source and is not
    modelled. */
module BuildOrchestrators {
  import opened Results
  import opened Errors
  import opened SourceControls
  import opened Projects
  import opened Workspaces
  import opened ProjectManagers
  import opened WorkspaceManagers

  datatype BuildOrchestrator = BuildOrchestrator(projectManager: ProjectManager, workspaceManager: WorkspaceManager)

  const SourceControlNotFoundCode := "RBX_CBO_001"
  const SourceControlNotFoundMessage := "source control not found"

  /** `clone_project`: without a capability fail fast; with one, its clone
      outcome is the result. */
  function CloneProject(o: BuildOrchestrator, project: Project, workspace: Workspace): (r: Result<(), BaseEngineError>)
    ensures GetSourceControl(project).None? ==> r == Err(Errors.New(SourceControlNotFoundMessage, SourceControlNotFoundCode))
    ensures GetSourceControl(project).Some? ==> r == CloneSource(GetSourceControl(project).value)
  {
    match GetSourceControl(project)
    case Some(config) =>
      var cloned :- CloneSource(config);
      Ok(())
    case None => Err(Errors.New(SourceControlNotFoundMessage, SourceControlNotFoundCode))
  }

  /** The outcome depends on the project's capability alone: neither the
      workspace, the managers nor the rest of the project are consulted. */
  lemma CloneDependsOnlyOnCapability(o1: BuildOrchestrator, o2: BuildOrchestrator, p1: Project, p2: Project,
                                     w1: Workspace, w2: Workspace)
    requires GetSourceControl(p1) == GetSourceControl(p2)
    ensures CloneProject(o1, p1, w1) == CloneProject(o2, p2, w2)
  {
  }

  /** Cloning succeeds exactly when a capability is present and its clone
      succeeds; any clone error comes back unchanged. */
  lemma CloneOutcomes(o: BuildOrchestrator, project: Project, workspace: Workspace)
    ensures CloneProject(o, project, workspace) == Ok(())
            <==> GetSourceControl(project).Some? && CloneSource(GetSourceControl(project).value) == Ok(())
    ensures GetSourceControl(project).Some? && CloneSource(GetSourceControl(project).value).Err? ==>
              CloneProject(o, project, workspace) == CloneSource(GetSourceControl(project).value)
  {
  }

  /** A project made by `Project::new` has no capability, so cloning it fails
      with the source-control-not-found code. */
  lemma NewProjectCannotBeCloned(o: BuildOrchestrator, name: string, freshId: string, workspace: Workspace)
    ensures CloneProject(o, NewProject(name, freshId), workspace).Err?
    ensures GetErrorCode(CloneProject(o, NewProject(name, freshId), workspace).error) == SourceControlNotFoundCode
  {
  }
}
