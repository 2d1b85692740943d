/** `WorkspaceManager` (core/src/workspace_manager.rs): workspace lifecycle
    over a store manager keyed by the workspace's project id. Store errors
    never leave the manager raw: each is rewrapped into a `WorkspaceError`
    with one of the fixed codes. Logging calls are not modelled. */
module WorkspaceManagers {
  import opened Results
  import opened Errors
  import opened StoreManagers
  import opened Workspaces
  import opened EntityErrors

  type WorkspaceError = EntityError

  datatype WorkspaceManager = WorkspaceManager(store: StoreManager<Workspace, string>)

  /** What the store reports for a project id. */
  function Lookup(m: WorkspaceManager, projectId: string): Result<Option<Workspace>, BaseEngineError> {
    Retrieve(m.store, projectId)
  }

  /** `create_Workspace`: look the project id up, refuse duplicates, then add. */
  function CreateWorkspace(m: WorkspaceManager, w: Workspace): (r: Result<Workspace, WorkspaceError>)
    ensures Lookup(m, GetProjectId(w)).Err? ==> r == Err(StoreFailure(Lookup(m, GetProjectId(w)).error))
    ensures (r.Err? && r.error.DuplicateError?) <==> Lookup(m, GetProjectId(w)).Ok? && Lookup(m, GetProjectId(w)).value.Some?
    ensures r.Err? && r.error.DuplicateError? ==> Code(r.error) == RecordStateCode
    ensures r.Ok? <==> Lookup(m, GetProjectId(w)) == Ok(None) && Add(m.store, w).Ok?
    ensures r.Ok? ==> r.value == Add(m.store, w).value
    ensures Lookup(m, GetProjectId(w)) == Ok(None) && Add(m.store, w).Err? ==>
              r.Err? && r.error.PersistenceError? && Code(r.error) == WriteFailureCode
    ensures r.Err? ==> !r.error.NotFoundError?
  {
    var lookup := Lookup(m, GetProjectId(w));
    if lookup.Err? then
      Err(StoreFailure(lookup.error))
    else if lookup.value.Some? then
      Err(DuplicateError(Errors.New("Workspace with Id: " + GetProjectId(w) + " already exist", RecordStateCode)))
    else
      match Add(m.store, w)
      case Ok(created) => Ok(created)
      case Err(_) => Err(PersistenceError(Errors.New("Error occurred while creating Workspace", WriteFailureCode)))
  }

  /** `retrieve_Workspace`: a missing record is promoted to a not-found error. */
  function RetrieveWorkspace(m: WorkspaceManager, workspaceId: string): (r: Result<Workspace, WorkspaceError>)
    ensures Lookup(m, workspaceId).Err? ==> r == Err(StoreFailure(Lookup(m, workspaceId).error))
    ensures Lookup(m, workspaceId) == Ok(None) ==> r.Err? && r.error.NotFoundError? && Code(r.error) == RecordStateCode
    ensures r.Ok? <==> Lookup(m, workspaceId).Ok? && Lookup(m, workspaceId).value.Some?
    ensures r.Ok? ==> Lookup(m, workspaceId) == Ok(Some(r.value))
    ensures r.Err? ==> !r.error.DuplicateError?
  {
    var lookup := Lookup(m, workspaceId);
    if lookup.Err? then
      Err(StoreFailure(lookup.error))
    else if lookup.value.None? then
      Err(NotFoundError(Errors.New("Workspace with Id: " + workspaceId + " not found", RecordStateCode)))
    else
      Ok(lookup.value.value)
  }

  /** `update_Workspace`: re-check existence by project id, then update. */
  function UpdateWorkspace(m: WorkspaceManager, w: Workspace): (r: Result<Workspace, WorkspaceError>)
    ensures RetrieveWorkspace(m, GetProjectId(w)).Err? ==> r == Err(RetrieveWorkspace(m, GetProjectId(w)).error)
    ensures r.Ok? <==> RetrieveWorkspace(m, GetProjectId(w)).Ok? && Update(m.store, w).Ok?
    ensures r.Ok? ==> r.value == Update(m.store, w).value
    ensures RetrieveWorkspace(m, GetProjectId(w)).Ok? && Update(m.store, w).Err? ==>
              r.Err? && r.error.PersistenceError? && Code(r.error) == WriteFailureCode
    ensures r.Err? ==> !r.error.DuplicateError?
  {
    var existing :- RetrieveWorkspace(m, GetProjectId(w));
    match Update(m.store, w)
    case Ok(updated) => Ok(updated)
    case Err(_) => Err(PersistenceError(Errors.New("Error occurred while updating Workspace information", WriteFailureCode)))
  }

  /** `delete_Workspace`: no existence check; a `false` from the store is an error.
      The `{:?}` rendering of the id is its text in double quotes. */
  function DeleteWorkspace(m: WorkspaceManager, workspaceId: string): (r: Result<(), WorkspaceError>)
    ensures r.Ok? <==> Delete(m.store, workspaceId) == Ok(true)
    ensures r.Err? ==> r.error.PersistenceError? && Code(r.error) == StoreFailureCode
    ensures Delete(m.store, workspaceId).Err? ==> r == Err(StoreFailure(Delete(m.store, workspaceId).error))
  {
    match Delete(m.store, workspaceId)
    case Ok(isDeleted) =>
      if !isDeleted then
        Err(PersistenceError(Errors.New("unable to delete Workspace: \"" + workspaceId + "\"", StoreFailureCode)))
      else
        Ok(())
    case Err(storeError) => Err(StoreFailure(storeError))
  }

  /** Unless the lookup reports the project id absent, create never reaches
      the add operator: any two stores that agree on retrieve give the same outcome. */
  lemma CreateWorkspaceAddsOnlyWhenAbsent(m1: WorkspaceManager, m2: WorkspaceManager, w: Workspace)
    requires m1.store.retrieveOperator == m2.store.retrieveOperator
    requires Lookup(m1, GetProjectId(w)) != Ok(None)
    ensures CreateWorkspace(m1, w) == CreateWorkspace(m2, w)
  {
  }

  /** When the existence check fails, update never reaches the update operator. */
  lemma UpdateWorkspaceWritesOnlyWhenPresent(m1: WorkspaceManager, m2: WorkspaceManager, w: Workspace)
    requires m1.store.retrieveOperator == m2.store.retrieveOperator
    requires RetrieveWorkspace(m1, GetProjectId(w)).Err?
    ensures UpdateWorkspace(m1, w) == UpdateWorkspace(m2, w)
  {
  }

  /** Delete consults only the delete operator: no existence check is made first. */
  lemma DeleteWorkspaceSkipsLookup(m1: WorkspaceManager, m2: WorkspaceManager, workspaceId: string)
    requires m1.store.deleteOperator == m2.store.deleteOperator
    ensures DeleteWorkspace(m1, workspaceId) == DeleteWorkspace(m2, workspaceId)
  {
  }

  /** Without a retrieve operator every lookup-based operation fails with the
      manager's persistence code, carrying the store manager's message. */
  lemma MissingRetrieveOperatorFailsLookups(m: WorkspaceManager, w: Workspace, workspaceId: string)
    requires m.store.retrieveOperator.None?
    ensures CreateWorkspace(m, w) == Err(PersistenceError(Errors.New(RetrieveNotConfiguredMessage, StoreFailureCode)))
    ensures RetrieveWorkspace(m, workspaceId) == Err(PersistenceError(Errors.New(RetrieveNotConfiguredMessage, StoreFailureCode)))
    ensures UpdateWorkspace(m, w) == Err(PersistenceError(Errors.New(RetrieveNotConfiguredMessage, StoreFailureCode)))
  {
  }

  /** Without a delete operator delete fails with the manager's persistence
      code, carrying the store manager's message. */
  lemma MissingDeleteOperatorFailsDelete(m: WorkspaceManager, workspaceId: string)
    requires m.store.deleteOperator.None?
    ensures DeleteWorkspace(m, workspaceId) == Err(PersistenceError(Errors.New(DeleteNotConfiguredMessage, StoreFailureCode)))
  {
  }

  /** The unit tests of the source, each as one fact about a store manager
      configured with only the operators the test sets. */
  lemma WorkspaceManagerTestScenarios()
    ensures var s := SetRetrieveOperator(NewStoreManager(), (k: string) => Ok(Some(NewWorkspace("project_id"))));
            var r := CreateWorkspace(WorkspaceManager(s), NewWorkspace("test"));
            r.Err? && r.error.DuplicateError?
    ensures var s := SetAddOperator(SetRetrieveOperator(NewStoreManager(), (k: string) => Ok(None)), (w: Workspace) => Ok(w));
            CreateWorkspace(WorkspaceManager(s), NewWorkspace("test")) == Ok(NewWorkspace("test"))
    ensures var s := SetRetrieveOperator(NewStoreManager(), (k: string) => Ok(None));
            var r := RetrieveWorkspace(WorkspaceManager(s), "random-Workspace-id");
            r.Err? && r.error.NotFoundError?
    ensures var s := SetRetrieveOperator(NewStoreManager(), (k: string) => Ok(Some(NewWorkspace("a"))));
            RetrieveWorkspace(WorkspaceManager(s), "random-Workspace-id") == Ok(NewWorkspace("a"))
    ensures var s := SetUpdateOperator(SetRetrieveOperator(NewStoreManager(), (k: string) => Ok(Some(NewWorkspace("name")))), (w: Workspace) => Ok(w));
            UpdateWorkspace(WorkspaceManager(s), NewWorkspace("test")) == Ok(NewWorkspace("test"))
    ensures var s := SetDeleteOperator(NewStoreManager<Workspace, string>(), (k: string) => Ok(false));
            DeleteWorkspace(WorkspaceManager(s), "random-Workspace-id").Err?
    ensures var s := SetDeleteOperator(NewStoreManager<Workspace, string>(), (k: string) => Ok(true));
            DeleteWorkspace(WorkspaceManager(s), "random-Workspace-id") == Ok(())
  {
  }
}
