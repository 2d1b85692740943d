/** `ProjectManager` (core/src/project_manager.rs): project lifecycle over a
    `PermanentStore` keyed by project id. It follows the same decision
    procedure as the workspace manager; it has no delete operation. */
module ProjectManagers {
  import opened Results
  import opened Errors
  import opened Persistence
  import opened Projects
  import opened EntityErrors

  type ProjectError = EntityError

  datatype ProjectManager = ProjectManager(store: PermanentStore<Project, string>)

  /** What the store reports for a project id. */
  function Lookup(m: ProjectManager, id: string): Result<Option<Project>, BaseEngineError> {
    m.store.retrieve(id)
  }

  /** `create_project`: look the id up, refuse duplicates, then create. */
  function CreateProject(m: ProjectManager, project: Project): (r: Result<Project, ProjectError>)
    ensures Lookup(m, GetId(project)).Err? ==> r == Err(StoreFailure(Lookup(m, GetId(project)).error))
    ensures (r.Err? && r.error.DuplicateError?) <==> Lookup(m, GetId(project)).Ok? && Lookup(m, GetId(project)).value.Some?
    ensures r.Err? && r.error.DuplicateError? ==> Code(r.error) == RecordStateCode
    ensures r.Ok? <==> Lookup(m, GetId(project)) == Ok(None) && m.store.create(project).Ok?
    ensures r.Ok? ==> r.value == m.store.create(project).value
    ensures Lookup(m, GetId(project)) == Ok(None) && m.store.create(project).Err? ==>
              r.Err? && r.error.PersistenceError? && Code(r.error) == WriteFailureCode
    ensures r.Err? ==> !r.error.NotFoundError?
  {
    var lookup := Lookup(m, GetId(project));
    if lookup.Err? then
      Err(StoreFailure(lookup.error))
    else if lookup.value.Some? then
      Err(DuplicateError(Errors.New("project with Id: " + GetId(project) + " already exist", RecordStateCode)))
    else
      match m.store.create(project)
      case Ok(created) => Ok(created)
      case Err(_) => Err(PersistenceError(Errors.New("Error occurred while creating project", WriteFailureCode)))
  }

  /** `retrieve_project`: a missing record is promoted to a not-found error. */
  function RetrieveProject(m: ProjectManager, projectId: string): (r: Result<Project, ProjectError>)
    ensures Lookup(m, projectId).Err? ==> r == Err(StoreFailure(Lookup(m, projectId).error))
    ensures Lookup(m, projectId) == Ok(None) ==> r.Err? && r.error.NotFoundError? && Code(r.error) == RecordStateCode
    ensures r.Ok? <==> Lookup(m, projectId).Ok? && Lookup(m, projectId).value.Some?
    ensures r.Ok? ==> Lookup(m, projectId) == Ok(Some(r.value))
    ensures r.Err? ==> !r.error.DuplicateError?
  {
    var lookup := Lookup(m, projectId);
    if lookup.Err? then
      Err(StoreFailure(lookup.error))
    else if lookup.value.None? then
      Err(NotFoundError(Errors.New("project with Id: " + projectId + " not found", RecordStateCode)))
    else
      Ok(lookup.value.value)
  }

  /** `update_project`: `retrieve_project` first (its error propagates), then update. */
  function UpdateProject(m: ProjectManager, project: Project): (r: Result<Project, ProjectError>)
    ensures RetrieveProject(m, GetId(project)).Err? ==> r == Err(RetrieveProject(m, GetId(project)).error)
    ensures r.Ok? <==> RetrieveProject(m, GetId(project)).Ok? && m.store.update(project).Ok?
    ensures r.Ok? ==> r.value == m.store.update(project).value
    ensures RetrieveProject(m, GetId(project)).Ok? && m.store.update(project).Err? ==>
              r.Err? && r.error.PersistenceError? && Code(r.error) == WriteFailureCode
    ensures r.Err? ==> !r.error.DuplicateError?
  {
    var existing :- RetrieveProject(m, GetId(project));
    match m.store.update(project)
    case Ok(updated) => Ok(updated)
    case Err(_) => Err(PersistenceError(Errors.New("Error occurred while updating project information", WriteFailureCode)))
  }

  /** Unless the lookup reports the id absent, create never reaches the
      store's create: any two stores that agree on retrieve give the same outcome. */
  lemma CreateProjectWritesOnlyWhenAbsent(m1: ProjectManager, m2: ProjectManager, project: Project)
    requires m1.store.retrieve == m2.store.retrieve
    requires Lookup(m1, GetId(project)) != Ok(None)
    ensures CreateProject(m1, project) == CreateProject(m2, project)
  {
  }

  /** When `retrieve_project` fails, update never reaches the store's update. */
  lemma UpdateProjectWritesOnlyWhenPresent(m1: ProjectManager, m2: ProjectManager, project: Project)
    requires m1.store.retrieve == m2.store.retrieve
    requires RetrieveProject(m1, GetId(project)).Err?
    ensures UpdateProject(m1, project) == UpdateProject(m2, project)
  {
  }
}
