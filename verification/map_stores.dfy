/** Map-backed backends for both managers. Lookups answer from a table and
    every write operator acknowledges without touching it. The `...In`
    wrappers apply a write to the table when the manager reports success, so
    "the record is then stored" holds by construction here. That the manager
    reports success only after calling the store's write is a contract of the
    managers themselves. With these stores, the lifecycle facts that involve
    more than one call (create twice, delete then retrieve, ...) can be
    stated. */
module MapStores {
  import opened Results
  import opened Persistence
  import opened StoreManagers
  import opened Workspaces
  import opened Projects
  import opened EntityErrors
  import opened WorkspaceManagers
  import opened ProjectManagers

  /** Workspaces keyed by their project id. */
  type WorkspaceTable = map<string, Workspace>

  /** Projects keyed by their id. */
  type ProjectTable = map<string, Project>

  /** A store manager with all four slots answered from `table`. */
  function WorkspaceStore(table: WorkspaceTable): StoreManager<Workspace, string> {
    StoreManager(
      Some((w: Workspace) => Ok(w)),
      Some((k: string) => Ok(if k in table then Some(table[k]) else None)),
      Some((k: string) => Ok(k in table)),
      Some((w: Workspace) => Ok(w)))
  }

  /** A permanent store answered from `table`. */
  function ProjectStore(table: ProjectTable): PermanentStore<Project, string> {
    PermanentStore(
      (p: Project) => Ok(p),
      (k: string) => Ok(if k in table then Some(table[k]) else None),
      (p: Project) => Ok(p),
      (p: Project) => Ok(GetId(p) in table))
  }

  function WorkspaceManagerOver(table: WorkspaceTable): WorkspaceManager {
    WorkspaceManager(WorkspaceStore(table))
  }

  function ProjectManagerOver(table: ProjectTable): ProjectManager {
    ProjectManager(ProjectStore(table))
  }

  /** `create_Workspace` against the table: succeeds exactly for a new project id. */
  function CreateWorkspaceIn(table: WorkspaceTable, w: Workspace): (r: (WorkspaceTable, Result<Workspace, WorkspaceError>))
    ensures r.1.Ok? <==> GetProjectId(w) !in table
    ensures r.1.Ok? ==> r.1.value == w && r.0 == table[GetProjectId(w) := w]
    ensures r.1.Err? ==> r.1.error.DuplicateError? && Code(r.1.error) == RecordStateCode && r.0 == table
  {
    var result := CreateWorkspace(WorkspaceManagerOver(table), w);
    (if result.Ok? then table[GetProjectId(result.value) := result.value] else table, result)
  }

  /** `retrieve_Workspace` against the table. */
  function RetrieveWorkspaceIn(table: WorkspaceTable, workspaceId: string): (r: Result<Workspace, WorkspaceError>)
    ensures r.Ok? <==> workspaceId in table
    ensures r.Ok? ==> r.value == table[workspaceId]
    ensures r.Err? ==> r.error.NotFoundError? && Code(r.error) == RecordStateCode
  {
    RetrieveWorkspace(WorkspaceManagerOver(table), workspaceId)
  }

  /** `update_Workspace` against the table: succeeds exactly for a known project id. */
  function UpdateWorkspaceIn(table: WorkspaceTable, w: Workspace): (r: (WorkspaceTable, Result<Workspace, WorkspaceError>))
    ensures r.1.Ok? <==> GetProjectId(w) in table
    ensures r.1.Ok? ==> r.1.value == w && r.0 == table[GetProjectId(w) := w]
    ensures r.1.Err? ==> r.1.error.NotFoundError? && r.0 == table
  {
    var result := UpdateWorkspace(WorkspaceManagerOver(table), w);
    (if result.Ok? then table[GetProjectId(result.value) := result.value] else table, result)
  }

  /** `delete_Workspace` against the table: removing a missing record is a persistence error. */
  function DeleteWorkspaceIn(table: WorkspaceTable, workspaceId: string): (r: (WorkspaceTable, Result<(), WorkspaceError>))
    ensures r.1.Ok? <==> workspaceId in table
    ensures r.1.Ok? ==> r.0 == table - {workspaceId}
    ensures r.1.Err? ==> r.1.error.PersistenceError? && Code(r.1.error) == StoreFailureCode && r.0 == table
  {
    var result := DeleteWorkspace(WorkspaceManagerOver(table), workspaceId);
    (if result.Ok? then table - {workspaceId} else table, result)
  }

  /** `create_project` against the table: succeeds exactly for a new id. */
  function CreateProjectIn(table: ProjectTable, p: Project): (r: (ProjectTable, Result<Project, ProjectError>))
    ensures r.1.Ok? <==> GetId(p) !in table
    ensures r.1.Ok? ==> r.1.value == p && r.0 == table[GetId(p) := p]
    ensures r.1.Err? ==> r.1.error.DuplicateError? && Code(r.1.error) == RecordStateCode && r.0 == table
  {
    var result := CreateProject(ProjectManagerOver(table), p);
    (if result.Ok? then table[GetId(result.value) := result.value] else table, result)
  }

  /** `retrieve_project` against the table. */
  function RetrieveProjectIn(table: ProjectTable, projectId: string): (r: Result<Project, ProjectError>)
    ensures r.Ok? <==> projectId in table
    ensures r.Ok? ==> r.value == table[projectId]
    ensures r.Err? ==> r.error.NotFoundError? && Code(r.error) == RecordStateCode
  {
    RetrieveProject(ProjectManagerOver(table), projectId)
  }

  /** `update_project` against the table: succeeds exactly for a known id. */
  function UpdateProjectIn(table: ProjectTable, p: Project): (r: (ProjectTable, Result<Project, ProjectError>))
    ensures r.1.Ok? <==> GetId(p) in table
    ensures r.1.Ok? ==> r.1.value == p && r.0 == table[GetId(p) := p]
    ensures r.1.Err? ==> r.1.error.NotFoundError? && r.0 == table
  {
    var result := UpdateProject(ProjectManagerOver(table), p);
    (if result.Ok? then table[GetId(result.value) := result.value] else table, result)
  }

  /** A second create under an id that was created successfully is a duplicate,
      and leaves the table as the first create left it. */
  lemma SecondProjectCreateIsDuplicate(table: ProjectTable, p1: Project, p2: Project)
    requires GetId(p1) == GetId(p2)
    requires CreateProjectIn(table, p1).1.Ok?
    ensures var after := CreateProjectIn(table, p1).0;
            CreateProjectIn(after, p2).1.Err? && CreateProjectIn(after, p2).1.error.DuplicateError?
            && CreateProjectIn(after, p2).0 == after
  {
  }

  /** A created project can be retrieved, and an update before any create is refused. */
  lemma ProjectLifecycle(table: ProjectTable, p: Project, q: Project)
    requires GetId(p) !in table
    requires GetId(q) == GetId(p)
    ensures RetrieveProjectIn(table, GetId(p)).Err? && RetrieveProjectIn(table, GetId(p)).error.NotFoundError?
    ensures UpdateProjectIn(table, q).1.Err? && UpdateProjectIn(table, q).1.error.NotFoundError?
    ensures RetrieveProjectIn(CreateProjectIn(table, p).0, GetId(p)) == Ok(p)
    ensures var after := CreateProjectIn(table, p).0;
            RetrieveProjectIn(UpdateProjectIn(after, q).0, GetId(p)) == Ok(q)
  {
  }

  /** The same lifecycle for workspaces, including delete: a record can be
      deleted once, after which it is not found and a second delete fails. */
  lemma WorkspaceLifecycle(table: WorkspaceTable, w: Workspace, v: Workspace)
    requires GetProjectId(w) !in table
    requires GetProjectId(v) == GetProjectId(w)
    ensures var after := CreateWorkspaceIn(table, w).0;
            && CreateWorkspaceIn(after, v).1.Err? && CreateWorkspaceIn(after, v).1.error.DuplicateError?
            && RetrieveWorkspaceIn(after, GetProjectId(w)) == Ok(w)
            && RetrieveWorkspaceIn(UpdateWorkspaceIn(after, v).0, GetProjectId(w)) == Ok(v)
    ensures UpdateWorkspaceIn(table, v).1.Err? && UpdateWorkspaceIn(table, v).1.error.NotFoundError?
    ensures var after := CreateWorkspaceIn(table, w).0;
            var deleted := DeleteWorkspaceIn(after, GetProjectId(w));
            && deleted.1 == Ok(())
            && RetrieveWorkspaceIn(deleted.0, GetProjectId(w)).Err?
            && RetrieveWorkspaceIn(deleted.0, GetProjectId(w)).error.NotFoundError?
            && DeleteWorkspaceIn(deleted.0, GetProjectId(w)).1.Err?
            && DeleteWorkspaceIn(deleted.0, GetProjectId(w)).1.error.PersistenceError?
  {
  }
}
