# redboxCI engine core, modelled in Dafny

This project models the dispatch and error-mapping core of the redboxCI build
engine (Rust). The engine keeps *projects*, which are buildable units with an
optional source-control capability, and *workspaces*, which are the versioned
working copies of projects. It stores both through a pluggable persistence
layer. The model covers:

- **Store manager** (`StoreManagers`). A store has four independently optional
  operator slots: add, retrieve, update and delete. An empty slot fails with
  its own "not configured" code (`RBX_PSM_001` to `RBX_PSM_004`). A filled
  slot forwards its operator's answer unchanged.
- **Entity managers** (`WorkspaceManagers`, `ProjectManagers`). Create looks
  the key up first, then adds. Retrieve turns a missing record into a
  not-found error. Update re-checks existence before writing. Delete (workspace
  only) turns a `false` answer from the store into a persistence error. Store
  errors are always re-wrapped into the three-variant manager error
  (`EntityErrors`) with the fixed codes `RBX_CPE_0001`, `RBX_CPE_0002` and
  `RBX_CPE_0003_F`.
- **Map-backed stores** (`MapStores`). These are concrete table-backed
  instances of both stores, used to state lifecycle facts that span several
  calls: create twice, update before create, delete then retrieve.
- **Domain records** (`Workspaces`, `Projects`, `Errors`, `SourceControls`).
  These are value records with consuming, builder-style setters.
- **Build orchestrator** (`BuildOrchestrators`). `clone_project` fails fast
  without a source-control capability and otherwise returns the capability's
  clone outcome.
- **Executor registry** (`ExecutorRegistry`). This is a string-keyed map of
  executors, written once generically. It is instantiated for
  `PipelineExecutor` (`PipelineExecutors`) and for `RBXPlugin` (`Plugins`),
  matching the two copies in the source.

Storage backends, the source-control implementation and executors are foreign
code. A storage operator is a pure Dafny function value from its argument to
the answer the backend gives. A source-control capability is represented by
its name and the outcome its `clone_source` reports. An executor is a record
holding its `run` function. `Project::new` draws a random UUID; here the UUID
is the parameter `freshId`.

Several source files would not compile as written. The operator traits
(`AddToStore`, `RetrieveFromStore`, `UpdateInStore`, `RemoveFromStore`) are
not declared in core/src/persistence.rs, so their signatures are taken from the
way `StoreManger` calls them. `ProjectManager<'pm>` is used with a lifetime its
declaration lacks. The model follows what the function bodies do.

Some behaviour of the engine worth noting:

- The executor-not-found error has the fixed message "Executor not found". It
  does not name the executor that was asked for.
- The duplicate error and the not-found error share the code `RBX_CPE_0002`.
- `delete_Workspace` makes no existence check. A missing record shows up only
  as a `false` from the store, and becomes a persistence error (`RBX_CPE_0001`),
  not a not-found error.
- `ProjectManager` has no delete operation.
- When a store-manager slot is empty, the manager keeps the store manager's
  message but replaces its `RBX_PSM_*` code with `RBX_CPE_0001` on lookups and
  deletes. On add and update it drops the store error entirely and reports
  `RBX_CPE_0003_F`.

## Model

| member | source | states |
|---|---|---|
| `Errors.New` | core/src/errors.rs:43-64 | Building an error stores the message and the code as given, and the two getters return them. |
| `Errors.GettersDetermineError` | core/src/errors.rs:3-13 | The error trait exposes only its two getters, so two errors are equal exactly when both getters agree. |
| `Errors.NewFromGettersRoundTrip` | core/src/errors.rs:43-64 | Building an error from another error's message and code gives back that same error. |
| `Errors.MessageAndCodeIndependent` | core/src/errors.rs:33-47 | The message does not depend on the code argument, and the code does not depend on the message argument. |
| `StoreManagers.Add` | core/src/store_manager.rs:55-72 | With no add operator, add fails with code `RBX_PSM_001`. Otherwise it returns exactly the operator's answer, whether that is `Ok` or `Err`. |
| `StoreManagers.Update` | core/src/store_manager.rs:77-94 | With no update operator, update fails with `RBX_PSM_002`. Otherwise it returns the operator's answer unchanged. |
| `StoreManagers.Retrieve` | core/src/store_manager.rs:100-116 | With no retrieve operator, retrieve fails with `RBX_PSM_003`. Otherwise it returns the operator's answer unchanged. |
| `StoreManagers.Delete` | core/src/store_manager.rs:122-139 | With no delete operator, delete fails with `RBX_PSM_004`. Otherwise it returns the operator's answer unchanged. |
| `StoreManagers.SetAddOperator` | core/src/store_manager.rs:27-31 | Afterwards add answers with the new operator for every input. Update, retrieve and delete answer as before. |
| `StoreManagers.SetRetrieveOperator` | core/src/store_manager.rs:34-38 | Afterwards retrieve answers with the new operator. The other three operations are unchanged. |
| `StoreManagers.SetUpdateOperator` | core/src/store_manager.rs:40-44 | Afterwards update answers with the new operator. The other three operations are unchanged. |
| `StoreManagers.SetDeleteOperator` | core/src/store_manager.rs:46-50 | Afterwards delete answers with the new operator. The other three operations are unchanged. |
| `StoreManagers.NewStoreManager` | core/src/store_manager.rs:21-25 | `StoreManger::new` leaves all four operator slots empty. |
| `StoreManagers.NewStoreManagerRefusesAll` | core/src/store_manager.rs:21-25 | A fresh store manager has no slot filled, so all four operations fail, each with its own not-configured message and code. |
| `StoreManagers.NotConfiguredCodesDistinct` | core/src/store_manager.rs:59-133 | The four not-configured codes are pairwise distinct. |
| `StoreManagers.LaterOperatorReplacesEarlier` | core/src/store_manager.rs:27-50 | Setting a slot twice gives the same store manager as setting it once with the second operator. |
| `Workspaces.NewWorkspace` | core/src/workspace.rs:15-19 | A new workspace has the given project id, last build version 0 and no base directory. |
| `Workspaces.SetProjectId` | core/src/workspace.rs:21-33 | `get_project_id` returns the value just set. Version and base directory are unchanged. |
| `Workspaces.SetLatestBuildVersion` | core/src/workspace.rs:35-47 | `get_latest_build_version` returns the version just set. Project id and base directory are unchanged. |
| `Workspaces.SetBaseDir` | core/src/workspace.rs:49-61 | `get_base_dir` returns the directory just set, including a reset to none. Project id and version are unchanged. |
| `Workspaces.WorkspaceSettersCommute` | core/src/workspace.rs:21-55 | Setters on two different fields give the same workspace in either order. |
| `Workspaces.WorkspaceSetterLastWriteWins` | core/src/workspace.rs:21-55 | Two setters on the same field leave only the second value. |
| `Projects.NewProject` | core/src/project.rs:23-32 | A new project has the given name, no source control, an empty pipeline list and the freshly drawn id. |
| `Projects.SetName` | core/src/project.rs:34-46 | `get_name` returns the name just set. Source control, pipelines and id are unchanged. |
| `Projects.SetSourceControl` | core/src/project.rs:48-60 | `get_source_control` returns the capability just set, or none. Name, pipelines and id are unchanged. |
| `Projects.SetId` | core/src/project.rs:62-74 | `get_id` returns the id just set. Name, source control and pipelines are unchanged. |
| `Projects.SetPipelines` | core/src/project.rs:77-89 | `get_pipelines` returns the same ordered list that was set. Name, source control and id are unchanged. |
| `Projects.ProjectSetterLastWriteWins` | core/src/project.rs:40-83 | Two setters on the same field leave only the second value. |
| `Projects.ProjectSettersCommute` | core/src/project.rs:40-83 | Setters on two different fields give the same project in either order. |
| `WorkspaceManagers.CreateWorkspace` | core/src/workspace_manager.rs:36-83 | A failed lookup by project id gives a `PersistenceError` with `RBX_CPE_0001` and the store's message. The result is a `DuplicateError` (`RBX_CPE_0002`) exactly when a record exists. It is `Ok` exactly when no record exists and add succeeds, and then it is add's value. A failed add gives `PersistenceError` `RBX_CPE_0003_F`. Create never reports not-found. |
| `WorkspaceManagers.RetrieveWorkspace` | core/src/workspace_manager.rs:86-116 | A store error gives `PersistenceError` `RBX_CPE_0001` with the store's message. `Ok(None)` gives `NotFoundError` `RBX_CPE_0002`. The result is `Ok(w)` exactly when the store returned `Ok(Some(w))`. |
| `WorkspaceManagers.UpdateWorkspace` | core/src/workspace_manager.rs:118-147 | Any error from re-retrieving by project id is returned unchanged. The result is `Ok` exactly when the record exists and the store's update succeeds, and then it is update's value. A failed update gives `PersistenceError` `RBX_CPE_0003_F`. |
| `WorkspaceManagers.DeleteWorkspace` | core/src/workspace_manager.rs:150-183 | The result is `Ok(())` exactly when the store answers `Ok(true)`. Every failure, whether `Ok(false)` or a store error, is a `PersistenceError` with `RBX_CPE_0001`. A store error's message is kept. |
| `WorkspaceManagers.CreateWorkspaceAddsOnlyWhenAbsent` | core/src/workspace_manager.rs:40-60 | Unless the lookup reports the id absent, the add operator is never consulted: stores that agree on retrieve give the same outcome. |
| `WorkspaceManagers.UpdateWorkspaceWritesOnlyWhenPresent` | core/src/workspace_manager.rs:122-124 | When the existence check fails, the update operator is never consulted. |
| `WorkspaceManagers.DeleteWorkspaceSkipsLookup` | core/src/workspace_manager.rs:150-154 | Delete consults only the delete operator. No existence check is made first. |
| `WorkspaceManagers.MissingRetrieveOperatorFailsLookups` | core/src/workspace_manager.rs:40-48 | Without a retrieve operator, create, retrieve and update all fail with `PersistenceError` `RBX_CPE_0001`. The error carries the store manager's "retrieve ... not configured" message. |
| `WorkspaceManagers.MissingDeleteOperatorFailsDelete` | core/src/workspace_manager.rs:172-177 | Without a delete operator, delete fails with `PersistenceError` `RBX_CPE_0001` and the store manager's message. |
| `WorkspaceManagers.WorkspaceManagerTestScenarios` | core/src/workspace_manager.rs:188-440 | The outcomes the unit tests expect: duplicate on an existing record, create and update succeed, not-found on `Ok(None)`, retrieval of an existing record, and delete failing on `false` but succeeding on `true`. |
| `ProjectManagers.CreateProject` | core/src/project_manager.rs:25-64 | A failed lookup by id gives `PersistenceError` `RBX_CPE_0001` with the store's message. The result is `DuplicateError` `RBX_CPE_0002` exactly when a project exists. It is `Ok` exactly when the id is absent and the store's create succeeds, with create's value. A failed create gives `PersistenceError` `RBX_CPE_0003_F`. |
| `ProjectManagers.RetrieveProject` | core/src/project_manager.rs:67-93 | A store error gives `PersistenceError` `RBX_CPE_0001`. `None` gives `NotFoundError` `RBX_CPE_0002`. The result is `Ok(p)` exactly when the store returned `Some(p)`. |
| `ProjectManagers.UpdateProject` | core/src/project_manager.rs:95-120 | An error from `retrieve_project` is returned unchanged. The result is `Ok` exactly when the project exists and the store's update succeeds. A failed update gives `PersistenceError` `RBX_CPE_0003_F`. |
| `ProjectManagers.CreateProjectWritesOnlyWhenAbsent` | core/src/project_manager.rs:27-45 | Unless the lookup reports the id absent, the store's create is never consulted. |
| `ProjectManagers.UpdateProjectWritesOnlyWhenPresent` | core/src/project_manager.rs:97-99 | When `retrieve_project` fails, the store's update is never consulted. |
| `MapStores.CreateWorkspaceIn` | core/src/workspace_manager.rs:36-83 | Over a table-backed store, create succeeds exactly for a project id not in the table, and then stores the workspace. Otherwise it is a duplicate and the table is unchanged. |
| `MapStores.RetrieveWorkspaceIn` | core/src/workspace_manager.rs:86-116 | Over a table-backed store, retrieve returns the stored workspace exactly when its id is present. A key never created is not found. |
| `MapStores.UpdateWorkspaceIn` | core/src/workspace_manager.rs:118-147 | Over a table-backed store, update before create is not found and changes nothing. An update of a present record replaces it. |
| `MapStores.DeleteWorkspaceIn` | core/src/workspace_manager.rs:150-183 | Over a table-backed store, delete succeeds exactly for a present id and removes it. A missing id is a persistence error, never a silent success. |
| `MapStores.CreateProjectIn` | core/src/project_manager.rs:25-64 | Over a table-backed store, create succeeds exactly for an id not in the table, and then stores the project. Otherwise it is a duplicate and the table is unchanged. |
| `MapStores.RetrieveProjectIn` | core/src/project_manager.rs:67-93 | Over a table-backed store, retrieve returns the stored project exactly when its id is present, and is not found otherwise. |
| `MapStores.UpdateProjectIn` | core/src/project_manager.rs:95-120 | Over a table-backed store, update before create is not found and changes nothing. An update of a present project replaces it. |
| `MapStores.SecondProjectCreateIsDuplicate` | core/src/project_manager.rs:27-43 | After a successful create, a second create with the same id is a `DuplicateError` and leaves the table unchanged. |
| `MapStores.ProjectLifecycle` | core/src/project_manager.rs:67-99 | For an id never created, retrieve is not found and update is not found. After create, retrieve returns the project. After create and update, retrieve returns the updated project. |
| `MapStores.WorkspaceLifecycle` | core/src/workspace_manager.rs:36-183 | For workspaces: a second create is a duplicate; retrieve after create and after update returns the stored value; update before create is not found; after delete, retrieve is not found and a second delete fails with a persistence error. |
| `BuildOrchestrators.CloneProject` | core/src/build_orchestrator.rs:22-37 | Without a source-control capability, the result is the "source control not found" error with `RBX_CBO_001`. With one, the result is exactly its clone outcome. |
| `BuildOrchestrators.CloneDependsOnlyOnCapability` | core/src/build_orchestrator.rs:22-37 | The outcome depends only on the project's capability. The workspace, the managers and the other project fields are not consulted. |
| `BuildOrchestrators.CloneOutcomes` | core/src/build_orchestrator.rs:26-31 | The result is `Ok(())` exactly when a capability is present and its clone succeeds. A clone error is propagated unchanged. |
| `BuildOrchestrators.NewProjectCannotBeCloned` | core/src/build_orchestrator.rs:24-33 | A freshly constructed project has no capability, so cloning it fails with `RBX_CBO_001`. |
| `ExecutorRegistry.GetExecutor` | pipelines/src/pipeline_executor.rs:42-52 | A lookup succeeds exactly for a registered name and returns that name's executor. Otherwise it fails with code `RBX_CPL_001` and the fixed message "Executor not found". |
| `ExecutorRegistry.AddExecutor` | pipelines/src/pipeline_executor.rs:34-40 | Registering always returns `Ok(())`. Afterwards the name resolves to the new executor, and every other name resolves as before. |
| `ExecutorRegistry.ReRegistrationOverwrites` | pipelines/src/pipeline_executor.rs:36 | Registering a name twice gives the same registry as registering only the second executor. |
| `ExecutorRegistry.NotFoundErrorIgnoresName` | pipelines/src/pipeline_executor.rs:48 | The not-found error is the same for every unregistered name, so it does not carry the requested name. |
| `ExecutorRegistry.RegisterAll` | pipelines/src/pipeline_executor.rs:34-40 | A sequence of `add_executor(..)?` calls stops at the first failing registration and returns its error. Because every registration returns `Ok(())`, the whole sequence returns `Ok(())`. |
| `ExecutorRegistry.LastRegistrationWins` | pipelines/src/pipeline_executor.rs:36 | After a sequence of registrations, a name resolves to the executor of its last registration. A name never registered resolves as it did before. |
| `ExecutorRegistry.UnmentionedNameUnchanged` | pipelines/src/pipeline_executor.rs:36 | Registrations under other names leave a name's binding, or its absence, unchanged. |
| `PipelineExecutors.PipelineExecutorRegistration` | pipelines/src/pipeline_executor.rs:34-52 | For the `PipelineExecutor` registry: register then resolve gives the executor back; other names are unaffected; an unknown name gets `RBX_CPL_001`. |
| `Plugins.PluginRegistration` | pipelines/src/pipeline.rs:36-54 | For the `RBXPlugin` registry: registering returns `Ok(())`; resolving gives the plugin back; the last registration of a name wins; other names are unaffected; an unknown name gets `RBX_CPL_001` "Executor not found". |

## Left out

- `execute_pipeline` (core/src/build_orchestrator.rs:40-42) has an empty body. No step sequencing, status filtering or executor invocation is modelled.
- Pipeline configuration (src/pipeline.rs) is serde data declarations only. Environment-variable layering is implemented nowhere in the code, so it is not modelled.
- File reading, YAML parsing and printing (src/main.rs), logger setup (utils/src/logger.rs) and the `trace!`/`debug!`/`error!` calls in the managers are I/O and are left out.
- The `Debug` impls for `dyn EngineError` and `dyn SourceControlCFG` are formatting only.
- core/src/app_engine.rs (a struct with no methods) and core/src/lib.rs (a module list) contain no behaviour.
- UUID generation in `Project::new` is nondeterministic. The id is a parameter instead.
- `Rc` sharing and reference identity of executors, `Box<dyn>` dispatch and lifetimes are Rust mechanics. A lookup returns the registered value itself.
- Executor `run` bodies and the source-control `clone_source` are foreign code. `get_pipeline` returns unit, so there is nothing to model.
- A capability's clone outcome is fixed per capability value. The orchestrator invokes it at most once per call, so time-varying backends need no more than that.
- Storage operators are pure function values. A backend whose answers change between calls is represented by a different operator value per call. Concurrent use of one store is not modelled.
- `PermanentStore::delete` takes the record, while the store manager's delete takes a key. `ProjectManager` never calls `PermanentStore::delete`, so it appears only in the store record.
- `get_executor` leaving the registry unchanged, and an engine error never changing after construction, need no lemma: both hold by construction, because neither lookup returns a new value.
- The table-backed stores in `MapStores` apply a write to their table when the manager reports success. Their write operators acknowledge without touching the table, so "the record is then stored" holds by construction. That a manager reports success only after the store's write succeeded is stated by the managers' own contracts.
- `usize` is modelled as the 64-bit range. No arithmetic is done on it, so wrap-around cannot arise.
- WorkspaceManagers.CreateWorkspace: the contract states codes, not the text of the duplicate and write-failure messages. The body builds those messages exactly as the source's `format!` calls do.
- WorkspaceManagers.DeleteWorkspace: the `{:?}` rendering of the id in the "unable to delete" message is modelled as the id in double quotes. Rust's escaping of special characters inside it is not modelled, and the contract does not state that message.
- ProjectManagers.CreateProject: the contract states codes, not the text of the duplicate and write-failure messages.
