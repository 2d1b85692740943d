/** The error taxonomy shared by the entity managers. `WorkspaceError`
    (core/src/workspace_manager.rs) and `ProjectError`
    (core/src/project_manager.rs) have the same three variants, each wrapping
    an engine error, and use the same codes. */
module EntityErrors {
  import opened Errors

  datatype EntityError =
    | PersistenceError(cause: BaseEngineError)
    | DuplicateError(cause: BaseEngineError)
    | NotFoundError(cause: BaseEngineError)

  /** A lookup or a delete failed in the store; the store's message is kept. */
  const StoreFailureCode := "RBX_CPE_0001"

  /** The record was there when it must not be, or missing when it must be:
      both the duplicate and the not-found errors carry this code. */
  const RecordStateCode := "RBX_CPE_0002"

  /** A write (add or update) failed in the store; the store's error is dropped. */
  const WriteFailureCode := "RBX_CPE_0003_F"

  function Code(e: EntityError): string {
    GetErrorCode(e.cause)
  }

  /** The error a manager reports when a lookup or delete fails in the store. */
  function StoreFailure(storeError: BaseEngineError): EntityError {
    PersistenceError(Errors.New(GetMessage(storeError), StoreFailureCode))
  }
}
