/** The storage interfaces the engine consumes (core/src/persistence.rs and the
    operator traits the store manager delegates to). Backends are foreign code:
    an operator is modelled as a pure function value from its argument to the
    result the backend reports. */
module Persistence {
  import opened Results
  import opened Errors

  /** `AddToStore::add`: stores a record and returns the stored value. */
  type AddOperator<!D> = D -> Result<D, BaseEngineError>

  /** `RetrieveFromStore::retrieve`: `Ok(None)` means "no record", distinct from a failed lookup. */
  type RetrieveOperator<!D, !K> = K -> Result<Option<D>, BaseEngineError>

  /** `UpdateInStore::update`: writes a record and returns the stored value. */
  type UpdateOperator<!D> = D -> Result<D, BaseEngineError>

  /** `RemoveFromStore::delete`: `Ok(false)` means nothing was removed. */
  type RemoveOperator<!K> = K -> Result<bool, BaseEngineError>

  /** `PermanentStore`: one backend answering all four operations. Its delete
      takes the record itself, not a key. */
  datatype PermanentStore<!D, !K> = PermanentStore(
    create: AddOperator<D>,
    retrieve: RetrieveOperator<D, K>,
    update: UpdateOperator<D>,
    delete: D -> Result<bool, BaseEngineError>)
}
