/** `StoreManger` (core/src/store_manager.rs): a store assembled from four
    independently optional operator slots. An operation whose slot is empty
    fails with its own "not configured" error; a filled slot forwards the
    operator's result unchanged. */
module StoreManagers {
  import opened Results
  import opened Errors
  import opened Persistence

  datatype StoreManager<!D, !K> = StoreManager(
    addOperator: Option<AddOperator<D>>,
    retrieveOperator: Option<RetrieveOperator<D, K>>,
    deleteOperator: Option<RemoveOperator<K>>,
    updateOperator: Option<UpdateOperator<D>>)

  const AddNotConfiguredCode := "RBX_PSM_001"
  const UpdateNotConfiguredCode := "RBX_PSM_002"
  const RetrieveNotConfiguredCode := "RBX_PSM_003"
  const DeleteNotConfiguredCode := "RBX_PSM_004"

  const AddNotConfiguredMessage := "add functionality not configured for data type on store manager"
  const UpdateNotConfiguredMessage := "update functionality not configured for data type on store manager"
  const RetrieveNotConfiguredMessage := "retrieve by primary key not configured for data type on store manager"
  const DeleteNotConfiguredMessage := "delete functionality not configured for data type on store manager"

  /** `StoreManger::new`: no slot is configured. */
  function NewStoreManager<D, K>(): (r: StoreManager<D, K>)
    ensures r.addOperator.None? && r.retrieveOperator.None?
    ensures r.deleteOperator.None? && r.updateOperator.None?
  {
    StoreManager(None, None, None, None)
  }

  /** `add`: dispatch to the add slot. */
  function Add<D, K>(s: StoreManager<D, K>, data: D): (r: Result<D, BaseEngineError>)
    ensures s.addOperator.None? ==> r.Err? && GetErrorCode(r.error) == AddNotConfiguredCode
    ensures s.addOperator.Some? ==> r == s.addOperator.value(data)
  {
    match s.addOperator
    case None => Err(Errors.New(AddNotConfiguredMessage, AddNotConfiguredCode))
    case Some(operator) => operator(data)
  }

  /** `update`: dispatch to the update slot. */
  function Update<D, K>(s: StoreManager<D, K>, data: D): (r: Result<D, BaseEngineError>)
    ensures s.updateOperator.None? ==> r.Err? && GetErrorCode(r.error) == UpdateNotConfiguredCode
    ensures s.updateOperator.Some? ==> r == s.updateOperator.value(data)
  {
    match s.updateOperator
    case None => Err(Errors.New(UpdateNotConfiguredMessage, UpdateNotConfiguredCode))
    case Some(operator) => operator(data)
  }

  /** `retrieve`: dispatch to the retrieve slot. */
  function Retrieve<D, K>(s: StoreManager<D, K>, key: K): (r: Result<Option<D>, BaseEngineError>)
    ensures s.retrieveOperator.None? ==> r.Err? && GetErrorCode(r.error) == RetrieveNotConfiguredCode
    ensures s.retrieveOperator.Some? ==> r == s.retrieveOperator.value(key)
  {
    match s.retrieveOperator
    case None => Err(Errors.New(RetrieveNotConfiguredMessage, RetrieveNotConfiguredCode))
    case Some(operator) => operator(key)
  }

  /** `delete`: dispatch to the delete slot. */
  function Delete<D, K>(s: StoreManager<D, K>, key: K): (r: Result<bool, BaseEngineError>)
    ensures s.deleteOperator.None? ==> r.Err? && GetErrorCode(r.error) == DeleteNotConfiguredCode
    ensures s.deleteOperator.Some? ==> r == s.deleteOperator.value(key)
  {
    match s.deleteOperator
    case None => Err(Errors.New(DeleteNotConfiguredMessage, DeleteNotConfiguredCode))
    case Some(operator) => operator(key)
  }

  /** `set_add_operator`: afterwards add answers with the new operator and
      the other three operations answer as before. */
  function SetAddOperator<D(!new), K(!new)>(s: StoreManager<D, K>, operator: AddOperator<D>): (r: StoreManager<D, K>)
    ensures forall d :: Add(r, d) == operator(d)
    ensures forall d :: Update(r, d) == Update(s, d)
    ensures forall k :: Retrieve(r, k) == Retrieve(s, k)
    ensures forall k :: Delete(r, k) == Delete(s, k)
  {
    s.(addOperator := Some(operator))
  }

  /** `set_retrieve_operator`: only retrieve changes. */
  function SetRetrieveOperator<D(!new), K(!new)>(s: StoreManager<D, K>, operator: RetrieveOperator<D, K>): (r: StoreManager<D, K>)
    ensures forall k :: Retrieve(r, k) == operator(k)
    ensures forall d :: Add(r, d) == Add(s, d)
    ensures forall d :: Update(r, d) == Update(s, d)
    ensures forall k :: Delete(r, k) == Delete(s, k)
  {
    s.(retrieveOperator := Some(operator))
  }

  /** `set_update_operator`: only update changes. */
  function SetUpdateOperator<D(!new), K(!new)>(s: StoreManager<D, K>, operator: UpdateOperator<D>): (r: StoreManager<D, K>)
    ensures forall d :: Update(r, d) == operator(d)
    ensures forall d :: Add(r, d) == Add(s, d)
    ensures forall k :: Retrieve(r, k) == Retrieve(s, k)
    ensures forall k :: Delete(r, k) == Delete(s, k)
  {
    s.(updateOperator := Some(operator))
  }

  /** `set_delete_operator`: only delete changes. */
  function SetDeleteOperator<D(!new), K(!new)>(s: StoreManager<D, K>, operator: RemoveOperator<K>): (r: StoreManager<D, K>)
    ensures forall k :: Delete(r, k) == operator(k)
    ensures forall d :: Add(r, d) == Add(s, d)
    ensures forall d :: Update(r, d) == Update(s, d)
    ensures forall k :: Retrieve(r, k) == Retrieve(s, k)
  {
    s.(deleteOperator := Some(operator))
  }

  /** A fresh store manager refuses every operation, each with its own code. */
  lemma NewStoreManagerRefusesAll<D, K>(data: D, key: K)
    ensures Add(NewStoreManager<D, K>(), data) == Err(Errors.New(AddNotConfiguredMessage, AddNotConfiguredCode))
    ensures Update(NewStoreManager<D, K>(), data) == Err(Errors.New(UpdateNotConfiguredMessage, UpdateNotConfiguredCode))
    ensures Retrieve(NewStoreManager<D, K>(), key) == Err(Errors.New(RetrieveNotConfiguredMessage, RetrieveNotConfiguredCode))
    ensures Delete(NewStoreManager<D, K>(), key) == Err(Errors.New(DeleteNotConfiguredMessage, DeleteNotConfiguredCode))
  {
  }

  /** The four "not configured" codes are pairwise distinct, so a caller can
      tell from the code alone which slot was missing. */
  lemma NotConfiguredCodesDistinct()
    ensures |{AddNotConfiguredCode, UpdateNotConfiguredCode, RetrieveNotConfiguredCode, DeleteNotConfiguredCode}| == 4
  {
  }

  /** Setting a slot twice keeps only the second operator. */
  lemma LaterOperatorReplacesEarlier<D(!new), K(!new)>(s: StoreManager<D, K>,
                                           add1: AddOperator<D>, add2: AddOperator<D>,
                                           retrieve1: RetrieveOperator<D, K>, retrieve2: RetrieveOperator<D, K>,
                                           update1: UpdateOperator<D>, update2: UpdateOperator<D>,
                                           delete1: RemoveOperator<K>, delete2: RemoveOperator<K>)
    ensures SetAddOperator(SetAddOperator(s, add1), add2) == SetAddOperator(s, add2)
    ensures SetRetrieveOperator(SetRetrieveOperator(s, retrieve1), retrieve2) == SetRetrieveOperator(s, retrieve2)
    ensures SetUpdateOperator(SetUpdateOperator(s, update1), update2) == SetUpdateOperator(s, update2)
    ensures SetDeleteOperator(SetDeleteOperator(s, delete1), delete2) == SetDeleteOperator(s, delete2)
  {
  }
}
