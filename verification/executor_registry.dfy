/** `PipeExecutorManager` (pipelines/src/pipeline_executor.rs, and its copy
    in pipelines/src/pipeline.rs): a string-keyed registry of executors,
    generic here in the executor type `E`. Executors are shared `Rc` handles
    in the source; here a lookup returns the registered value itself. */
module ExecutorRegistry {
  import opened Results
  import opened Errors

  datatype PipeExecutorManager<E> = PipeExecutorManager(executors: map<string, E>)

  const ExecutorNotFoundCode := "RBX_CPL_001"
  const ExecutorNotFoundMessage := "Executor not found"

  /** `get_executor`: the registered executor, or the fixed not-found error. */
  function GetExecutor<E>(m: PipeExecutorManager<E>, name: string): (r: Result<E, BaseEngineError>)
    ensures r.Ok? <==> name in m.executors
    ensures r.Ok? ==> r.value == m.executors[name]
    ensures r.Err? ==> GetErrorCode(r.error) == ExecutorNotFoundCode && GetMessage(r.error) == ExecutorNotFoundMessage
  {
    if name in m.executors then Ok(m.executors[name]) else Err(Errors.New(ExecutorNotFoundMessage, ExecutorNotFoundCode))
  }

  /** `add_executor`: never fails; the name resolves to the new executor
      afterwards and every other name resolves as before. */
  function AddExecutor<E>(m: PipeExecutorManager<E>, name: string, executor: E): (r: (PipeExecutorManager<E>, Result<(), BaseEngineError>))
    ensures r.1 == Ok(())
    ensures GetExecutor(r.0, name) == Ok(executor)
    ensures forall other :: other != name ==> GetExecutor(r.0, other) == GetExecutor(m, other)
  {
    (PipeExecutorManager(m.executors[name := executor]), Ok(()))
  }

  /** Registering the same name twice keeps only the second executor. */
  lemma ReRegistrationOverwrites<E>(m: PipeExecutorManager<E>, name: string, first: E, second: E)
    ensures AddExecutor(AddExecutor(m, name, first).0, name, second).0 == AddExecutor(m, name, second).0
  {
  }

  /** The not-found error does not mention the name that was asked for. */
  lemma NotFoundErrorIgnoresName<E>(m: PipeExecutorManager<E>, name1: string, name2: string)
    requires name1 !in m.executors && name2 !in m.executors
    ensures GetExecutor(m, name1) == GetExecutor(m, name2)
  {
  }

  /** A sequence of `add_executor(..)?` calls, made in order: the first
      failing registration would stop the sequence and be its result. Since
      `add_executor` never fails, the whole sequence returns `Ok(())`. */
  function RegisterAll<E>(m: PipeExecutorManager<E>, bindings: seq<(string, E)>): (r: (PipeExecutorManager<E>, Result<(), BaseEngineError>))
    ensures r.1 == Ok(())
    decreases |bindings|
  {
    if |bindings| == 0 then
      (m, Ok(()))
    else
      var (next, added) := AddExecutor(m, bindings[0].0, bindings[0].1);
      if added.Err? then (next, added) else RegisterAll(next, bindings[1..])
  }

  /** Reference definition: the executor of the last binding for `name`, if any. */
  function LastBinding<E>(bindings: seq<(string, E)>, name: string): Option<E>
    decreases |bindings|
  {
    if |bindings| == 0 then None
    else if bindings[|bindings| - 1].0 == name then Some(bindings[|bindings| - 1].1)
    else LastBinding(bindings[..|bindings| - 1], name)
  }

  /** The last binding of a non-empty sequence, read from its front. */
  lemma {:induction false} LastBindingFromFront<E>(bindings: seq<(string, E)>, name: string)
    requires |bindings| > 0
    ensures LastBinding(bindings, name) ==
              if LastBinding(bindings[1..], name).Some? then LastBinding(bindings[1..], name)
              else if bindings[0].0 == name then Some(bindings[0].1)
              else None
    decreases |bindings|
  {
    var n := |bindings|;
    if n == 1 {
      assert bindings[1..] == [];
      assert bindings[..0] == [];
    } else if bindings[n - 1].0 != name {
      var prefix := bindings[..n - 1];
      assert bindings[1..][..n - 2] == prefix[1..];
      LastBindingFromFront(prefix, name);
      assert prefix[0] == bindings[0];
    }
  }

  /** A name is left without a binding exactly when no element names it. */
  lemma {:induction false} LastBindingNoneIffAbsent<E>(bindings: seq<(string, E)>, name: string)
    ensures LastBinding(bindings, name).None? <==> forall i :: 0 <= i < |bindings| ==> bindings[i].0 != name
    decreases |bindings|
  {
    if |bindings| > 0 {
      var prefix := bindings[..|bindings| - 1];
      LastBindingNoneIffAbsent(prefix, name);
      assert forall i :: 0 <= i < |prefix| ==> prefix[i] == bindings[i];
    }
  }

  /** Last registration wins: after a sequence of registrations a name
      resolves to the executor of its last binding, and names never bound
      resolve as they did before. */
  lemma {:induction false} LastRegistrationWins<E>(m: PipeExecutorManager<E>, bindings: seq<(string, E)>, name: string)
    ensures GetExecutor(RegisterAll(m, bindings).0, name) ==
              match LastBinding(bindings, name)
              case Some(e) => Ok(e)
              case None => GetExecutor(m, name)
    decreases |bindings|
  {
    if |bindings| > 0 {
      var next := AddExecutor(m, bindings[0].0, bindings[0].1).0;
      LastRegistrationWins(next, bindings[1..], name);
      LastBindingFromFront(bindings, name);
    }
  }

  /** A name none of the registrations mentions keeps its earlier binding, or lack of one. */
  lemma UnmentionedNameUnchanged<E>(m: PipeExecutorManager<E>, bindings: seq<(string, E)>, name: string)
    requires forall i :: 0 <= i < |bindings| ==> bindings[i].0 != name
    ensures GetExecutor(RegisterAll(m, bindings).0, name) == GetExecutor(m, name)
  {
    LastBindingNoneIffAbsent(bindings, name);
    LastRegistrationWins(m, bindings, name);
  }
}
