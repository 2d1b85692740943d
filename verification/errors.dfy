/** The engine's error value (core/src/errors.rs).

    Every `Box<dyn EngineError>` of the engine is observed only through
    `get_message` and `get_error_code`, and the trait has no setters, so an
    engine error is modelled as the immutable pair of those two strings. */
module Errors {

  datatype BaseEngineError = BaseEngineError(message: string, errorCode: string)

  /** `BaseEngineError::new`: both arguments are stored as given. */
  function New(message: string, errorCode: string): (e: BaseEngineError)
    ensures GetMessage(e) == message
    ensures GetErrorCode(e) == errorCode
  {
    BaseEngineError(message, errorCode)
  }

  function GetMessage(e: BaseEngineError): string {
    e.message
  }

  function GetErrorCode(e: BaseEngineError): string {
    e.errorCode
  }

  /** An error is fully determined by what its two getters report. */
  lemma GettersDetermineError(e1: BaseEngineError, e2: BaseEngineError)
    ensures e1 == e2 <==> GetMessage(e1) == GetMessage(e2) && GetErrorCode(e1) == GetErrorCode(e2)
  {
  }

  /** Rebuilding an error from its getters gives back the same error. */
  lemma NewFromGettersRoundTrip(e: BaseEngineError)
    ensures New(GetMessage(e), GetErrorCode(e)) == e
  {
  }

  /** The message does not depend on the code argument, and the code does not
      depend on the message argument. */
  lemma MessageAndCodeIndependent(m1: string, m2: string, c1: string, c2: string)
    ensures GetMessage(New(m1, c1)) == GetMessage(New(m1, c2))
    ensures GetErrorCode(New(m1, c1)) == GetErrorCode(New(m2, c1))
  {
  }
}
