/** Errors reported by the wallet provider, and the message the error banner shows. */
module RpcErrors {
  import opened Wrappers

  /** The code a wallet reports when the user cancels a transaction in its dialog. */
  const ERROR_CODE_TX_REJECTED_BY_USER: int := 4001

  /** The structured part some providers nest under `error.data`. */
  datatype ErrorData = ErrorData(message: Option<string>)

  /** A provider error: `code`, `message` and the optional nested `data` record. */
  datatype RpcError = RpcError(code: Option<int>, message: Option<string>, data: Option<ErrorData>)

  /** `e.code === ERROR_CODE_TX_REJECTED_BY_USER`; an error without a code never matches. */
  predicate IsUserRejection(e: RpcError) {
    e.code == Some(ERROR_CODE_TX_REJECTED_BY_USER)
  }

  /** `_getRpcErrorMessage`: the human-readable text of a provider error. The shown text is
      always one the provider supplied, and a nested record takes precedence over the
      top-level message even when the nested record carries no message of its own. */
  function GetRpcErrorMessage(error: RpcError): (m: Option<string>)
    ensures m == error.message || (error.data.Some? && m == error.data.value.message)
    ensures error.data.Some? ==> m == error.data.value.message
    ensures error.data.None? ==> m == error.message
  {
    if error.data.Some? then error.data.value.message else error.message
  }

}
