/**
 * What an axios call yields to the page code. The transport is not modelled: every completion is
 * an input, either the resolved response body or the rejection the `catch` block receives.
 */
module Http {
  import opened Wrappers

  /**
   * A rejection as the `catch` blocks inspect it: `e.name`, whether `axios.isCancel(e)` holds,
   * and `e.response?.data?.message` (None when there was no response, no body, or no message).
   */
  datatype AxiosError = AxiosError(name: string, isCancel: bool, responseMessage: Option<string>)

  /** What a request rejects with once its AbortController has been aborted. */
  const Canceled := AxiosError("CanceledError", true, None)

  /** The `TypeError` thrown inside a `try` by reading `.data` of a null response body. */
  const NullBody := AxiosError("TypeError", false, None)

  /** A settled request: the parsed response body (`res.data`), or the rejection. */
  datatype Outcome<T> = Ok(body: T) | Failure(err: AxiosError)

  /** The backend's `{ status, message, data }` response body. */
  datatype Envelope<T> = Envelope(message: Option<string>, data: Option<T>)

  /**
   * `e.response?.data?.message || fallback`: the server's message when it sent a non-empty one,
   * otherwise the page's fixed text.
   */
  function MessageOr(err: AxiosError, fallback: string): (msg: string)
    ensures err.responseMessage.Some? && err.responseMessage.value != "" ==> msg == err.responseMessage.value
    ensures !(err.responseMessage.Some? && err.responseMessage.value != "") ==> msg == fallback
    ensures fallback != "" ==> msg != ""
  {
    match err.responseMessage
    case Some(m) => if m != "" then m else fallback
    case None => fallback
  }

  /** `res.data?.message || fallback` for a resolved request. */
  function BodyMessageOr<T>(body: Option<Envelope<T>>, fallback: string): (msg: string)
    ensures body.Some? && body.value.message.Some? && body.value.message.value != "" ==> msg == body.value.message.value
    ensures !(body.Some? && body.value.message.Some? && body.value.message.value != "") ==> msg == fallback
    ensures fallback != "" ==> msg != ""
  {
    if body.Some? && body.value.message.Some? && body.value.message.value != "" then body.value.message.value
    else fallback
  }
}
