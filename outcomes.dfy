// Value wrappers for absent values, thrown errors and replies of the local
// language-model service.
module Outcomes {

  datatype Option<+T> = None | Some(value: T) {
    function GetOr(default: T): T {
      match this
      case Some(v) => v
      case None => default
    }
  }

  /** The result of a step that may throw: its value, or the message of the thrown error. */
  datatype Outcome<+T> = Success(value: T) | Failure(msg: string)

  /**
   * What a `fetch` to the model service yields: the call throws (or the body is not
   * the expected JSON), the service answers with a non-OK status, or it answers OK
   * and `data.response` is the generated text.
   */
  datatype HttpReply =
    | NetworkError(error: string)
    | HttpError(status: int, statusText: string)
    | HttpOk(response: string)
}
