/** The exceptions the SRFax client raises, as values it returns. */
module Errors {
  import opened Values

  /** The symbolic codes an `SRFaxError` carries. */
  datatype ErrorCode = RequestFailed | InvalidResponse

  /** What an `SRFaxError` says: a fixed text, a text about a value, or a value from the reply. */
  datatype Message =
    | Note(text: string)
    | NoteAbout(text: string, subject: Value)
    | Payload(value: Value)

  /**
   * An exception: the library's own `SRFaxError` with its error code, message,
   * optional cause and retry hint, or one of the built-in Python exceptions the
   * client raises or lets through.
   */
  datatype Error =
    | SRFaxError(errorCode: ErrorCode, message: Message, cause: Option<Error>, retry: bool)
    | TypeError(text: string)
    | ValueError(text: string)
    | KeyError(text: string)
    | AttributeError(text: string)
    | UnicodeEncodeError(text: string)
    | Exception(text: string)
  {
    /** Whether the caller should try the request again; only an `SRFaxError` can say yes. */
    predicate ShouldRetry() {
      SRFaxError? && retry
    }
  }

  /** A value, or the exception raised instead of returning it. */
  datatype Result<T> = Ok(value: T) | Err(error: Error)

  /** A check that returns nothing, or the exception it raised. */
  datatype Outcome = Pass | Fail(error: Error)
}
