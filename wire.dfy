/**
 * Values that cross the boundaries of the three pieces of the system: chat turns as
 * they are sent to a completion API, what a JavaScript `catch` clause receives, and
 * the JSON replies the two HTTP handlers produce.
 */
module Wire {
  import opened Wrappers

  /** One `{role, content}` object of a chat-completion request. */
  datatype Turn = Turn(role: string, content: string)

  /**
   * What a JavaScript `catch (error)` clause receives: an `Error` object (whose
   * `message` the handlers read) or any other thrown value.
   */
  datatype JsError = ErrorObject(message: string) | NonError

  /**
   * A JSON reply of an HTTP handler. `Ok` is a 200 reply carrying one text field
   * (`response` in the Flask handler, `content` in the Next.js route); `Err` is
   * `{error, details?}` with its status code.
   */
  datatype Reply = Ok(field: string) | Err(status: nat, error: string, details: Option<string>)
  {
    /** The HTTP status code the reply is sent with. */
    function Status(): nat {
      if Ok? then 200 else status
    }
  }
}
