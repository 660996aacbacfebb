/**
 * The Next.js `POST` route: it checks that the API key is configured, that the
 * body carries a `messages` array, puts a fixed system message in front of the
 * client's messages, and maps the completion (or any thrown failure) to a reply.
 */
module ChatRoute {
  import opened Wrappers
  import opened Wire

  const SystemPrompt := "You are a helpful AI assistant. You provide clear, concise, and accurate responses. When providing code examples, you include proper syntax highlighting and explanations."

  const KeyMissing := "Groq API key is not configured. Please set GROQ_API_KEY in your environment variables."
  const BadRequest := "Invalid request format. Messages array is required."
  const FailedRequest := "Failed to process request"
  const UnknownError := "Unknown error occurred"

  /**
   * The `messages` property of the parsed body: `Falsy` when it is absent or any
   * falsy value, `NotArray` for a truthy non-array, `Items` for an array.
   */
  datatype MessagesField = Falsy | NotArray | Items(items: seq<Turn>)

  /**
   * The request body: `Unparsable` when `req.json()` or the destructuring of its
   * result throws, carrying what was thrown.
   */
  datatype RequestBody = Unparsable(error: JsError) | Parsed(messages: MessagesField)

  /**
   * How the completion call and the reading of its result end: the content of
   * the first choice, or what was thrown (a network failure, a body that is not
   * JSON, a body without `choices[0].message`).
   */
  datatype Completion = Completed(content: string) | Failed(error: JsError)

  /** The route's reply and the message list it posted upstream, if it got that far. */
  datatype Outcome = Outcome(reply: Reply, sent: Option<seq<Turn>>)

  /** The `details` of the catch-all reply. */
  function Details(error: JsError): (details: string)
    ensures error.ErrorObject? ==> details == error.message
    ensures error.NonError? ==> details == UnknownError
  {
    match error
    case ErrorObject(m) => m
    case NonError => UnknownError
  }

  /** The catch-all reply for anything thrown inside the handler. */
  function Failure(error: JsError): Reply
  {
    Err(500, FailedRequest, Some(Details(error)))
  }

  /** The route's decision, from whether the key is set, the body and the completion. */
  function Post(keyConfigured: bool, body: RequestBody, completion: Completion): (r: Outcome)
    ensures r.sent.Some? <==> keyConfigured && body.Parsed? && body.messages.Items?
    ensures r.sent.Some? ==> r.sent.value == [Turn("system", SystemPrompt)] + body.messages.items
    ensures r.reply.Ok? <==> r.sent.Some? && completion.Completed?
    ensures r.reply.Ok? ==> r.reply.field == completion.content
    ensures r.reply.Status() in {200, 400, 500}
    ensures r.reply.Status() == 400 <==> keyConfigured && body.Parsed? && !body.messages.Items?
  {
    if !keyConfigured then
      Outcome(Err(500, KeyMissing, None), None)
    else
      match body
      case Unparsable(e) => Outcome(Failure(e), None)
      case Parsed(field) =>
        if !field.Items? then
          Outcome(Err(400, BadRequest, None), None)
        else
          var messages := [Turn("system", SystemPrompt)] + field.items;
          match completion
          case Completed(content) => Outcome(Ok(content), Some(messages))
          case Failed(e) => Outcome(Failure(e), Some(messages))
  }

  /** Without a key the reply is the same fixed 500 whatever the body and the completion. */
  lemma KeyCheckedFirst(body: RequestBody, completion: Completion, body': RequestBody, completion': Completion)
    ensures Post(false, body, completion) == Post(false, body', completion')
    ensures Post(false, body, completion).reply == Err(500, KeyMissing, None)
  {
  }

  /** A missing or non-array `messages` is a 400 with the fixed message, and nothing is sent. */
  lemma InvalidMessagesRejected(field: MessagesField, completion: Completion)
    requires !field.Items?
    ensures Post(true, Parsed(field), completion) == Outcome(Err(400, BadRequest, None), None)
  {
  }

  /** The client's messages reach the completion API after the system message, unchanged and in order. */
  lemma MessagesForwarded(items: seq<Turn>, completion: Completion)
    ensures var sent := Post(true, Parsed(Items(items)), completion).sent;
      sent.Some? && |sent.value| == |items| + 1 && sent.value[0] == Turn("system", SystemPrompt)
      && sent.value[1..] == items
  {
  }

  /**
   * Every failure after the key check is the catch-all 500: a body that cannot be
   * read, or a completion that throws.
   */
  lemma FailuresMapped(body: RequestBody, completion: Completion)
    requires body.Unparsable? || (body.Parsed? && body.messages.Items? && completion.Failed?)
    ensures var reply := Post(true, body, completion).reply;
      reply.Err? && reply.status == 500 && reply.error == FailedRequest
      && reply.details == Some(Details(if body.Unparsable? then body.error else completion.error))
  {
  }
}
