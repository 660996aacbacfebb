/**
 * The contract between the chat page and the Flask handler it posts to: the page
 * sends `{message}` and reads `response` (or `error`) from the JSON it gets back.
 */
module ClientBackend {
  import opened Wrappers
  import opened Wire
  import opened Text
  import ChatView
  import FlaskChat

  /**
   * How the page's `fetch` sees a reply of the Flask handler. Every reply body is
   * a JSON object, and `response.ok` holds for a 2xx status.
   */
  function Delivered(reply: Reply): (seen: ChatView.Fetch)
    ensures reply.Ok? ==> seen == ChatView.Fetch.Ok(Some(reply.field))
    ensures reply.Err? && 200 <= reply.status < 300 ==> seen == ChatView.Fetch.Ok(None)
    ensures reply.Err? && !(200 <= reply.status < 300) ==>
      seen == ChatView.HttpError(Some(reply.error), reply.status)
  {
    match reply
    case Ok(text) => ChatView.Fetch.Ok(Some(text))
    case Err(status, error, _) =>
      if 200 <= status < 300 then ChatView.Fetch.Ok(None) else ChatView.HttpError(Some(error), status)
  }

  /** A non-blank input, once sent, is a message the handler accepts. */
  lemma SentInputIsProvided(input: string)
    requires Trim(input) != ""
    ensures FlaskChat.Provided(Some(input))
  {
    TrimEmptyIffBlank(input);
  }

  /** A non-empty bot message is shown as the assistant's reply as it is. */
  lemma ReplyShown(text: string)
    requires text != ""
    ensures ChatView.AssistantReply(Delivered(Ok(text))) == text
  {
  }

  /** An empty bot message is shown as an error, though the handler remembered the turn. */
  lemma EmptyReplyShownAsError()
    ensures ChatView.AssistantReply(Delivered(Ok(""))) == "Error: " + ChatView.InvalidFormat
  {
  }

  /** An error reply with a non-2xx status is shown as its `error` text after "Error: ". */
  lemma ErrorShown(status: nat, error: string, details: Option<string>)
    requires !(200 <= status < 300) && error != ""
    ensures ChatView.AssistantReply(Delivered(Err(status, error, details))) == "Error: " + error
  {
  }

  /**
   * An error reply that passes on a 2xx upstream status other than 200 reads as
   * a success without `response`, so the page shows the format error instead.
   */
  lemma TwoHundredErrorShownAsFormatError(status: nat, error: string, details: Option<string>)
    requires 200 <= status < 300
    ensures ChatView.AssistantReply(Delivered(Err(status, error, details))) == "Error: " + ChatView.InvalidFormat
  {
  }
}
