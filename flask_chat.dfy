/**
 * The Flask chat handler: it validates the request, sends the system prompt, the
 * remembered conversation and the new message to the completion API, and on a
 * successful reply remembers the new user/assistant pair in a window of at most
 * ten turns kept at module level.
 */
module FlaskChat {
  import opened Wrappers
  import opened Wire

  const SystemPrompt := "You are a helpful AI assistant. You provide clear, concise, and accurate responses. Keep your responses natural and conversational. If you're not sure about something, be honest about it."

  /** The most turns the remembered conversation keeps. */
  const MaxHistory := 10

  const KeyMissing := "Groq API key is not configured"
  const KeyHint := "Please set GROQ_API_KEY in your .env file"
  const NoMessage := "No message provided"

  /**
   * The request as the handler reads it: `Unreadable` when reading the JSON body
   * or looking up its field raises (carrying the exception's text), `Json` with the
   * string `message` field when there is one.
   */
  datatype RequestBody = Unreadable(error: string) | Json(message: Option<string>)

  /**
   * The parsed body of a 200 reply: the first choice's message content, or the
   * text of the exception raised while decoding the body or indexing into it.
   */
  datatype Payload = Content(content: string) | Malformed(error: string)

  /**
   * How the POST to the completion API ends: an answer with its status code,
   * payload and raw text, or the text of the exception the call raised.
   */
  datatype Upstream = Answered(status: nat, payload: Payload, text: string) | Raised(error: string)

  /** The `message` field is truthy: present and not empty. */
  predicate Provided(message: Option<string>)
  {
    message.Some? && message.value != ""
  }

  /**
   * The remembered conversation is well formed: an even number of at most ten
   * turns alternating user, assistant, starting with a user turn.
   */
  predicate IsWindow(h: seq<Turn>)
  {
    |h| <= MaxHistory && |h| % 2 == 0
    && forall i :: 0 <= i < |h| ==> h[i].role == (if i % 2 == 0 then "user" else "assistant")
  }

  /**
   * The remembered conversation after a successful turn: the pair is appended, and
   * if that makes it longer than ten turns the two oldest are dropped.
   */
  function Recorded(h: seq<Turn>, message: string, reply: string): (r: seq<Turn>)
    ensures |r| >= 2 && r[|r| - 2] == Turn("user", message) && r[|r| - 1] == Turn("assistant", reply)
    ensures |h| + 2 <= MaxHistory ==> r[..|r| - 2] == h
    ensures |h| + 2 > MaxHistory ==> r[..|r| - 2] == h[2..]
  {
    var grown := h + [Turn("user", message), Turn("assistant", reply)];
    if |grown| > MaxHistory then grown[2..] else grown
  }

  /**
   * A successful turn keeps the conversation a window: trimming happens exactly
   * when the window is full, and then its length stays at ten.
   */
  lemma RecordedKeepsWindow(h: seq<Turn>, message: string, reply: string)
    requires IsWindow(h)
    ensures IsWindow(Recorded(h, message, reply))
    ensures |h| < MaxHistory ==> |Recorded(h, message, reply)| == |h| + 2
    ensures |h| == MaxHistory ==> |Recorded(h, message, reply)| == MaxHistory
  {
    var r := Recorded(h, message, reply);
    var grown := h + [Turn("user", message), Turn("assistant", reply)];
    forall i | 0 <= i < |grown|
      ensures grown[i].role == (if i % 2 == 0 then "user" else "assistant")
    {
      if i >= |h| {
        assert i == |h| || i == |h| + 1;
      }
    }
    if |grown| > MaxHistory {
      forall i | 0 <= i < |r|
        ensures r[i].role == (if i % 2 == 0 then "user" else "assistant")
      {
        assert r[i] == grown[i + 2];
        assert (i + 2) % 2 == i % 2;
      }
    }
  }

  /** The handler together with the module-level state it keeps between requests. */
  class ChatServer {
    /** Whether GROQ_API_KEY was set to a non-empty value when the module loaded. */
    const keyConfigured: bool

    /** The module-level `conversation_history`. */
    var history: seq<Turn>

    ghost predicate Valid()
      reads this
    {
      IsWindow(history)
    }

    /** The module as loaded: nothing remembered yet. */
    constructor (keyConfigured: bool)
      ensures Valid()
      ensures this.keyConfigured == keyConfigured && history == []
    {
      this.keyConfigured := keyConfigured;
      history := [];
    }

    /**
     * Handles one POST to `/api/chat`. `sent` is the message list posted to the
     * completion API, `None` when the handler answers before calling it.
     */
    method Chat(body: RequestBody, upstream: Upstream) returns (reply: Reply, sent: Option<seq<Turn>>)
      requires Valid()
      modifies this
      ensures Valid()
      ensures !reply.Ok? ==> history == old(history)
      ensures !keyConfigured ==> reply == Err(500, KeyMissing, Some(KeyHint)) && sent.None?
      ensures keyConfigured && body.Unreadable? ==> reply == Err(500, body.error, None) && sent.None?
      ensures keyConfigured && body.Json? && !Provided(body.message) ==>
        reply == Err(400, NoMessage, None) && sent.None?
      ensures sent.Some? <==> keyConfigured && body.Json? && Provided(body.message)
      ensures sent.Some? ==>
        sent.value == [Turn("system", SystemPrompt)] + old(history) + [Turn("user", body.message.value)]
      ensures sent.Some? && upstream.Raised? ==> reply == Err(500, upstream.error, None)
      ensures sent.Some? && upstream.Answered? && upstream.status != 200 ==>
        reply == Err(upstream.status, "API Error: " + upstream.text, None)
      ensures sent.Some? && upstream.Answered? && upstream.status == 200 && upstream.payload.Malformed? ==>
        reply == Err(500, upstream.payload.error, None)
      ensures sent.Some? && upstream.Answered? && upstream.status == 200 && upstream.payload.Content? ==>
        reply == Ok(upstream.payload.content)
        && history == Recorded(old(history), body.message.value, upstream.payload.content)
    {
      sent := None;
      if !keyConfigured {
        reply := Err(500, KeyMissing, Some(KeyHint));
        return;
      }
      if body.Unreadable? {
        reply := Err(500, body.error, None);
        return;
      }
      var userMessage := if body.message.Some? then body.message.value else "";
      if userMessage == "" {
        reply := Err(400, NoMessage, None);
        return;
      }
      var messages := [Turn("system", SystemPrompt)];
      messages := messages + history;
      messages := messages + [Turn("user", userMessage)];
      sent := Some(messages);
      match upstream {
        case Raised(e) =>
          reply := Err(500, e, None);
        case Answered(status, payload, text) =>
          if status == 200 {
            match payload {
              case Malformed(e) =>
                reply := Err(500, e, None);
              case Content(botMessage) =>
                ghost var before := history;
                history := history + [Turn("user", userMessage)];
                history := history + [Turn("assistant", botMessage)];
                if |history| > MaxHistory {
                  history := history[1..];
                  history := history[1..];
                }
                assert history == Recorded(before, userMessage, botMessage);
                RecordedKeepsWindow(before, userMessage, botMessage);
                reply := Ok(botMessage);
            }
          } else {
            reply := Err(status, "API Error: " + text, None);
          }
      }
    }
  }
}
