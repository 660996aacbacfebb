/**
 * The conversation state of the chat page component: its messages, input box,
 * processing flag, chat histories and sessions, current chat id and theme, with
 * each event handler and the history-snapshot effect as a method, and the pure
 * helpers the component uses (title derivation, code-fence splitting).
 */
module ChatView {
  import opened Wrappers
  import opened Text
  import opened Wire

  datatype Role = User | Assistant

  /** A conversation turn; `timestamp` stands for the `Date` it was created at. */
  datatype Message = Message(role: Role, content: string, timestamp: int)

  /**
   * A saved conversation. The component declares two interfaces of this one shape,
   * `ChatHistory` and `ChatSession`.
   */
  datatype Chat = Chat(id: string, title: string, messages: seq<Message>, timestamp: int)

  type ChatHistory = Chat
  type ChatSession = Chat

  // ---------------------------------------------------------------------------
  // Title derivation

  /** Titles keep at most this many leading characters of the first message. */
  const TitleLength := 30

  /** The title of a conversation whose first message has the given content. */
  function Title(content: string): (title: string)
    ensures |content| <= TitleLength ==> title == content
    ensures |content| > TitleLength ==>
      |title| == TitleLength + 3 && title[..TitleLength] == content[..TitleLength]
      && title[TitleLength..] == "..."
    ensures |title| <= TitleLength + 3
  {
    var kept := if |content| <= TitleLength then content else content[..TitleLength];
    kept + (if |content| > TitleLength then "..." else "")
  }

  // ---------------------------------------------------------------------------
  // Code fences in rendered content

  /** The delimiter message content is split on. */
  const Fence := "```"

  /** A rendered piece of message content. */
  datatype Segment = Prose(text: string) | Code(language: string, code: string)

  /**
   * A code segment: the text before its first line break is the language tag and
   * the lines after it, joined back with line breaks, are the code.
   */
  function CodeBlock(part: string): (block: Segment)
    ensures block.Code?
    ensures '\n' !in block.language
    ensures '\n' in part ==> block.language + "\n" + block.code == part
    ensures '\n' !in part ==> block.language == part && block.code == ""
  {
    var lines := Split(part, "\n");
    SplitJoin(part, "\n");
    SplitOnCharAvoids(part, '\n', 0);
    assert |lines| > 1 ==> Join(lines, "\n") == lines[0] + "\n" + Join(lines[1..], "\n");
    Code(lines[0], Join(lines[1..], "\n"))
  }

  /**
   * The segments of message content: the pieces between fences, even-numbered ones
   * shown as prose and odd-numbered ones as code blocks.
   */
  function Segments(content: string): (segments: seq<Segment>)
    ensures |segments| == Count(content, Fence) + 1
    ensures forall i :: 0 <= i < |segments| ==> (segments[i].Prose? <==> i % 2 == 0)
    ensures forall i :: 0 <= i < |segments| && segments[i].Prose? ==>
      forall j: nat :: !OccursAt(segments[i].text, Fence, j)
  {
    var parts := Split(content, Fence);
    SplitCount(content, Fence);
    SplitPiecesAvoid(content, Fence);
    seq(|parts|, i requires 0 <= i < |parts| =>
      if i % 2 == 0 then Prose(parts[i]) else CodeBlock(parts[i]))
  }

  /** The segments are the fence-separated pieces, which join back to the content. */
  lemma {:induction false} SegmentsRoundTrip(content: string)
    ensures |Segments(content)| == |Split(content, Fence)|
    ensures Join(Split(content, Fence), Fence) == content
    ensures forall i :: 0 <= i < |Segments(content)| && i % 2 == 0 ==>
      Segments(content)[i] == Prose(Split(content, Fence)[i])
    ensures forall i :: 0 <= i < |Segments(content)| && i % 2 == 1 ==>
      Segments(content)[i] == CodeBlock(Split(content, Fence)[i])
  {
    SplitJoin(content, Fence);
    SplitCount(content, Fence);
  }

  // ---------------------------------------------------------------------------
  // Deleting chats by id

  /** `chats.filter(c => c.id !== id)`. */
  function WithoutId(chats: seq<Chat>, id: string): (kept: seq<Chat>)
    ensures forall c :: c in kept <==> c in chats && c.id != id
    ensures |kept| <= |chats|
  {
    if chats == [] then []
    else if chats[0].id == id then WithoutId(chats[1..], id)
    else [chats[0]] + WithoutId(chats[1..], id)
  }

  /** `sub` is `s` with some elements left out and the rest in their original order. */
  predicate IsSubsequence<T(==)>(sub: seq<T>, s: seq<T>)
    decreases |s|
  {
    if sub == [] then true
    else if s == [] then false
    else if sub[0] == s[0] then IsSubsequence(sub[1..], s[1..])
    else IsSubsequence(sub, s[1..])
  }

  /** Putting an element in front of a sequence keeps every subsequence of it one. */
  lemma {:induction false} SubsequenceSkip<T>(sub: seq<T>, x: T, s: seq<T>)
    requires IsSubsequence(sub, s)
    ensures IsSubsequence(sub, [x] + s)
    decreases |s|, 1
  {
    assert ([x] + s)[1..] == s;
    if sub != [] && sub[0] == x {
      SubsequenceTail(sub, s);
    }
  }

  /** Dropping the first element of a subsequence keeps it a subsequence. */
  lemma {:induction false} SubsequenceTail<T>(sub: seq<T>, s: seq<T>)
    requires sub != [] && IsSubsequence(sub, s)
    ensures IsSubsequence(sub[1..], s)
    decreases |s|, 0
  {
    assert [s[0]] + s[1..] == s;
    if sub[0] == s[0] {
      SubsequenceSkip(sub[1..], s[0], s[1..]);
    } else {
      SubsequenceTail(sub, s[1..]);
      SubsequenceSkip(sub[1..], s[0], s[1..]);
    }
  }

  /**
   * Deleting by id keeps the other chats in their original relative order, each as
   * often as it was there, and removes every copy of a chat with that id.
   */
  lemma {:induction false} WithoutIdExact(chats: seq<Chat>, id: string)
    ensures IsSubsequence(WithoutId(chats, id), chats)
    ensures forall c ::
              multiset(WithoutId(chats, id))[c] == if c.id == id then 0 else multiset(chats)[c]
  {
    if chats != [] {
      WithoutIdExact(chats[1..], id);
      assert chats == [chats[0]] + chats[1..];
      if chats[0].id != id {
        assert ([chats[0]] + WithoutId(chats[1..], id))[1..] == WithoutId(chats[1..], id);
      } else {
        SubsequenceSkip(WithoutId(chats[1..], id), chats[0], chats[1..]);
      }
    }
  }

  /** Deleting an id no chat has changes nothing. */
  lemma {:induction false} WithoutAbsentId(chats: seq<Chat>, id: string)
    requires forall c :: c in chats ==> c.id != id
    ensures WithoutId(chats, id) == chats
  {
    if chats != [] {
      WithoutAbsentId(chats[1..], id);
      assert chats == [chats[0]] + chats[1..];
    }
  }

  /** Deleting the same id twice is deleting it once. */
  lemma {:induction false} WithoutIdIdempotent(chats: seq<Chat>, id: string)
    ensures WithoutId(WithoutId(chats, id), id) == WithoutId(chats, id)
  {
    WithoutAbsentId(WithoutId(chats, id), id);
  }

  // ---------------------------------------------------------------------------
  // The backend reply as the page sees it

  /**
   * What the `fetch` to the chat backend ends in. `Ok` is a 2xx reply whose JSON
   * body parsed, carrying its `response` field if there is a string one;
   * `HttpError` is a non-2xx reply whose JSON body parsed, carrying its `error`
   * field; `Thrown` is every rejection (network failure, a body that is not JSON).
   */
  datatype Fetch =
    | Ok(responseField: Option<string>)
    | HttpError(errorField: Option<string>, status: nat)
    | Thrown(error: JsError)

  /** The backend answered with a usable (truthy) `response`. */
  predicate Answered(outcome: Fetch)
  {
    outcome.Ok? && outcome.responseField.Some? && outcome.responseField.value != ""
  }

  /** The message raised when the reply has no usable `response`. */
  const InvalidFormat := "Invalid response format from server"

  /** The message shown when something other than an `Error` was thrown. */
  const FailedRequest := "Failed to process request"

  /** What the `try` block of a send throws, or `None` when it completes. */
  function Raised(outcome: Fetch): (thrown: Option<JsError>)
    ensures thrown.None? <==> Answered(outcome)
  {
    match outcome
    case Ok(field) =>
      if field.Some? && field.value != "" then None else Some(ErrorObject(InvalidFormat))
    case HttpError(field, status) =>
      if field.Some? && field.value != "" then Some(ErrorObject(field.value))
      else Some(ErrorObject("HTTP error! status: " + Decimal(status)))
    case Thrown(e) => Some(e)
  }

  /** The content of the assistant message a send ends with. */
  function AssistantReply(outcome: Fetch): (content: string)
    ensures Answered(outcome) ==> content == outcome.responseField.value
    ensures !Answered(outcome) ==> "Error: " <= content
    ensures outcome.HttpError? && outcome.errorField.Some? && outcome.errorField.value != "" ==>
      content == "Error: " + outcome.errorField.value
    ensures outcome.HttpError? && (outcome.errorField.None? || outcome.errorField.value == "") ==>
      content == "Error: HTTP error! status: " + Decimal(outcome.status)
    ensures outcome.Ok? && !Answered(outcome) ==> content == "Error: " + InvalidFormat
    ensures outcome.Thrown? && outcome.error.ErrorObject? ==> content == "Error: " + outcome.error.message
    ensures outcome.Thrown? && outcome.error.NonError? ==> content == "Error: " + FailedRequest
  {
    match Raised(outcome)
    case None => outcome.responseField.value
    case Some(ErrorObject(m)) => "Error: " + m
    case Some(NonError) => "Error: " + FailedRequest
  }

  // ---------------------------------------------------------------------------
  // Theme

  const Light := "light"
  const Dark := "dark"

  /** The theme read at start-up: the stored value, or light when none (or an empty one) is stored. */
  function InitialTheme(stored: Option<string>): (theme: string)
    ensures theme != ""
    ensures stored.Some? && stored.value != "" ==> theme == stored.value
    ensures stored.None? || stored.value == "" ==> theme == Light
  {
    if stored.Some? && stored.value != "" then stored.value else Light
  }

  /** The theme after a toggle: light becomes dark, anything else becomes light. */
  function Toggled(theme: string): (next: string)
    ensures next != theme
    ensures next == Light || next == Dark
    ensures next == Dark <==> theme == Light
  {
    if theme == Light then Dark else Light
  }

  /** Toggling twice returns to a light or dark theme. */
  lemma ToggleTwice(theme: string)
    requires theme == Light || theme == Dark
    ensures Toggled(Toggled(theme)) == theme
  {
  }

  // ---------------------------------------------------------------------------
  // The component state

  /** The messages end with an assistant turn, which is when a history is saved. */
  predicate EndsWithReply(messages: seq<Message>)
  {
    |messages| > 0 && messages[|messages| - 1].role == Assistant
  }

  /**
   * Which saved entry's own message array the page is showing. React re-runs the
   * snapshot effect only when `messages` becomes a different array (`Object.is`),
   * so loading the entry already shown files nothing.
   */
  datatype Shown = ShownHistory(history: ChatHistory) | ShownSession(session: ChatSession)

  /**
   * The state cells of the chat page. `savedTheme` and `savedHistories` stand for
   * what the two persisting effects last wrote to local storage. `shown` records
   * the saved entry whose array `messages` is, `None` when it is an array of its own.
   */
  class ChatHelper {
    var messages: seq<Message>
    var inputMessage: string
    var isProcessing: bool
    var showHistory: bool
    var chatHistories: seq<ChatHistory>
    var chatSessions: seq<ChatSession>
    var currentChatId: string
    var theme: string
    var savedTheme: string
    var savedHistories: seq<ChatHistory>
    var shown: Option<Shown>

    /** After every handler the stored values agree with the state. */
    ghost predicate Valid()
      reads this
    {
      theme != "" && savedTheme == theme && savedHistories == chatHistories
    }

    /**
     * The component as mounted: `startId` is the first chat id, `storedTheme` and
     * `storedHistories` are what local storage held (the histories already parsed).
     */
    constructor (startId: string, storedTheme: Option<string>, storedHistories: Option<seq<ChatHistory>>)
      ensures Valid()
      ensures messages == [] && inputMessage == "" && !isProcessing && !showHistory
      ensures chatHistories == (if storedHistories.Some? then storedHistories.value else [])
      ensures chatSessions == [] && currentChatId == startId
      ensures theme == InitialTheme(storedTheme) && shown.None?
    {
      messages := [];
      inputMessage := "";
      isProcessing := false;
      showHistory := false;
      chatSessions := [];
      currentChatId := startId;
      theme := InitialTheme(storedTheme);
      savedTheme := theme;
      chatHistories := if storedHistories.Some? then storedHistories.value else [];
      savedHistories := chatHistories;
      shown := None;
    }

    /**
     * The effect that runs whenever `messages` is replaced: if the conversation ends
     * with an assistant turn, a history holding a copy of it is put first.
     */
    method SnapshotHistory(id: string, now: int)
      requires Valid()
      modifies this
      ensures Valid()
      ensures chatHistories == if EndsWithReply(messages)
        then [Chat(id, Title(messages[0].content), messages, now)] + old(chatHistories)
        else old(chatHistories)
      ensures messages == old(messages) && inputMessage == old(inputMessage)
      ensures isProcessing == old(isProcessing) && showHistory == old(showHistory)
      ensures chatSessions == old(chatSessions) && currentChatId == old(currentChatId)
      ensures theme == old(theme) && shown == old(shown)
    {
      if |messages| > 0 {
        var last := messages[|messages| - 1];
        if last.role == Assistant {
          var title := Title(messages[0].content);
          chatHistories := [Chat(id, title, messages, now)] + chatHistories;
          savedHistories := chatHistories;
        }
      }
    }

    /**
     * `setMessages(prev => [...prev, message])` followed by the snapshot effect that
     * the new array triggers; the array is no saved entry's.
     */
    method AppendMessage(message: Message, id: string, now: int)
      requires Valid()
      modifies this
      ensures Valid()
      ensures messages == old(messages) + [message] && shown.None?
      ensures chatHistories == if message.role == Assistant
        then [Chat(id, Title(messages[0].content), messages, now)] + old(chatHistories)
        else old(chatHistories)
      ensures inputMessage == old(inputMessage)
      ensures isProcessing == old(isProcessing) && showHistory == old(showHistory)
      ensures chatSessions == old(chatSessions) && currentChatId == old(currentChatId)
      ensures theme == old(theme)
    {
      messages := messages + [message];
      shown := None;
      SnapshotHistory(id, now);
    }

    /**
     * Sends the input box's text; nothing happens when it is blank (its trim is
     * empty exactly when it is blank, `Text.TrimEmptyIffBlank`). `outcome` is how
     * the request to the backend ends; `sentAt` and `repliedAt` time the two
     * messages; `historyId` and `historyAt` are what the snapshot effect reads from
     * the clock.
     */
    method HandleSendMessage(outcome: Fetch, sentAt: int, repliedAt: int, historyId: string, historyAt: int)
      requires Valid()
      modifies this
      ensures Valid()
      ensures Trim(old(inputMessage)) == "" ==>
        messages == old(messages) && inputMessage == old(inputMessage)
        && isProcessing == old(isProcessing) && chatHistories == old(chatHistories)
      ensures Trim(old(inputMessage)) != "" ==>
        messages == old(messages) + [Message(User, old(inputMessage), sentAt),
                                     Message(Assistant, AssistantReply(outcome), repliedAt)]
        && inputMessage == "" && !isProcessing
        && chatHistories == [Chat(historyId, Title(messages[0].content), messages, historyAt)] + old(chatHistories)
        && shown.None?
      ensures Trim(old(inputMessage)) == "" ==> shown == old(shown)
      ensures showHistory == old(showHistory)
      ensures chatSessions == old(chatSessions) && currentChatId == old(currentChatId)
      ensures theme == old(theme)
    {
      if Trim(inputMessage) == "" {
        return;
      }
      var content := AssistantReply(outcome);
      Exchange(Message(User, inputMessage, sentAt), Message(Assistant, content, repliedAt), historyId, historyAt);
    }

    /**
     * The state changes of a send that goes ahead: the user message is appended, the
     * input is cleared and the processing flag raised; once the request has ended
     * the assistant message is appended and the flag is lowered.
     */
    method Exchange(question: Message, answer: Message, historyId: string, historyAt: int)
      requires Valid() && question.role == User && answer.role == Assistant
      modifies this
      ensures Valid()
      ensures messages == old(messages) + [question, answer]
      ensures inputMessage == "" && !isProcessing && shown.None?
      ensures chatHistories == [Chat(historyId, Title(messages[0].content), messages, historyAt)] + old(chatHistories)
      ensures showHistory == old(showHistory)
      ensures chatSessions == old(chatSessions) && currentChatId == old(currentChatId)
      ensures theme == old(theme)
    {
      // the effect sees a user turn last and saves nothing
      AppendMessage(question, historyId, historyAt);
      inputMessage := "";
      isProcessing := true;
      AppendMessage(answer, historyId, historyAt);
      isProcessing := false;
    }

    /**
     * Shows a saved history in place of the current messages and closes the panel.
     * The snapshot effect runs unless this history's array is already the one shown.
     */
    method LoadChatHistory(history: ChatHistory, snapshotId: string, now: int)
      requires Valid()
      modifies this
      ensures Valid()
      ensures messages == history.messages && !showHistory && shown == Some(ShownHistory(history))
      ensures chatHistories == if old(shown) != Some(ShownHistory(history)) && EndsWithReply(history.messages)
        then [Chat(snapshotId, Title(history.messages[0].content), history.messages, now)] + old(chatHistories)
        else old(chatHistories)
      ensures inputMessage == old(inputMessage) && isProcessing == old(isProcessing)
      ensures chatSessions == old(chatSessions) && currentChatId == old(currentChatId)
      ensures theme == old(theme)
    {
      var same := shown == Some(ShownHistory(history));
      messages := history.messages;
      shown := Some(ShownHistory(history));
      showHistory := false;
      if !same {
        SnapshotHistory(snapshotId, now);
      }
    }

    /** Removes every history with the given id. */
    method DeleteChatHistory(id: string)
      requires Valid()
      modifies this
      ensures Valid()
      ensures chatHistories == WithoutId(old(chatHistories), id)
      ensures messages == old(messages) && inputMessage == old(inputMessage)
      ensures isProcessing == old(isProcessing) && showHistory == old(showHistory)
      ensures chatSessions == old(chatSessions) && currentChatId == old(currentChatId)
      ensures theme == old(theme) && shown == old(shown)
    {
      chatHistories := WithoutId(chatHistories, id);
      savedHistories := chatHistories;
    }

    /**
     * Starts a new chat: a non-empty conversation is first kept as a session under
     * the current chat id, then the messages are cleared and `freshId` becomes the
     * chat id. `now` is the clock reading for the saved session and the effect.
     */
    method CreateNewChat(freshId: string, now: int)
      requires Valid()
      modifies this
      ensures Valid()
      ensures old(messages) != [] ==>
        chatSessions == [Chat(old(currentChatId), Title(old(messages)[0].content), old(messages), now)] + old(chatSessions)
      ensures old(messages) == [] ==> chatSessions == old(chatSessions)
      ensures messages == [] && currentChatId == freshId && shown.None?
      ensures chatHistories == old(chatHistories)
      ensures inputMessage == old(inputMessage) && isProcessing == old(isProcessing)
      ensures showHistory == old(showHistory) && theme == old(theme)
    {
      if |messages| > 0 {
        var title := Title(messages[0].content);
        chatSessions := [Chat(currentChatId, title, messages, now)] + chatSessions;
      }
      messages := [];
      shown := None;
      currentChatId := freshId;
      // the effect sees no messages and saves nothing
      SnapshotHistory(freshId, now);
    }

    /**
     * Shows a saved session, makes its id current and closes the panel. The
     * snapshot effect runs unless this session's array is already the one shown.
     */
    method LoadChatSession(session: ChatSession, snapshotId: string, now: int)
      requires Valid()
      modifies this
      ensures Valid()
      ensures messages == session.messages && currentChatId == session.id && !showHistory
      ensures shown == Some(ShownSession(session))
      ensures chatHistories == if old(shown) != Some(ShownSession(session)) && EndsWithReply(session.messages)
        then [Chat(snapshotId, Title(session.messages[0].content), session.messages, now)] + old(chatHistories)
        else old(chatHistories)
      ensures inputMessage == old(inputMessage) && isProcessing == old(isProcessing)
      ensures chatSessions == old(chatSessions) && theme == old(theme)
    {
      var same := shown == Some(ShownSession(session));
      messages := session.messages;
      shown := Some(ShownSession(session));
      currentChatId := session.id;
      showHistory := false;
      if !same {
        SnapshotHistory(snapshotId, now);
      }
    }

    /** Removes every session with the given id. */
    method DeleteChatSession(id: string)
      requires Valid()
      modifies this
      ensures Valid()
      ensures chatSessions == WithoutId(old(chatSessions), id)
      ensures messages == old(messages) && inputMessage == old(inputMessage)
      ensures isProcessing == old(isProcessing) && showHistory == old(showHistory)
      ensures chatHistories == old(chatHistories) && currentChatId == old(currentChatId)
      ensures theme == old(theme) && shown == old(shown)
    {
      chatSessions := WithoutId(chatSessions, id);
    }

    /** Switches between the light and dark theme and stores the new one. */
    method ToggleTheme()
      requires Valid()
      modifies this
      ensures Valid()
      ensures theme == Toggled(old(theme)) && savedTheme == theme
      ensures messages == old(messages) && inputMessage == old(inputMessage)
      ensures isProcessing == old(isProcessing) && showHistory == old(showHistory)
      ensures chatHistories == old(chatHistories) && chatSessions == old(chatSessions)
      ensures currentChatId == old(currentChatId) && shown == old(shown)
    {
      theme := Toggled(theme);
      savedTheme := theme;
    }
  }
}
