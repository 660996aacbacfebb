# Chat helper: a verified model

This project models the logic of a small browser chat application and the two
HTTP handlers it can talk to, and proves properties of that model in Dafny.

- **The chat page** (`app/page.tsx`) keeps the conversation in component state:
  the messages, the input box, a processing flag, a list of chat histories, a
  list of chat sessions, the current chat id and the theme. `ChatView.ChatHelper`
  holds these as fields, and each event handler is a method:
  sending a message, starting a new chat, loading and deleting histories and
  sessions, and toggling the theme. The page renders only the sessions, so the
  handlers `loadChatHistory` and `deleteChatHistory` (app/page.tsx:207-214), and
  the methods that model them, are not reachable from any element. The effect
  that snapshots a conversation into the history list whenever it ends with an
  assistant turn is the method `SnapshotHistory`. React runs it whenever
  `messages` becomes a different array, so a load runs it too, unless the loaded
  entry's array is already shown. Two pure helpers of the page are functions:
  - the title of a saved chat (the first 30 characters of its first message, plus
    `...` when longer);
  - the splitting of message content on triple backticks into prose and code
    segments, each code segment's first line being its language tag.
- **The Flask handler** (`app.py`) validates `{message}`, posts the system
  prompt, the remembered conversation and the new message to the completion
  API, and on success remembers the new user/assistant pair. The remembered
  conversation is a window of at most ten turns. `FlaskChat.ChatServer` holds it
  as a `seq` field, and its invariant `IsWindow` says the window has an even length,
  at most ten, and alternates user/assistant starting with a user turn.
- **The Next.js route** (`app/api/chat/route.ts`) is the pure function
  `ChatRoute.Post`. It checks the key, validates `messages`, prepends a fixed
  system message, and maps the completion or any thrown failure to a reply.
- `ClientBackend` states how the page reads the Flask handler's replies: the page
  sends `{message}` and reads `response`.

Every external effect is an input value. This covers the `fetch` from the page,
`requests.post` from Flask and the `openai-edge` call. Clock readings
(`Date.now()`, `new Date()`) are also inputs: ids are `string` parameters and
timestamps are `int` parameters. The shared JavaScript string operations
(`split`, `join`, `trim`, number rendering) are in the `Text` module.

Two behaviours of the page worth noting:

- Histories are persisted as a JSON array, not as a mapping keyed by id. Ids need
  not be unique, and deleting by id removes every entry with that id.
- A history is saved whenever `messages` becomes a different array that ends in
  an assistant turn. This happens after each successful or failed send. It also
  happens when a history or session is loaded whose array is not already the one
  on screen: such a load files a new copy of the conversation at the head of the
  history list. Loading the entry already shown again files nothing, because
  React compares the effect's dependency with `Object.is`. The field `shown`
  records which saved entry's array is on screen.

## Model

| member | source | states |
|---|---|---|
| `Text.Split` | app/page.tsx:640 | `split` on a non-empty separator always yields at least one piece |
| `Text.SplitJoin` | app/page.tsx:640-641 | joining the pieces of a split with the same separator gives back the text exactly |
| `Text.SplitCount` | app/page.tsx:640 | a split yields one piece more than the number of non-overlapping separator occurrences |
| `Text.SplitPieceAvoids` | app/page.tsx:640 | no piece of a split contains the separator at any position |
| `Text.SplitPiecesAvoid` | app/page.tsx:640 | the same, for all pieces and positions at once |
| `Text.SplitAtFirst` | app/page.tsx:640 | the scan is leftmost: the first piece is the text before the first occurrence of the separator, and the remaining pieces are the split of the text after it |
| `Text.SplitWithoutSeparator` | app/page.tsx:640 | a text in which the separator does not occur splits into itself alone |
| `Text.SplitOnCharAvoids` | app/page.tsx:648 | splitting on one character leaves that character in no piece |
| `Text.TrimStart` | app/page.tsx:112 | the result is a suffix of the input that starts with a non-whitespace character, and everything removed is whitespace |
| `Text.TrimEnd` | app/page.tsx:112 | the result is a prefix of the input that ends with a non-whitespace character, and everything removed is whitespace |
| `Text.TrimEmptyIffBlank` | app/page.tsx:112 | `trim()` is empty exactly when every character is ECMAScript whitespace or a line terminator |
| `Text.Decimal` | app/page.tsx:140 | the rendering of a status is a non-empty string of decimal digits, one digit exactly for values below 10, with no leading zero |
| `Text.DecimalValue` | app/page.tsx:140 | the digits of the rendering spell the number |
| `Text.DecimalInjective` | app/page.tsx:140 | different statuses render as different texts |
| `ChatView.Title` | app/page.tsx:92 | content of at most 30 characters is its own title; longer content gives its first 30 characters followed by `...`; a title is never longer than 33 (also app/page.tsx:219) |
| `ChatView.CodeBlock` | app/page.tsx:648-649 | the language tag has no line break; with a line break, language + `"\n"` + code is the segment; without one, the language is the whole segment and the code is empty |
| `ChatView.Segments` | app/page.tsx:640-649 | there is one segment more than there are fences; a segment is prose exactly at even indices and code at odd ones; prose never contains a fence |
| `ChatView.SegmentsRoundTrip` | app/page.tsx:640-641 | the fence pieces join back to the content; even segments are those pieces as prose and odd ones are their code blocks |
| `ChatView.WithoutId` | app/page.tsx:212-214 | a chat is kept exactly when it was there and its id differs; the list never grows |
| `ChatView.WithoutIdExact` | app/page.tsx:240-242 | the result is a subsequence of the list in its original order; every other chat is kept as often as it occurred, and none with the id is left |
| `ChatView.WithoutAbsentId` | app/page.tsx:213 | deleting an id that no entry has changes nothing |
| `ChatView.WithoutIdIdempotent` | app/page.tsx:241 | deleting the same id twice is the same as deleting it once |
| `ChatView.Raised` | app/page.tsx:138-148 | the `try` block of a send completes exactly when the reply is ok with a non-empty `response` |
| `ChatView.AssistantReply` | app/page.tsx:138-165 | the assistant message is `response` on success and otherwise starts with `Error: `; a non-ok reply shows its `error` field, or `HTTP error! status: N` when that field is missing or empty; an ok reply without a usable `response` shows `Invalid response format from server`; a thrown `Error` shows its message and anything else thrown shows `Failed to process request` |
| `ChatView.InitialTheme` | app/page.tsx:39-44 | a stored non-empty theme is used as is; with none stored (or an empty one) the theme is light; the theme is never empty |
| `ChatView.Toggled` | app/page.tsx:70-72 | toggling always changes the theme, always yields light or dark, and yields dark exactly from light |
| `ChatView.ToggleTwice` | app/page.tsx:71 | toggling a light or dark theme twice restores it |
| `ChatView.ChatHelper.constructor` | app/page.tsx:30-57 | the initial state: no messages, empty input, not processing, the stored theme and histories, no sessions, the first chat id |
| `ChatView.ChatHelper.SnapshotHistory` | app/page.tsx:88-102 | when the messages end with an assistant turn, exactly one history is put first, holding the messages and their title; otherwise the histories are unchanged; nothing else changes |
| `ChatView.ChatHelper.AppendMessage` | app/page.tsx:150-156 | appending a message grows the messages by it and then runs the snapshot effect |
| `ChatView.ChatHelper.HandleSendMessage` | app/page.tsx:111-169 | blank input changes nothing; otherwise the messages gain the user message with the original input and then the assistant reply, the input ends empty, the processing flag ends false, and one history of the whole conversation is put first |
| `ChatView.ChatHelper.Exchange` | app/page.tsx:120-167 | a send that goes ahead appends the user and the assistant message, clears the input, ends with the processing flag false and files exactly one history of the whole conversation |
| `ChatView.ChatHelper.LoadChatHistory` | app/page.tsx:207-210 | the messages become the history's and the panel is hidden; a history is filed exactly when this history's array was not already shown and its messages end with an assistant turn; the sessions and chat id are unchanged (effect: app/page.tsx:88-102) |
| `ChatView.ChatHelper.DeleteChatHistory` | app/page.tsx:212-214 | the histories become those without the id, and the stored copy follows; nothing else changes |
| `ChatView.ChatHelper.CreateNewChat` | app/page.tsx:216-232 | a non-empty conversation is put first among the sessions under the current id with its title; an empty one leaves the sessions unchanged; the messages become empty and the fresh id becomes current |
| `ChatView.ChatHelper.LoadChatSession` | app/page.tsx:234-238 | the messages and chat id become the session's and the panel is hidden; a history is filed exactly when this session's array was not already shown and its messages end with an assistant turn (effect: app/page.tsx:88-102) |
| `ChatView.ChatHelper.DeleteChatSession` | app/page.tsx:240-242 | the sessions become those without the id; nothing else changes |
| `ChatView.ChatHelper.ToggleTheme` | app/page.tsx:60-72 | the theme is toggled and the stored theme equals the new one, so a reload reads it back |
| `FlaskChat.Recorded` | app.py:79-85 | after a successful turn the last two entries are the user message and the bot message; the earlier entries are the old history, minus its two oldest entries when the list would exceed ten |
| `FlaskChat.RecordedKeepsWindow` | app.py:82-85 | a window stays a window (even, at most ten, alternating user/assistant from a user turn); it grows by two unless full, and a full one stays at ten |
| `FlaskChat.ChatServer.constructor` | app.py:13-16 | the history starts empty, which is a window |
| `FlaskChat.ChatServer.Chat` | app.py:23-97 | with no key, a 500 with both fixed texts before the body is read; an unreadable body gives 500 with the exception text; a missing or empty message gives 400 `No message provided`; otherwise the system prompt, the history in order and the new user message are sent; a 200 reply gives `response` = the content and records the turn; a non-200 reply passes its status with `API Error: ` + text; any exception gives 500 with its text; the history changes only on success and stays a window |
| `ChatRoute.Details` | app/api/chat/route.ts:56 | the details are the error's message, or `Unknown error occurred` for a non-`Error` value |
| `ChatRoute.Post` | app/api/chat/route.ts:12-61 | messages are sent exactly when the key is set and `messages` is an array, and they are the system message followed by the client's; the reply is ok exactly when a completion came back, with its content; every status is 200, 400 or 500, and 400 means exactly an invalid `messages` |
| `ChatRoute.KeyCheckedFirst` | app/api/chat/route.ts:15-21 | without a key the outcome is the same fixed 500 whatever the body and the completion |
| `ChatRoute.InvalidMessagesRejected` | app/api/chat/route.ts:25-30 | an absent or non-array `messages` gives 400 with the fixed text and sends nothing |
| `ChatRoute.MessagesForwarded` | app/api/chat/route.ts:36-42 | the sent list is one longer than the client's, starts with the system message, and continues with the client's messages unchanged |
| `ChatRoute.FailuresMapped` | app/api/chat/route.ts:51-59 | an unreadable body or a failed completion gives 500, `Failed to process request`, and the details of what was thrown |
| `ClientBackend.Delivered` | app/page.tsx:138-146 | the page sees a Flask success as ok with `response`, an error with a 2xx status as ok without `response`, and any other error as not ok with its `error` field |
| `ClientBackend.SentInputIsProvided` | app.py:34-36 | input the page sends (non-blank) is never rejected by the handler as missing |
| `ClientBackend.ReplyShown` | app/page.tsx:146-156 | a non-empty bot message is shown unchanged |
| `ClientBackend.EmptyReplyShownAsError` | app/page.tsx:146-148 | an empty bot message is shown as the format error |
| `ClientBackend.ErrorShown` | app/page.tsx:138-141 | a non-2xx error reply with a non-empty `error` is shown as `Error: ` followed by it |
| `ClientBackend.TwoHundredErrorShownAsFormatError` | app.py:88-92 | a handler error passed on with a 2xx upstream status other than 200 is shown as the format error |

## Left out

- Rendering is left out (JSX, CSS classes, `NavItem`/`TabButton`/`TaskCard`, scrolling, the mobile menu, the sidebar flag). It is presentational.
- `localStorage` and `JSON.parse`/`JSON.stringify` are browser I/O. The stored theme and histories are the fields `savedTheme` and `savedHistories`, kept equal to the state. The load at mount is a constructor parameter holding the already-parsed list. Dates becoming strings in the JSON round trip are not modelled.
- Toggling the `dark` class on the document element is DOM manipulation and is left out.
- The mock sign-in flow (login, logout, its form state and its `setTimeout` delay) is cosmetic and left out.
- Model names, temperatures, token limits and other sampling constants are passed through unchanged and are not modelled.
- Console and `print` logging is left out, including the truncated key prefixes.
- The network calls are outcome inputs (`ChatView.Fetch`, `FlaskChat.Upstream`, `ChatRoute.Completion`). The exact text of an exception message is part of that input.
- Flask's `/` route, which returns a fixed text, is left out, and so is starting the server.
- `test_groq.py`, `app/layout.tsx` and `next.config.js` are not part of this model.
- React render batching, Strict Mode double effects and async interleaving are not modelled. Each handler runs to completion in sequence. So the processing flag being true while a request is pending is not observable in the model. A second send started while one is pending is not modelled either.
- `ChatView.Title`: strings are sequences of Unicode scalar values. JavaScript counts `length` and `slice` in UTF-16 code units, so for text outside the Basic Multilingual Plane the model's 30-character cut differs from the page's.
- `ChatView.ChatHelper.LoadChatHistory`: array identity is modelled by the saved entry's value, so two distinct saved entries equal in every field (id, title, messages and timestamp) would count as the same array.
- `ChatView.ChatHelper.LoadChatSession`: the same approximation of array identity as for `LoadChatHistory`.
- `ChatView.Fetch`: a 2xx reply whose `response` is a truthy non-string value is represented as having no usable `response`, so the model shows the format error where the page would use the value as content.
- `FlaskChat.ChatServer.Chat`: requests are handled one at a time. The development server started by `app.run(debug=True)` (app.py:102) serves requests on threads, so two concurrent requests could interleave their updates of the shared history and break the alternation that `IsWindow` states.
- `FlaskChat.ChatServer.Chat`: a `message` field that is not a string, and a completion `content` that is not a string, are not represented. A truthy non-string message is used as content by the handler.
- `ChatRoute.Post`: the elements of `messages` are not validated by the route and may be any JSON values. The model represents them as `{role, content}` turns. A missing `content` in the completion (sent as `{}`) is not represented.
- `ClientBackend.Delivered`: statuses whose replies carry no body (such as 204 or 304) are not distinguished.
