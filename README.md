# anyGem Next conversation controller, modelled in Dafny

This project models the conversation controller of the anyGem Next chat client: the
`App` component of `App.tsx` and the records of `types.ts`. The controller keeps a
message log, the text being typed, a loading flag, at most one staged file, the active
mode (chat, search, report, presentation, drawing), the cached session directory, the
current session identity (persisted in local storage under `ANYGEM_USER_ID`), and the
presentation options and report style.

Its handlers are modelled twice, and the two are proved to agree:

- `Machine` is a pure state machine. A `State` record holds every field. Each handler
  is a function from the old record to the new one. Where a handler awaits, each phase
  is its own function. `handleSend` has three phases:
  - `BeginSend` runs up to the file read.
  - `PreparePayload` runs up to the backend call.
  - `CompleteSend` runs after the backend answers.
  
  `loadSessionHandler` has two phases: `BeginLoadSession` and `CompleteLoadSession`.
  The effect keyed on `currentSessionId` is `IdentityEffect`. It runs after a handler
  only when the id actually changed (`AfterIdChange`). The properties are proved about
  these functions.
- `Controller.App` is a class with the component's fields. Each method updates the
  fields in place. Each one ensures that `State()` afterwards is exactly what the
  matching `Machine` function gives for `old(State())`.

Supporting modules model the pieces the handlers are built from:

- `JsText`: the JavaScript built-ins `trim`, `split(',')[1]` and `Number#toString`.
- `Composer`: the request payload, including the option spread and the data-URL body.
  The body is the text from the URL's first comma to the next comma or the end. A
  base64 URL of RFC 2397, as `readAsDataURL` produces, holds only one comma, so this is
  its whole data part.
- `Log`: the user, reply, error and welcome messages, and the remapping of stored logs.
- `Directory`: the session-list refresh and the delete filter.

The clock (`Date.now()`), the data URL the file reader produces, the backend's send
response, the session listing and a session's stored logs are all parameters.

The model follows what the code does, including where it falls short of what it
evidently intends:

- The send button's `disabled` (App.tsx:262) shows that one send at a time is intended.
  The Enter key path (App.tsx:142-147) calls `handleSend` directly. Its guard
  (App.tsx:69) does not test `loading`. `KeyDown` models this as written.
  `GuardedKeyDown` adds the button's guard. See "Findings".
- `loadSessionHandler` (App.tsx:149-159) reloads whatever id is selected, including the
  current one. The identity effect keyed on `currentSessionId` runs only when the id
  actually changed.
- A failed file read has no error path: the reader's promise never settles (App.tsx:86-90).
- `loadHistoryList` and `loadSessionHandler` test `data.sessions` and `data.logs` for
  presence (App.tsx:58, 152). An empty list is present, so it replaces the cache or the
  log. A missing one changes nothing. The model takes these results as `Option` values.

## Model

| member | source | states |
|---|---|---|
| JsText.TrimStart | App.tsx:69 | `trim`'s leading cut leaves a suffix that starts with a non-space; everything cut is ECMAScript white space |
| JsText.TrimEnd | App.tsx:69 | `trim`'s trailing cut leaves a prefix that ends with a non-space; everything cut is white space |
| JsText.Trim | App.tsx:69 | `trim` gives a slice of the string that neither starts nor ends with white space, with only white space cut from either end |
| JsText.IsBlank | App.tsx:69 | `!s.trim()` holds exactly when every character of `s` is white space |
| JsText.Split | App.tsx:97 | `split` gives at least one piece and no piece holds the separator |
| JsText.JoinSplit | App.tsx:97 | joining the pieces of a split with the separator gives back the original string |
| JsText.SplitJoin | App.tsx:97 | splitting a join of separator-free pieces gives back the pieces |
| JsText.FirstPieceIsPrefix | App.tsx:97 | the first piece is the longest separator-free prefix: it is followed by the separator or the end |
| JsText.SecondPieceAfterFirstSeparator | App.tsx:97 | `split(sep)[1]` is the text after the first separator, up to the next separator or the end |
| JsText.SecondPieceOfPair | App.tsx:97 | for `prefix,body` with both parts comma-free, `split(',')[1]` is `body` |
| JsText.SecondPiece | App.tsx:97 | `split(sep)[1]` is undefined exactly when the separator does not occur; when defined it holds no separator and is shorter than the string |
| JsText.NatToString | App.tsx:72 | `toString` of a time gives a non-empty string of decimal digits with no leading zero: a string of two or more digits never starts with '0', and a single '0' only for zero |
| JsText.NatToStringRoundTrip | App.tsx:72 | reading the decimal string back gives the number |
| JsText.NatToStringInjective | App.tsx:62 | different times give different decimal strings |
| Composer.MergeOptions | App.tsx:99-102 | the option spread carries every presentation option unchanged and adds the report style |
| Composer.MergeOptionsSplit | App.tsx:99-102 | a merged option record is determined by its presentation part and its style |
| Composer.FileBody | App.tsx:97 | the file body is present exactly when the reader produced a URL with a comma, and it holds no comma |
| Composer.FileBodyOfDataUrl | App.tsx:97 | for a data URL `header,body` the file body is exactly `body` |
| Composer.FileBodyAfterFirstComma | App.tsx:97 | for any data URL the file body is the text after the first comma, up to the next comma or the end |
| Composer.BuildPayload | App.tsx:93-103 | message, session id and mode are copied; options are the spread plus style; the MIME type is present exactly when a file was staged; the file data is the data URL's `split(',')[1]`, present exactly when the URL has a comma |
| Log.ReplyText | App.tsx:115 | the reply text is the reply when it is non-empty and "Done." otherwise; it is never empty |
| Log.ErrorText | App.tsx:130 | the error text is "Error: " followed by the error verbatim, or by "Unknown error" when it is missing or empty |
| Log.UserMessage | App.tsx:71-77 | the user message carries the input as typed, the time in decimal as id and timestamp, and the staged file's name exactly when a file is staged |
| Log.AiMessage | App.tsx:112-122 | the reply message has id `(now + 1).toString()`, role `ai`, the reply text, and the response's thinking, model, image and MIME type |
| Log.ErrorMessage | App.tsx:127-132 | the error message has the time in decimal as id, role `system`, the error text and no meta |
| Log.ReplyIdDiffersFromUserId | App.tsx:113 | a reply stamped in the same millisecond as its user message still gets a different id |
| Log.ErrorIdMayRepeatUserId | App.tsx:128 | an error message stamped in the same millisecond as the user message reuses its id, since the error id has no `+ 1` |
| Log.Welcome | App.tsx:41-46 | the welcome message has id "welcome", role `ai`, the welcome text and the current time |
| Log.RemapLogs | App.tsx:153-158 | the reloaded log has one message per stored entry, in order, with role and text copied, the load time as timestamp, id `<sessionId>_<index>`, and no thinking or meta |
| Log.RemapLogsRoundTrip | App.tsx:153-158 | reading roles and texts back from the reloaded log gives the stored entries |
| Log.LogIdShape | App.tsx:154 | a reloaded id is the session id, an underscore, and exactly `NatToString` of the index, which reads back as the index |
| Log.RemapLogsIdsDistinct | App.tsx:154 | the ids of a reloaded log are pairwise distinct |
| Directory.Refreshed | App.tsx:56-59 | a listing that carries sessions replaces the cache wholesale; a missing one leaves it |
| Directory.Without | App.tsx:164 | the filtered list has no entry with the id, keeps every other entry, and adds nothing |
| Directory.WithoutAppend | App.tsx:164 | the filter distributes over concatenation, so the kept entries stay in order |
| Directory.WithoutAbsent | App.tsx:164 | a list with no entry of the id is left unchanged |
| Directory.WithoutIdempotent | App.tsx:164 | deleting the same id twice is deleting it once |
| Directory.WithoutLength | App.tsx:164 | the filter removes exactly as many entries as carry the id |
| Machine.NewSessionId | App.tsx:62 | a new identity is "UID_" followed by `Date.now()` in decimal, so reading the suffix back gives the time |
| Machine.NewSessionIdsDistinct | App.tsx:62 | identities made at different times differ |
| Machine.InitialSessionId | App.tsx:17-19 | a stored non-empty identity is reused, otherwise `UID_<now>`; the result is never empty |
| Machine.Initial | App.tsx:10-31 | the initializers give an empty log and input, no loading, no file, chat mode, no sessions, the initial identity, the default options and style |
| Machine.LoadHistoryList | App.tsx:56-59 | only the session list changes, and only when the listing is present |
| Machine.IdentityEffect | App.tsx:38-48 | the id is persisted under the storage key and other keys are kept; the session list is refreshed; an empty log becomes exactly the welcome message and a non-empty one is kept |
| Machine.AfterIdChange | App.tsx:48 | the effect runs only when the id changed; when it runs it persists the new id; the id, input, loading flag, file and mode are never touched by it |
| Machine.Startup | App.tsx:17-19 | a stored non-empty identity is reused, otherwise `UID_<now>`; it is persisted; the log is the welcome message; the flags, input, file, mode and options take their initial values |
| Machine.IdentityPersists | App.tsx:17-19 | a restart from the storage the previous run left resumes the same identity |
| Machine.SetInput | App.tsx:252 | typing changes only the input |
| Machine.FileSelect | App.tsx:136-140 | the first selected file replaces the staged one; an empty selection changes nothing |
| Machine.SendAllowed | App.tsx:69 | the send guard passes exactly when a file is staged or the input has a non-space character |
| Machine.BeginSend | App.tsx:68-81 | a refused send changes nothing; an allowed one appends exactly the `UserMessage` (untrimmed input, file name, the time as id and timestamp) after the earlier log, clears the input, sets loading, and captures the session id, mode and options |
| Machine.PreparePayload | App.tsx:84-105 | the staged file is cleared and nothing else changes; the payload carries the captured text, session id, mode and options, and the file body and MIME type only when a file was captured |
| Machine.CompleteSend | App.tsx:108-133 | loading drops; exactly one message is appended after the earlier log: on success the `AiMessage` (id the time plus one, reply, thinking, model, image, MIME) and the sessions are refreshed; on error the `ErrorMessage` (id the time, error text, no thinking or meta) and the sessions are kept |
| Machine.KeyDown | App.tsx:142-147 | Enter without Shift is taken over and starts a send without checking loading; other keys change nothing |
| Machine.SendButtonEnabled | App.tsx:262 | the button is enabled exactly when nothing is loading and a file is staged or the input has a non-space character |
| Machine.ClickSend | App.tsx:260-262 | while loading, a click changes nothing; otherwise it is the send handler |
| Machine.GuardedKeyDown | App.tsx:142-147 | the Enter path with the button's guard: while loading nothing changes, otherwise it is the key handler |
| Machine.NewChat | App.tsx:61-66 | a new chat sets the id `UID_<now>`, empties the log and selects chat mode; nothing else changes |
| Machine.NewChatSettles | App.tsx:61-66 | once the effect has run, the new id is persisted and the log is exactly the welcome message; mode is chat and options are kept |
| Machine.BeginLoadSession | App.tsx:149-150 | selecting a session makes its id current and changes nothing else |
| Machine.CompleteLoadSession | App.tsx:151-159 | present logs replace the log with exactly `RemapLogs` of them (same length and order, ids `<id>_<i>`, load-time timestamps), and nothing else changes; missing logs change nothing |
| Machine.DeleteSession | App.tsx:162-165 | only the session list changes: it becomes the order-preserving filter `Without`, losing exactly the entries with that id (as many as carry it) and keeping every other one |
| Machine.LogOnlyGrows | App.tsx:79 | over any run of events other than a new chat or a session reload, the old log stays a prefix of the new one |
| Machine.RoundTrip | App.tsx:68-134 | a full send ends with the user message followed by an `ai` message with the reply text or a `system` message with the error text; the earlier log is kept, input and file are cleared, loading is down |
| Machine.SendBegun | App.tsx:68-105 | after the first two phases the user message with the typed input follows the old log, and input and staged file are cleared |
| Machine.SendAnswered | App.tsx:108-133 | the response phase appends the reply or the error message after the log and leaves input and file as they were |
| Machine.HelloAnswered | App.tsx:68-134 | sending "Hello" answered by "Hi there" appends the user's "Hello" and then the `ai` reply "Hi there", keeping the earlier log |
| Machine.HelloRateLimited | App.tsx:68-134 | the same send answered by the error "rate limited" keeps the user message and appends a `system` message "Error: rate limited" |
| Machine.SendPayload | App.tsx:93-103 | the payload of a send carries the typed input and the session id, mode and options current when it began |
| Machine.EnterTwiceWhileReading | App.tsx:142-147 | as written, two Enters with a file staged start two sends and append two user messages |
| Machine.EnterWhileLoading | App.tsx:142-147 | as written, Enter with new text while a reply is awaited starts a second send |
| Machine.GuardedAtMostOneInFlight | App.tsx:262 | with the button's guard, two Enters without a response start at most one send |
| Controller.App.constructor | App.tsx:8-48 | mounting gives the startup state: initializers, then the identity effect |
| Controller.App.LoadHistoryList | App.tsx:56-59 | the fields afterwards are `Machine.LoadHistoryList` of the fields before |
| Controller.App.IdentityEffect | App.tsx:38-48 | the fields afterwards are `Machine.IdentityEffect` of the fields before |
| Controller.App.HandleNewChat | App.tsx:61-66 | the fields afterwards are the new-chat transition followed by the effect when the id changed |
| Controller.App.SetInput | App.tsx:252 | the fields afterwards are `Machine.SetInput` of the fields before |
| Controller.App.HandleFileSelect | App.tsx:136-140 | the fields afterwards are `Machine.FileSelect` of the fields before |
| Controller.App.BeginSend | App.tsx:68-81 | fields and captured send are `Machine.BeginSend` of the fields before |
| Controller.App.PreparePayload | App.tsx:84-105 | fields and payload are `Machine.PreparePayload` of the fields before |
| Controller.App.CompleteSend | App.tsx:108-133 | the fields afterwards are `Machine.CompleteSend` of the fields before |
| Controller.App.HandleKeyDown | App.tsx:142-147 | fields, prevent-default flag and captured send are `Machine.KeyDown` of the fields before |
| Controller.App.ClickSend | App.tsx:260-262 | fields and captured send are `Machine.ClickSend` of the fields before |
| Controller.App.GuardedKeyDown | App.tsx:142-147 | fields, flag and captured send are `Machine.GuardedKeyDown` of the fields before |
| Controller.App.BeginLoadSession | App.tsx:149-150 | the fields afterwards are the id change followed by the effect when the id changed |
| Controller.App.CompleteLoadSession | App.tsx:151-159 | the fields afterwards are `Machine.CompleteLoadSession` of the fields before |
| Controller.App.DeleteSession | App.tsx:162-165 | the fields afterwards are `Machine.DeleteSession` of the fields before |

## Left out

- Rendering is not modelled: JSX, the sidebar toggle, scrolling (App.tsx:50-54, 167-287). The mode buttons (App.tsx:195) are presentation, and so is editing the options through the `Canvas` component, which is not part of this model.
- `services/api` is not part of this model. The results of `sendMessage`, `fetchSessions` and `loadSession` are method parameters.
- The FileReader is a browser API. The data URL it produces is a parameter. In the source a failed read never settles its promise, and the send then stays loading. The model does not represent that hang.
- `localStorage` is the `storage` map field. Storage failures are not modelled.
- `Date.now()` is a parameter. Where the source calls it several times in one phase (for an id and a timestamp), the model uses one value. The same holds for a handler or initializer and the effect it triggers, which run at different times in the source: the initial id (App.tsx:18) and the welcome timestamp (App.tsx:44) in `Startup` and the constructor, and the new id (App.tsx:62) and the welcome timestamp in `HandleNewChat` and `NewChatSettles`.
- NatToString: does not model JavaScript's exponent notation for numbers of 10^21 or more. Times from `Date.now()` stay far below that.
- React scheduling is not modelled: batching of state updates, stale closures other than the values a send captures when it begins, and interleaving of concurrent handlers. Each phase is one sequential step.
- The session-list refreshes are not awaited in the source: the one in the identity effect (App.tsx:40) and the one after a successful send (App.tsx:125). The model applies the listing at once. Passing no listing there and a later `Listing` event models a listing that arrives afterwards.
- The emoji at the start of the welcome text (App.tsx:45) and of the error text (App.tsx:130) are left out. Only their textual parts are modelled.
- Stored log entries have role `any` in the source. The model restricts them to the three message roles.
- `ApiResponse.sources`, `Meta.docUrl` and `Meta.sources` are declared in types.ts. The controller never sets or reads them.
- The status is modelled with two tags. The source treats any status other than `success` as an error, which the `Failure` tag covers.
- constants.ts holds a deployment URL and label lists. It has no behaviour.

## Findings

| source | as written | input that shows it | evidently intended | confidence | as-written member | corrected member |
|---|---|---|---|---|---|---|
| App.tsx:142-147 | Enter without Shift calls `handleSend`. Its guard (App.tsx:69) does not test `loading`. Only the button is disabled while loading (App.tsx:262). | A reply is pending. The user types "more" and presses Enter. A second user message is appended and a second request starts. Also: a file is staged and Enter is pressed twice before the file has been read. | At most one send in flight, as the button's `disabled` expresses. | medium, not executed | Machine.EnterWhileLoading | Machine.GuardedKeyDown |
