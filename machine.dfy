/** The conversation controller of App.tsx as a pure state machine: one record holds every
    state field of the component, and each handler (or each phase of a handler, where the
    handler awaits) is a function from the old record to the new one. Wall-clock time,
    the file reader's result and the backend's answers are parameters. */
module Machine {

  import opened Wrappers
  import opened Types
  import opened JsText
  import opened Composer
  import opened Log
  import opened Directory

  /** The local-storage key under which the identity is persisted. */
  const UserIdKey: string := "ANYGEM_USER_ID"

  const IdPrefix: string := "UID_"

  const DefaultPptOptions: PptOptions :=
    PptOptions(6, Detailed, "modern_blue", Hybrid, "", "Traditional Chinese", "General")

  const DefaultReportStyle: string := "Professional"

  /** The component's state fields, plus the browser's local storage. */
  datatype State = State(
    messages: seq<Message>,
    input: string,
    loading: bool,
    activeFile: Option<StagedFile>,
    mode: AppMode,
    sessions: seq<Session>,
    currentSessionId: string,
    pptOptions: PptOptions,
    reportStyle: string,
    storage: map<string, string>)

  /** What a send in flight captured when it began: the values its closure reads after
      each await. */
  datatype PendingSend = PendingSend(
    text: string,
    sessionId: string,
    mode: AppMode,
    pptOptions: PptOptions,
    reportStyle: string,
    file: Option<StagedFile>)

  /** `UID_${Date.now()}`: the prefix followed by the time in decimal. */
  function NewSessionId(now: nat): (id: string)
    ensures id == IdPrefix + NatToString(now)
    ensures |id| > |IdPrefix| && id[..|IdPrefix|] == IdPrefix && DigitsValue(id[|IdPrefix|..]) == now
  {
    var id := IdPrefix + NatToString(now);
    assert id[|IdPrefix|..] == NatToString(now);
    NatToStringRoundTrip(now);
    id
  }

  /** Identities created at different times differ. */
  lemma NewSessionIdsDistinct(a: nat, b: nat)
    requires a != b
    ensures NewSessionId(a) != NewSessionId(b)
  {
  }

  /** `localStorage.getItem(key) || UID_${Date.now()}`: a stored non-empty identity is
      reused, otherwise a fresh one is made. */
  function InitialSessionId(storage: map<string, string>, now: nat): (id: string)
    ensures UserIdKey in storage && storage[UserIdKey] != [] ==> id == storage[UserIdKey]
    ensures !(UserIdKey in storage && storage[UserIdKey] != []) ==> id == NewSessionId(now)
    ensures id != []
  {
    if UserIdKey in storage && storage[UserIdKey] != [] then storage[UserIdKey] else NewSessionId(now)
  }

  /** The state the `useState` initializers give. */
  function Initial(storage: map<string, string>, now: nat): (s: State)
    ensures s.messages == [] && s.input == [] && !s.loading && s.activeFile == None
    ensures s.mode == Chat && s.sessions == []
    ensures s.currentSessionId == InitialSessionId(storage, now)
    ensures s.pptOptions == DefaultPptOptions && s.reportStyle == DefaultReportStyle
    ensures s.storage == storage
  {
    State([], [], false, None, Chat, [], InitialSessionId(storage, now),
          DefaultPptOptions, DefaultReportStyle, storage)
  }

  /** `loadHistoryList`: the fetched listing replaces the cached sessions when present. */
  function LoadHistoryList(s: State, listing: Option<seq<Session>>): (t: State)
    ensures listing.Some? ==> t.sessions == listing.value
    ensures listing.None? ==> t.sessions == s.sessions
    ensures t.(sessions := s.sessions) == s
  {
    s.(sessions := Refreshed(s.sessions, listing))
  }

  /** The effect run whenever the session id changes: the id is persisted, the session
      list refreshed, and an empty log receives the welcome message. */
  function IdentityEffect(s: State, now: nat, listing: Option<seq<Session>>): (t: State)
    ensures UserIdKey in t.storage && t.storage[UserIdKey] == s.currentSessionId
    ensures forall k | k in s.storage && k != UserIdKey :: k in t.storage && t.storage[k] == s.storage[k]
    ensures forall k | k in t.storage && k != UserIdKey :: k in s.storage
    ensures t.sessions == Refreshed(s.sessions, listing)
    ensures s.messages == [] ==> t.messages == [Welcome(now)]
    ensures s.messages != [] ==> t.messages == s.messages
    ensures t.(messages := s.messages, sessions := s.sessions, storage := s.storage) == s
  {
    var persisted := s.(storage := s.storage[UserIdKey := s.currentSessionId]);
    var refreshed := LoadHistoryList(persisted, listing);
    if s.messages == [] then refreshed.(messages := [Welcome(now)]) else refreshed
  }

  /** React runs the effect after a render only when the id it depends on changed. */
  function AfterIdChange(before: State, after: State, now: nat, listing: Option<seq<Session>>): (t: State)
    ensures after.currentSessionId == before.currentSessionId ==> t == after
    ensures after.currentSessionId != before.currentSessionId ==>
      t == IdentityEffect(after, now, listing) && t.storage[UserIdKey] == after.currentSessionId
    ensures t.currentSessionId == after.currentSessionId && t.input == after.input &&
      t.loading == after.loading && t.activeFile == after.activeFile && t.mode == after.mode
  {
    if after.currentSessionId != before.currentSessionId then IdentityEffect(after, now, listing) else after
  }

  /** Mounting: the initial state, then the effect's first run. */
  function Startup(storage: map<string, string>, now: nat, listing: Option<seq<Session>>): (s: State)
    ensures UserIdKey in storage && storage[UserIdKey] != [] ==> s.currentSessionId == storage[UserIdKey]
    ensures !(UserIdKey in storage && storage[UserIdKey] != []) ==> s.currentSessionId == NewSessionId(now)
    ensures UserIdKey in s.storage && s.storage[UserIdKey] == s.currentSessionId
    ensures s.messages == [Welcome(now)]
    ensures !s.loading && s.input == [] && s.activeFile == None && s.mode == Chat
    ensures s.sessions == Refreshed([], listing)
    ensures s.pptOptions == DefaultPptOptions && s.reportStyle == DefaultReportStyle
  {
    IdentityEffect(Initial(storage, now), now, listing)
  }

  /** The identity persists: a later start from the storage the first one left behind
      resumes the same identity, whatever the time. */
  lemma IdentityPersists(storage: map<string, string>, now: nat, later: nat,
                         listing: Option<seq<Session>>, listing': Option<seq<Session>>)
    ensures var first := Startup(storage, now, listing);
      Startup(first.storage, later, listing').currentSessionId == first.currentSessionId
  {
    var first := Startup(storage, now, listing);
    assert first.currentSessionId != [];
  }

  /** The textarea's `onChange`. */
  function SetInput(s: State, text: string): (t: State)
    ensures t.input == text && t.(input := s.input) == s
  {
    s.(input := text)
  }

  /** `handleFileSelect`: the first selected file replaces the staged one; an empty
      selection changes nothing. */
  function FileSelect(s: State, files: Option<seq<StagedFile>>): (t: State)
    ensures files.Some? && |files.value| > 0 ==> t.activeFile == Some(files.value[0])
    ensures !(files.Some? && |files.value| > 0) ==> t == s
    ensures t.(activeFile := s.activeFile) == s
  {
    if files.Some? && |files.value| > 0 then s.(activeFile := Some(files.value[0])) else s
  }

  /** The guard of `handleSend`: some non-blank input or a staged file. */
  predicate SendAllowed(input: string, file: Option<StagedFile>): (b: bool)
    ensures b <==> file.Some? || exists i | 0 <= i < |input| :: !IsJsSpace(input[i])
  {
    !(IsBlank(input) && file.None?)
  }

  /** `handleSend` up to its first await. A refused send changes nothing. An allowed one
      appends exactly one user message with the untrimmed input and the staged file's
      name, empties the input, raises the loading flag, and captures what the rest of
      the send will read. */
  function BeginSend(s: State, now: nat): (r: (State, Option<PendingSend>))
    ensures !SendAllowed(s.input, s.activeFile) ==> r.0 == s && r.1 == None
    ensures SendAllowed(s.input, s.activeFile) ==>
      var t := r.0;
      t.messages == s.messages + [UserMessage(s.input, s.activeFile, now)] &&
      // consequences of the equality above, spelled out for the proofs that use them
      |t.messages| == |s.messages| + 1 && t.messages[..|s.messages|] == s.messages &&
      t.messages[|s.messages|].role == User && t.messages[|s.messages|].text == s.input &&
      t.messages[|s.messages|].meta == Some(Meta(None, None, None, FileName(s.activeFile), None, None)) &&
      t.input == [] && t.loading &&
      t.(messages := s.messages, input := s.input, loading := s.loading) == s &&
      r.1 == Some(PendingSend(s.input, s.currentSessionId, s.mode, s.pptOptions, s.reportStyle, s.activeFile))
  {
    if !SendAllowed(s.input, s.activeFile) then (s, None)
    else
      var user := UserMessage(s.input, s.activeFile, now);
      (s.(messages := s.messages + [user], input := [], loading := true),
       Some(PendingSend(s.input, s.currentSessionId, s.mode, s.pptOptions, s.reportStyle, s.activeFile)))
  }

  /** `handleSend` between its awaits: builds the payload from what the send captured and
      the data URL the reader produced, and clears the staged file. The payload carries
      the file's body and MIME type only when a file was staged. */
  function PreparePayload(s: State, p: PendingSend, dataUrl: string): (r: (State, Payload))
    ensures r.0.activeFile == None && r.0.(activeFile := s.activeFile) == s
    ensures r.1.message == p.text && r.1.sessionId == p.sessionId && r.1.mode == p.mode
    ensures PptPart(r.1.options) == p.pptOptions && r.1.options.style == p.reportStyle
    ensures p.file.Some? ==> r.1.mimeType == Some(p.file.value.mimeType) && r.1.fileData == FileBody(Some(dataUrl))
    ensures p.file.None? ==> r.1.mimeType == None && r.1.fileData == None
  {
    var url := if p.file.Some? then Some(dataUrl) else None;
    (s.(activeFile := None),
     BuildPayload(p.text, p.sessionId, p.mode, p.file, url, p.pptOptions, p.reportStyle))
  }

  /** `handleSend` after the response: the loading flag drops and exactly one message is
      appended, keeping every earlier one: an `ai` message on success, a `system`
      message on error. Only a success refreshes the session list. */
  function CompleteSend(s: State, response: ApiResponse, now: nat, listing: Option<seq<Session>>): (t: State)
    ensures !t.loading
    ensures |t.messages| == |s.messages| + 1 && t.messages[..|s.messages|] == s.messages
    ensures t.messages == s.messages +
      [if response.status == Success then AiMessage(response, now) else ErrorMessage(response.error, now)]
    ensures response.status == Success ==>
      var m := t.messages[|s.messages|];
      m.role == Ai && m.text == ReplyText(response.reply) && m.thinking == response.thinking &&
      m.meta == Some(Meta(response.model, response.image, response.mime, None, None, None)) &&
      t.sessions == Refreshed(s.sessions, listing)
    ensures response.status == Failure ==>
      var m := t.messages[|s.messages|];
      m.role == System && m.text == ErrorText(response.error) && t.sessions == s.sessions
    ensures t.(messages := s.messages, loading := s.loading, sessions := s.sessions) == s
  {
    var settled := s.(loading := false);
    if response.status == Success then
      LoadHistoryList(settled.(messages := s.messages + [AiMessage(response, now)]), listing)
    else
      settled.(messages := s.messages + [ErrorMessage(response.error, now)])
  }

  /** `handleKeyDown`: Enter without Shift is taken over and starts a send, with no
      check of the loading flag; every other key is left to the textarea. */
  function KeyDown(s: State, key: string, shift: bool, now: nat): (r: (State, bool, Option<PendingSend>))
    ensures r.1 <==> key == "Enter" && !shift
    ensures r.1 ==> (r.0, r.2) == BeginSend(s, now)
    ensures !r.1 ==> r.0 == s && r.2 == None
  {
    if key == "Enter" && !shift then
      var (t, p) := BeginSend(s, now);
      (t, true, p)
    else (s, false, None)
  }

  /** `disabled={loading || (!input.trim() && !activeFile)}` on the send button. */
  predicate SendButtonEnabled(s: State): (b: bool)
    ensures b <==> !s.loading && (s.activeFile.Some? || exists i | 0 <= i < |s.input| :: !IsJsSpace(s.input[i]))
  {
    !s.loading && SendAllowed(s.input, s.activeFile)
  }

  /** A click on the send button: a disabled button does nothing, an enabled one starts
      a send. While a send is in flight, clicking changes nothing. */
  function ClickSend(s: State, now: nat): (r: (State, Option<PendingSend>))
    ensures s.loading ==> r == (s, None)
    ensures !s.loading ==> r == BeginSend(s, now)
  {
    if SendButtonEnabled(s) then BeginSend(s, now) else (s, None)
  }

  /** The key handler with the button's guard, so that Enter cannot start a second send
      while one is in flight. */
  function GuardedKeyDown(s: State, key: string, shift: bool, now: nat): (r: (State, bool, Option<PendingSend>))
    ensures r.1 <==> key == "Enter" && !shift
    ensures s.loading ==> r.0 == s && r.2 == None
    ensures !s.loading ==> r == KeyDown(s, key, shift, now)
  {
    if key == "Enter" && !shift then
      var (t, p) := ClickSend(s, now);
      (t, true, p)
    else (s, false, None)
  }

  /** `handleNewChat`: a fresh identity, an empty log and the chat mode. */
  function NewChat(s: State, now: nat): (t: State)
    ensures t.currentSessionId == NewSessionId(now) && t.messages == [] && t.mode == Chat
    ensures t.(currentSessionId := s.currentSessionId, messages := s.messages, mode := s.mode) == s
  {
    s.(currentSessionId := NewSessionId(now), messages := [], mode := Chat)
  }

  /** A new chat, once its effect has run, persists the new identity and leaves exactly
      the welcome message in the log. */
  lemma NewChatSettles(s: State, now: nat, listing: Option<seq<Session>>)
    requires s.currentSessionId != NewSessionId(now)
    ensures var t := AfterIdChange(s, NewChat(s, now), now, listing);
      t.currentSessionId == NewSessionId(now) && t.storage[UserIdKey] == NewSessionId(now) &&
      t.messages == [Welcome(now)] && t.mode == Chat &&
      t.pptOptions == s.pptOptions && t.reportStyle == s.reportStyle
  {
  }

  /** `loadSessionHandler` up to its await: the selected id becomes current. */
  function BeginLoadSession(s: State, id: string): (t: State)
    ensures t.currentSessionId == id && t.(currentSessionId := s.currentSessionId) == s
  {
    s.(currentSessionId := id)
  }

  /** `loadSessionHandler` after the backend answered: logs that are present (even an
      empty list) replace the log, remapped; missing logs leave it alone. Mode and
      options are never touched. */
  function CompleteLoadSession(s: State, id: string, logs: Option<seq<RawLog>>, now: nat): (t: State)
    ensures logs.None? ==> t == s
    ensures logs.Some? ==>
      t.messages == RemapLogs(id, logs.value, now) && t.(messages := s.messages) == s &&
      // consequences of the equality above, from the contract of `RemapLogs`
      |t.messages| == |logs.value| &&
      (forall i | 0 <= i < |logs.value| ::
         t.messages[i].role == logs.value[i].role && t.messages[i].text == logs.value[i].text &&
         t.messages[i].id == LogId(id, i))
  {
    if logs.Some? then s.(messages := RemapLogs(id, logs.value, now)) else s
  }

  /** `deleteSessionHandler`: only the cached list changes, and it loses exactly the
      entries with that id; the open conversation stays open. */
  function DeleteSession(s: State, id: string): (t: State)
    ensures t.sessions == Without(s.sessions, id) && t.(sessions := s.sessions) == s
    // consequences of the equality above, from the contract of `Without` and `WithoutLength`
    ensures forall k | 0 <= k < |t.sessions| :: t.sessions[k].id != id
    ensures forall x | x in s.sessions && x.id != id :: x in t.sessions
    ensures forall x | x in t.sessions :: x in s.sessions
    ensures |t.sessions| == |s.sessions| - CountId(s.sessions, id)
  {
    WithoutLength(s.sessions, id);
    s.(sessions := Without(s.sessions, id))
  }

  /** The events the component reacts to, each with the inputs its handler reads from
      the outside world. */
  datatype Event =
    | Type(text: string)
    | SelectFiles(files: Option<seq<StagedFile>>)
    | PressKey(key: string, shift: bool, now: nat)
    | Click(now: nat)
    | FileRead(pending: PendingSend, dataUrl: string)
    | Respond(response: ApiResponse, now: nat, listing: Option<seq<Session>>)
    | Listing(listing: Option<seq<Session>>)
    | Delete(id: string)
    | StartNewChat(now: nat, listing: Option<seq<Session>>)
    | Select(id: string, now: nat, listing: Option<seq<Session>>)
    | LogsArrive(id: string, logs: Option<seq<RawLog>>, now: nat)

  function Step(s: State, e: Event): State {
    match e
    case Type(text) => SetInput(s, text)
    case SelectFiles(files) => FileSelect(s, files)
    case PressKey(key, shift, now) => KeyDown(s, key, shift, now).0
    case Click(now) => ClickSend(s, now).0
    case FileRead(p, url) => PreparePayload(s, p, url).0
    case Respond(response, now, listing) => CompleteSend(s, response, now, listing)
    case Listing(listing) => LoadHistoryList(s, listing)
    case Delete(id) => DeleteSession(s, id)
    case StartNewChat(now, listing) => AfterIdChange(s, NewChat(s, now), now, listing)
    case Select(id, now, listing) => AfterIdChange(s, BeginLoadSession(s, id), now, listing)
    case LogsArrive(id, logs, now) => CompleteLoadSession(s, id, logs, now)
  }

  function Run(s: State, events: seq<Event>): State
    decreases |events|
  {
    if events == [] then s else Run(Step(s, events[0]), events[1..])
  }

  /** The events that never take a message out of the log: all but a new chat and the
      arrival of a stored session's logs. */
  predicate KeepsLog(e: Event) {
    !e.StartNewChat? && !e.LogsArrive?
  }

  /** The log is append-only within a session: whatever events other than a new chat or
      a session reload happen, in whatever order, the old log stays a prefix of the new. */
  lemma {:induction false} LogOnlyGrows(s: State, events: seq<Event>)
    requires forall k | 0 <= k < |events| :: KeepsLog(events[k])
    ensures var t := Run(s, events);
      |s.messages| <= |t.messages| && t.messages[..|s.messages|] == s.messages
    decreases |events|
  {
    if events != [] {
      var s1 := Step(s, events[0]);
      assert |s.messages| <= |s1.messages| && s1.messages[..|s.messages|] == s.messages;
      LogOnlyGrows(s1, events[1..]);
      var t := Run(s1, events[1..]);
      assert t.messages[..|s.messages|] == t.messages[..|s1.messages|][..|s.messages|];
    }
  }

  /** The first two phases of an allowed send: the user message is appended and the
      input and the staged file are cleared. */
  lemma SendBegun(s: State, now: nat, dataUrl: string)
    requires SendAllowed(s.input, s.activeFile)
    ensures var (s1, p) := BeginSend(s, now);
      p.Some? &&
      var s2 := PreparePayload(s1, p.value, dataUrl).0;
      |s2.messages| == |s.messages| + 1 && s2.messages[..|s.messages|] == s.messages &&
      s2.messages[|s.messages|].role == User && s2.messages[|s.messages|].text == s.input &&
      s2.input == [] && s2.activeFile == None
  {
  }

  /** The last phase of a send: the reply or the error message follows the log, and the
      input and the staged file stay as they were. */
  lemma SendAnswered(s: State, response: ApiResponse, now: nat, listing: Option<seq<Session>>)
    ensures var t := CompleteSend(s, response, now, listing);
      |t.messages| == |s.messages| + 1 && t.messages[..|s.messages|] == s.messages &&
      t.messages[|s.messages|].role == (if response.status == Success then Ai else System) &&
      t.messages[|s.messages|].text ==
        (if response.status == Success then ReplyText(response.reply) else ErrorText(response.error)) &&
      t.input == s.input && t.activeFile == s.activeFile && !t.loading
  {
  }

  /** A whole round trip (begin, file read, response) from a state where sending is
      allowed: the log ends with the user's message followed by the reply or the error
      message, the input and the staged file are cleared, and the loading flag is down. */
  lemma RoundTrip(s: State, now: nat, dataUrl: string, response: ApiResponse, later: nat,
                  listing: Option<seq<Session>>)
    requires SendAllowed(s.input, s.activeFile)
    ensures var (s1, p) := BeginSend(s, now);
      var s2 := PreparePayload(s1, p.value, dataUrl).0;
      var t := CompleteSend(s2, response, later, listing);
      |t.messages| == |s.messages| + 2 && t.messages[..|s.messages|] == s.messages &&
      t.messages[|s.messages|].role == User && t.messages[|s.messages|].text == s.input &&
      t.messages[|s.messages| + 1].role == (if response.status == Success then Ai else System) &&
      t.messages[|s.messages| + 1].text ==
        (if response.status == Success then ReplyText(response.reply) else ErrorText(response.error)) &&
      t.input == [] && t.activeFile == None && !t.loading
  {
    SendBegun(s, now, dataUrl);
    var (s1, p) := BeginSend(s, now);
    var s2 := PreparePayload(s1, p.value, dataUrl).0;
    SendAnswered(s2, response, later, listing);
    var t := CompleteSend(s2, response, later, listing);
    PrefixOfPrefix(t.messages, s2.messages, s.messages);
  }

  /** A prefix of a prefix is a prefix. */
  lemma PrefixOfPrefix<T>(a: seq<T>, b: seq<T>, c: seq<T>)
    requires |b| <= |a| && a[..|b|] == b && |c| <= |b| && b[..|c|] == c
    ensures a[..|c|] == c && (|c| < |b| ==> a[|c|] == b[|c|])
  {
    assert a[..|b|][..|c|] == a[..|c|];
  }

  /** The payload of a send carries the input as typed, the session id, mode and options
      current when the send began, and the staged file's body and type. */
  lemma SendPayload(s: State, now: nat, dataUrl: string)
    requires SendAllowed(s.input, s.activeFile)
    ensures var (s1, p) := BeginSend(s, now);
      var payload := PreparePayload(s1, p.value, dataUrl).1;
      payload.message == s.input && payload.sessionId == s.currentSessionId &&
      payload.mode == s.mode && PptPart(payload.options) == s.pptOptions &&
      payload.options.style == s.reportStyle &&
      (payload.mimeType.Some? <==> s.activeFile.Some?) &&
      (payload.fileData.Some? <==> s.activeFile.Some? && ',' in dataUrl)
  {
  }

  /** As written, Enter bypasses the button's loading check: with a file staged, a second
      Enter pressed before the file has been read starts a second send, appending a
      second user message while the first send is still in flight. */
  lemma EnterTwiceWhileReading(s: State, now: nat, now': nat)
    requires s.activeFile.Some?
    ensures var (s1, _, p1) := KeyDown(s, "Enter", false, now);
      var (s2, _, p2) := KeyDown(s1, "Enter", false, now');
      s1.loading && p1.Some? && p2.Some? && |s2.messages| == |s.messages| + 2 &&
      s2.messages[|s.messages| + 1].role == User && s2.messages[|s.messages| + 1].text == []
  {
    var (s1, _, p1) := KeyDown(s, "Enter", false, now);
    assert s1.input == [] && s1.activeFile == s.activeFile;
  }

  /** As written, while a reply is awaited, typing new text and pressing Enter starts a
      second send: a second user message is appended though the first send has not
      resolved. */
  lemma EnterWhileLoading(s: State, now: nat)
    requires s.loading && SendAllowed(s.input, s.activeFile)
    ensures var (t, _, p) := KeyDown(s, "Enter", false, now);
      p.Some? && t.loading && |t.messages| == |s.messages| + 1 && t.messages[|s.messages|].role == User
  {
  }

  /** With the button's guard on the key path, at most one send is in flight: two
      Enters without a response in between start at most one send. */
  lemma GuardedAtMostOneInFlight(s: State, now: nat, now': nat)
    ensures var (s1, _, p1) := GuardedKeyDown(s, "Enter", false, now);
      var (s2, _, p2) := GuardedKeyDown(s1, "Enter", false, now');
      (p1 == None || p2 == None) && |s2.messages| <= |s.messages| + 1
  {
  }

  /** "Hello" typed into a fresh start may be sent. */
  lemma HelloMaySend(s: State)
    requires s.input == "Hello"
    ensures SendAllowed(s.input, s.activeFile)
  {
    assert !IsJsSpace(s.input[0]);
  }

  /** Sending "Hello" answered by "Hi there": the log ends with the user's "Hello"
      followed by the reply "Hi there", and nothing before them changes. */
  lemma HelloAnswered(s: State, now: nat, later: nat)
    requires s.input == "Hello"
    ensures var (s1, p) := BeginSend(s, now);
      var s2 := PreparePayload(s1, p.value, "").0;
      var t := CompleteSend(s2, ApiResponse(Success, Some("Hi there"), None, None, None, None, None), later, None);
      |t.messages| == |s.messages| + 2 && t.messages[..|s.messages|] == s.messages &&
      t.messages[|s.messages|].role == User && t.messages[|s.messages|].text == "Hello" &&
      t.messages[|s.messages| + 1].role == Ai && t.messages[|s.messages| + 1].text == "Hi there"
  {
    HelloMaySend(s);
    RoundTrip(s, now, "", ApiResponse(Success, Some("Hi there"), None, None, None, None, None), later, None);
  }

  /** The same send answered by the error "rate limited": the user's message stays and
      a system message reporting the error follows it. */
  lemma HelloRateLimited(s: State, now: nat, later: nat)
    requires s.input == "Hello"
    ensures var (s1, p) := BeginSend(s, now);
      var s2 := PreparePayload(s1, p.value, "").0;
      var t := CompleteSend(s2, ApiResponse(Failure, None, Some("rate limited"), None, None, None, None), later, None);
      |t.messages| == |s.messages| + 2 && t.messages[..|s.messages|] == s.messages &&
      t.messages[|s.messages|].role == User && t.messages[|s.messages|].text == "Hello" &&
      t.messages[|s.messages| + 1].role == System && t.messages[|s.messages| + 1].text == ErrorPrefix + "rate limited"
  {
    HelloMaySend(s);
    RoundTrip(s, now, "", ApiResponse(Failure, None, Some("rate limited"), None, None, None, None), later, None);
  }
}
