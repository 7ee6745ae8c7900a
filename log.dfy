/** The messages the controller puts into the conversation log: the optimistic user
    message, the reply or error that answers it, the welcome message, and the log rebuilt
    from a stored session. */
module Log {

  import opened Wrappers
  import opened Types
  import opened JsText

  /** The reply text used when the backend's reply is missing or empty. */
  const DefaultReply: string := "Done."

  /** The error detail used when the backend's error is missing or empty. */
  const UnknownError: string := "Unknown error"

  const ErrorPrefix: string := "Error: "

  const WelcomeId: string := "welcome"

  const WelcomeText: string :=
    "**Welcome to anyGem Next.**\n\nI am your upgraded AI agent. Select a mode above (Chat, Search, Report, Slides) to begin. I feature a split-view workspace for complex tasks."

  /** `response.reply || "Done."`: the reply when it is a non-empty string, the default
      otherwise; never empty. */
  function ReplyText(reply: Option<string>): (t: string)
    ensures t != []
    ensures reply.Some? && reply.value != [] ==> t == reply.value
    ensures reply.None? || reply.value == [] ==> t == DefaultReply
  {
    if reply.Some? && reply.value != [] then reply.value else DefaultReply
  }

  /** `Error: ${response.error || "Unknown error"}`: the prefix followed by the error
      verbatim when it is a non-empty string, by the default detail otherwise. */
  function ErrorText(error: Option<string>): (t: string)
    ensures |t| > |ErrorPrefix| && t[..|ErrorPrefix|] == ErrorPrefix
    ensures error.Some? && error.value != [] ==> t[|ErrorPrefix|..] == error.value
    ensures error.None? || error.value == [] ==> t[|ErrorPrefix|..] == UnknownError
  {
    ErrorPrefix + (if error.Some? && error.value != [] then error.value else UnknownError)
  }

  /** The `fileName` a user message records: the staged file's name, if any. */
  function FileName(file: Option<StagedFile>): Option<string> {
    if file.Some? then Some(file.value.name) else None
  }

  /** The optimistic message appended when a send begins: the input as typed, the time
      in decimal as its id, and the staged file's name, if any, in its meta. */
  function UserMessage(text: string, file: Option<StagedFile>, now: nat): (m: Message)
    ensures m.id == NatToString(now) && m.role == User && m.text == text
    ensures m.timestamp == now && m.thinking == None
    ensures m.meta.Some? && m.meta.value.model == None && m.meta.value.image == None &&
      m.meta.value.mime == None && m.meta.value.docUrl == None && m.meta.value.sources == None
    ensures m.meta.value.fileName.Some? <==> file.Some?
    ensures file.Some? ==> m.meta.value.fileName.value == file.value.name
  {
    Message(NatToString(now), User, text, None, now,
            Some(Meta(None, None, None, FileName(file), None, None)))
  }

  /** The message appended for a successful response: the time plus one in decimal as
      its id, the reply text, and the response's thinking, model, image and MIME type. */
  function AiMessage(response: ApiResponse, now: nat): (m: Message)
    ensures m.id == NatToString(now + 1) && m.role == Ai && m.text == ReplyText(response.reply)
    ensures m.timestamp == now && m.thinking == response.thinking
    ensures m.meta.Some? && m.meta.value.model == response.model &&
      m.meta.value.image == response.image && m.meta.value.mime == response.mime
    ensures m.meta.value.fileName == None && m.meta.value.docUrl == None && m.meta.value.sources == None
  {
    Message(NatToString(now + 1), Ai, ReplyText(response.reply), response.thinking, now,
            Some(Meta(response.model, response.image, response.mime, None, None, None)))
  }

  /** The message appended for a failed response: the time in decimal as its id, the
      error text, and no meta. */
  function ErrorMessage(error: Option<string>, now: nat): (m: Message)
    ensures m.id == NatToString(now) && m.role == System && m.text == ErrorText(error)
    ensures m.timestamp == now && m.thinking == None && m.meta == None
  {
    Message(NatToString(now), System, ErrorText(error), None, now, None)
  }

  /** The synthesized first message of a fresh session, from the assistant. */
  function Welcome(now: nat): (m: Message)
    ensures m.id == WelcomeId && m.role == Ai && m.text == WelcomeText
    ensures m.timestamp == now && m.thinking == None && m.meta == None
  {
    Message(WelcomeId, Ai, WelcomeText, None, now, None)
  }

  /** The reply's id is the time plus one, so a reply stamped in the same millisecond as
      the user message it answers still gets a different id. */
  lemma ReplyIdDiffersFromUserId(text: string, file: Option<StagedFile>, response: ApiResponse, now: nat)
    ensures AiMessage(response, now).id != UserMessage(text, file, now).id
  {
    if NatToString(now + 1) == NatToString(now) {
      NatToStringInjective(now + 1, now);
    }
  }

  /** An error message has no `+ 1` in its id, so one stamped in the same millisecond as
      the user message it answers reuses that message's id. */
  lemma ErrorIdMayRepeatUserId(text: string, file: Option<StagedFile>, error: Option<string>, now: nat)
    ensures ErrorMessage(error, now).id == UserMessage(text, file, now).id
  {
  }

  /** The id `${sessionId}_${i}` of the i-th message of a reloaded session. */
  function LogId(sessionId: string, i: nat): string {
    sessionId + "_" + NatToString(i)
  }

  function FromRaw(sessionId: string, i: nat, entry: RawLog, now: nat): Message {
    Message(LogId(sessionId, i), entry.role, entry.text, None, now, None)
  }

  /** `logs.map((l, i) => ...)`: one message per stored entry, in the same order, with
      role and text copied, a fresh timestamp and an id made of the session id and the
      entry's index. */
  function RemapLogs(sessionId: string, logs: seq<RawLog>, now: nat): (r: seq<Message>)
    ensures |r| == |logs|
    ensures forall i | 0 <= i < |r| ::
      r[i].role == logs[i].role && r[i].text == logs[i].text && r[i].timestamp == now &&
      r[i].id == LogId(sessionId, i) && r[i].thinking == None && r[i].meta == None
  {
    seq(|logs|, i requires 0 <= i < |logs| => FromRaw(sessionId, i, logs[i], now))
  }

  /** The stored entries a log shows. */
  function ToRaw(messages: seq<Message>): (r: seq<RawLog>)
    ensures |r| == |messages|
  {
    seq(|messages|, i requires 0 <= i < |messages| => RawLog(messages[i].role, messages[i].text))
  }

  /** Remapping loses nothing of the stored entries: reading the roles and texts back
      gives the entries again. */
  lemma RemapLogsRoundTrip(sessionId: string, logs: seq<RawLog>, now: nat)
    ensures ToRaw(RemapLogs(sessionId, logs, now)) == logs
  {
  }

  /** Every id of a reloaded log starts with the session id and an underscore, and the
      rest is the index in decimal. */
  lemma LogIdShape(sessionId: string, i: nat)
    ensures LogId(sessionId, i)[..|sessionId| + 1] == sessionId + "_"
    ensures LogId(sessionId, i)[|sessionId| + 1..] == NatToString(i)
    ensures var id := LogId(sessionId, i);
      |id| > |sessionId| + 1 && id[..|sessionId|] == sessionId && id[|sessionId|] == '_' &&
      DigitsValue(id[|sessionId| + 1..]) == i
  {
    var id := LogId(sessionId, i);
    assert id[|sessionId| + 1..] == NatToString(i);
    NatToStringRoundTrip(i);
  }

  /** The ids of a reloaded log are pairwise distinct. */
  lemma RemapLogsIdsDistinct(sessionId: string, logs: seq<RawLog>, now: nat, i: nat, j: nat)
    requires i < |logs| && j < |logs| && i != j
    ensures RemapLogs(sessionId, logs, now)[i].id != RemapLogs(sessionId, logs, now)[j].id
  {
    var a, b := LogId(sessionId, i), LogId(sessionId, j);
    if a == b {
      assert a[|sessionId| + 1..] == NatToString(i);
      assert b[|sessionId| + 1..] == NatToString(j);
      NatToStringInjective(i, j);
    }
  }
}
