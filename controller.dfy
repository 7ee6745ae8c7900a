/** The App component: its state fields, updated in place by its handlers. Each method
    ends in the state the matching transition of `Machine` gives, so every property
    proved there holds of the component. */
module Controller {

  import opened Wrappers
  import opened Types
  import opened Composer
  import opened Log
  import opened Directory
  import Machine

  class App {
    var messages: seq<Message>
    var input: string
    var loading: bool
    var activeFile: Option<StagedFile>
    var mode: AppMode
    var sessions: seq<Session>
    var currentSessionId: string
    var pptOptions: PptOptions
    var reportStyle: string
    /** The browser's local storage. */
    var storage: map<string, string>

    /** The component's fields as one record. */
    function State(): Machine.State
      reads this
    {
      Machine.State(messages, input, loading, activeFile, mode, sessions, currentSessionId,
                    pptOptions, reportStyle, storage)
    }

    /** Mounting: the `useState` initializers, then the first run of the identity effect. */
    constructor (storedItems: map<string, string>, now: nat, listing: Option<seq<Session>>)
      ensures State() == Machine.Startup(storedItems, now, listing)
    {
      messages := [];
      input := [];
      loading := false;
      activeFile := None;
      mode := Chat;
      sessions := [];
      storage := storedItems;
      if Machine.UserIdKey in storedItems && storedItems[Machine.UserIdKey] != [] {
        currentSessionId := storedItems[Machine.UserIdKey];
      } else {
        currentSessionId := Machine.NewSessionId(now);
      }
      pptOptions := Machine.DefaultPptOptions;
      reportStyle := Machine.DefaultReportStyle;
      new;
      IdentityEffect(now, listing);
    }

    /** `loadHistoryList`, with the fetched listing as input. */
    method LoadHistoryList(listing: Option<seq<Session>>)
      modifies this
      ensures State() == Machine.LoadHistoryList(old(State()), listing)
    {
      if listing.Some? {
        sessions := listing.value;
      }
    }

    /** The effect that runs when `currentSessionId` changes. */
    method IdentityEffect(now: nat, listing: Option<seq<Session>>)
      modifies this
      ensures State() == Machine.IdentityEffect(old(State()), now, listing)
    {
      storage := storage[Machine.UserIdKey := currentSessionId];
      var wasEmpty := messages == [];
      LoadHistoryList(listing);
      if wasEmpty {
        messages := [Welcome(now)];
      }
    }

    /** `handleNewChat`, followed by the effect its change of id triggers. */
    method HandleNewChat(now: nat, listing: Option<seq<Session>>)
      modifies this
      ensures State() == Machine.AfterIdChange(old(State()), Machine.NewChat(old(State()), now), now, listing)
    {
      var before := currentSessionId;
      currentSessionId := Machine.NewSessionId(now);
      messages := [];
      mode := Chat;
      if currentSessionId != before {
        IdentityEffect(now, listing);
      }
    }

    /** The textarea's `onChange`. */
    method SetInput(text: string)
      modifies this
      ensures State() == Machine.SetInput(old(State()), text)
    {
      input := text;
    }

    /** `handleFileSelect`, with the selected files as input. */
    method HandleFileSelect(files: Option<seq<StagedFile>>)
      modifies this
      ensures State() == Machine.FileSelect(old(State()), files)
    {
      if files.Some? && |files.value| > 0 {
        activeFile := Some(files.value[0]);
      }
    }

    /** `handleSend` up to its first await. */
    method BeginSend(now: nat) returns (pending: Option<Machine.PendingSend>)
      modifies this
      ensures (State(), pending) == Machine.BeginSend(old(State()), now)
    {
      if !Machine.SendAllowed(input, activeFile) {
        return None;
      }
      var user := UserMessage(input, activeFile, now);
      pending := Some(Machine.PendingSend(input, currentSessionId, mode, pptOptions, reportStyle, activeFile));
      messages := messages + [user];
      input := [];
      loading := true;
    }

    /** `handleSend` once the file reader has produced `dataUrl` (read only when the send
        captured a file): builds the payload and clears the staged file. */
    method PreparePayload(pending: Machine.PendingSend, dataUrl: string) returns (payload: Payload)
      modifies this
      ensures (State(), payload) == Machine.PreparePayload(old(State()), pending, dataUrl)
    {
      var url := if pending.file.Some? then Some(dataUrl) else None;
      payload := BuildPayload(pending.text, pending.sessionId, pending.mode, pending.file, url,
                              pending.pptOptions, pending.reportStyle);
      activeFile := None;
    }

    /** `handleSend` once the backend has answered with `response`; `listing` is what the
        session-list refresh fetches after a success. */
    method CompleteSend(response: ApiResponse, now: nat, listing: Option<seq<Session>>)
      modifies this
      ensures State() == Machine.CompleteSend(old(State()), response, now, listing)
    {
      loading := false;
      if response.status == Success {
        messages := messages + [AiMessage(response, now)];
        LoadHistoryList(listing);
      } else {
        messages := messages + [ErrorMessage(response.error, now)];
      }
    }

    /** `handleKeyDown`: Enter without Shift prevents the default and starts a send. */
    method HandleKeyDown(key: string, shift: bool, now: nat)
      returns (prevented: bool, pending: Option<Machine.PendingSend>)
      modifies this
      ensures (State(), prevented, pending) == Machine.KeyDown(old(State()), key, shift, now)
    {
      prevented := key == "Enter" && !shift;
      pending := None;
      if prevented {
        pending := BeginSend(now);
      }
    }

    /** A click on the send button, which is disabled while loading or with nothing to send. */
    method ClickSend(now: nat) returns (pending: Option<Machine.PendingSend>)
      modifies this
      ensures (State(), pending) == Machine.ClickSend(old(State()), now)
    {
      pending := None;
      if !loading && Machine.SendAllowed(input, activeFile) {
        pending := BeginSend(now);
      }
    }

    /** The key handler with the button's guard added. */
    method GuardedKeyDown(key: string, shift: bool, now: nat)
      returns (prevented: bool, pending: Option<Machine.PendingSend>)
      modifies this
      ensures (State(), prevented, pending) == Machine.GuardedKeyDown(old(State()), key, shift, now)
    {
      prevented := key == "Enter" && !shift;
      pending := None;
      if prevented {
        pending := ClickSend(now);
      }
    }

    /** `loadSessionHandler` up to its await, followed by the effect its change of id
        triggers. */
    method BeginLoadSession(id: string, now: nat, listing: Option<seq<Session>>)
      modifies this
      ensures State() == Machine.AfterIdChange(old(State()), Machine.BeginLoadSession(old(State()), id), now, listing)
    {
      var before := currentSessionId;
      currentSessionId := id;
      if currentSessionId != before {
        IdentityEffect(now, listing);
      }
    }

    /** `loadSessionHandler` once the backend has answered with `logs`. */
    method CompleteLoadSession(id: string, logs: Option<seq<RawLog>>, now: nat)
      modifies this
      ensures State() == Machine.CompleteLoadSession(old(State()), id, logs, now)
    {
      if logs.Some? {
        messages := RemapLogs(id, logs.value, now);
      }
    }

    /** `deleteSessionHandler`. */
    method DeleteSession(id: string)
      modifies this
      ensures State() == Machine.DeleteSession(old(State()), id)
    {
      sessions := Without(sessions, id);
    }
  }
}
