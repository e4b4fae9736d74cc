/**
 * The client-side session manager. The class keeps the fields the source
 * object updates in place; the observable subjects become plain fields
 * holding their current value (`messages`, `state`, `debug`), and the data
 * channel is reduced to whether it is open (`channelOpen`) and the list of
 * control messages sent on it (`outbox`). Network, media and timers are
 * replaced by parameters: `now` is the clock reading of the handler, a
 * connect attempt's outcome is given, and so is each reconnect attempt's.
 */
module Service {
  import opened Wrappers
  import opened Text
  import opened Transcript
  import opened Diagnostics
  import opened Protocol
  import opened Connectivity
  import opened Schedule
  import opened Tracing

  const ErrorPrefix := "\U{26A0}\U{FE0F}" + " Realtime error: "
  const LostNotice := "\U{26A0}\U{FE0F}" + " Connection lost\U{2026} reconnecting."
  const ReconnectedNotice := "\U{2705}" + " Reconnected."
  const GaveUpNotice := "\U{274C}" + " Could not reconnect. Please click Start again."

  /** The two notices a recovery adds: "connection lost" at `lost`, then the result at `end`. */
  function RecoveryNotices(recovered: bool, lost: int, end: int): seq<ChatMsg> {
    [ChatMsg(Assistant, LostNotice, lost),
     ChatMsg(Assistant, if recovered then ReconnectedNotice else GaveUpNotice, end)]
  }

  /** A text whose first character is not `[` can never look like a draft. */
  lemma NoticeIsFinal(prefix: string, rest: string)
    requires prefix != [] && prefix[0] != '['
    ensures !StartsWith(prefix + rest, DraftTag)
  {
    assert (prefix + rest)[0] == prefix[0];
  }

  /** None of the three recovery notices looks like a draft. */
  lemma RecoveryNoticesAreFinal()
    ensures !StartsWith(LostNotice, DraftTag)
    ensures !StartsWith(ReconnectedNotice, DraftTag)
    ensures !StartsWith(GaveUpNotice, DraftTag)
  {
    assert LostNotice[0] == '\U{26A0}';
    assert ReconnectedNotice[0] == '\U{2705}';
    assert GaveUpNotice[0] == '\U{274C}';
  }

  class RealtimeService {
    var messages: seq<ChatMsg>
    var userDraft: string
    var assistantDraft: string
    var assistantInProgress: bool
    var lastDeviceId: Option<string>
    var reconnecting: bool
    var debugEnabled: bool
    var debug: seq<DebugEvent>
    var state: RtState
    var channelOpen: bool
    var outbox: seq<OutMsg>

    /** The object invariant: the log is within its capacity, drafts are never duplicated. */
    ghost predicate Valid()
      reads this
    {
      |debug| <= Capacity && NoAdjacentDrafts(messages)
    }

    constructor ()
      ensures Valid()
      ensures messages == [] && userDraft == "" && assistantDraft == ""
      ensures !assistantInProgress && lastDeviceId == None && !reconnecting
      ensures debugEnabled && debug == [] && state == Idle
      ensures !channelOpen && outbox == []
    {
      messages := [];
      userDraft := "";
      assistantDraft := "";
      assistantInProgress := false;
      lastDeviceId := None;
      reconnecting := false;
      debugEnabled := true;
      debug := [];
      state := Idle;
      channelOpen := false;
      outbox := [];
    }

    /** `pushDebug`: append and keep the newest 200, unless logging is off. */
    method PushDebug(kind: string, summary: Option<string>, now: int)
      requires Valid()
      modifies this`debug
      ensures Valid()
      ensures debug == Record(old(debug), debugEnabled, DebugEvent(now, kind, summary))
    {
      if !debugEnabled {
        return;
      }
      var list := debug + [DebugEvent(now, kind, summary)];
      var trimmed := if |list| > Capacity then list[|list| - Capacity..] else list;
      debug := trimmed;
    }

    /** `clearDebug`. */
    method ClearDebug()
      requires Valid()
      modifies this`debug
      ensures Valid()
      ensures debug == []
    {
      debug := [];
    }

    /** `setDebugEnabled`: the log itself is kept. */
    method SetDebugEnabled(enabled: bool)
      requires Valid()
      modifies this`debugEnabled
      ensures Valid()
      ensures debugEnabled == enabled && debug == old(debug)
    {
      debugEnabled := enabled;
    }

    /** `getMessages`: a snapshot of the transcript. */
    method GetMessages() returns (snapshot: seq<ChatMsg>)
      ensures snapshot == messages
    {
      snapshot := messages;
    }

    /** `setState`: every call is published and logged, also when the state is unchanged. */
    method SetState(s: RtState, now: int)
      requires Valid()
      modifies this`state, this`debug
      ensures Valid()
      ensures state == s
      ensures debug == Record(old(debug), debugEnabled, StateEntry(s, now))
    {
      state := s;
      PushDebug("state", Some(StateName(s)), now);
    }

    /** `sendEvent`: dropped unless the data channel is open. */
    method SendEvent(m: OutMsg)
      modifies this`outbox
      ensures outbox == if channelOpen then old(outbox) + [m] else old(outbox)
    {
      if !channelOpen {
        return;
      }
      outbox := outbox + [m];
    }

    /** `upsertDraft`: note that it always sets the state to `disconnected`. */
    method UpsertDraft(role: Role, text: string, now: int)
      requires Valid()
      modifies this`state, this`debug, this`messages
      ensures Valid()
      ensures state == Disconnected
      ensures debug == Record(old(debug), debugEnabled, StateEntry(Disconnected, now))
      ensures messages == Upserted(old(messages), role, text, now)
      ensures messages != [] && messages[|messages| - 1].role == role
    {
      SetState(Disconnected, now);
      var list := messages;
      if |list| > 0 && list[|list| - 1].role == role && StartsWith(list[|list| - 1].text, DraftTag) {
        var last := list[|list| - 1];
        list := list[|list| - 1 := last.(text := DraftTag + text)];
      } else {
        list := list + [ChatMsg(role, DraftTag + text, now)];
      }
      UpsertedKeepsInvariant(messages, role, text, now);
      messages := list;
    }

    /** `finalizeDraft`. */
    method FinalizeDraft(role: Role, finalText: string, now: int)
      requires Valid()
      modifies this`messages
      ensures Valid()
      ensures messages == Finalized(old(messages), role, finalText, now)
    {
      var list := messages;
      if |list| > 0 && list[|list| - 1].role == role && StartsWith(list[|list| - 1].text, DraftTag) {
        var last := list[|list| - 1];
        list := list[|list| - 1 := last.(text := finalText)];
      } else {
        list := list + [ChatMsg(role, finalText, now)];
      }
      FinalizedKeepsInvariant(messages, role, finalText, now);
      messages := list;
    }

    /** `markAssistantInterrupted`. */
    method MarkAssistantInterrupted(now: int)
      requires Valid()
      modifies this`messages
      ensures Valid()
      ensures messages == Interrupted(old(messages), now)
    {
      var list := messages;
      if |list| > 0 && list[|list| - 1].role == Assistant && StartsWith(list[|list| - 1].text, DraftTag) {
        var text := Trim(StripDraft(list[|list| - 1].text));
        list := list[|list| - 1 := ChatMsg(Assistant, if text != "" then text + " " + InterruptedNote else InterruptedNote, now)];
        InterruptedKeepsInvariant(messages, now);
        messages := list;
      }
    }

    /** Appends a message that is final from the start (an error or a status notice). */
    method AppendNotice(text: string, now: int)
      requires Valid() && !StartsWith(text, DraftTag)
      modifies this`messages
      ensures Valid()
      ensures messages == old(messages) + [ChatMsg(Assistant, text, now)]
    {
      AppendFinalKeepsInvariant(messages, ChatMsg(Assistant, text, now));
      messages := messages + [ChatMsg(Assistant, text, now)];
    }

    /** Speech start: an empty user draft is (re)started; a response in progress is cancelled. */
    twostate predicate SpeechStartedEffect(now: int)
      reads this
    {
      && userDraft == ""
      && messages == Upserted(old(messages), User, "", now)
      && !assistantInProgress
      && assistantDraft == (if old(assistantInProgress) then "" else old(assistantDraft))
      && outbox == old(outbox) + (if old(assistantInProgress) && channelOpen then [ResponseCancel] else [])
      && state == Disconnected
    }

    /** A user delta is appended to the user draft, which is upserted. */
    twostate predicate UserDeltaEffect(delta: Option<string>, now: int)
      reads this
    {
      && userDraft == old(userDraft) + Or(delta, "")
      && messages == Upserted(old(messages), User, userDraft, now)
      && assistantDraft == old(assistantDraft) && assistantInProgress == old(assistantInProgress)
      && outbox == old(outbox)
      && state == Disconnected
    }

    /** The completed transcript finalizes the user entry and requests a response. */
    twostate predicate UserCompletedEffect(transcript: Option<string>, now: int)
      reads this
    {
      && messages == Finalized(old(messages), User, Trim(Or(transcript, old(userDraft))), now)
      && userDraft == "" && assistantDraft == "" && assistantInProgress
      && outbox == old(outbox) + (if channelOpen then [ResponseCreate] else [])
      && state == Thinking
    }

    /** An assistant delta: kept only while a response is in progress. */
    twostate predicate TextDeltaEffect(delta: Option<string>, now: int)
      reads this
    {
      && userDraft == old(userDraft) && assistantInProgress == old(assistantInProgress)
      && outbox == old(outbox)
      && (old(assistantInProgress) ==>
            && assistantDraft == old(assistantDraft) + Or(delta, "")
            && messages == Upserted(old(messages), Assistant, assistantDraft, now)
            && state == Disconnected)
      && (!old(assistantInProgress) ==>
            && assistantDraft == old(assistantDraft) && messages == old(messages)
            && state == Responding)
    }

    /** The end of the text finalizes the assistant entry with the accumulated draft. */
    twostate predicate TextDoneEffect(now: int)
      reads this
    {
      && messages == Finalized(old(messages), Assistant, old(assistantDraft), now)
      && !assistantInProgress && state == Listening
      && userDraft == old(userDraft) && assistantDraft == old(assistantDraft)
      && outbox == old(outbox)
    }

    /** A remote error becomes one final assistant entry. */
    twostate predicate RemoteErrorEffect(message: Option<string>, serialized: string, now: int)
      reads this
    {
      && messages == old(messages) + [ChatMsg(Assistant, ErrorPrefix + Or(message, serialized), now)]
      && !assistantInProgress && state == Error
      && userDraft == old(userDraft) && assistantDraft == old(assistantDraft)
      && outbox == old(outbox)
    }

    /** `input_audio_buffer.speech_started`: the summary, then the speech-start rule. */
    method OnSpeechStarted(now: int)
      requires Valid()
      modifies this`messages, this`userDraft, this`assistantDraft, this`assistantInProgress
      modifies this`state, this`debug, this`outbox
      ensures Valid()
      ensures SpeechStartedEffect(now)
      ensures debug == EventLog(old(debug), debugEnabled, SpeechStarted, old(assistantDraft), old(state), old(assistantInProgress), now)
    {
      PushDebug(SpeechStartedType, None, now);
      SetState(Listening, now);
      StartUserTurn(now);
    }

    /**
     * The speech-start rule after its first `setState`: the user draft is
     * reset and upserted empty, then the barge-in block runs when an answer
     * is in progress.
     */
    method StartUserTurn(now: int)
      requires Valid()
      modifies this`messages, this`userDraft, this`assistantDraft, this`assistantInProgress
      modifies this`state, this`debug, this`outbox
      ensures Valid()
      ensures SpeechStartedEffect(now)
      ensures debug == Record(old(debug), debugEnabled, StateEntry(Disconnected, now))
    {
      userDraft := "";
      UpsertDraft(User, "", now);
      if assistantInProgress {
        BargeIn(now);
      }
    }

    /**
     * The barge-in block of the speech-start rule: the answer in progress is
     * marked interrupted and cancelled. It runs right after the user draft
     * was upserted, so the mark finds no assistant draft to rewrite.
     */
    method BargeIn(now: int)
      requires Valid() && messages != [] && messages[|messages| - 1].role == User
      modifies this`messages, this`assistantDraft, this`assistantInProgress, this`outbox
      ensures Valid()
      ensures messages == old(messages)
      ensures outbox == old(outbox) + (if channelOpen then [ResponseCancel] else [])
      ensures !assistantInProgress && assistantDraft == ""
    {
      InterruptIgnoresUser(messages, now);
      MarkAssistantInterrupted(now);
      SendEvent(ResponseCancel);
      assistantInProgress := false;
      assistantDraft := "";
    }

    /** `conversation.item.input_audio_transcription.delta`. */
    method OnUserDelta(delta: Option<string>, now: int)
      requires Valid()
      modifies this`messages, this`userDraft, this`state, this`debug
      ensures Valid()
      ensures UserDeltaEffect(delta, now)
      ensures debug == EventLog(old(debug), debugEnabled, UserTranscriptDelta(delta), old(assistantDraft), old(state), old(assistantInProgress), now)
    {
      PushDebug(UserDeltaType, Some("+" + CharCount(Or(delta, ""))), now);
      userDraft := userDraft + Or(delta, "");
      UpsertDraft(User, userDraft, now);
    }

    /** `conversation.item.input_audio_transcription.completed`. */
    method OnUserCompleted(transcript: Option<string>, now: int)
      requires Valid()
      modifies this`messages, this`userDraft, this`assistantDraft, this`assistantInProgress
      modifies this`state, this`debug, this`outbox
      ensures Valid()
      ensures UserCompletedEffect(transcript, now)
      ensures debug == EventLog(old(debug), debugEnabled, UserTranscriptCompleted(transcript), old(assistantDraft), old(state), old(assistantInProgress), now)
    {
      PushDebug(UserCompletedType, Some(CharCount(Or(transcript, ""))), now);
      SetState(Thinking, now);
      var finalUserText := Trim(Or(Some(Or(transcript, userDraft)), ""));
      OrAbsorbsEmpty(transcript, userDraft);
      RequestResponse(finalUserText, now);
    }

    /** The rest of the completion rule: the user entry is finalized, the drafts reset and a response requested. */
    method RequestResponse(finalUserText: string, now: int)
      requires Valid()
      modifies this`messages, this`userDraft, this`assistantDraft, this`assistantInProgress, this`outbox
      ensures Valid()
      ensures messages == Finalized(old(messages), User, finalUserText, now)
      ensures userDraft == "" && assistantDraft == "" && assistantInProgress
      ensures outbox == old(outbox) + (if channelOpen then [ResponseCreate] else [])
    {
      FinalizeDraft(User, finalUserText, now);
      userDraft := "";
      assistantDraft := "";
      assistantInProgress := true;
      SendEvent(ResponseCreate);
    }

    /** `response.text.delta`: late deltas only move the state. */
    method OnTextDelta(delta: Option<string>, now: int)
      requires Valid()
      modifies this`messages, this`assistantDraft, this`state, this`debug
      ensures Valid()
      ensures TextDeltaEffect(delta, now)
      ensures debug == EventLog(old(debug), debugEnabled, TextDelta(delta), old(assistantDraft), old(state), old(assistantInProgress), now)
    {
      PushDebug(TextDeltaType, Some("+" + CharCount(Or(delta, ""))), now);
      if state != Responding {
        SetState(Responding, now);
      }
      if assistantInProgress {
        ExtendAssistantDraft(Or(delta, ""), now);
      }
    }

    /** The in-progress branch of `response.text.delta`: the delta is appended and the draft upserted. */
    method ExtendAssistantDraft(delta: string, now: int)
      requires Valid()
      modifies this`messages, this`assistantDraft, this`state, this`debug
      ensures Valid()
      ensures assistantDraft == old(assistantDraft) + delta
      ensures messages == Upserted(old(messages), Assistant, assistantDraft, now)
      ensures state == Disconnected
      ensures debug == Record(old(debug), debugEnabled, StateEntry(Disconnected, now))
    {
      assistantDraft := assistantDraft + delta;
      UpsertDraft(Assistant, assistantDraft, now);
    }

    /** `response.text.done`. */
    method OnTextDone(now: int)
      requires Valid()
      modifies this`messages, this`assistantInProgress, this`state, this`debug
      ensures Valid()
      ensures TextDoneEffect(now)
      ensures debug == EventLog(old(debug), debugEnabled, TextDone, old(assistantDraft), old(state), old(assistantInProgress), now)
    {
      PushDebug(TextDoneType, Some(CharCount(assistantDraft)), now);
      FinalizeDraft(Assistant, assistantDraft, now);
      assistantInProgress := false;
      SetState(Listening, now);
    }

    /** `error`: `serialized` stands for the JSON text shown when there is no message. */
    method OnRemoteError(message: Option<string>, serialized: string, now: int)
      requires Valid()
      modifies this`messages, this`assistantInProgress, this`state, this`debug
      ensures Valid()
      ensures RemoteErrorEffect(message, serialized, now)
      ensures debug == EventLog(old(debug), debugEnabled, RemoteError(message, serialized), old(assistantDraft), old(state), old(assistantInProgress), now)
    {
      PushDebug(ErrorType, Some(Or(message, "unknown")), now);
      assistantInProgress := false;
      SetState(Error, now);
      var msg := Or(message, serialized);
      NoticeIsFinal(ErrorPrefix, msg);
      AppendNotice(ErrorPrefix + msg, now);
    }

    /**
     * `onServerEvent`: the reducer. Each handled event is first summarised
     * in the log and then handled by exactly one rule; unknown types and
     * text that is not JSON change nothing at all.
     */
    method OnServerEvent(evt: ServerEvent, now: int)
      requires Valid() && WellFormed(evt)
      modifies this`messages, this`userDraft, this`assistantDraft, this`assistantInProgress
      modifies this`state, this`debug, this`outbox
      ensures Valid()
      ensures debug == EventLog(old(debug), debugEnabled, evt, old(assistantDraft), old(state), old(assistantInProgress), now)
      ensures evt.Malformed? || evt.Unknown? ==>
        && messages == old(messages) && userDraft == old(userDraft)
        && assistantDraft == old(assistantDraft) && assistantInProgress == old(assistantInProgress)
        && state == old(state) && outbox == old(outbox)
      ensures evt.SpeechStarted? ==> SpeechStartedEffect(now)
      ensures evt.UserTranscriptDelta? ==> UserDeltaEffect(evt.delta, now)
      ensures evt.UserTranscriptCompleted? ==> UserCompletedEffect(evt.transcript, now)
      ensures evt.TextDelta? ==> TextDeltaEffect(evt.delta, now)
      ensures evt.TextDone? ==> TextDoneEffect(now)
      ensures evt.RemoteError? ==> RemoteErrorEffect(evt.message, evt.serialized, now)
    {
      match evt {
        case SpeechStarted => OnSpeechStarted(now);
        case UserTranscriptDelta(d) => OnUserDelta(d, now);
        case UserTranscriptCompleted(t) => OnUserCompleted(t, now);
        case TextDelta(d) => OnTextDelta(d, now);
        case TextDone => OnTextDone(now);
        case RemoteError(m, ser) => OnRemoteError(m, ser, now);
        case Unknown(_) =>
        case Malformed =>
      }
    }

    /**
     * `disconnect`: the connections are dropped and the drafts reset; the
     * transcript is emptied only on request. The state is left as it is.
     */
    method Disconnect(clearMessages: bool, now: int)
      requires Valid()
      modifies this`channelOpen, this`userDraft, this`assistantDraft, this`assistantInProgress
      modifies this`messages, this`debug
      ensures Valid()
      ensures !channelOpen && userDraft == "" && assistantDraft == "" && !assistantInProgress
      ensures messages == if clearMessages then [] else old(messages)
      ensures debug == Record(old(debug), debugEnabled, DisconnectEntry(clearMessages, now))
    {
      channelOpen := false;
      userDraft := "";
      assistantDraft := "";
      assistantInProgress := false;
      if clearMessages {
        messages := [];
      }
      PushDebug("client.disconnect", Some("clearMessages=" + if clearMessages then "true" else "false"), now);
    }

    /**
     * `connect`: the device is remembered and the state goes to
     * `connecting`; the token and the audio capture are logged as they
     * succeed. A failure before the new data channel is created leaves the
     * old channel as it was; a later failure leaves the new, unopened one.
     * Only a success sends the session update and goes to `listening`.
     */
    method Connect(deviceId: Option<string>, outcome: ConnectOutcome, now: int)
      requires Valid()
      modifies this`state, this`debug, this`lastDeviceId, this`channelOpen, this`outbox
      ensures Valid()
      ensures lastDeviceId == deviceId
      ensures state == if outcome.Connected? then Listening else Connecting
      ensures channelOpen == if outcome.LinkFailed? || outcome.Connected? then outcome.Connected? else old(channelOpen)
      ensures outbox == old(outbox) + (if outcome.Connected? then [SessionUpdate] else [])
      ensures debug == RecordAll(old(debug), debugEnabled, ConnectEntries(deviceId, outcome, now))
    {
      SetState(Connecting, now);
      lastDeviceId := deviceId;
      PushDebug("client.connect", Some("deviceId=" + Or(deviceId, "default")), now);
      RecordTwo(old(debug), debugEnabled, StateEntry(Connecting, now), ConnectEntry(deviceId, now));
      ConnectEntriesCases(deviceId, outcome, now);
      if !outcome.TokenFailed? {
        AfterToken(deviceId, outcome, now, old(debug));
      }
    }

    /**
     * The steps of `connect` once the token has been obtained: the token is
     * logged, then the audio tracks once captured, and the new data channel
     * replaces the old one; a success opens it.
     */
    method AfterToken(deviceId: Option<string>, outcome: ConnectOutcome, now: int, ghost log0: seq<DebugEvent>)
      requires Valid() && !outcome.TokenFailed? && state == Connecting
      requires debug == RecordAll(log0, debugEnabled, [StateEntry(Connecting, now), ConnectEntry(deviceId, now)])
      modifies this`state, this`debug, this`channelOpen, this`outbox
      ensures Valid()
      ensures state == if outcome.Connected? then Listening else Connecting
      ensures channelOpen == if outcome.LinkFailed? || outcome.Connected? then outcome.Connected? else old(channelOpen)
      ensures outbox == old(outbox) + (if outcome.Connected? then [SessionUpdate] else [])
      ensures debug == RecordAll(log0, debugEnabled, ConnectEntries(deviceId, outcome, now))
    {
      ghost var opening := [StateEntry(Connecting, now), ConnectEntry(deviceId, now)];
      PushDebug("token.ok", None, now);
      RecordAllSnoc(log0, debugEnabled, opening, TokenEntry(now));
      if outcome.LinkFailed? || outcome.Connected? {
        OpenLink(outcome.tracks, outcome.Connected?, now, log0, opening + [TokenEntry(now)]);
        ConnectEntriesLinked(deviceId, outcome, now);
      } else {
        ConnectEntriesCases(deviceId, outcome, now);
      }
    }

    /**
     * The steps of `connect` once the microphone is captured: the tracks
     * are logged, a new, closed data channel replaces the old one, and
     * only when the link comes up is it opened, the session update sent
     * and the state set to `listening`.
     */
    method OpenLink(tracks: seq<string>, linked: bool, now: int, ghost log0: seq<DebugEvent>, ghost done: seq<DebugEvent>)
      requires Valid() && state == Connecting && debug == RecordAll(log0, debugEnabled, done)
      modifies this`state, this`debug, this`channelOpen, this`outbox
      ensures Valid()
      ensures state == if linked then Listening else Connecting
      ensures channelOpen == linked
      ensures outbox == old(outbox) + (if linked then [SessionUpdate] else [])
      ensures debug == RecordAll(log0, debugEnabled, done + [AudioEntry(tracks, now)] + (if linked then [StateEntry(Listening, now)] else []))
    {
      PushDebug("audio.ok", Some(AudioSummary(tracks)), now);
      RecordAllSnoc(log0, debugEnabled, done, AudioEntry(tracks, now));
      channelOpen := false;
      if linked {
        channelOpen := true;
        SendEvent(SessionUpdate);
        SetState(Listening, now);
        RecordAllSnoc(log0, debugEnabled, done + [AudioEntry(tracks, now)], StateEntry(Listening, now));
      } else {
        assert done + [AudioEntry(tracks, now)] + [] == done + [AudioEntry(tracks, now)];
      }
    }

    /**
     * Attempt `k` of the backoff loop started at `now`, once the first `k`
     * delays have been slept: the old connections are closed, keeping the
     * transcript, and after the k-th delay `connect` is called again with
     * the remembered device.
     */
    method Attempt(outcomes: seq<ConnectOutcome>, k: nat, now: int, waited: nat)
      requires Valid() && k < |outcomes| == |Delays| && waited == DelaysBefore(Delays, k)
      modifies this`messages, this`userDraft, this`assistantDraft, this`assistantInProgress
      modifies this`channelOpen, this`outbox, this`lastDeviceId, this`state, this`debug
      ensures Valid()
      ensures lastDeviceId == old(lastDeviceId)
      ensures messages == old(messages) && userDraft == "" && assistantDraft == "" && !assistantInProgress
      ensures channelOpen == outcomes[k].Connected?
      ensures outbox == old(outbox) + (if outcomes[k].Connected? then [SessionUpdate] else [])
      ensures state == if outcomes[k].Connected? then Listening else Connecting
      ensures debug == RecordAll(old(debug), debugEnabled, Attempts(lastDeviceId, Delays, outcomes, now)[k])
    {
      Disconnect(false, now + waited);
      Connect(lastDeviceId, outcomes[k], now + waited + Delays[k]);
      AttemptsAt(lastDeviceId, Delays, outcomes, now, k);
      RecordCons(old(debug), debugEnabled, DisconnectEntry(false, now + waited),
                 ConnectEntries(lastDeviceId, outcomes[k], now + waited + Delays[k]));
    }

    /**
     * What `tryReconnect` leaves behind, given the log and the state it
     * started from. A call while a recovery is running does nothing.
     * Otherwise the attempts run until the first success; either way two
     * notices are added, the second once the loop has slept the delays of
     * the attempts it made, the state ends in `listening` and the flag is
     * cleared.
     */
    twostate predicate RecoveryEffect(debug0: seq<DebugEvent>, state0: RtState, outcomes: seq<ConnectOutcome>, now: int, waited: nat)
      requires |outcomes| == |Delays|
      reads this
    {
      if old(reconnecting) then
        && messages == old(messages) && userDraft == old(userDraft) && assistantDraft == old(assistantDraft)
        && assistantInProgress == old(assistantInProgress) && channelOpen == old(channelOpen)
        && outbox == old(outbox) && lastDeviceId == old(lastDeviceId)
        && reconnecting && state == state0 && debug == debug0 && waited == 0
      else
        var ok := Recovers(outcomes);
        && messages == old(messages) + RecoveryNotices(ok, now, now + waited)
        && userDraft == "" && assistantDraft == "" && !assistantInProgress
        && channelOpen == ok && outbox == old(outbox) + (if ok then [SessionUpdate] else [])
        && lastDeviceId == old(lastDeviceId)
        && !reconnecting && state == Listening
        && debug == ReconnectLog(Record(debug0, debugEnabled, StateEntry(Reconnecting, now)), debugEnabled,
                                 Attempts(lastDeviceId, Delays, outcomes, now), outcomes, 0, now + DelaysBefore(Delays, |Delays|))
        && waited == BackoffSpent(Delays, outcomes, 0)
    }

    /**
     * `tryReconnect`: the guard, the "connection lost" notice, then the
     * backoff loop. `outcomes[i]` is how the attempt after the i-th delay
     * ends; `waited` is the time slept.
     */
    method TryReconnect(outcomes: seq<ConnectOutcome>, now: int) returns (waited: nat)
      requires Valid() && |outcomes| == |Delays|
      modifies this`messages, this`userDraft, this`assistantDraft, this`assistantInProgress
      modifies this`channelOpen, this`outbox, this`lastDeviceId, this`reconnecting, this`state, this`debug
      ensures Valid()
      ensures RecoveryEffect(old(debug), old(state), outcomes, now, waited)
    {
      waited := 0;
      if reconnecting {
        return;
      }
      BeginRecovery(now);
      waited := Backoff(outcomes, now);
    }

    /** The start of a recovery: the flag is set, the state goes to `reconnecting` and the user is told. */
    method BeginRecovery(now: int)
      requires Valid()
      modifies this`messages, this`reconnecting, this`state, this`debug
      ensures Valid()
      ensures reconnecting && state == Reconnecting
      ensures messages == old(messages) + [ChatMsg(Assistant, LostNotice, now)]
      ensures debug == Record(old(debug), debugEnabled, StateEntry(Reconnecting, now))
    {
      reconnecting := true;
      SetState(Reconnecting, now);
      RecoveryNoticesAreFinal();
      AppendNotice(LostNotice, now);
    }

    /** What the backoff loop started at `now` leaves behind. */
    twostate predicate BackoffEffect(outcomes: seq<ConnectOutcome>, now: int, waited: nat)
      requires |outcomes| == |Delays|
      reads this
    {
      var ok := Recovers(outcomes);
      && messages == old(messages) + [ChatMsg(Assistant, if ok then ReconnectedNotice else GaveUpNotice, now + waited)]
      && userDraft == "" && assistantDraft == "" && !assistantInProgress
      && channelOpen == ok && outbox == old(outbox) + (if ok then [SessionUpdate] else [])
      && lastDeviceId == old(lastDeviceId) && !reconnecting && state == Listening
      && debug == ReconnectLog(old(debug), debugEnabled, Attempts(lastDeviceId, Delays, outcomes, now), outcomes, 0,
                               now + DelaysBefore(Delays, |Delays|))
      && waited == BackoffSpent(Delays, outcomes, 0)
    }

    /**
     * The backoff loop of `tryReconnect`: attempts until the first success,
     * then the closing notice; after five failures the state is set back
     * to `listening`. The recovery flag is cleared on both exits.
     */
    method Backoff(outcomes: seq<ConnectOutcome>, now: int) returns (waited: nat)
      requires Valid() && |outcomes| == |Delays|
      modifies this`messages, this`userDraft, this`assistantDraft, this`assistantInProgress
      modifies this`channelOpen, this`outbox, this`lastDeviceId, this`reconnecting, this`state, this`debug
      ensures Valid()
      ensures BackoffEffect(outcomes, now, waited)
    {
      var k, recovered;
      k, waited, recovered := RunAttempts(outcomes, now);
      LoopExit(old(debug), debugEnabled, Attempts(lastDeviceId, Delays, outcomes, now), outcomes, k, recovered, waited, now);
      Finish(recovered, now + waited);
    }

    /**
     * The state after the first `k` attempts of the backoff loop started
     * at `now`, the last of which connected when `recovered` and all
     * others failed: the transcript is as before, the session update was
     * sent only on the connection, every other session resource has been
     * closed, and the log holds the attempts' entries.
     */
    twostate predicate AttemptsMade(outcomes: seq<ConnectOutcome>, k: nat, recovered: bool, now: int)
      reads this
    {
      && |outcomes| == |Delays| && k <= |outcomes|
      && (if recovered then 0 < k && FailsBefore(outcomes, k - 1) && outcomes[k - 1].Connected? else FailsBefore(outcomes, k))
      && lastDeviceId == old(lastDeviceId) && messages == old(messages)
      && outbox == old(outbox) + (if recovered then [SessionUpdate] else [])
      && (k > 0 ==> && channelOpen == recovered && userDraft == "" && assistantDraft == "" && !assistantInProgress
                    && state == if recovered then Listening else Connecting)
      && debug == AttemptsLog(old(debug), debugEnabled, Attempts(old(lastDeviceId), Delays, outcomes, now), k)
    }

    /**
     * The attempts of the backoff loop, one per delay, up to the first that
     * connects: `k` attempts are made, and `waited` is the time slept.
     */
    method RunAttempts(outcomes: seq<ConnectOutcome>, now: int) returns (k: nat, waited: nat, recovered: bool)
      requires Valid() && |outcomes| == |Delays|
      modifies this`messages, this`userDraft, this`assistantDraft, this`assistantInProgress
      modifies this`channelOpen, this`outbox, this`lastDeviceId, this`state, this`debug
      ensures Valid() && AttemptsMade(outcomes, k, recovered, now)
      ensures recovered || k == |Delays|
      ensures waited == DelaysBefore(Delays, k)
    {
      waited := 0;
      k := 0;
      recovered := false;
      while k < |Delays| && !recovered
        invariant Valid() && AttemptsMade(outcomes, k, recovered, now)
        invariant waited == DelaysBefore(Delays, k)
      {
        Attempt(outcomes, k, now, waited);
        waited := waited + Delays[k];
        recovered := outcomes[k].Connected?;
        k := k + 1;
      }
    }

    /**
     * The two exits of the backoff loop: the closing notice, then, only
     * after the last failure, the state back to `listening`; the recovery
     * flag is cleared on both.
     */
    method Finish(recovered: bool, now: int)
      requires Valid()
      modifies this`messages, this`reconnecting, this`state, this`debug
      ensures Valid()
      ensures messages == old(messages) + [ChatMsg(Assistant, if recovered then ReconnectedNotice else GaveUpNotice, now)]
      ensures !reconnecting
      ensures state == if recovered then old(state) else Listening
      ensures debug == if recovered then old(debug) else Record(old(debug), debugEnabled, StateEntry(Listening, now))
    {
      RecoveryNoticesAreFinal();
      if recovered {
        AppendNotice(ReconnectedNotice, now);
      } else {
        AppendNotice(GaveUpNotice, now);
        SetState(Listening, now);
      }
      reconnecting := false;
    }

    /**
     * What a transport-state handler leaves behind for the signal `st` of
     * kind `kind`, mapped to `target`: the signal is logged, the state is
     * set when the signal is mapped, and `failed` and `disconnected` start
     * a recovery from there.
     */
    twostate predicate SignalEffect(kind: string, st: string, target: Option<RtState>, outcomes: seq<ConnectOutcome>, now: int, waited: nat)
      requires |outcomes| == |Delays|
      reads this
    {
      var logged := Record(old(debug), debugEnabled, DebugEvent(now, kind, Some(st)));
      var debug1 := if target.Some? then Record(logged, debugEnabled, StateEntry(target.value, now)) else logged;
      var state1 := if target.Some? then target.value else old(state);
      if TriggersReconnect(st) then RecoveryEffect(debug1, state1, outcomes, now, waited)
      else
        && messages == old(messages) && userDraft == old(userDraft) && assistantDraft == old(assistantDraft)
        && assistantInProgress == old(assistantInProgress) && channelOpen == old(channelOpen)
        && outbox == old(outbox) && lastDeviceId == old(lastDeviceId) && reconnecting == old(reconnecting)
        && state == state1 && debug == debug1 && waited == 0
    }

    /** The body both transport-state handlers share. */
    method OnTransportSignal(kind: string, st: string, target: Option<RtState>, outcomes: seq<ConnectOutcome>, now: int) returns (waited: nat)
      requires Valid() && |outcomes| == |Delays|
      modifies this`messages, this`userDraft, this`assistantDraft, this`assistantInProgress
      modifies this`channelOpen, this`outbox, this`lastDeviceId, this`reconnecting, this`state, this`debug
      ensures Valid()
      ensures SignalEffect(kind, st, target, outcomes, now, waited)
    {
      LogSignal(kind, st, target, now);
      waited := 0;
      if TriggersReconnect(st) {
        waited := TryReconnect(outcomes, now);
      }
    }

    /** The first half of a transport-state handler: the signal is logged, then the state set when it is mapped. */
    method LogSignal(kind: string, st: string, target: Option<RtState>, now: int)
      requires Valid()
      modifies this`state, this`debug
      ensures Valid()
      ensures state == if target.Some? then target.value else old(state)
      ensures var logged := Record(old(debug), debugEnabled, DebugEvent(now, kind, Some(st)));
              debug == if target.Some? then Record(logged, debugEnabled, StateEntry(target.value, now)) else logged
    {
      PushDebug(kind, Some(st), now);
      if target.Some? {
        SetState(target.value, now);
      }
    }

    /** `oniceconnectionstatechange` for `iceConnectionState == st`. */
    method OnIceStateChange(st: string, outcomes: seq<ConnectOutcome>, now: int) returns (waited: nat)
      requires Valid() && |outcomes| == |Delays|
      modifies this`messages, this`userDraft, this`assistantDraft, this`assistantInProgress
      modifies this`channelOpen, this`outbox, this`lastDeviceId, this`reconnecting, this`state, this`debug
      ensures Valid()
      ensures SignalEffect("pc.ice", st, IceTarget(st), outcomes, now, waited)
    {
      waited := OnTransportSignal("pc.ice", st, IceTarget(st), outcomes, now);
    }

    /** `onconnectionstatechange` for `connectionState == st`. */
    method OnConnectionStateChange(st: string, outcomes: seq<ConnectOutcome>, now: int) returns (waited: nat)
      requires Valid() && |outcomes| == |Delays|
      modifies this`messages, this`userDraft, this`assistantDraft, this`assistantInProgress
      modifies this`channelOpen, this`outbox, this`lastDeviceId, this`reconnecting, this`state, this`debug
      ensures Valid()
      ensures SignalEffect("pc.state", st, PcTarget(st), outcomes, now, waited)
    {
      waited := OnTransportSignal("pc.state", st, PcTarget(st), outcomes, now);
    }
  }
}
