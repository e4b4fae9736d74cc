/**
 * What the service writes to its diagnostics log. An operation is
 * described by the list of entries it records, in order (`EventEntries`,
 * `ConnectEntries`, ...). The event handler and the backoff loop are also
 * described by the log they leave, written call by call (`EventLog`,
 * `ReconnectLog`); the methods of the service are proved against that
 * form, and the lemmas here prove that it records exactly the entries.
 */
module Tracing {
  import opened Wrappers
  import opened Text
  import opened Diagnostics
  import opened Protocol
  import opened Connectivity
  import opened Schedule

  /** `setState(s)`: the entry `state` with the state's name. */
  function StateEntry(s: RtState, now: int): DebugEvent {
    DebugEvent(now, "state", Some(StateName(s)))
  }

  function DisconnectEntry(clearMessages: bool, now: int): DebugEvent {
    DebugEvent(now, "client.disconnect", Some("clearMessages=" + if clearMessages then "true" else "false"))
  }

  function ConnectEntry(deviceId: Option<string>, now: int): DebugEvent {
    DebugEvent(now, "client.connect", Some("deviceId=" + Or(deviceId, "default")))
  }

  /** The summary `<n> chars`, where `n` is a JavaScript string length. */
  function CharCount(s: string): string {
    NatToString(Utf16Length(s)) + " chars"
  }

  /** The summary `onServerEvent` logs before it handles an event (none for the others). */
  function EventEntries(evt: ServerEvent, assistantDraft: string, now: int): seq<DebugEvent> {
    match evt
    case SpeechStarted => [DebugEvent(now, SpeechStartedType, None)]
    case UserTranscriptDelta(d) => [DebugEvent(now, UserDeltaType, Some("+" + CharCount(Or(d, ""))))]
    case UserTranscriptCompleted(t) => [DebugEvent(now, UserCompletedType, Some(CharCount(Or(t, ""))))]
    case TextDelta(d) => [DebugEvent(now, TextDeltaType, Some("+" + CharCount(Or(d, ""))))]
    case TextDone => [DebugEvent(now, TextDoneType, Some(CharCount(assistantDraft)))]
    case RemoteError(m, _) => [DebugEvent(now, ErrorType, Some(Or(m, "unknown")))]
    case Unknown(_) => []
    case Malformed => []
  }

  /** The state changes each rule of `onServerEvent` logs, given the state and flag before it. */
  function RuleEntries(evt: ServerEvent, state: RtState, inProgress: bool, now: int): seq<DebugEvent> {
    match evt
    case SpeechStarted => [StateEntry(Listening, now), StateEntry(Disconnected, now)]
    case UserTranscriptDelta(_) => [StateEntry(Disconnected, now)]
    case UserTranscriptCompleted(_) => [StateEntry(Thinking, now)]
    case TextDelta(_) =>
      (if state != Responding then [StateEntry(Responding, now)] else [])
      + (if inProgress then [StateEntry(Disconnected, now)] else [])
    case TextDone => [StateEntry(Listening, now)]
    case RemoteError(_, _) => [StateEntry(Error, now)]
    case Unknown(_) => []
    case Malformed => []
  }

  /**
   * The log after `onServerEvent` handled `evt`, given the assistant draft,
   * the state and the in-progress flag it found.
   */
  function EventLog(log: seq<DebugEvent>, en: bool, evt: ServerEvent, draft: string, st: RtState, ip: bool, now: int): seq<DebugEvent> {
    match evt
    case SpeechStarted =>
      var l := Record(log, en, DebugEvent(now, SpeechStartedType, None));
      Record(Record(l, en, StateEntry(Listening, now)), en, StateEntry(Disconnected, now))
    case UserTranscriptDelta(d) =>
      var l := Record(log, en, DebugEvent(now, UserDeltaType, Some("+" + CharCount(Or(d, "")))));
      Record(l, en, StateEntry(Disconnected, now))
    case UserTranscriptCompleted(t) =>
      var l := Record(log, en, DebugEvent(now, UserCompletedType, Some(CharCount(Or(t, "")))));
      Record(l, en, StateEntry(Thinking, now))
    case TextDelta(d) =>
      var l := Record(log, en, DebugEvent(now, TextDeltaType, Some("+" + CharCount(Or(d, "")))));
      var l2 := if st != Responding then Record(l, en, StateEntry(Responding, now)) else l;
      if ip then Record(l2, en, StateEntry(Disconnected, now)) else l2
    case TextDone =>
      var l := Record(log, en, DebugEvent(now, TextDoneType, Some(CharCount(draft))));
      Record(l, en, StateEntry(Listening, now))
    case RemoteError(m, _) =>
      var l := Record(log, en, DebugEvent(now, ErrorType, Some(Or(m, "unknown"))));
      Record(l, en, StateEntry(Error, now))
    case Unknown(_) => log
    case Malformed => log
  }

  /** `onServerEvent` records its summary and then the rule's state changes, in that order. */
  lemma EventLogRecordsEntries(log: seq<DebugEvent>, en: bool, evt: ServerEvent, draft: string, st: RtState, ip: bool, now: int)
    ensures EventLog(log, en, evt, draft, st, ip, now)
            == RecordAll(log, en, EventEntries(evt, draft, now) + RuleEntries(evt, st, ip, now))
  {
    var rs := RuleEntries(evt, st, ip, now);
    match evt {
      case SpeechStarted =>
        var e := DebugEvent(now, SpeechStartedType, None);
        RecordCons(log, en, e, rs);
        RecordTwo(Record(log, en, e), en, StateEntry(Listening, now), StateEntry(Disconnected, now));
      case UserTranscriptDelta(d) =>
        var e := DebugEvent(now, UserDeltaType, Some("+" + CharCount(Or(d, ""))));
        RecordCons(log, en, e, rs);
        RecordOne(Record(log, en, e), en, StateEntry(Disconnected, now));
      case UserTranscriptCompleted(t) =>
        var e := DebugEvent(now, UserCompletedType, Some(CharCount(Or(t, ""))));
        RecordCons(log, en, e, rs);
        RecordOne(Record(log, en, e), en, StateEntry(Thinking, now));
      case TextDelta(d) =>
        var e := DebugEvent(now, TextDeltaType, Some("+" + CharCount(Or(d, ""))));
        var l := Record(log, en, e);
        var a: seq<DebugEvent> := if st != Responding then [StateEntry(Responding, now)] else [];
        var b: seq<DebugEvent> := if ip then [StateEntry(Disconnected, now)] else [];
        RecordCons(log, en, e, rs);
        RecordAllAppend(l, en, a, b);
        if st != Responding { RecordOne(l, en, StateEntry(Responding, now)); }
        if ip { RecordOne(RecordAll(l, en, a), en, StateEntry(Disconnected, now)); }
      case TextDone =>
        var e := DebugEvent(now, TextDoneType, Some(CharCount(draft)));
        RecordCons(log, en, e, rs);
        RecordOne(Record(log, en, e), en, StateEntry(Listening, now));
      case RemoteError(m, _) =>
        var e := DebugEvent(now, ErrorType, Some(Or(m, "unknown")));
        RecordCons(log, en, e, rs);
        RecordOne(Record(log, en, e), en, StateEntry(Error, now));
      case Unknown(_) =>
        assert EventEntries(evt, draft, now) + rs == [];
      case Malformed =>
        assert EventEntries(evt, draft, now) + rs == [];
    }
  }

  /** `token.ok`: the token request answered. */
  function TokenEntry(now: int): DebugEvent {
    DebugEvent(now, "token.ok", None)
  }

  /** `audio.ok`: the number of captured audio tracks and the first one's label. */
  function AudioEntry(tracks: seq<string>, now: int): DebugEvent {
    DebugEvent(now, "audio.ok", Some(AudioSummary(tracks)))
  }

  function AudioSummary(tracks: seq<string>): string {
    "tracks=" + NatToString(|tracks|) + " label=" + if tracks == [] then "" else tracks[0]
  }

  /**
   * The entries `connect` logs: its five steps in order, `connecting`, the
   * device, the token, the audio tracks and `listening`, up to the one at
   * which it stops.
   */
  function ConnectEntries(deviceId: Option<string>, outcome: ConnectOutcome, now: int): seq<DebugEvent> {
    var tracks := if outcome.LinkFailed? || outcome.Connected? then outcome.tracks else [];
    var steps := [StateEntry(Connecting, now), ConnectEntry(deviceId, now), TokenEntry(now), AudioEntry(tracks, now), StateEntry(Listening, now)];
    steps[..StepsReached(outcome)]
  }

  /** The number of steps of `connect` that are logged before it stops. */
  function StepsReached(outcome: ConnectOutcome): nat {
    match outcome
    case TokenFailed => 2
    case NoSecret => 3
    case MediaFailed => 3
    case LinkFailed(_) => 4
    case Connected(_) => 5
  }

  /** What `connect` logs, case by case. */
  lemma ConnectEntriesCases(deviceId: Option<string>, outcome: ConnectOutcome, now: int)
    ensures var opening := [StateEntry(Connecting, now), ConnectEntry(deviceId, now)];
            ConnectEntries(deviceId, outcome, now) == match outcome
              case TokenFailed => opening
              case NoSecret => opening + [TokenEntry(now)]
              case MediaFailed => opening + [TokenEntry(now)]
              case LinkFailed(tracks) => opening + [TokenEntry(now), AudioEntry(tracks, now)]
              case Connected(tracks) => opening + [TokenEntry(now), AudioEntry(tracks, now), StateEntry(Listening, now)]
  {
  }

  /** Once the audio is captured, `connect` has logged the tracks after the token, and `listening` on success. */
  lemma ConnectEntriesLinked(deviceId: Option<string>, outcome: ConnectOutcome, now: int)
    requires outcome.LinkFailed? || outcome.Connected?
    ensures ConnectEntries(deviceId, outcome, now)
            == [StateEntry(Connecting, now), ConnectEntry(deviceId, now)] + [TokenEntry(now)] + [AudioEntry(outcome.tracks, now)]
               + (if outcome.Connected? then [StateEntry(Listening, now)] else [])
  {
    ConnectEntriesCases(deviceId, outcome, now);
  }

  /**
   * The entries one reconnect attempt logs: the teardown before the sleep,
   * then the connect attempt after it.
   */
  function AttemptEntries(deviceId: Option<string>, outcome: ConnectOutcome, down: int, up: int): seq<DebugEvent> {
    [DisconnectEntry(false, down)] + ConnectEntries(deviceId, outcome, up)
  }

  /**
   * The entries of each attempt of a backoff loop started at `t0`: attempt
   * `j` tears down after the first `j` delays and connects after the first
   * `j + 1`.
   */
  function Attempts(deviceId: Option<string>, delays: seq<nat>, outcomes: seq<ConnectOutcome>, t0: int): (r: seq<seq<DebugEvent>>)
    requires |outcomes| == |delays|
    ensures |r| == |outcomes|
  {
    AttemptsBefore(deviceId, delays, outcomes, t0, |outcomes|)
  }

  /** The entries of the first `n` attempts. */
  function AttemptsBefore(deviceId: Option<string>, delays: seq<nat>, outcomes: seq<ConnectOutcome>, t0: int, n: nat): (r: seq<seq<DebugEvent>>)
    requires n <= |outcomes| == |delays|
    ensures |r| == n
  {
    if n == 0 then []
    else AttemptsBefore(deviceId, delays, outcomes, t0, n - 1)
         + [AttemptEntries(deviceId, outcomes[n - 1], t0 + DelaysBefore(delays, n - 1), t0 + DelaysBefore(delays, n))]
  }

  /** Attempt `j` tears down after the first `j` delays and connects after the first `j + 1`. */
  lemma AttemptsAt(deviceId: Option<string>, delays: seq<nat>, outcomes: seq<ConnectOutcome>, t0: int, j: nat)
    requires j < |outcomes| == |delays|
    ensures Attempts(deviceId, delays, outcomes, t0)[j]
            == AttemptEntries(deviceId, outcomes[j], t0 + DelaysBefore(delays, j), t0 + DelaysBefore(delays, j + 1))
  {
    AttemptsBeforeAt(deviceId, delays, outcomes, t0, |outcomes|, j);
  }

  lemma {:induction false} AttemptsBeforeAt(deviceId: Option<string>, delays: seq<nat>, outcomes: seq<ConnectOutcome>, t0: int, n: nat, j: nat)
    requires j < n <= |outcomes| == |delays|
    ensures AttemptsBefore(deviceId, delays, outcomes, t0, n)[j]
            == AttemptEntries(deviceId, outcomes[j], t0 + DelaysBefore(delays, j), t0 + DelaysBefore(delays, j + 1))
  {
    if j < n - 1 {
      AttemptsBeforeAt(deviceId, delays, outcomes, t0, n - 1, j);
    }
  }

  /**
   * The entries the backoff loop logs from attempt `from` on, where
   * `attempts[j]` are those of attempt `j`: the attempts up to the first
   * success; when every one fails, the final `listening`, at `end`.
   */
  function ReconnectEntries(attempts: seq<seq<DebugEvent>>, outcomes: seq<ConnectOutcome>, from: nat, end: int): seq<DebugEvent>
    requires from <= |outcomes| == |attempts|
    decreases |outcomes| - from
  {
    if from == |outcomes| then [StateEntry(Listening, end)]
    else attempts[from] + (if outcomes[from].Connected? then [] else ReconnectEntries(attempts, outcomes, from + 1, end))
  }

  function ReconnectLog(log: seq<DebugEvent>, en: bool, attempts: seq<seq<DebugEvent>>, outcomes: seq<ConnectOutcome>, from: nat, end: int): seq<DebugEvent>
    requires from <= |outcomes| == |attempts|
    decreases |outcomes| - from
  {
    if from == |outcomes| then Record(log, en, StateEntry(Listening, end))
    else
      var l := RecordAll(log, en, attempts[from]);
      if outcomes[from].Connected? then l else ReconnectLog(l, en, attempts, outcomes, from + 1, end)
  }

  lemma {:induction false} ReconnectLogRecordsEntries(log: seq<DebugEvent>, en: bool, attempts: seq<seq<DebugEvent>>, outcomes: seq<ConnectOutcome>, from: nat, end: int)
    requires from <= |outcomes| == |attempts|
    ensures ReconnectLog(log, en, attempts, outcomes, from, end)
            == RecordAll(log, en, ReconnectEntries(attempts, outcomes, from, end))
    decreases |outcomes| - from
  {
    if from == |outcomes| {
      RecordOne(log, en, StateEntry(Listening, end));
    } else {
      var a := attempts[from];
      if outcomes[from].Connected? {
        assert a + [] == a;
      } else {
        ReconnectLogRecordsEntries(RecordAll(log, en, a), en, attempts, outcomes, from + 1, end);
        RecordAllAppend(log, en, a, ReconnectEntries(attempts, outcomes, from + 1, end));
      }
    }
  }

  /** The log after the first `n` attempts. */
  function AttemptsLog(log: seq<DebugEvent>, en: bool, attempts: seq<seq<DebugEvent>>, n: nat): seq<DebugEvent>
    requires n <= |attempts|
  {
    if n == 0 then log else RecordAll(AttemptsLog(log, en, attempts, n - 1), en, attempts[n - 1])
  }

  /** After `i` failures the rest of the loop logs what it would from attempt `i` on. */
  lemma {:induction false} ReconnectLogAfterFailures(log: seq<DebugEvent>, en: bool, attempts: seq<seq<DebugEvent>>, outcomes: seq<ConnectOutcome>, i: nat, end: int)
    requires |outcomes| == |attempts| && FailsBefore(outcomes, i)
    ensures ReconnectLog(log, en, attempts, outcomes, 0, end)
            == ReconnectLog(AttemptsLog(log, en, attempts, i), en, attempts, outcomes, i, end)
  {
    if i > 0 {
      ReconnectLogAfterFailures(log, en, attempts, outcomes, i - 1, end);
    }
  }

  /** When attempt `k` is the first to succeed, the loop logs `k` failures and then the success. */
  lemma ReconnectLogOnSuccess(log: seq<DebugEvent>, en: bool, attempts: seq<seq<DebugEvent>>, outcomes: seq<ConnectOutcome>, k: nat, end: int)
    requires k < |outcomes| == |attempts| && outcomes[k].Connected? && FailsBefore(outcomes, k)
    ensures ReconnectLog(log, en, attempts, outcomes, 0, end)
            == RecordAll(AttemptsLog(log, en, attempts, k), en, attempts[k])
  {
    ReconnectLogAfterFailures(log, en, attempts, outcomes, k, end);
  }

  /** When every attempt fails, the loop logs every failure and then the final `listening`. */
  lemma ReconnectLogGivingUp(log: seq<DebugEvent>, en: bool, attempts: seq<seq<DebugEvent>>, outcomes: seq<ConnectOutcome>, end: int)
    requires |outcomes| == |attempts| && FailsBefore(outcomes, |outcomes|)
    ensures ReconnectLog(log, en, attempts, outcomes, 0, end)
            == Record(AttemptsLog(log, en, attempts, |outcomes|), en, StateEntry(Listening, end))
  {
    ReconnectLogAfterFailures(log, en, attempts, outcomes, |outcomes|, end);
  }

  /**
   * Where the backoff loop stands when it exits after `k` attempts, the last
   * of which connected when `recovered`, having slept `waited`: it recovered
   * exactly when some attempt connects, it slept what `BackoffSpent` says,
   * and the rest of its log is nothing after a success and the final
   * `listening` after the last failure.
   */
  lemma LoopExit(log: seq<DebugEvent>, en: bool, attempts: seq<seq<DebugEvent>>, outcomes: seq<ConnectOutcome>,
                 k: nat, recovered: bool, waited: nat, now: int)
    requires |outcomes| == |Delays| == |attempts| && k <= |outcomes|
    requires if recovered then 0 < k && FailsBefore(outcomes, k - 1) && outcomes[k - 1].Connected? else FailsBefore(outcomes, k)
    requires recovered || k == |Delays|
    requires waited == DelaysBefore(Delays, k)
    ensures Recovers(outcomes) == recovered
    ensures waited == BackoffSpent(Delays, outcomes, 0)
    ensures ReconnectLog(log, en, attempts, outcomes, 0, now + DelaysBefore(Delays, |Delays|))
            == if recovered then AttemptsLog(log, en, attempts, k)
               else Record(AttemptsLog(log, en, attempts, k), en, StateEntry(Listening, now + waited))
  {
    var end := now + DelaysBefore(Delays, |Delays|);
    if recovered {
      ReconnectLogOnSuccess(log, en, attempts, outcomes, k - 1, end);
      BackoffSpentOnSuccess(Delays, outcomes, k - 1);
      FirstConnection(outcomes, k - 1);
    } else {
      ReconnectLogGivingUp(log, en, attempts, outcomes, end);
      BackoffSpentGivingUp(outcomes);
      FirstConnection(outcomes, k);
    }
  }
}
