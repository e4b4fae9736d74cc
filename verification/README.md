# Realtime voice assistant: the session manager, modelled in Dafny

The browser client of the realtime voice assistant keeps one session object,
`RealtimeService` in `realtime-ui/src/app/realtime.service.ts`. It holds:

- the chat transcript, in which a message still being dictated or generated is a
  draft whose text starts with the marker `[draft]`;
- the user and assistant drafts, and a flag saying whether an answer is in progress;
- the session state shown by the badge (`idle`, `connecting`, `listening`, ...);
- a diagnostics log that keeps the newest 200 events;
- the data channel to the realtime server, on which it sends `session.update`,
  `response.create` and `response.cancel`.

Events from the server (speech start, user transcript deltas and completion,
assistant text deltas and completion, errors) are reduced into that state
one at a time. Connection losses reported by the ICE and peer-connection
handlers start a recovery that retries `connect` after delays of 250, 500,
1000, 2000 and 4000 ms.

The model has one module per concern:

| module | file | what it holds |
|---|---|---|
| `Wrappers` | `wrappers.dfy` | `Option` |
| `Text` | `text.dfy` | JavaScript's `||` on optional strings, `startsWith`, `trim`, `String(n)`, UTF-16 `length` |
| `Transcript` | `transcript.dfy` | messages, the draft marker, and the three list edits as functions |
| `Diagnostics` | `diagnostics.dfy` | the 200-entry log and the enable flag |
| `Protocol` | `protocol.dfy` | the states, the decoded inbound events, the outbound control messages |
| `Connectivity` | `connectivity.dfy` | how a connect attempt ends, and how ICE and peer-connection states map onto the session state |
| `Schedule` | `schedule.dfy` | the backoff delays, and the time the recovery sleeps given each attempt's outcome |
| `Tracing` | `tracing.dfy` | what each operation writes to the log |
| `Service` | `service.dfy` | the class `RealtimeService`, with the fields the source updates in place |
| `App` | `app.dfy` | the pure helpers of the root component: prompt, badge label, exports, file stamp |
| `Scenarios` | `scenarios.dfy` | two recoveries on a fresh, connected service |

The observable subjects of the service become plain fields holding their
current value. The data channel is reduced to two fields: `channelOpen`, and
the list `outbox` of control messages sent on it. The class methods follow
the source statement by statement, and each is proved to leave the state
that a specification function of the old state describes:

- `Transcript.Upserted`, `Finalized` and `Interrupted` for the transcript;
- `Diagnostics.Record` for the log;
- `Tracing.EventLog`, `ConnectEntries` and `ReconnectLog` for the log entries of a handler, a connect and a recovery.

The properties the source relies on are lemmas about those functions.

Every operation also keeps the class invariant `Valid()`:

- the log holds at most 200 events;
- no two neighbouring messages are drafts of the same role (`Transcript.NoAdjacentDrafts`).

Clocks, the network and the media devices are parameters:

- `now` is the time `Date.now()` returns during a handler;
- a connect attempt's `ConnectOutcome` is given: the step at which it fails, or the success, with the labels of the captured audio tracks once the microphone is open;
- `outcomes[i]` is the outcome of the reconnect attempt after the `i`-th delay;
- the recovery returns the time it slept, and everything it does after a sleep is stamped with the start time plus the delays slept so far.

## Model

| member | source | states |
|---|---|---|
| Text.OrAbsorbsEmpty | realtime-ui/src/app/realtime.service.ts:266 | a trailing `|| ''` never changes the result: `(a || b || '')` is `(a || b)` |
| Text.TrimStartShape | realtime-ui/src/app/realtime.service.ts:266 | what remains after the leading white space is a suffix of the input, preceded only by white space, and does not start with white space |
| Text.TrimEndShape | realtime-ui/src/app/realtime.service.ts:266 | what remains after the trailing white space is a prefix of the input, followed only by white space, and does not end with white space |
| Text.TrimShape | realtime-ui/src/app/realtime.service.ts:266 | `trim()` is the slice between the leading and trailing white space, and neither starts nor ends with white space |
| Text.Trim | realtime-ui/src/app/realtime.service.ts:266 | `s.trim()`: the cut between leading and trailing white space that `TrimShape` characterises, blank exactly for all-space input (`TrimEmptyIffAllSpace`) |
| Text.TrimEmptyIffAllSpace | realtime-ui/src/app/app.ts:85 | a string trims to "" exactly when all of it is white space |
| Text.TrimOfUnpadded | realtime-ui/src/app/realtime.service.ts:334 | a non-empty string with no white space at either end is its own trim |
| Text.TrimIdempotent | realtime-ui/src/app/app.ts:83-86 | trimming twice gives the same as trimming once |
| Text.DigitChar | realtime-ui/src/app/app.ts:202 | a digit below ten becomes the ASCII character of that value |
| Text.NatToString | realtime-ui/src/app/app.ts:202 | `String(n)` for the calendar fields and lengths the source formats (below 10^21); `NatToStringShape` and `DecimalRoundTrip` state its digits and value |
| Text.NatToStringShape | realtime-ui/src/app/app.ts:202 | `String(n)` is a non-empty digit string; it starts with '0' only for 0 and has one digit exactly below 10 |
| Text.DecimalRoundTrip | realtime-ui/src/app/app.ts:202 | reading the digits of `String(n)` back gives `n` |
| Text.LeadingZero | realtime-ui/src/app/app.ts:202 | a '0' in front of a digit string does not change the number it denotes |
| Text.Utf16Length | realtime-ui/src/app/realtime.service.ts:213-225 | `s.length`, counted in UTF-16 code units; `Utf16LengthAppend` and `Utf16LengthBmp` characterise it |
| Text.Utf16LengthAppend | realtime-ui/src/app/realtime.service.ts:213-225 | the length of a concatenation is the sum of the lengths |
| Text.Utf16LengthBmp | realtime-ui/src/app/realtime.service.ts:213-225 | the length is at least the number of characters, and equals it exactly when every character lies in the BMP |
| Transcript.StripDraft | realtime-ui/src/app/app.ts:171 | `replace(/^\[draft\]/, '')`: a text starting with the marker is the marker plus the result; any other text is returned unchanged |
| Transcript.StripDraftKeepsMarkerIff | realtime-ui/src/app/app.ts:171 | the stripped text still starts with the marker exactly when the original began with two markers |
| Transcript.StripDraftOfTagged | realtime-ui/src/app/realtime.service.ts:180-183 | the marker followed by a text is a draft and strips back to that text |
| Transcript.Upserted | realtime-ui/src/app/realtime.service.ts:175-187 | `upsertDraft`'s list edit; `UpsertedShape`, `UpsertedOverDraft` and `UpsertedAppends` state its effect |
| Transcript.UpsertedShape | realtime-ui/src/app/realtime.service.ts:175-187 | `upsertDraft` touches only the last position. A trailing draft of the role is replaced in place and keeps its timestamp; otherwise one entry stamped `now` is appended. The last entry strips back to the text |
| Transcript.UpsertedOverDraft | realtime-ui/src/app/realtime.service.ts:180-181 | upserting over a trailing draft of the role gives the same prefix and a draft of the new text with the old timestamp |
| Transcript.UpsertedAppends | realtime-ui/src/app/realtime.service.ts:182-183 | without a trailing draft of the role, upserting appends the marked text stamped `now` |
| Transcript.Finalized | realtime-ui/src/app/realtime.service.ts:189-200 | `finalizeDraft`'s list edit; `FinalizedShape` and `FinalizedOverDraft` state its effect |
| Transcript.FinalizedShape | realtime-ui/src/app/realtime.service.ts:189-200 | `finalizeDraft` follows the same position rule, storing the text without the marker |
| Transcript.FinalizedOverDraft | realtime-ui/src/app/realtime.service.ts:193-194 | finalizing over a trailing draft of the role stores the text and keeps the draft's timestamp |
| Transcript.EmptyUserDraft | realtime-ui/src/app/realtime.service.ts:243-244 | after upserting the empty user text, the transcript ends with a user entry whose text is exactly `[draft]` |
| Transcript.UserTurnAddsOneEntry | realtime-ui/src/app/realtime.service.ts:258-267 | on a transcript without a pending user draft (deltas whose speech start never arrived), two user deltas then the completion add exactly one entry: the final text, stamped at the first delta; earlier entries are untouched |
| Transcript.UserTurnFromSpeechStart | realtime-ui/src/app/realtime.service.ts:240-267 | a whole user turn as it runs, from the empty draft of the speech start through two deltas to the completion, leaves one final user entry. It is stamped at the speech start, or at an unfinished user draft that was already last, which it replaces; every earlier entry is untouched |
| Transcript.BargeInLeavesStaleDraft | realtime-ui/src/app/realtime.service.ts:240-283 | a barge-in over an assistant draft, the completed user turn and the next response's first delta leave the old assistant draft in place, a final user entry after it and a second assistant draft last |
| Transcript.InterruptedShape | realtime-ui/src/app/realtime.service.ts:328-338 | `markAssistantInterrupted` rewrites only a trailing assistant draft, in place, with a fresh timestamp; every other transcript is returned unchanged |
| Transcript.InterruptedText | realtime-ui/src/app/realtime.service.ts:334-335 | the text the mark writes; `InterruptedTextEndsWithNote` and `InterruptedTextOfDraft` state what it is |
| Transcript.Interrupted | realtime-ui/src/app/realtime.service.ts:328-338 | `markAssistantInterrupted`'s list edit; `InterruptedShape` states its effect |
| Transcript.InterruptedTextEndsWithNote | realtime-ui/src/app/realtime.service.ts:334-335 | the rewritten text always ends with "(interrupted)", and is exactly that when the draft was blank |
| Transcript.InterruptedTextOfDraft | realtime-ui/src/app/realtime.service.ts:334-335 | a draft of an unpadded text `t` becomes `t + " (interrupted)"` |
| Transcript.InterruptAfterUserDraftIsNoop | realtime-ui/src/app/realtime.service.ts:244-249 | on barge-in the mark runs after a user draft was upserted, so it never changes the transcript |
| Transcript.InterruptIgnoresUser | realtime-ui/src/app/realtime.service.ts:333 | a transcript ending with a user entry is never marked interrupted |
| Transcript.UpsertedKeepsInvariant | realtime-ui/src/app/realtime.service.ts:175-187 | an upsert never puts two drafts of the same role next to each other |
| Transcript.FinalizedKeepsInvariant | realtime-ui/src/app/realtime.service.ts:189-200 | neither does a finalize |
| Transcript.InterruptedKeepsInvariant | realtime-ui/src/app/realtime.service.ts:328-338 | neither does the interruption mark |
| Transcript.AppendFinalKeepsInvariant | realtime-ui/src/app/realtime.service.ts:298-301 | neither does appending a message that is not a draft |
| Diagnostics.PushedShape | realtime-ui/src/app/realtime.service.ts:386-391 | one push leaves `min(old + 1, 200)` events: the newest ones of the old log plus the new event, the new event last |
| Diagnostics.Pushed | realtime-ui/src/app/realtime.service.ts:386-391 | one push with logging enabled; `PushedShape` states the result |
| Diagnostics.Record | realtime-ui/src/app/realtime.service.ts:383-391 | `pushDebug` with the enable flag: the log is unchanged when disabled (`RecordAllDisabled`) and `Pushed` otherwise |
| Diagnostics.RecordAllDisabled | realtime-ui/src/app/realtime.service.ts:384 | with logging disabled, any run of pushes leaves the log as it was |
| Diagnostics.RecordAllKeepsNewest | realtime-ui/src/app/realtime.service.ts:383-391 | with logging enabled, a run of pushes keeps the newest `min(old + n, 200)` events of old log plus new events, in order |
| Protocol.StateNameInjective | realtime-ui/src/app/realtime.service.ts:8-16 | different states have different names |
| Protocol.Classify | realtime-ui/src/app/realtime.service.ts:207-236 | the dispatch on `evt.type` of a parsed object never yields `Malformed` |
| Protocol.ClassifyKeepsType | realtime-ui/src/app/realtime.service.ts:207-236 | classification keeps the type it dispatched on, and an unknown result has an unhandled type |
| Protocol.ClassifyRoundTrip | realtime-ui/src/app/realtime.service.ts:207-236 | every well-formed parsed event is what classifying its own type and fields gives |
| Connectivity.PcAgreesWithIceExceptCompleted | realtime-ui/src/app/realtime.service.ts:77-104 | the peer-connection mapping equals the ICE mapping everywhere except `completed`, which only ICE maps to `listening` |
| Connectivity.ReconnectExactlyOnReconnecting | realtime-ui/src/app/realtime.service.ts:77-104 | both handlers start a recovery exactly for the signals they map to `reconnecting` |
| Connectivity.UnmappedSignals | realtime-ui/src/app/realtime.service.ts:77-104 | a state is left alone exactly for the signals outside the mapped ones |
| Connectivity.IceTarget | realtime-ui/src/app/realtime.service.ts:82-84 | the state the ICE handler sets; the three lemmas above compare it with the peer-connection mapping |
| Connectivity.PcTarget | realtime-ui/src/app/realtime.service.ts:96-99 | the state the peer-connection handler sets |
| Tracing.EventLogRecordsEntries | realtime-ui/src/app/realtime.service.ts:202-305 | a handled event logs its summary and then the rule's state changes, in that order; unknown and malformed events log nothing |
| Tracing.CharCount | realtime-ui/src/app/realtime.service.ts:213-225 | the `N chars` summary, with `N` the `.length` of the text (`Utf16LengthBmp`) written as `String(N)` (`NatToStringShape`) |
| Tracing.EventEntries | realtime-ui/src/app/realtime.service.ts:209-229 | the summary `pushDebug` logs for each handled event type (`error` with `message || 'unknown'`), and none for the others; `EventLogRecordsEntries` puts it first in the log |
| Tracing.RuleEntries | realtime-ui/src/app/realtime.service.ts:241-296 | the `state <name>` entries each rule's `setState` calls log, `responding` only when not already responding; `EventLogRecordsEntries` puts them after the summary |
| Tracing.EventLog | realtime-ui/src/app/realtime.service.ts:202-305 | the log `onServerEvent` leaves, call by call; `EventLogRecordsEntries` states which entries it records |
| Tracing.ConnectEntries | realtime-ui/src/app/realtime.service.ts:55-146 | the entries `connect` logs, up to the step it stops at; `ConnectEntriesCases` spells them out per outcome |
| Tracing.ConnectEntriesCases | realtime-ui/src/app/realtime.service.ts:55-146 | `connect` logs `connecting` and the device; then `token.ok` unless the token request failed; then `audio.ok` with the track count and first label once the microphone is open; then `listening` only when it succeeds |
| Tracing.ConnectEntriesLinked | realtime-ui/src/app/realtime.service.ts:62-145 | once the microphone is open, the entries are the opening two, `token.ok`, `audio.ok`, and `listening` exactly on success |
| Tracing.AttemptsAt | realtime-ui/src/app/realtime.service.ts:354-360 | attempt `j` logs the teardown after the first `j` delays, then the connect after the first `j + 1` |
| Tracing.AttemptsBeforeAt | realtime-ui/src/app/realtime.service.ts:354-360 | the same for the first `n` attempts |
| Tracing.ReconnectEntries | realtime-ui/src/app/realtime.service.ts:354-379 | the entries the backoff loop logs: attempts up to the first success, or all of them and then `listening`; `ReconnectLogRecordsEntries` states it |
| Tracing.ReconnectLog | realtime-ui/src/app/realtime.service.ts:354-379 | the debug log the backoff loop leaves, push by push; `ReconnectLogRecordsEntries`, `ReconnectLogOnSuccess` and `ReconnectLogGivingUp` state it |
| Tracing.ReconnectLogRecordsEntries | realtime-ui/src/app/realtime.service.ts:354-379 | the backoff loop logs its attempts up to the first success, or all of them followed by `listening` |
| Tracing.ReconnectLogAfterFailures | realtime-ui/src/app/realtime.service.ts:354-372 | after `i` failed attempts the rest of the loop logs what it would from attempt `i` on, on top of the log those attempts left |
| Tracing.ReconnectLogOnSuccess | realtime-ui/src/app/realtime.service.ts:354-368 | when attempt `k` is the first to succeed, the loop logs `k` failures and then that success |
| Tracing.ReconnectLogGivingUp | realtime-ui/src/app/realtime.service.ts:373-379 | when every attempt fails, the loop logs all five failures and then `listening` |
| Tracing.LoopExit | realtime-ui/src/app/realtime.service.ts:354-379 | when the loop stops, after a success or after the fifth failure, it recovered exactly when some attempt connects, slept what `BackoffSpent` says, and has nothing left to log after a success and only `listening` after giving up |
| Schedule.Delays | realtime-ui/src/app/realtime.service.ts:352 | the five delays 250, 500, 1000, 2000 and 4000 ms; `BackoffSpentGivingUp` states their sum, 7750 ms |
| Schedule.BackoffSpent | realtime-ui/src/app/realtime.service.ts:354-372 | the time the loop sleeps: the delays up to and including the first successful attempt; `BackoffSpentSplit`, `BackoffSpentOnSuccess` and `BackoffSpentGivingUp` state it |
| Schedule.BackoffSpentSplit | realtime-ui/src/app/realtime.service.ts:352-359 | after `i` failures, the time slept so far is the sum of the first `i` delays |
| Schedule.BackoffSpentOnSuccess | realtime-ui/src/app/realtime.service.ts:352-368 | a recovery whose first success is attempt `k` sleeps the first `k + 1` delays |
| Schedule.BackoffSpentGivingUp | realtime-ui/src/app/realtime.service.ts:352-372 | a recovery in which every attempt fails sleeps the whole schedule, 7750 ms |
| Schedule.FirstConnection | realtime-ui/src/app/realtime.service.ts:354-372 | when the first `k` attempts fail and attempt `k` connects or there is none, the recovery succeeds exactly when `k` is within the schedule |
| Service.NoticeIsFinal | realtime-ui/src/app/realtime.service.ts:300 | a text that does not start with `[` is never a draft, so the error entry is final |
| Service.RecoveryNoticesAreFinal | realtime-ui/src/app/realtime.service.ts:340-381 | none of the three recovery notices is a draft |
| Service.RealtimeService.constructor | realtime-ui/src/app/realtime.service.ts:30-47 | a new service is `idle`, with an empty transcript, empty drafts, logging enabled and an empty log |
| Service.RealtimeService.PushDebug | realtime-ui/src/app/realtime.service.ts:383-392 | the log becomes `Record` of the old log: unchanged when logging is disabled, otherwise the new event appended and trimmed to 200 |
| Service.RealtimeService.ClearDebug | realtime-ui/src/app/realtime.service.ts:394-396 | the log becomes empty, nothing else changes |
| Service.RealtimeService.SetDebugEnabled | realtime-ui/src/app/realtime.service.ts:398-400 | the flag is set and the log is kept |
| Service.RealtimeService.GetMessages | realtime-ui/src/app/realtime.service.ts:402-404 | the snapshot is the current transcript |
| Service.RealtimeService.SetState | realtime-ui/src/app/realtime.service.ts:49-53 | the state is set and a `state` entry with its name is logged, also when the state does not change |
| Service.RealtimeService.SendEvent | realtime-ui/src/app/realtime.service.ts:170-173 | a message is sent only while the channel is open, otherwise dropped |
| Service.RealtimeService.UpsertDraft | realtime-ui/src/app/realtime.service.ts:175-187 | the transcript becomes `Upserted` of the old one, and the state always becomes `disconnected` |
| Service.RealtimeService.FinalizeDraft | realtime-ui/src/app/realtime.service.ts:189-200 | the transcript becomes `Finalized` of the old one |
| Service.RealtimeService.MarkAssistantInterrupted | realtime-ui/src/app/realtime.service.ts:328-338 | the transcript becomes `Interrupted` of the old one |
| Service.RealtimeService.AppendNotice | realtime-ui/src/app/realtime.service.ts:298-301 | one final assistant entry is appended and the invariant is kept |
| Service.RealtimeService.OnSpeechStarted | realtime-ui/src/app/realtime.service.ts:240-256 | the user draft is cleared and an empty user draft upserted. A response in progress is cancelled: one `response.cancel` if the channel is open, the flag and the assistant draft cleared. The state ends `disconnected`, and the log gets the summary, `listening`, `disconnected` |
| Service.RealtimeService.StartUserTurn | realtime-ui/src/app/realtime.service.ts:241-254 | the user draft is reset and an empty one upserted, then a response in progress is cancelled as in `BargeIn`; the state ends `disconnected` |
| Service.RealtimeService.BargeIn | realtime-ui/src/app/realtime.service.ts:246-254 | with a user entry last, the transcript is unchanged, one `response.cancel` is sent if open, and the flag and assistant draft are cleared |
| Service.RealtimeService.OnUserDelta | realtime-ui/src/app/realtime.service.ts:258-262 | the delta (or "") is appended to the user draft, which is upserted; the state ends `disconnected` |
| Service.RealtimeService.OnUserCompleted | realtime-ui/src/app/realtime.service.ts:264-275 | the user entry is finalized to `(transcript || userDraft || '').trim()`. Both drafts are cleared, an answer is marked in progress, the state is `thinking`, and one `response.create` is sent if open |
| Service.RealtimeService.RequestResponse | realtime-ui/src/app/realtime.service.ts:267-273 | the finalize, the reset of both drafts, the in-progress flag and the gated `response.create` |
| Service.RealtimeService.OnTextDelta | realtime-ui/src/app/realtime.service.ts:277-285 | the state becomes `responding` first. A late delta changes nothing else; otherwise the assistant draft grows and is upserted, ending in `disconnected` |
| Service.RealtimeService.ExtendAssistantDraft | realtime-ui/src/app/realtime.service.ts:281-282 | the delta is appended to the assistant draft, which is upserted, ending in `disconnected` |
| Service.RealtimeService.OnTextDone | realtime-ui/src/app/realtime.service.ts:287-292 | the assistant entry is finalized to the draft even when no answer is in progress; the flag is cleared and the state is `listening` |
| Service.RealtimeService.OnRemoteError | realtime-ui/src/app/realtime.service.ts:294-303 | exactly one final entry `⚠️ Realtime error: <message or serialized error>` is appended, the flag is cleared and the state is `error` |
| Service.RealtimeService.OnServerEvent | realtime-ui/src/app/realtime.service.ts:202-305 | each event the wire can deliver has the effect of its rule and the log `EventLog` prescribes; unknown and malformed events change nothing |
| Service.RealtimeService.Disconnect | realtime-ui/src/app/realtime.service.ts:148-168 | the channel is closed and both drafts and the flag are cleared. The transcript is emptied only when asked and the state is left alone |
| Service.RealtimeService.Connect | realtime-ui/src/app/realtime.service.ts:55-146 | the device is remembered, the state is `connecting`, and the log grows by `ConnectEntries`. A failure before the new data channel leaves the old channel as it was, a later one leaves the new channel closed; only a success opens it, sends `session.update` and ends `listening` |
| Service.RealtimeService.AfterToken | realtime-ui/src/app/realtime.service.ts:62-145 | from the token on: `token.ok`, then what the microphone and the link steps log, with the channel and state effects of `Connect` |
| Service.RealtimeService.OpenLink | realtime-ui/src/app/realtime.service.ts:71-145 | `audio.ok` is logged, the channel is replaced by a closed one, and only a successful link opens it, sends `session.update` and logs `listening` |
| Service.RealtimeService.Attempt | realtime-ui/src/app/realtime.service.ts:356-360 | attempt `k` keeps the transcript and the device, clears the drafts, logs the teardown after the first `k` delays and the connect after the first `k + 1`, and ends connected exactly when its outcome is a success |
| Service.RealtimeService.TryReconnect | realtime-ui/src/app/realtime.service.ts:340-381 | a call during a recovery does nothing. Otherwise the transcript grows by "connection lost", stamped at the start, and the result notice, stamped after the delays slept; the state ends `listening`. The channel is open exactly when an attempt connected, the flag is cleared, and the time slept is the delays up to the first success |
| Service.RealtimeService.BeginRecovery | realtime-ui/src/app/realtime.service.ts:342-349 | the flag is set, the state becomes `reconnecting` and one "connection lost" notice is appended |
| Service.RealtimeService.Backoff | realtime-ui/src/app/realtime.service.ts:354-380 | the loop and its two exits leave one closing notice stamped after the sleeps, the log `ReconnectLog` prescribes over the attempts' timed entries, and the time `BackoffSpent` computes |
| Service.RealtimeService.RunAttempts | realtime-ui/src/app/realtime.service.ts:354-372 | the attempts up to the first success or the end of the schedule: the transcript is unchanged, `session.update` was sent once exactly on the success, the log holds one attempt per delay passed, and the time slept is their sum |
| Service.RealtimeService.Finish | realtime-ui/src/app/realtime.service.ts:362-380 | a success appends "Reconnected"; giving up appends the terminal notice and sets `listening`; both clear the flag |
| Service.RealtimeService.OnTransportSignal | realtime-ui/src/app/realtime.service.ts:77-104 | the signal is logged, the mapped state set, and `failed` or `disconnected` starts a recovery; any other signal changes nothing else |
| Service.RealtimeService.LogSignal | realtime-ui/src/app/realtime.service.ts:78-84 | the signal is logged, then the mapped state set and logged when there is one |
| Service.RealtimeService.OnIceStateChange | realtime-ui/src/app/realtime.service.ts:77-89 | the ICE handler with the ICE mapping |
| Service.RealtimeService.OnConnectionStateChange | realtime-ui/src/app/realtime.service.ts:91-104 | the peer-connection handler with its own mapping |
| Scenarios.RecoverOnThirdAttempt | realtime-ui/src/app/realtime.service.ts:340-368 | when the third attempt connects, the transcript holds "connection lost" at the loss and "Reconnected" 1750 ms later; `session.update` has been sent twice, the state is `listening` and 1750 ms were slept |
| Scenarios.GiveUp | realtime-ui/src/app/realtime.service.ts:91-104 | a `failed` peer connection with no attempt connecting leaves "connection lost" and, 7750 ms later, the terminal notice; the channel is closed, the state is `listening`, and 7750 ms were slept |
| App.PromptPart | realtime-ui/src/app/app.ts:83-84 | `systemPrompt.trim() || default`; `PromptPartUnpadded` states its two branches |
| App.BuildPrompt | realtime-ui/src/app/app.ts:82-87 | `buildPrompt`; the three lemmas below state its shape |
| App.PromptPartUnpadded | realtime-ui/src/app/app.ts:83-84 | the prompt is the trimmed system prompt, or the default when that is blank; either way it has no white space at its ends |
| App.BuildPromptShape | realtime-ui/src/app/app.ts:82-87 | the instructions start with the prompt, equal it exactly when the resume is blank, and otherwise continue with `"\n\nRESUME:\n"` and the trimmed resume |
| App.BuildPromptIsTrimmed | realtime-ui/src/app/app.ts:82-87 | the instructions are never blank and are their own trim |
| App.BuildPromptStable | realtime-ui/src/app/app.ts:82-87 | building again from the instructions with no resume gives them back |
| App.StateLabel | realtime-ui/src/app/app.ts:153-164 | the badge text; the two lemmas below characterise it |
| App.StateLabelOfState | realtime-ui/src/app/app.ts:153-164 | the badge of a state reads `Idle` exactly for `idle`, and any two other states get different labels |
| App.StateLabelDefault | realtime-ui/src/app/app.ts:153-164 | every input that is not one of the seven other state names, `null` and `undefined` included, reads `Idle` |
| App.ExportJson | realtime-ui/src/app/app.ts:166-172 | one record per message, in order, each with the timestamp, its ISO rendering, the role name and the stripped text |
| App.ExportedTextOfMessage | realtime-ui/src/app/app.ts:171 | an exported text equals the message text unless that was a draft, and keeps a marker only when the text began with two |
| App.TxtEntries | realtime-ui/src/app/app.ts:179-184 | one `[time] who:\ntext\n` entry per message, in order |
| App.ExportTxtSnoc | realtime-ui/src/app/app.ts:178-186 | each further message adds one separating newline and its own entry at the end of the text file |
| App.ExportTxt | realtime-ui/src/app/app.ts:178-186 | the text file; `ExportTxtSnoc` states how it is built |
| App.CopyLines | realtime-ui/src/app/app.ts:191-194 | one `who: text` line per message, in order |
| App.JoinSnoc | realtime-ui/src/app/app.ts:195 | joining one more part appends the separator and the part, nothing else |
| App.CopyTranscriptSnoc | realtime-ui/src/app/app.ts:190-195 | each further message adds a blank line and its own line at the end of the clipboard text |
| App.CopyTranscript | realtime-ui/src/app/app.ts:190-195 | the clipboard text; `CopyTranscriptSnoc` states how it is built |
| App.Pad | realtime-ui/src/app/app.ts:202 | `String(n).padStart(2, '0')`; `PadShape` states the result |
| App.PadShape | realtime-ui/src/app/app.ts:202 | `pad(n)` is a digit string reading back as `n`. Below 10 it is a '0' before the digit, from 10 on it is `String(n)`, and it has two characters exactly below 100 |
| App.FileStamp | realtime-ui/src/app/app.ts:200-204 | the file stamp from the calendar fields; `FileStampFields` states its layout |
| App.FileStampFields | realtime-ui/src/app/app.ts:200-204 | for in-range fields the stamp is `YYYY-MM-DD_hhmmss`: the year, then each padded field at its fixed offset |

## Left out

- The network and media work of `connect` is not modelled: the token request, the microphone, the peer connection, the SDP exchange and the wait for the data channel with its 8-second timer (`realtime.service.ts` lines 61-136 and 307-326). An attempt's result is the parameter `ConnectOutcome`.
- Service.RealtimeService.Connect: a failure between the microphone capture and the creation of the new data channel (the peer-connection setup and `addTrack`, lines 75-108) is not told apart from a later one; such an attempt is modelled as `LinkFailed`, which leaves the new, closed channel instead of the old one.
- Service.RealtimeService.Connect: the peer connection, its handlers and the audio stream it replaces are not fields of the model; only the data channel's open flag is.
- Service.RealtimeService.Connect: a failure is a normal return with the outcome given, rather than an exception thrown to the caller.
- TryReconnect: the time `connect` itself takes (the token request, the microphone, the SDP exchange) is not modelled. Each attempt is stamped with the start time plus the delays slept, and so is the closing notice; in the program these readings are that late or later.
- The payloads of the control messages are not carried. These are the instructions in `session.update`, the `modalities` of `response.create`, and the JSON encoding on send.
- `JSON.parse` is not modelled. Inbound events arrive decoded as `Protocol.ServerEvent`: `Malformed` stands for text that does not parse, and `serialized` stands for `JSON.stringify(evt.error || evt)`.
- Service.RealtimeService.OnServerEvent: text that parses to `null` makes the read of `evt.type` (line 207) throw instead of returning. The handler stops before changing anything, which is the effect `Malformed` has, so it is modelled as `Malformed`.
- Text.NatToString: from 10^21 on, JavaScript's `String(n)` uses exponent notation. The model always writes the digits; the source only formats calendar fields and string lengths.
- Service.RealtimeService.PushDebug: the optional raw payload of an event is not stored.
- The clock is a parameter: `now` is the one reading every `Date.now()` of a handler returns.
- The sleeps of the backoff loop are not modelled; the time slept is returned instead, and the clock is advanced by it.
- Asynchronous interleaving is not modelled. In the program the handlers do not await `tryReconnect`, and other events can arrive during its sleeps and connects; the model runs a recovery to its end inside the handler that starts it.
- The observables' emissions on every `next`, and the `console` output, are not modelled.
- Service.RealtimeService.RunAttempts: the early `return` of the source's loop becomes a loop test on whether the last attempt connected; the closing notice and the flag are handled after the loop, by `Finish`. The attempts and their effects are the same.
- In `app.ts`, the following are not modelled: change detection, `loadDevices`, `validateKey` and the four-argument `connect` it calls (not defined by the service shown), `start`/`stop`, `toggleDebugEnabled`, `copyDebug`, the Blob download and the clipboard, and the `vad` numbers.
- App.ExportJson: `toISOString` and `toLocaleString` are parameters, and the JSON text is not produced.
- App.FileStamp: the calendar fields of `new Date()` are parameters.
- The Spring token proxy and CORS configuration (`src/main/java`) are not part of this model. Neither are the prompt and resume string constants (`constant.ts`, `prompt.ts`, `resume.ts`).

## Behaviour as written

The model follows the code, also where it departs from the intended design:

- A speech start ends in state `disconnected`, not `listening`, because `upsertDraft` always sets `disconnected` (line 176). The same holds after a user delta or an assistant delta in progress.
- On barge-in the in-flight assistant draft is never marked "(interrupted)". The empty user draft is upserted first (line 244), so the mark finds a user entry last (line 333). `Transcript.InterruptAfterUserDraftIsNoop` proves this for every transcript. The cancel request is still sent.
- The invariant that holds is that no two neighbouring messages are drafts of the same role. Two drafts of one role can both exist with another entry between them: `Transcript.BargeInLeavesStaleDraft` shows a barge-in leaving an assistant draft, then the final user entry, then the next answer's draft.
- The final `|| ''` in the completed-transcript handler (line 266) changes nothing: when both alternatives are empty the result is already "" (`Text.OrAbsorbsEmpty`).
