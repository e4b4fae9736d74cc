/**
 * How a connect attempt ends, and how the two transport signals, the ICE
 * connection state and the overall peer-connection state, are mapped onto
 * the session state.
 */
module Connectivity {
  import opened Wrappers
  import opened Protocol

  /**
   * The step at which a connect attempt stops. `tracks` are the labels of
   * the captured audio tracks, known once the microphone has been opened.
   * A `LinkFailed` attempt fails after the new data channel was created:
   * the SDP exchange or the wait for the channel to open.
   */
  datatype ConnectOutcome =
    | TokenFailed
    | NoSecret
    | MediaFailed
    | LinkFailed(tracks: seq<string>)
    | Connected(tracks: seq<string>)

  /** The state the ICE handler sets for `iceConnectionState == st`, if any. */
  function IceTarget(st: string): Option<RtState> {
    if st == "connected" || st == "completed" then Some(Listening)
    else if st == "disconnected" || st == "failed" then Some(Reconnecting)
    else if st == "closed" then Some(Disconnected)
    else None
  }

  /** The state the peer-connection handler sets for `connectionState == st`, if any. */
  function PcTarget(st: string): Option<RtState> {
    if st == "connected" then Some(Listening)
    else if st == "disconnected" then Some(Reconnecting)
    else if st == "failed" then Some(Reconnecting)
    else if st == "closed" then Some(Disconnected)
    else None
  }

  /** Both handlers start a recovery for these two signals. */
  predicate TriggersReconnect(st: string) {
    st == "failed" || st == "disconnected"
  }

  /** The two mappings agree everywhere except on `completed`, which only ICE maps. */
  lemma PcAgreesWithIceExceptCompleted(st: string)
    ensures PcTarget(st) == if st == "completed" then None else IceTarget(st)
  {
  }

  /** A recovery is started exactly for the signals mapped to `reconnecting`. */
  lemma ReconnectExactlyOnReconnecting(st: string)
    ensures TriggersReconnect(st) <==> IceTarget(st) == Some(Reconnecting)
    ensures TriggersReconnect(st) <==> PcTarget(st) == Some(Reconnecting)
  {
  }

  /** Signals outside the mapped ones (`new`, `checking`, `connecting`, ...) leave the state alone. */
  lemma UnmappedSignals(st: string)
    ensures IceTarget(st) == None <==>
            st !in {"connected", "completed", "disconnected", "failed", "closed"}
    ensures PcTarget(st) == None <==>
            st !in {"connected", "disconnected", "failed", "closed"}
  {
  }
}
