/**
 * Connection losses on a fresh, connected service: the transcript, the
 * control messages, the state and the time slept they end in. The
 * service connects at clock reading `start` and notices the loss 5 ms
 * later.
 */
module Scenarios {
  import opened Wrappers
  import opened Transcript
  import opened Protocol
  import opened Connectivity
  import opened Schedule
  import opened Service

  /**
   * A recovery in which the first attempt cannot open the microphone, the
   * second fails after it, and the third connects, 1.75 seconds later.
   */
  method RecoverOnThirdAttempt(start: int) returns (msgs: seq<ChatMsg>, sent: seq<OutMsg>, st: RtState, waited: nat)
    ensures msgs == [ChatMsg(Assistant, LostNotice, start + 5), ChatMsg(Assistant, ReconnectedNotice, start + 1755)]
    ensures sent == [SessionUpdate, SessionUpdate]
    ensures st == Listening
    ensures waited == 1750
  {
    var rt := new RealtimeService();
    rt.Connect(Some("mic-1"), Connected(["Mic 1"]), start);
    var outcomes := [MediaFailed, LinkFailed(["Mic 1"]), Connected(["Mic 1"]), TokenFailed, TokenFailed];
    assert FailsBefore(outcomes, 2) && outcomes[2].Connected?;
    FirstConnection(outcomes, 2);
    BackoffSpentOnSuccess(Delays, outcomes, 2);
    assert DelaysBefore(Delays, 1) == 250;
    assert DelaysBefore(Delays, 3) == 1750;
    waited := rt.TryReconnect(outcomes, start + 5);
    msgs := rt.GetMessages();
    sent := rt.outbox;
    st := rt.state;
  }

  /**
   * The connection fails and no attempt succeeds: after the whole schedule
   * the user is told to start again.
   */
  method GiveUp(start: int) returns (msgs: seq<ChatMsg>, open: bool, st: RtState, waited: nat)
    ensures msgs == [ChatMsg(Assistant, LostNotice, start + 5), ChatMsg(Assistant, GaveUpNotice, start + 7755)]
    ensures !open && st == Listening
    ensures waited == 7750
  {
    var rt := new RealtimeService();
    rt.Connect(Some("mic-1"), Connected(["Mic 1"]), start);
    var outcomes := [TokenFailed, TokenFailed, NoSecret, MediaFailed, LinkFailed([])];
    assert FailsBefore(outcomes, |outcomes|);
    FirstConnection(outcomes, |outcomes|);
    BackoffSpentGivingUp(outcomes);
    waited := rt.OnConnectionStateChange("failed", outcomes, start + 5);
    msgs := rt.GetMessages();
    open := rt.channelOpen;
    st := rt.state;
  }
}
