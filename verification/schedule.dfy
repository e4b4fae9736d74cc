/**
 * The schedule of the reconnect loop: the delays it sleeps before its
 * attempts, and the time it spends sleeping given how each attempt ends.
 */
module Schedule {
  import opened Connectivity

  /** The backoff schedule of the reconnect loop, in milliseconds. */
  const Delays: seq<nat> := [250, 500, 1000, 2000, 4000]

  /** Some attempt from `from` on connects. */
  predicate ConnectsFrom(outcomes: seq<ConnectOutcome>, from: nat)
    decreases |outcomes| - from
  {
    from < |outcomes| && (outcomes[from].Connected? || ConnectsFrom(outcomes, from + 1))
  }

  /** Some attempt connects. */
  predicate Recovers(outcomes: seq<ConnectOutcome>) {
    ConnectsFrom(outcomes, 0)
  }

  /** The first `k` attempts all fail. */
  predicate FailsBefore(outcomes: seq<ConnectOutcome>, k: nat) {
    k <= |outcomes| && forall j :: 0 <= j < k ==> !outcomes[j].Connected?
  }

  /** The time the loop sleeps from attempt `from` on: the delays up to the first success. */
  function BackoffSpent(delays: seq<nat>, outcomes: seq<ConnectOutcome>, from: nat): nat
    requires from <= |outcomes| == |delays|
    decreases |outcomes| - from
  {
    if from == |outcomes| then 0
    else delays[from] + (if outcomes[from].Connected? then 0 else BackoffSpent(delays, outcomes, from + 1))
  }

  /** The sum of the first `n` delays: the time slept before attempt `n` connects. */
  function DelaysBefore(delays: seq<nat>, n: nat): nat
    requires n <= |delays|
  {
    if n == 0 then 0 else DelaysBefore(delays, n - 1) + delays[n - 1]
  }

  /** After `i` failures the time still to be slept is that from attempt `i` on. */
  lemma {:induction false} BackoffSpentSplit(delays: seq<nat>, outcomes: seq<ConnectOutcome>, i: nat)
    requires |outcomes| == |delays| && FailsBefore(outcomes, i)
    ensures BackoffSpent(delays, outcomes, 0) == DelaysBefore(delays, i) + BackoffSpent(delays, outcomes, i)
  {
    if i > 0 {
      BackoffSpentSplit(delays, outcomes, i - 1);
    }
  }

  /** When attempt `k` is the first to succeed, the loop has slept the first `k + 1` delays. */
  lemma BackoffSpentOnSuccess(delays: seq<nat>, outcomes: seq<ConnectOutcome>, k: nat)
    requires k < |outcomes| == |delays| && outcomes[k].Connected? && FailsBefore(outcomes, k)
    ensures BackoffSpent(delays, outcomes, 0) == DelaysBefore(delays, k + 1)
  {
    BackoffSpentSplit(delays, outcomes, k);
  }

  /** When every attempt fails, the loop has slept the whole schedule: 7.75 seconds. */
  lemma BackoffSpentGivingUp(outcomes: seq<ConnectOutcome>)
    requires |outcomes| == |Delays| && FailsBefore(outcomes, |outcomes|)
    ensures BackoffSpent(Delays, outcomes, 0) == DelaysBefore(Delays, |Delays|) == 7750
  {
    BackoffSpentSplit(Delays, outcomes, |outcomes|);
    assert DelaysBefore(Delays, 1) == 250;
    assert DelaysBefore(Delays, 3) == 1750;
  }


  /**
   * When the first `k` attempts fail and attempt `k` is the first to
   * connect, or there is none, the loop recovers exactly when `k` is an
   * attempt: some attempt connects if and only if the first one that
   * does lies within the schedule.
   */
  lemma FirstConnection(outcomes: seq<ConnectOutcome>, k: nat)
    requires FailsBefore(outcomes, k) && (k == |outcomes| || outcomes[k].Connected?)
    ensures Recovers(outcomes) <==> k < |outcomes|
  {
    ConnectsBefore(outcomes, k, 0);
  }

  lemma {:induction false} ConnectsBefore(outcomes: seq<ConnectOutcome>, k: nat, i: nat)
    requires FailsBefore(outcomes, k) && (k == |outcomes| || outcomes[k].Connected?) && i <= k
    ensures ConnectsFrom(outcomes, i) <==> k < |outcomes|
    decreases k - i
  {
    if i < k {
      ConnectsBefore(outcomes, k, i + 1);
    }
  }
}
