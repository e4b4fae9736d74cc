/**
 * The diagnostics log: a list of trace events that keeps only the newest
 * 200. `Pushed` is one `pushDebug` with logging enabled; `Record` adds the
 * enable flag; `RecordAll` is a run of them in order.
 */
module Diagnostics {
  import opened Wrappers

  /** A trace event. The optional raw payload of the source is not modelled. */
  datatype DebugEvent = DebugEvent(ts: int, kind: string, summary: Option<string>)

  const Capacity: nat := 200

  function Min(a: int, b: int): int {
    if a < b then a else b
  }

  /**
   * Appends `e` and, when that makes the list longer than the capacity,
   * drops the oldest entries: the result is the newest part of `log + [e]`.
   */
  function Pushed(log: seq<DebugEvent>, e: DebugEvent): seq<DebugEvent> {
    var list := log + [e];
    if |list| > Capacity then list[|list| - Capacity..] else list
  }

  /** One push keeps the newest `min(|log| + 1, 200)` events, the new one last. */
  lemma PushedShape(log: seq<DebugEvent>, e: DebugEvent)
    ensures var r := Pushed(log, e);
            |r| == Min(|log| + 1, Capacity) && r == (log + [e])[|log| + 1 - |r|..] && r[|r| - 1] == e
  {
  }

  /** `pushDebug`: a no-op while logging is disabled. */
  function Record(log: seq<DebugEvent>, enabled: bool, e: DebugEvent): seq<DebugEvent> {
    if enabled then Pushed(log, e) else log
  }

  /** The effect of recording `es` one after the other. */
  function RecordAll(log: seq<DebugEvent>, enabled: bool, es: seq<DebugEvent>): seq<DebugEvent>
    decreases |es|
  {
    if es == [] then log else Record(RecordAll(log, enabled, es[..|es| - 1]), enabled, es[|es| - 1])
  }

  /** Recording one more event after a run. */
  lemma RecordAllSnoc(log: seq<DebugEvent>, enabled: bool, es: seq<DebugEvent>, e: DebugEvent)
    ensures RecordAll(log, enabled, es + [e]) == Record(RecordAll(log, enabled, es), enabled, e)
  {
    assert (es + [e])[..|es|] == es;
  }

  lemma RecordOne(log: seq<DebugEvent>, enabled: bool, e: DebugEvent)
    ensures RecordAll(log, enabled, [e]) == Record(log, enabled, e)
  {
    RecordAllSnoc(log, enabled, [], e);
    assert [] + [e] == [e];
  }

  lemma RecordTwo(log: seq<DebugEvent>, enabled: bool, e1: DebugEvent, e2: DebugEvent)
    ensures RecordAll(log, enabled, [e1, e2]) == Record(Record(log, enabled, e1), enabled, e2)
  {
    RecordOne(log, enabled, e1);
    RecordAllSnoc(log, enabled, [e1], e2);
    assert [e1] + [e2] == [e1, e2];
  }

  /** Recording `e` and then `es` is recording `[e] + es`. */
  lemma RecordCons(log: seq<DebugEvent>, enabled: bool, e: DebugEvent, es: seq<DebugEvent>)
    ensures RecordAll(log, enabled, [e] + es) == RecordAll(Record(log, enabled, e), enabled, es)
  {
    RecordOne(log, enabled, e);
    RecordAllAppend(log, enabled, [e], es);
  }

  /** Recording `a` and then `b` is recording `a + b`. */
  lemma {:induction false} RecordAllAppend(log: seq<DebugEvent>, enabled: bool, a: seq<DebugEvent>, b: seq<DebugEvent>)
    ensures RecordAll(RecordAll(log, enabled, a), enabled, b) == RecordAll(log, enabled, a + b)
    decreases |b|
  {
    if b == [] {
      assert a + b == a;
    } else {
      assert (a + b)[..|a + b| - 1] == a + b[..|b| - 1];
      RecordAllAppend(log, enabled, a, b[..|b| - 1]);
    }
  }

  /** With logging disabled nothing is ever recorded. */
  lemma {:induction false} RecordAllDisabled(log: seq<DebugEvent>, es: seq<DebugEvent>)
    ensures RecordAll(log, false, es) == log
    decreases |es|
  {
    if es != [] {
      RecordAllDisabled(log, es[..|es| - 1]);
    }
  }

  /**
   * With logging enabled the log holds the newest `min(|log| + |es|, 200)`
   * events of `log + es`, in the order they were recorded (first in, first
   * evicted).
   */
  lemma {:induction false} RecordAllKeepsNewest(log: seq<DebugEvent>, es: seq<DebugEvent>)
    requires |log| <= Capacity
    ensures var r := RecordAll(log, true, es);
            |r| == Min(|log| + |es|, Capacity) && r == (log + es)[|log| + |es| - |r|..]
    decreases |es|
  {
    if es != [] {
      var init := es[..|es| - 1];
      var e := es[|es| - 1];
      RecordAllKeepsNewest(log, init);
      var p := RecordAll(log, true, init);
      var r := Pushed(p, e);
      PushedShape(p, e);
      assert RecordAll(log, true, es) == r;
      assert |r| == Min(|log| + |es|, Capacity);
      assert log + es == (log + init) + [e];
      SuffixSnoc(log + init, p, e, |p| + 1 - |r|);
      assert r == (p + [e])[|p| + 1 - |r|..];
    }
  }

  /** A suffix of `a`, extended by `e` and cut again, is a suffix of `a + [e]`. */
  lemma SuffixSnoc<T>(a: seq<T>, p: seq<T>, e: T, k: nat)
    requires |p| <= |a| && p == a[|a| - |p|..] && k <= |p| + 1
    ensures (p + [e])[k..] == (a + [e])[|a| - |p| + k..]
  {
    var lhs := (p + [e])[k..];
    var rhs := (a + [e])[|a| - |p| + k..];
    assert |lhs| == |rhs|;
    forall i | 0 <= i < |lhs| ensures lhs[i] == rhs[i] {
      if k + i < |p| {
        assert lhs[i] == p[k + i] == a[|a| - |p| + k + i];
      }
    }
  }
}
