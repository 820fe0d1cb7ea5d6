/**
  The bridge's polling loop. One cycle connects, checks the connection,
  announces "online", subscribes, clears the snapshot, writes every request
  with a pause after each, waits for stragglers, unsubscribes and publishes
  what arrived; a cleanup step disconnects if the client is still connected;
  any exception publishes "offline" and backs off; every cycle ends with the
  poll interval. The loop itself runs one cycle per script.
*/
module PollCycle {
  import opened Wrappers
  import opened Frames
  import opened Registry
  import opened Readings
  import opened Accumulator
  import opened Topics
  import opened Transport

  const Backoff: nat := 100        // 10 s after a failed cycle
  const PollInterval: nat := 200   // 20 s between cycles

  const OnlineMessage := Message(AvailabilityTopic, Text("online"), true)
  const OfflineMessage := Message(AvailabilityTopic, Text("offline"), true)

  /** Connect, the check that follows it, the "online" announcement and the
      subscription, as issued when both connect steps succeed. */
  const Opening: seq<Event> := [BleConnect, Publish(OnlineMessage), BleStartNotify]

  /** One non-retained value message per snapshot entry, in insertion order. */
  function ValueEvents(r: Received): (events: seq<Event>)
    requires Consistent(r)
    ensures |events| == |r.keys|
  {
    seq(|r.keys|, i requires 0 <= i < |r.keys| =>
      Publish(Message(StateTopic(r.keys[i]), Number(r.values[r.keys[i]]), false)))
  }

  /** Both connect steps succeed: connect does not raise and the client then
      reports itself connected. */
  predicate Connected(s: Script)
  {
    s.raisesAt != Some(ConnectCall) && s.connectedAfterConnect
  }

  /** Whether some step of the guarded block raises. */
  predicate BodyRaises<V>(table: seq<Entry<V>>, s: Script)
  {
    || !Connected(s)
    || s.raisesAt == Some(StartNotifyCall)
    || WritesCompleted(table, s) < |table|
    || s.raisesAt == Some(StopNotifyCall)
  }

  /** Whether the cycle ends in the exception handler: the guarded block or
      the disconnect in its cleanup raised. */
  predicate Fails<V>(table: seq<Entry<V>>, s: Script)
  {
    BodyRaises(table, s) || (s.connectedAtCleanup && s.disconnectRaises)
  }

  /** What the guarded block issues, and the snapshot it leaves. */
  datatype Attempt = Attempt(events: seq<Event>, data: Received)

  function GuardedBlock(table: seq<Entry<SensorInfo>>, s: Script, before: Received): (a: Attempt)
    requires Consistent(before)
    ensures Consistent(a.data)
  {
    if !Connected(s) then Attempt([BleConnect], before)
    else if s.raisesAt == Some(StartNotifyCall) then Attempt(Opening, before)
    else
      var n := WritesCompleted(table, s);
      var polled := AbsorbAll(table, Empty, Delivered(s, n));
      var data := if n < |table| then polled else AbsorbAll(table, polled, s.settle);
      Attempt(Opening + WriteEvents(table, n) + Finish(table, s, data), data)
  }

  /** What follows the completed writes: the write that raises, or else the
      settle wait and the unsubscribe, then (unless the unsubscribe raises)
      the value messages. */
  function Finish(table: seq<Entry<SensorInfo>>, s: Script, data: Received): seq<Event>
    requires Consistent(data)
  {
    var n := WritesCompleted(table, s);
    if n < |table| then [BleWrite(RequestFrame(table[n].prefix))]
    else if s.raisesAt == Some(StopNotifyCall) then [Sleep(SettleWait), BleStopNotify]
    else [Sleep(SettleWait), BleStopNotify] + ValueEvents(data)
  }

  /** The cleanup: disconnect exactly when the client says it is connected. */
  function Cleanup(s: Script): seq<Event>
  {
    if s.connectedAtCleanup then [BleDisconnect] else []
  }

  datatype Outcome = Outcome(events: seq<Event>, after: Received)

  /** One iteration of the polling loop. */
  function Cycle(table: seq<Entry<SensorInfo>>, s: Script, before: Received): (c: Outcome)
    requires Consistent(before)
    ensures Consistent(c.after)
  {
    var a := GuardedBlock(table, s, before);
    Outcome(a.events + Closing(table, s), a.data)
  }

  /** What follows the guarded block: the cleanup, the "offline" message and
      the back-off when the cycle failed, and the poll interval. */
  function Closing<V>(table: seq<Entry<V>>, s: Script): seq<Event>
  {
    Cleanup(s) + (if Fails(table, s) then [Publish(OfflineMessage), Sleep(Backoff)] else []) + [Sleep(PollInterval)]
  }

  /** The loop body of `poll_ups`, against the scripted transport; the
      returned events are the calls it issues. */
  method PollOnce(table: seq<Entry<SensorInfo>>, s: Script, data: ReceivedData) returns (events: seq<Event>, failed: bool)
    requires data.Valid()
    modifies data
    ensures data.Valid()
    ensures events == Cycle(table, s, old(data.Contents())).events
    ensures data.Contents() == Cycle(table, s, old(data.Contents())).after
    ensures failed == Fails(table, s)
  {
    var raised;
    events, raised := Guarded(table, s, data);
    if s.connectedAtCleanup {
      events := events + [BleDisconnect];
      if s.disconnectRaises {
        raised := true;
      }
    }
    failed := raised;
    if failed {
      events := events + [Publish(OfflineMessage), Sleep(Backoff)];
    }
    events := events + [Sleep(PollInterval)];
  }

  /** The guarded block of the loop body, up to where it completes or raises. */
  method Guarded(table: seq<Entry<SensorInfo>>, s: Script, data: ReceivedData) returns (events: seq<Event>, raised: bool)
    requires data.Valid()
    modifies data
    ensures data.Valid()
    ensures events == GuardedBlock(table, s, old(data.Contents())).events
    ensures data.Contents() == GuardedBlock(table, s, old(data.Contents())).data
    ensures raised == BodyRaises(table, s)
  {
    ghost var before := data.Contents();
    events := [BleConnect];
    if s.raisesAt == Some(ConnectCall) || !s.connectedAfterConnect {
      GuardedNotConnected(table, s, before);
      raised := true;
      return;
    }
    events := events + [Publish(OnlineMessage), BleStartNotify];
    assert events == Opening;
    if s.raisesAt == Some(StartNotifyCall) {
      GuardedStartNotifyFailure(table, s, before);
      raised := true;
      return;
    }
    data.HandleAll(table, s.early);
    data.Clear();
    var collected;
    collected, raised := Collect(table, s, data);
    GuardedCollects(table, s, before);
    events := events + collected;
  }

  lemma GuardedStartNotifyFailure(table: seq<Entry<SensorInfo>>, s: Script, before: Received)
    requires Consistent(before) && Connected(s) && s.raisesAt == Some(StartNotifyCall)
    ensures GuardedBlock(table, s, before) == Attempt(Opening, before)
  {
  }

  lemma GuardedCollects(table: seq<Entry<SensorInfo>>, s: Script, before: Received)
    requires Consistent(before) && Connected(s) && s.raisesAt != Some(StartNotifyCall)
    ensures var n := WritesCompleted(table, s);
      var polled := AbsorbAll(table, Empty, Delivered(s, n));
      var data := if n < |table| then polled else AbsorbAll(table, polled, s.settle);
      GuardedBlock(table, s, before) == Attempt(Opening + WriteEvents(table, n) + Finish(table, s, data), data)
  {
  }

  /** From the clearing of the snapshot on: the request loop, the settle wait,
      the unsubscribe and the value messages. */
  method Collect(table: seq<Entry<SensorInfo>>, s: Script, data: ReceivedData) returns (events: seq<Event>, raised: bool)
    requires Connected(s) && s.raisesAt != Some(StartNotifyCall)
    requires data.Valid() && data.Contents() == Empty
    modifies data
    ensures data.Valid()
    ensures var n := WritesCompleted(table, s);
      var polled := AbsorbAll(table, Empty, Delivered(s, n));
      data.Contents() == (if n < |table| then polled else AbsorbAll(table, polled, s.settle))
    ensures events == WriteEvents(table, WritesCompleted(table, s)) + Finish(table, s, data.Contents())
    ensures raised == BodyRaises(table, s)
  {
    var requests, n := RequestAll(table, s, data);
    ghost var polled := data.Contents();
    if n < |table| {
      assert Finish(table, s, polled) == [BleWrite(RequestFrame(table[n].prefix))];
      raised := true;
      events := requests;
      return;
    }
    assert requests == WriteEvents(table, n);
    data.HandleAll(table, s.settle);
    ghost var settled := data.Contents();
    assert settled == AbsorbAll(table, polled, s.settle);
    events := requests + [Sleep(SettleWait), BleStopNotify];
    if s.raisesAt == Some(StopNotifyCall) {
      assert Finish(table, s, settled) == [Sleep(SettleWait), BleStopNotify];
      raised := true;
      return;
    }
    var published := PublishValues(data);
    assert Finish(table, s, settled) == [Sleep(SettleWait), BleStopNotify] + published;
    events := requests + ([Sleep(SettleWait), BleStopNotify] + published);
    raised := false;
  }

  /** The request loop: each frame written in registry order, the handler run
      on what arrives, and a pause after each write. */
  method RequestAll(table: seq<Entry<SensorInfo>>, s: Script, data: ReceivedData) returns (events: seq<Event>, n: nat)
    requires data.Valid() && data.Contents() == Empty
    modifies data
    ensures data.Valid()
    ensures n == WritesCompleted(table, s)
    ensures events == WriteEvents(table, n) + (if n < |table| then [BleWrite(RequestFrame(table[n].prefix))] else [])
    ensures data.Contents() == AbsorbAll(table, Empty, Delivered(s, n))
  {
    events := [];
    n := 0;
    while n < |table|
      invariant n <= WritesCompleted(table, s)
      invariant data.Valid() && data.Contents() == AbsorbAll(table, Empty, Delivered(s, n))
      invariant events == WriteEvents(table, n)
    {
      var request := RequestFrame(table[n].prefix);
      if s.raisesAt == Some(WriteCall(n)) {
        events := events + [BleWrite(request)];
        return;
      }
      AbsorbDeliveredStep(table, s, n);
      data.HandleAll(table, RepliesTo(s, n));
      events := events + [BleWrite(request), Sleep(WritePause)];
      assert n + 1 <= WritesCompleted(table, s);
      assert data.Contents() == AbsorbAll(table, Empty, Delivered(s, n + 1));
      n := n + 1;
    }
    assert events == WriteEvents(table, n) + [];
  }

  /** The replies to request `n` are handled after those to the earlier ones. */
  lemma AbsorbDeliveredStep(table: seq<Entry<SensorInfo>>, s: Script, n: nat)
    ensures AbsorbAll(table, Empty, Delivered(s, n + 1))
      == AbsorbAll(table, AbsorbAll(table, Empty, Delivered(s, n)), RepliesTo(s, n))
  {
    AbsorbAllAppend(table, Empty, Delivered(s, n), RepliesTo(s, n));
  }

  /** The loop over `received_data.items()` that publishes each value. */
  method PublishValues(data: ReceivedData) returns (published: seq<Event>)
    requires data.Valid()
    ensures published == ValueEvents(data.Contents())
  {
    published := [];
    var k := 0;
    while k < |data.keys|
      invariant k <= |data.keys|
      invariant published == ValueEvents(data.Contents())[..k]
    {
      var name := data.keys[k];
      published := published + [Publish(Message(StateTopic(name), Number(data.values[name]), false))];
      k := k + 1;
    }
  }

  // ---------------------------------------------------------------------------
  // The loop

  /** `while True` run for as many cycles as there are scripts. */
  function Run(table: seq<Entry<SensorInfo>>, scripts: seq<Script>, before: Received): (r: Outcome)
    requires Consistent(before)
    ensures Consistent(r.after)
    decreases |scripts|
  {
    if |scripts| == 0 then Outcome([], before)
    else
      var prev := Run(table, scripts[..|scripts| - 1], before);
      var c := Cycle(table, scripts[|scripts| - 1], prev.after);
      Outcome(prev.events + c.events, c.after)
  }

  /** `poll_ups()`: one loop iteration per script. */
  method PollUps(table: seq<Entry<SensorInfo>>, scripts: seq<Script>, data: ReceivedData) returns (events: seq<Event>)
    requires data.Valid()
    modifies data
    ensures data.Valid()
    ensures events == Run(table, scripts, old(data.Contents())).events
    ensures data.Contents() == Run(table, scripts, old(data.Contents())).after
  {
    events := [];
    for k := 0 to |scripts|
      invariant data.Valid()
      invariant events == Run(table, scripts[..k], old(data.Contents())).events
      invariant data.Contents() == Run(table, scripts[..k], old(data.Contents())).after
    {
      assert scripts[..k + 1][..k] == scripts[..k];
      var cycleEvents, _ := PollOnce(table, scripts[k], data);
      events := events + cycleEvents;
    }
    assert scripts[..|scripts|] == scripts;
  }

  // ---------------------------------------------------------------------------
  // Properties of one cycle

  /** Value messages are non-retained publishes of numbers. */
  lemma ValueEventsAreValues(r: Received)
    requires Consistent(r)
    ensures forall e :: e in ValueEvents(r) ==> e.Publish? && e.msg.payload.Number? && !e.msg.retain
  {
  }

  /** The requests and the value messages hold no availability message and
      no disconnect. */
  lemma QuietMiddle(table: seq<Entry<SensorInfo>>, n: nat, r: Received)
    requires n <= |table| && Consistent(r)
    ensures multiset(WriteEvents(table, n))[Publish(OnlineMessage)] == 0
    ensures multiset(WriteEvents(table, n))[Publish(OfflineMessage)] == 0
    ensures multiset(WriteEvents(table, n))[BleDisconnect] == 0
    ensures multiset(ValueEvents(r))[Publish(OnlineMessage)] == 0
    ensures multiset(ValueEvents(r))[Publish(OfflineMessage)] == 0
    ensures multiset(ValueEvents(r))[BleDisconnect] == 0
  {
    WriteEventsOnlyWrites(table, n);
    ValueEventsAreValues(r);
    assert Publish(OnlineMessage) !in WriteEvents(table, n);
    assert Publish(OfflineMessage) !in WriteEvents(table, n);
    assert Publish(OnlineMessage) !in ValueEvents(r);
    assert Publish(OfflineMessage) !in ValueEvents(r);
  }

  /** Availability is announced as the connection turns out: "online" exactly
      once when both connect steps succeed (even if a later step fails),
      "offline" exactly once when the cycle ends in the exception handler, and
      a disconnect exactly when the client still reports itself connected at
      cleanup. */
  lemma AvailabilityPublished(table: seq<Entry<SensorInfo>>, s: Script, before: Received)
    requires Consistent(before)
    ensures var events := Cycle(table, s, before).events;
      && multiset(events)[Publish(OnlineMessage)] == (if Connected(s) then 1 else 0)
      && multiset(events)[Publish(OfflineMessage)] == (if Fails(table, s) then 1 else 0)
      && multiset(events)[BleDisconnect] == (if s.connectedAtCleanup then 1 else 0)
  {
    var a := GuardedBlock(table, s, before);
    GuardedBlockQuiet(table, s, before);
  }

  /** The guarded block announces "online" exactly when connected, and never
      "offline" and never disconnects. */
  lemma GuardedBlockQuiet(table: seq<Entry<SensorInfo>>, s: Script, before: Received)
    requires Consistent(before)
    ensures var events := GuardedBlock(table, s, before).events;
      && multiset(events)[Publish(OnlineMessage)] == (if Connected(s) then 1 else 0)
      && multiset(events)[Publish(OfflineMessage)] == 0
      && multiset(events)[BleDisconnect] == 0
  {
    OpeningCounts();
    var events := GuardedBlock(table, s, before).events;
    if !Connected(s) {
      assert events == [BleConnect];
    } else if s.raisesAt == Some(StartNotifyCall) {
      assert events == Opening;
    } else {
      var n := WritesCompleted(table, s);
      QuietMiddle(table, n, Empty);
      FinishQuiet(table, s, GuardedBlock(table, s, before).data);
    }
  }

  lemma OpeningCounts()
    ensures multiset(Opening)[Publish(OnlineMessage)] == 1
    ensures multiset(Opening)[Publish(OfflineMessage)] == 0
    ensures multiset(Opening)[BleDisconnect] == 0
  {
    assert OnlineMessage.payload != OfflineMessage.payload by {
      assert "online"[1] != "offline"[1];
    }
  }

  /** What follows the writes holds no availability message and no disconnect. */
  lemma FinishQuiet(table: seq<Entry<SensorInfo>>, s: Script, data: Received)
    requires Consistent(data)
    ensures multiset(Finish(table, s, data))[Publish(OnlineMessage)] == 0
    ensures multiset(Finish(table, s, data))[Publish(OfflineMessage)] == 0
    ensures multiset(Finish(table, s, data))[BleDisconnect] == 0
  {
    QuietMiddle(table, 0, data);
  }

  /** The guarded block when request `k` is the write that raises. */
  lemma GuardedWriteFailure(table: seq<Entry<SensorInfo>>, s: Script, before: Received, k: nat)
    requires Consistent(before)
    requires Connected(s) && s.raisesAt == Some(WriteCall(k)) && k < |table|
    ensures GuardedBlock(table, s, before)
      == Attempt(Opening + WriteEvents(table, k) + [BleWrite(RequestFrame(table[k].prefix))],
                 AbsorbAll(table, Empty, Delivered(s, k)))
  {
    assert WritesCompleted(table, s) == k;
  }

  /** The guarded block when no step of it raises. */
  lemma GuardedSuccess(table: seq<Entry<SensorInfo>>, s: Script, before: Received)
    requires Consistent(before)
    requires !BodyRaises(table, s)
    ensures var data := AbsorbAll(table, Empty, Delivered(s, |table|) + s.settle);
      GuardedBlock(table, s, before)
      == Attempt(Opening + WriteEvents(table, |table|) + ([Sleep(SettleWait), BleStopNotify] + ValueEvents(data)), data)
  {
    AbsorbAllAppend(table, Empty, Delivered(s, |table|), s.settle);
  }

  /** The guarded block when only the unsubscribe raises. */
  lemma GuardedStopFailure(table: seq<Entry<SensorInfo>>, s: Script, before: Received)
    requires Consistent(before)
    requires Connected(s) && s.raisesAt == Some(StopNotifyCall)
    ensures GuardedBlock(table, s, before).events
      == Opening + WriteEvents(table, |table|) + [Sleep(SettleWait), BleStopNotify]
  {
  }

  /** A cycle whose connect raises, or whose client is not connected
      afterwards, announces no "online", writes nothing, publishes "offline"
      once, waits 10 s and then 20 s, and leaves the snapshot as it was. */
  lemma ConnectFailureCycle(table: seq<Entry<SensorInfo>>, s: Script, before: Received)
    requires Consistent(before)
    requires !Connected(s)
    ensures var c := Cycle(table, s, before);
      && c.events == [BleConnect] + Cleanup(s) + [Publish(OfflineMessage), Sleep(Backoff), Sleep(PollInterval)]
      && multiset(c.events)[Publish(OnlineMessage)] == 0
      && multiset(c.events)[Publish(OfflineMessage)] == 1
      && Writes(c.events) == []
      && c.after == before
  {
    GuardedNotConnected(table, s, before);
    var tail := [Publish(OfflineMessage), Sleep(Backoff), Sleep(PollInterval)];
    ClosingNotConnected(table, s);
    ConnectFailureEvents(s);
    WritesNone([BleConnect] + Cleanup(s) + tail);
  }

  lemma GuardedNotConnected(table: seq<Entry<SensorInfo>>, s: Script, before: Received)
    requires Consistent(before) && !Connected(s)
    ensures GuardedBlock(table, s, before) == Attempt([BleConnect], before)
  {
  }

  lemma ClosingNotConnected<V>(table: seq<Entry<V>>, s: Script)
    requires !Connected(s)
    ensures Closing(table, s) == Cleanup(s) + [Publish(OfflineMessage), Sleep(Backoff), Sleep(PollInterval)]
  {
  }

  /** The trace of a cycle that did not connect holds "offline" once, no
      "online" and no write. */
  lemma ConnectFailureEvents(s: Script)
    ensures var events := [BleConnect] + Cleanup(s) + [Publish(OfflineMessage), Sleep(Backoff), Sleep(PollInterval)];
      && multiset(events)[Publish(OnlineMessage)] == 0
      && multiset(events)[Publish(OfflineMessage)] == 1
      && (forall e :: e in events ==> !e.BleWrite?)
  {
  }

  /** A cycle in which request `k` fails to be written announces "online" and
      then "offline", has written requests 0 to `k` in order, publishes no
      value, and keeps what arrived before the failure in the snapshot. */
  lemma WriteFailureCycle(table: seq<Entry<SensorInfo>>, s: Script, before: Received, k: nat)
    requires Consistent(before)
    requires Connected(s) && s.raisesAt == Some(WriteCall(k)) && k < |table|
    ensures var c := Cycle(table, s, before);
      && multiset(c.events)[Publish(OnlineMessage)] == 1
      && multiset(c.events)[Publish(OfflineMessage)] == 1
      && Writes(c.events) == FullRequests(table)[..k + 1]
      && (forall e :: e in c.events ==> !(e.Publish? && e.msg.payload.Number?))
      && c.after == AbsorbAll(table, Empty, Delivered(s, k))
  {
    AvailabilityPublished(table, s, before);
    GuardedWriteFailure(table, s, before, k);
    CycleWrites(table, s, before);
    WritesUpToFailure(table, k);
    NumbersOnlyInValues(table, s, before);
  }

  /** A cycle writes what its guarded block writes. */
  lemma CycleWrites(table: seq<Entry<SensorInfo>>, s: Script, before: Received)
    requires Consistent(before)
    ensures Writes(Cycle(table, s, before).events) == Writes(GuardedBlock(table, s, before).events)
  {
    var a := GuardedBlock(table, s, before).events;
    WritesAppend(a, Closing(table, s));
    WritesNone(Closing(table, s));
  }

  /** The frames written by the opening, the first `k` requests and the
      failing write of request `k`. */
  lemma WritesUpToFailure(table: seq<Entry<SensorInfo>>, k: nat)
    requires k < |table|
    ensures Writes(Opening + WriteEvents(table, k) + [BleWrite(RequestFrame(table[k].prefix))])
      == FullRequests(table)[..k + 1]
  {
    var frame := RequestFrame(table[k].prefix);
    WritesNone(Opening);
    WritesAround(Opening, WriteEvents(table, k), [BleWrite(frame)]);
    WritesOfWriteEvents(table, k);
    WritesSingle(BleWrite(frame));
    FullRequestsSnoc(table, k);
  }

  /** A cycle that ends normally writes every request once in registry order,
      each followed by its 0.5 s pause, then waits 2 s, unsubscribes, and only
      then publishes the values gathered from this cycle's notifications. */
  lemma SuccessfulCycle(table: seq<Entry<SensorInfo>>, s: Script, before: Received)
    requires Consistent(before)
    requires !Fails(table, s)
    ensures var c := Cycle(table, s, before);
      && c.after == AbsorbAll(table, Empty, Delivered(s, |table|) + s.settle)
      && c.events == Opening + WriteEvents(table, |table|)
                     + ([Sleep(SettleWait), BleStopNotify] + ValueEvents(c.after))
                     + (Cleanup(s) + [Sleep(PollInterval)])
      && Writes(c.events) == FullRequests(table)
      && multiset(c.events)[Publish(OfflineMessage)] == 0
  {
    AvailabilityPublished(table, s, before);
    GuardedSuccess(table, s, before);
    CycleWrites(table, s, before);
    ValueEventsAreValues(Cycle(table, s, before).after);
    WritesOfCompleteBlock(table, ValueEvents(Cycle(table, s, before).after));
    ClosingAfterSuccess(table, s);
    assert Cycle(table, s, before).events == GuardedBlock(table, s, before).events + Closing(table, s);
  }

  /** A cycle that does not fail closes with the cleanup and the poll interval. */
  lemma ClosingAfterSuccess<V>(table: seq<Entry<V>>, s: Script)
    requires !Fails(table, s)
    ensures Closing(table, s) == Cleanup(s) + [Sleep(PollInterval)]
  {
    assert Cleanup(s) + [] == Cleanup(s);
  }

  /** The frames written by a guarded block that completes: every request. */
  lemma WritesOfCompleteBlock(table: seq<Entry<SensorInfo>>, values: seq<Event>)
    requires forall e :: e in values ==> !e.BleWrite?
    ensures Writes(Opening + WriteEvents(table, |table|) + ([Sleep(SettleWait), BleStopNotify] + values))
      == FullRequests(table)
  {
    var rest := [Sleep(SettleWait), BleStopNotify] + values;
    WritesNone(Opening);
    WritesNone(rest);
    WritesAround(Opening, WriteEvents(table, |table|), rest);
    WritesOfAllRequests(table);
  }

  /** No stale value is ever published: what a cycle issues does not depend on
      what the snapshot held before it. */
  lemma EventsIgnorePriorSnapshot(table: seq<Entry<SensorInfo>>, s: Script, b1: Received, b2: Received)
    requires Consistent(b1) && Consistent(b2)
    ensures Cycle(table, s, b1).events == Cycle(table, s, b2).events
    ensures Connected(s) && s.raisesAt != Some(StartNotifyCall) ==> Cycle(table, s, b1).after == Cycle(table, s, b2).after
  {
  }

  /** Every value is published at the state topic that the discovery message of
      its own sensor announces. */
  lemma ValueTopicsAnnounced(table: seq<Entry<SensorInfo>>, s: Script, before: Received)
    requires Consistent(before)
    ensures forall e :: e in Cycle(table, s, before).events && e.Publish? && e.msg.payload.Number? ==>
      exists j :: 0 <= j < |table| && Discovery(table)[j].payload.SensorConfig?
        && e.msg.topic == Discovery(table)[j].payload.stateTopic
  {
    var c := Cycle(table, s, before);
    DiscoveryShape(table);
    if Fails(table, s) {
      if Connected(s) && s.raisesAt != Some(StartNotifyCall) && WritesCompleted(table, s) == |table| && s.raisesAt != Some(StopNotifyCall) {
        // the guarded block completed; only the disconnect raised
        ValuesFromRegistry(table, Delivered(s, |table|) + s.settle);
        AbsorbAllAppend(table, Empty, Delivered(s, |table|), s.settle);
      }
      NumbersOnlyInValues(table, s, before);
    } else {
      SuccessfulCycle(table, s, before);
      ValuesFromRegistry(table, Delivered(s, |table|) + s.settle);
      NumbersOnlyInValues(table, s, before);
    }
  }

  /** The only number-carrying messages of a cycle are its value messages,
      and they are there only when the guarded block completed. */
  lemma NumbersOnlyInValues(table: seq<Entry<SensorInfo>>, s: Script, before: Received)
    requires Consistent(before)
    ensures var c := Cycle(table, s, before);
      forall e :: e in c.events && e.Publish? && e.msg.payload.Number? ==>
        !BodyRaises(table, s) && e in ValueEvents(c.after)
  {
    var c := Cycle(table, s, before);
    var a := GuardedBlock(table, s, before);
    ClosingNoNumbers(table, s);
    if BodyRaises(table, s) {
      GuardedNoNumbers(table, s, before);
      NoNumbersAppend(a.events, Closing(table, s));
    } else {
      GuardedSuccess(table, s, before);
      var head := Opening + WriteEvents(table, |table|) + [Sleep(SettleWait), BleStopNotify];
      OpeningNoNumbers();
      WriteEventsNoNumbers(table, |table|);
      NoNumbersAppend(Opening, WriteEvents(table, |table|));
      NoNumbersAppend(Opening + WriteEvents(table, |table|), [Sleep(SettleWait), BleStopNotify]);
      assert c.events == head + ValueEvents(c.after) + Closing(table, s);
    }
  }

  ghost predicate NoNumbers(events: seq<Event>)
  {
    forall e :: e in events ==> !(e.Publish? && e.msg.payload.Number?)
  }

  lemma NoNumbersAppend(a: seq<Event>, b: seq<Event>)
    requires NoNumbers(a) && NoNumbers(b)
    ensures NoNumbers(a + b)
  {
  }

  lemma OpeningNoNumbers()
    ensures NoNumbers(Opening)
  {
  }

  lemma WriteEventsNoNumbers(table: seq<Entry<SensorInfo>>, n: nat)
    requires n <= |table|
    ensures NoNumbers(WriteEvents(table, n))
  {
    WriteEventsOnlyWrites(table, n);
  }

  lemma ClosingNoNumbers(table: seq<Entry<SensorInfo>>, s: Script)
    ensures NoNumbers(Closing(table, s))
  {
  }

  /** A guarded block that raises publishes no value. */
  lemma GuardedNoNumbers(table: seq<Entry<SensorInfo>>, s: Script, before: Received)
    requires Consistent(before) && BodyRaises(table, s)
    ensures NoNumbers(GuardedBlock(table, s, before).events)
  {
    OpeningNoNumbers();
    if Connected(s) && s.raisesAt != Some(StartNotifyCall) {
      var n := WritesCompleted(table, s);
      WriteEventsNoNumbers(table, n);
      NoNumbersAppend(Opening, WriteEvents(table, n));
      if n < |table| {
        GuardedWriteFailure(table, s, before, n);
        NoNumbersAppend(Opening + WriteEvents(table, n), [BleWrite(RequestFrame(table[n].prefix))]);
      } else {
        GuardedStopFailure(table, s, before);
        NoNumbersAppend(Opening + WriteEvents(table, n), [Sleep(SettleWait), BleStopNotify]);
      }
    }
  }

  /** Every value message of a snapshot gathered from notifications names a
      sensor of the registry, at that sensor's state topic. */
  lemma ValuesFromRegistry(table: seq<Entry<SensorInfo>>, frames: seq<seq<byte>>)
    ensures var r := AbsorbAll(table, Empty, frames);
      forall e :: e in ValueEvents(r) ==>
        exists j :: 0 <= j < |table| && e.msg.topic == StateTopic(table[j].info.name)
  {
    var r := AbsorbAll(table, Empty, frames);
    forall e | e in ValueEvents(r)
      ensures exists j :: 0 <= j < |table| && e.msg.topic == StateTopic(table[j].info.name)
    {
      var i :| 0 <= i < |r.keys| && ValueEvents(r)[i] == e;
      var name := r.keys[i];
      assert name in r.values;
      var j := NameFromTable(table, frames, name);
      assert e.msg.topic == StateTopic(table[j].info.name);
    }
  }

  /** Every name in a snapshot built from nothing is the name of a table entry. */
  lemma NameFromTable(table: seq<Entry<SensorInfo>>, frames: seq<seq<byte>>, name: string) returns (j: nat)
    requires name in AbsorbAll(table, Empty, frames).values
    ensures j < |table| && table[j].info.name == name
  {
    AbsorbAllKeys(table, Empty, frames);
    var f :| 0 <= f < |frames| && Reports(table, frames[f], name);
    var d := Decode(table, frames[f]);
    j :| 0 <= j < |table| && table[j].prefix == FramePrefix(frames[f]) && d.name == table[j].info.name;
  }

  /** A mains-voltage response carrying 64 00 is published as 10.00 at
      `home/ups/mains_voltage`, not retained. */
  lemma MainsVoltagePublished()
    ensures ValueEvents(AbsorbAll(Sensors, Empty, [[0xFF, 0xFF, 0xFF, 0x08, 0x0C, 0x01, 0x64, 0x00]]))
      == [Publish(Message("home/ups/mains_voltage", Number(1000), false))]
  {
    MainsVoltageSnapshot();
    var r := Received(["Mains Voltage"], map["Mains Voltage" := 1000]);
    MainsVoltageTopic();
    var events := ValueEvents(r);
    assert events[0] == Publish(Message(StateTopic("Mains Voltage"), Number(1000), false));
  }

  /** The snapshot after that lone reply holds the mains voltage only. */
  lemma MainsVoltageSnapshot()
    ensures AbsorbAll(Sensors, Empty, [[0xFF, 0xFF, 0xFF, 0x08, 0x0C, 0x01, 0x64, 0x00]])
      == Received(["Mains Voltage"], map["Mains Voltage" := 1000])
  {
    var frame: seq<byte> := [0xFF, 0xFF, 0xFF, 0x08, 0x0C, 0x01, 0x64, 0x00];
    var frames := [frame];
    assert frames[..0] == [];
    assert AbsorbAll(Sensors, Empty, frames) == Absorb(Sensors, Empty, frame);
    MainsVoltageExample();
  }

  /** Every sensor that answered in a cycle whose guarded block completed has
      its value published. */
  lemma AnsweredSensorsPublished(table: seq<Entry<SensorInfo>>, s: Script, before: Received, f: seq<byte>, name: string)
    requires Consistent(before)
    requires !BodyRaises(table, s)
    requires f in Delivered(s, |table|) + s.settle && Reports(table, f, name)
    ensures var c := Cycle(table, s, before);
      name in c.after.values
      && Publish(Message(StateTopic(name), Number(c.after.values[name]), false)) in c.events
  {
    var c := Cycle(table, s, before);
    var frames := Delivered(s, |table|) + s.settle;
    AbsorbAllAppend(table, Empty, Delivered(s, |table|), s.settle);
    assert c.after == AbsorbAll(table, Empty, frames);
    AbsorbAllKeys(table, Empty, frames);
    var k :| 0 <= k < |frames| && frames[k] == f;
    assert name in c.after.values;
    var i :| 0 <= i < |c.after.keys| && c.after.keys[i] == name;
    var vs := ValueEvents(c.after);
    assert vs[i] == Publish(Message(StateTopic(name), Number(c.after.values[name]), false));
    var a := GuardedBlock(table, s, before);
    assert a.events == Opening + WriteEvents(table, |table|) + ([Sleep(SettleWait), BleStopNotify] + vs);
    assert vs[i] in a.events;
  }

  // ---------------------------------------------------------------------------
  // Properties of the loop

  /** How many of the cycles end in the exception handler. */
  function FailedCycles<V>(table: seq<Entry<V>>, scripts: seq<Script>): (n: nat)
    ensures n <= |scripts|
    decreases |scripts|
  {
    if |scripts| == 0 then 0
    else FailedCycles(table, scripts[..|scripts| - 1]) + (if Fails(table, scripts[|scripts| - 1]) then 1 else 0)
  }

  /** How many of the cycles get past both connect steps. */
  function ConnectedCycles(scripts: seq<Script>): (n: nat)
    ensures n <= |scripts|
    decreases |scripts|
  {
    if |scripts| == 0 then 0
    else ConnectedCycles(scripts[..|scripts| - 1]) + (if Connected(scripts[|scripts| - 1]) then 1 else 0)
  }

  /** Over a run, "online" is announced once per connected cycle and
      "offline" once per failed cycle. */
  lemma {:induction false} RunAvailability(table: seq<Entry<SensorInfo>>, scripts: seq<Script>, before: Received)
    requires Consistent(before)
    ensures multiset(Run(table, scripts, before).events)[Publish(OnlineMessage)] == ConnectedCycles(scripts)
    ensures multiset(Run(table, scripts, before).events)[Publish(OfflineMessage)] == FailedCycles(table, scripts)
    decreases |scripts|
  {
    if |scripts| > 0 {
      var init := scripts[..|scripts| - 1];
      var prev := Run(table, init, before);
      RunAvailability(table, init, before);
      AvailabilityPublished(table, scripts[|scripts| - 1], prev.after);
    }
  }

  /** Cycles that never get connected all fail and none of them connects. */
  lemma {:induction false} OutageCounts<V>(table: seq<Entry<V>>, down: seq<Script>)
    requires forall i :: 0 <= i < |down| ==> !Connected(down[i])
    ensures FailedCycles(table, down) == |down|
    ensures ConnectedCycles(down) == 0
    decreases |down|
  {
    if |down| > 0 {
      OutageCounts(table, down[..|down| - 1]);
    }
  }

  /** The loop survives an outage: after any number of cycles in which the
      inverter cannot be reached, a cycle that succeeds announces "online"
      once in the whole run, "offline" has been announced once per failed
      cycle, and the snapshot holds exactly what the successful cycle
      gathered. */
  lemma ReconnectsAfterOutage(table: seq<Entry<SensorInfo>>, down: seq<Script>, up: Script, before: Received)
    requires Consistent(before)
    requires forall i :: 0 <= i < |down| ==> !Connected(down[i])
    requires !Fails(table, up)
    ensures var r := Run(table, down + [up], before);
      && multiset(r.events)[Publish(OfflineMessage)] == |down|
      && multiset(r.events)[Publish(OnlineMessage)] == 1
      && r.after == AbsorbAll(table, Empty, Delivered(up, |table|) + up.settle)
  {
    OutageAvailability(table, down, up, before);
    OutageSnapshot(table, down, up, before);
  }

  lemma OutageAvailability(table: seq<Entry<SensorInfo>>, down: seq<Script>, up: Script, before: Received)
    requires Consistent(before)
    requires forall i :: 0 <= i < |down| ==> !Connected(down[i])
    requires !Fails(table, up)
    ensures var r := Run(table, down + [up], before);
      && multiset(r.events)[Publish(OfflineMessage)] == |down|
      && multiset(r.events)[Publish(OnlineMessage)] == 1
  {
    RunAvailability(table, down + [up], before);
    OutageCounts(table, down);
    Appended(table, down, up, before);
  }

  lemma OutageSnapshot(table: seq<Entry<SensorInfo>>, down: seq<Script>, up: Script, before: Received)
    requires Consistent(before)
    requires !Fails(table, up)
    ensures Run(table, down + [up], before).after == AbsorbAll(table, Empty, Delivered(up, |table|) + up.settle)
  {
    Appended(table, down, up, before);
    GuardedSuccess(table, up, Run(table, down, before).after);
  }

  /** Unfolds the run and the counts of a run extended by one cycle. */
  lemma Appended(table: seq<Entry<SensorInfo>>, init: seq<Script>, last: Script, before: Received)
    requires Consistent(before)
    ensures var prev := Run(table, init, before);
      && Run(table, init + [last], before).after == Cycle(table, last, prev.after).after
      && FailedCycles(table, init + [last]) == FailedCycles(table, init) + (if Fails(table, last) then 1 else 0)
      && ConnectedCycles(init + [last]) == ConnectedCycles(init) + (if Connected(last) then 1 else 0)
  {
    var scripts := init + [last];
    assert scripts[..|scripts| - 1] == init;
  }
}
