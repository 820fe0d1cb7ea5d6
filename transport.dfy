/**
  The scripted stand-in for the wireless link and the trace of what the
  bridge does through its two collaborators. A Script fixes, for one poll
  cycle, which transport call raises (if any), what each read of
  `is_connected` answers, and which notifications the device delivers while
  each awaited step is pending. An Event is one call the bridge issues: a
  transport call, a bus publish, or a sleep measured in tenths of a second.
*/
module Transport {
  import opened Wrappers
  import opened Frames
  import opened Topics

  /** The transport calls that can raise. */
  datatype Call = ConnectCall | StartNotifyCall | WriteCall(index: nat) | StopNotifyCall

  datatype Script = Script(
    raisesAt: Option<Call>,              // the call that raises, if any
    connectedAfterConnect: bool,         // `client.is_connected` right after connect
    connectedAtCleanup: bool,            // `client.is_connected` in the cleanup
    disconnectRaises: bool,              // whether `disconnect()` raises
    early: seq<seq<byte>>,               // notifications while `start_notify` is pending
    replies: seq<seq<seq<byte>>>,        // notifications during write i and its pause
    settle: seq<seq<byte>>)              // notifications during the settle wait

  datatype Event =
    | BleConnect
    | BleStartNotify
    | BleWrite(frame: seq<byte>)
    | BleStopNotify
    | BleDisconnect
    | Publish(msg: Message)
    | Sleep(tenths: nat)

  const WritePause: nat := 5     // 0.5 s after each request
  const SettleWait: nat := 20    // 2.0 s for straggling notifications

  /** The notifications delivered while request `i` is written and paced. */
  function RepliesTo(s: Script, i: nat): seq<seq<byte>>
  {
    if i < |s.replies| then s.replies[i] else []
  }

  /** The notifications delivered during the first `n` requests, in order. */
  function Delivered(s: Script, n: nat): seq<seq<byte>>
  {
    if n == 0 then [] else Delivered(s, n - 1) + RepliesTo(s, n - 1)
  }

  /** How many requests are written and paced before a write raises. */
  function WritesCompleted<V>(table: seq<Entry<V>>, s: Script): (n: nat)
    ensures n <= |table|
    ensures forall j :: 0 <= j < n ==> s.raisesAt != Some(WriteCall(j))
    ensures n < |table| ==> s.raisesAt == Some(WriteCall(n))
  {
    match s.raisesAt
    case Some(WriteCall(j)) => if j < |table| then j else |table|
    case _ => |table|
  }

  /** The first `n` requests of the registry, each written and then paced. */
  function WriteEvents<V>(table: seq<Entry<V>>, n: nat): seq<Event>
    requires n <= |table|
  {
    if n == 0 then []
    else WriteEvents(table, n - 1) + [BleWrite(RequestFrame(table[n - 1].prefix)), Sleep(WritePause)]
  }

  /** Request `i` is the write at position `2 i`, and the pause after it follows
      immediately; nothing else is in the sequence. */
  lemma {:induction false} WriteEventsAt<V>(table: seq<Entry<V>>, n: nat)
    requires n <= |table|
    ensures |WriteEvents(table, n)| == 2 * n
    ensures forall i :: 0 <= i < n ==>
      WriteEvents(table, n)[2 * i] == BleWrite(RequestFrame(table[i].prefix))
      && WriteEvents(table, n)[2 * i + 1] == Sleep(WritePause)
  {
    if n > 0 {
      WriteEventsAt(table, n - 1);
    }
  }

  /** Writing and pacing issues nothing but writes and sleeps. */
  lemma {:induction false} WriteEventsOnlyWrites<V>(table: seq<Entry<V>>, n: nat)
    requires n <= |table|
    ensures forall e :: e in WriteEvents(table, n) ==> e.BleWrite? || e == Sleep(WritePause)
  {
    if n > 0 {
      WriteEventsOnlyWrites(table, n - 1);
    }
  }

  /** The frame an event writes, if it is a write. */
  function WriteOf(e: Event): seq<seq<byte>>
  {
    if e.BleWrite? then [e.frame] else []
  }

  /** The frames written, in the order written. */
  function Writes(events: seq<Event>): (frames: seq<seq<byte>>)
    decreases |events|
  {
    if |events| == 0 then [] else Writes(events[..|events| - 1]) + WriteOf(events[|events| - 1])
  }

  lemma {:induction false} WritesAppend(a: seq<Event>, b: seq<Event>)
    ensures Writes(a + b) == Writes(a) + Writes(b)
    decreases |b|
  {
    if |b| == 0 {
      assert a + b == a;
    } else {
      assert (a + b)[..|a + b| - 1] == a + b[..|b| - 1];
      WritesAppend(a, b[..|b| - 1]);
    }
  }

  /** The frames written by a trace that starts without writes. */
  lemma WritesAround(opening: seq<Event>, middle: seq<Event>, last: seq<Event>)
    requires Writes(opening) == []
    ensures Writes(opening + middle + last) == Writes(middle) + Writes(last)
  {
    WritesAppend(opening + middle, last);
    WritesAppend(opening, middle);
  }

  /** A trace without write events writes nothing. */
  lemma {:induction false} WritesNone(events: seq<Event>)
    requires forall e :: e in events ==> !e.BleWrite?
    ensures Writes(events) == []
    decreases |events|
  {
    if |events| > 0 {
      WritesNone(events[..|events| - 1]);
    }
  }

  /** Writing and pacing the whole registry writes each request frame once,
      in registry order. */
  lemma {:induction false} WritesOfWriteEvents<V>(table: seq<Entry<V>>, n: nat)
    requires n <= |table|
    ensures Writes(WriteEvents(table, n)) == FullRequests(table)[..n]
  {
    if n > 0 {
      var frame := RequestFrame(table[n - 1].prefix);
      WritesOfWriteEvents(table, n - 1);
      WritesAppend(WriteEvents(table, n - 1), [BleWrite(frame), Sleep(WritePause)]);
      WritesOfPair(frame);
      FullRequestsSnoc(table, n - 1);
    }
  }

  /** Writing and pacing the whole registry writes all its request frames. */
  lemma WritesOfAllRequests<V>(table: seq<Entry<V>>)
    ensures Writes(WriteEvents(table, |table|)) == FullRequests(table)
  {
    WritesOfWriteEvents(table, |table|);
    var frames := FullRequests(table);
    assert frames[..|frames|] == frames;
  }

  lemma WritesSingle(e: Event)
    ensures Writes([e]) == WriteOf(e)
  {
    assert [e][..0] == [];
  }

  lemma WritesOfPair(frame: seq<byte>)
    ensures Writes([BleWrite(frame), Sleep(WritePause)]) == [frame]
  {
    var pair := [BleWrite(frame), Sleep(WritePause)];
    var single := [BleWrite(frame)];
    assert single[..0] == [];
    assert Writes(single) == Writes([]) + WriteOf(BleWrite(frame));
    assert pair[..1] == single;
    assert Writes(pair) == Writes(single) + WriteOf(Sleep(WritePause));
  }
}
