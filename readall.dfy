/**
  The diagnostic script: a second, larger request table (every entry named
  "value" with divisor 1), a notification handler that prints every frame
  in hex and then either its value or an "unknown response" notice, and one
  session that subscribes, writes every request once with a pause after
  each, waits, unsubscribes and leaves the client's context (which
  disconnects). Printed lines are modelled as a sequence of `Line` values.
*/
module ReadAll {
  import opened Wrappers
  import opened Frames
  import opened Scaling
  import opened Transport

  /** A table entry's friendly name and divisor. */
  datatype Probe = Probe(name: string, divisor: Divisor)

  const Value := Probe("value", 1)

  /** The 25 command prefixes gathered from the device, in table order. */
  const Probes: seq<Entry<Probe>> := [
    Entry([0xFF, 0x01, 0x00, 0x34, 0x0C, 0x00], Value),
    Entry([0xFF, 0x0B, 0x00, 0x22, 0x0C, 0x00], Value),
    Entry([0xFF, 0x8A, 0x8F, 0x36, 0x0C, 0x00], Value),
    Entry([0xFF, 0xFF, 0xFF, 0x06, 0x0C, 0x01], Value),
    Entry([0xFF, 0xFF, 0xFF, 0x08, 0x0C, 0x01], Value),
    Entry([0xFF, 0xFF, 0xFF, 0x0C, 0x0C, 0x01], Value),
    Entry([0xFF, 0xFF, 0xFF, 0x10, 0x0C, 0x01], Value),
    Entry([0xFF, 0xFF, 0xFF, 0x16, 0x0C, 0x01], Value),
    Entry([0xFF, 0xFF, 0xFF, 0x1C, 0x0C, 0x01], Value),
    Entry([0xFF, 0xFF, 0xFF, 0x1E, 0x0C, 0x01], Value),
    Entry([0xFF, 0xFF, 0xFF, 0x28, 0x0C, 0x01], Value),
    Entry([0xFF, 0xFF, 0xFF, 0x2C, 0x0C, 0x01], Value),
    Entry([0xFF, 0xFF, 0xFF, 0x30, 0x0C, 0x01], Value),
    Entry([0xFF, 0xFF, 0xFF, 0x32, 0x0C, 0x01], Value),
    Entry([0xFF, 0xFF, 0xFF, 0x38, 0x0C, 0x01], Value),
    Entry([0xFF, 0xFF, 0xFF, 0x3C, 0x0C, 0x01], Value),
    Entry([0xFF, 0xFF, 0xFF, 0x74, 0x0C, 0x01], Value),
    Entry([0xFF, 0xFF, 0xFF, 0x76, 0x0C, 0x01], Value),
    Entry([0xFF, 0xFF, 0xFF, 0x8A, 0x0C, 0x01], Value),
    Entry([0xFF, 0xFF, 0xFF, 0x90, 0x0C, 0x01], Value),
    Entry([0xFF, 0xFF, 0xFF, 0x96, 0x0C, 0x01], Value),
    Entry([0xFF, 0xFF, 0xFF, 0xB0, 0x0B, 0x01], Value),
    Entry([0xFF, 0xFF, 0xFF, 0xC8, 0x0B, 0x01], Value),
    Entry([0xFF, 0xFF, 0xFF, 0xCA, 0x0B, 0x01], Value),
    Entry([0xFF, 0xFF, 0xFF, 0xCC, 0x0B, 0x01], Value)
  ]

  // ---------------------------------------------------------------------------
  // The table

  /** Bytes 1 and 3 of a prefix, read as a two-digit base-256 number; it
      increases strictly along the table. */
  function Rank(prefix: seq<byte>): nat
  {
    if |prefix| < 4 then 0 else prefix[1] as int * 256 + prefix[3] as int
  }

  ghost predicate RanksIncrease<V>(table: seq<Entry<V>>)
  {
    forall i :: 0 <= i < |table| - 1 ==> Rank(table[i].prefix) < Rank(table[i + 1].prefix)
  }

  /** Ranks that increase from one entry to the next increase along the
      whole table. */
  lemma {:induction false} RanksOrdered<V>(table: seq<Entry<V>>, i: nat, j: nat)
    requires RanksIncrease(table) && i < j < |table|
    ensures Rank(table[i].prefix) < Rank(table[j].prefix)
    decreases j - i
  {
    if i + 1 < j {
      RanksOrdered(table, i + 1, j);
    }
  }

  /** The table holds 25 six-byte prefixes, no two alike, all with divisor 1. */
  lemma ProbesWellFormed()
    ensures |Probes| == 25
    ensures WellFormed(Probes)
    ensures forall i :: 0 <= i < |Probes| ==> Probes[i].info.divisor == 1
  {
    ProbeRanksIncrease();
    ProbePrefixes();
    forall i, j | 0 <= i < j < |Probes|
      ensures Probes[i].prefix != Probes[j].prefix
    {
      RanksOrdered(Probes, i, j);
    }
  }

  lemma ProbeRanksIncrease()
    ensures RanksIncrease(Probes)
  {
    RanksIncreaseFrom(0);
    RanksIncreaseFrom(8);
    RanksIncreaseFrom(16);
  }

  /** Ranks increase across the eight steps from entry `lo`. */
  lemma RanksIncreaseFrom(lo: nat)
    requires lo == 0 || lo == 8 || lo == 16
    ensures forall i :: lo <= i < lo + 8 ==> Rank(Probes[i].prefix) < Rank(Probes[i + 1].prefix)
  {
  }

  lemma ProbePrefixes()
    ensures |Probes| == 25
    ensures forall i :: 0 <= i < |Probes| ==> |Probes[i].prefix| == PrefixLength && Probes[i].info.divisor == 1
  {
  }

  /** `full_requests`: 25 eight-byte write commands, one per prefix in table
      order, each the prefix followed by the terminator, no two alike. */
  lemma ProbeRequests()
    ensures |FullRequests(Probes)| == 25
    ensures forall i :: 0 <= i < 25 ==>
      |FullRequests(Probes)[i]| == 8
      && FullRequests(Probes)[i] == Probes[i].prefix + Terminator
      && StripTerminator(FullRequests(Probes)[i]) == Probes[i].prefix
    ensures forall i, j :: 0 <= i < j < 25 ==> FullRequests(Probes)[i] != FullRequests(Probes)[j]
  {
    ProbesWellFormed();
    FullRequestsOnePerEntry(Probes);
  }

  // ---------------------------------------------------------------------------
  // The notification handler

  /** One printed line. */
  datatype Line =
    | Hex(frame: seq<byte>)              // every frame, in hex
    | Shown(value: nat)                  // the value, formatted without decimals
    | UnknownResponse(frame: seq<byte>)  // a frame whose prefix is not in the table
    | NotConnectedNotice

  /** The lines printed for one notification: the frame itself, then its
      value if its prefix is in the table, else the unknown-response notice. */
  function Handle(table: seq<Entry<Probe>>, data: seq<byte>): (lines: seq<Line>)
    ensures |lines| == 2 && lines[0] == Hex(data)
  {
    var report := match Find(table, FramePrefix(data))
      case None => UnknownResponse(data)
      case Some(i) => Shown(RoundRatio(RawValue(data), table[i].info.divisor));
    [Hex(data), report]
  }

  /** The second line shows a value exactly when the frame's prefix is in
      the table, and that value is the raw number divided by the first
      matching entry's divisor, rounded to the nearest integer with ties to
      even; otherwise it reports the whole frame as unknown. */
  lemma HandleReports(table: seq<Entry<Probe>>, data: seq<byte>)
    ensures var line := Handle(table, data)[1];
      && (line.Shown? <==> exists i :: 0 <= i < |table| && table[i].prefix == FramePrefix(data))
      && (!line.Shown? ==> line == UnknownResponse(data))
      && (line.Shown? ==>
            exists i :: 0 <= i < |table| && table[i].prefix == FramePrefix(data)
              && (forall j :: 0 <= j < i ==> table[j].prefix != FramePrefix(data))
              && NearestEven(RawValue(data), table[i].info.divisor, line.value))
  {
    var found := Find(table, FramePrefix(data));
    if found.Some? {
      var i := found.value;
      assert table[i].prefix == FramePrefix(data);
    }
  }

  /** With every divisor 1 the value shown for a known frame is the
      little-endian number in its last two bytes. */
  lemma ShownIsRaw(data: seq<byte>)
    requires |data| >= 2
    requires exists i :: 0 <= i < |Probes| && Probes[i].prefix == FramePrefix(data)
    ensures Handle(Probes, data)[1]
      == Shown(data[|data| - 2] as int + 256 * data[|data| - 1] as int)
  {
    ProbePrefixes();
    HandleReports(Probes, data);
    var line := Handle(Probes, data)[1];
    var i :| 0 <= i < |Probes| && Probes[i].prefix == FramePrefix(data)
      && NearestEven(RawValue(data), Probes[i].info.divisor, line.value);
    RoundRatioUnique(RawValue(data), 1, line.value);
    RoundRatioByOne(RawValue(data));
    RawValueBytes(data);
  }

  /** The answer to the mains-voltage probe carrying `E6 00` shows 230. */
  lemma MainsProbeExample()
    ensures Handle(Probes, [0xFF, 0xFF, 0xFF, 0x08, 0x0C, 0x01, 0xE6, 0x00])
      == [Hex([0xFF, 0xFF, 0xFF, 0x08, 0x0C, 0x01, 0xE6, 0x00]), Shown(230)]
  {
    var data: seq<byte> := [0xFF, 0xFF, 0xFF, 0x08, 0x0C, 0x01, 0xE6, 0x00];
    assert FramePrefix(data) == [0xFF, 0xFF, 0xFF, 0x08, 0x0C, 0x01];
    assert Probes[4].prefix == FramePrefix(data);
    ShownIsRaw(data);
    var lines := Handle(Probes, data);
    assert lines[1] == Shown(230);
    assert lines == [lines[0], lines[1]];
  }

  /** A frame whose prefix is in no table entry is reported as unknown. */
  lemma UnknownProbeExample()
    ensures Handle(Probes, [0xFF, 0xFF, 0xFF, 0x0A, 0x0C, 0x01, 0x00, 0x00])[1]
      == UnknownResponse([0xFF, 0xFF, 0xFF, 0x0A, 0x0C, 0x01, 0x00, 0x00])
  {
    var data: seq<byte> := [0xFF, 0xFF, 0xFF, 0x0A, 0x0C, 0x01, 0x00, 0x00];
    assert FramePrefix(data) == [0xFF, 0xFF, 0xFF, 0x0A, 0x0C, 0x01];
    NotAProbe([0xFF, 0xFF, 0xFF, 0x0A, 0x0C, 0x01]);
    HandleReports(Probes, data);
  }

  /** The opcode `FFFFFF0A0C01` falls between two table entries by rank, so
      no entry has it. */
  lemma NotAProbe(prefix: seq<byte>)
    requires prefix == [0xFF, 0xFF, 0xFF, 0x0A, 0x0C, 0x01]
    ensures forall i :: 0 <= i < |Probes| ==> Probes[i].prefix != prefix
  {
    assert Rank(prefix) == 0xFF0A;
    ProbeRanksIncrease();
    ProbePrefixes();
    var below, above := Rank(Probes[4].prefix), Rank(Probes[5].prefix);
    assert below == 0xFF08 && above == 0xFF0C;
    forall i | 0 <= i < |Probes|
      ensures Rank(Probes[i].prefix) != Rank(prefix)
    {
      if i < 4 {
        RanksOrdered(Probes, i, 4);
      } else if i > 5 {
        RanksOrdered(Probes, 5, i);
      }
    }
  }

  /** Everything printed for a sequence of notifications, in arrival order. */
  function Transcript(table: seq<Entry<Probe>>, frames: seq<seq<byte>>): (lines: seq<Line>)
    decreases |frames|
  {
    if |frames| == 0 then []
    else Transcript(table, frames[..|frames| - 1]) + Handle(table, frames[|frames| - 1])
  }

  /** The handler keeps nothing between calls: the lines for two batches of
      notifications are the lines for each batch, one after the other. */
  lemma {:induction false} TranscriptAppend(table: seq<Entry<Probe>>, a: seq<seq<byte>>, b: seq<seq<byte>>)
    ensures Transcript(table, a + b) == Transcript(table, a) + Transcript(table, b)
    decreases |b|
  {
    if |b| == 0 {
      assert a + b == a;
    } else {
      var init, last := b[..|b| - 1], b[|b| - 1];
      assert (a + b)[..|a + b| - 1] == a + init;
      assert (a + b)[|a + b| - 1] == last;
      TranscriptAppend(table, a, init);
      calc {
        Transcript(table, a + b);
        Transcript(table, a + init) + Handle(table, last);
        Transcript(table, a) + Transcript(table, init) + Handle(table, last);
        Transcript(table, a) + Transcript(table, b);
      }
    }
  }

  /** Each notification prints two lines: line `2 k` is frame `k` in hex and
      line `2 k + 1` is what the handler makes of frame `k`. */
  lemma {:induction false} TranscriptAt(table: seq<Entry<Probe>>, frames: seq<seq<byte>>)
    ensures |Transcript(table, frames)| == 2 * |frames|
    ensures forall k :: 0 <= k < |frames| ==>
      Transcript(table, frames)[2 * k] == Hex(frames[k])
      && Transcript(table, frames)[2 * k + 1] == Handle(table, frames[k])[1]
    decreases |frames|
  {
    if |frames| > 0 {
      var init := frames[..|frames| - 1];
      TranscriptAt(table, init);
      var last := Handle(table, frames[|frames| - 1]);
      assert Transcript(table, frames) == Transcript(table, init) + last;
      forall k | 0 <= k < |frames|
        ensures Transcript(table, frames)[2 * k] == Hex(frames[k])
        ensures Transcript(table, frames)[2 * k + 1] == Handle(table, frames[k])[1]
      {
        if k < |init| {
          assert frames[k] == init[k];
        }
      }
    }
  }

  // ---------------------------------------------------------------------------
  // The session

  /** How `main` ends: normally, by returning early, or by an exception. */
  datatype Exit = Completed | NotConnected | Raised

  datatype Session = Session(events: seq<Event>, lines: seq<Line>, exit: Exit)

  /** Leaving the client's context disconnects; an exception from that
      disconnect, or one already raised, ends the script with an exception. */
  function Leave(s: Script, normal: Exit): Exit
  {
    if s.disconnectRaises then Raised else normal
  }

  /** What one run of `main` issues and prints against the scripted
      transport. Connect raising leaves the context before it is entered;
      every later path leaves it and so disconnects. */
  function Expected(table: seq<Entry<Probe>>, s: Script): (r: Session)
  {
    if s.raisesAt == Some(ConnectCall) then Session([BleConnect], [], Raised)
    else if !s.connectedAfterConnect then
      Session([BleConnect, BleDisconnect], [NotConnectedNotice], Leave(s, NotConnected))
    else if s.raisesAt == Some(StartNotifyCall) then
      Session([BleConnect, BleStartNotify, BleDisconnect], [], Raised)
    else
      var x := Exchange(table, s);
      var raised := WritesCompleted(table, s) < |table| || s.raisesAt == Some(StopNotifyCall);
      Session([BleConnect, BleStartNotify] + x.events, x.lines, if raised then Raised else Leave(s, Completed))
  }

  datatype Part = Part(events: seq<Event>, lines: seq<Line>)

  /** From the first write on: the requests as far as they get, the settle
      wait and the unsubscribe when every write succeeds, then the
      disconnect; and the lines printed for what is heard meanwhile. */
  function Exchange(table: seq<Entry<Probe>>, s: Script): Part
  {
    var n := WritesCompleted(table, s);
    var heard := s.early + Delivered(s, n);
    if n < |table| then
      Part(WriteEvents(table, n) + [BleWrite(RequestFrame(table[n].prefix)), BleDisconnect],
           Transcript(table, heard))
    else
      Part(WriteEvents(table, n) + [Sleep(SettleWait), BleStopNotify, BleDisconnect],
           Transcript(table, heard + s.settle))
  }

  /** `main()` against the scripted transport. */
  method RunSession(table: seq<Entry<Probe>>, s: Script) returns (events: seq<Event>, lines: seq<Line>, exit: Exit)
    ensures Session(events, lines, exit) == Expected(table, s)
  {
    events := [BleConnect];
    lines := [];
    if s.raisesAt == Some(ConnectCall) {
      exit := Raised;
      return;
    }
    if !s.connectedAfterConnect {
      lines := lines + [NotConnectedNotice];
      events := events + [BleDisconnect];
      exit := Leave(s, NotConnected);
      return;
    }
    events := events + [BleStartNotify];
    if s.raisesAt == Some(StartNotifyCall) {
      events := events + [BleDisconnect];
      exit := Raised;
      return;
    }
    var rest;
    rest, lines := Communicate(table, s);
    events := events + rest;
    if WritesCompleted(table, s) < |table| || s.raisesAt == Some(StopNotifyCall) {
      exit := Raised;
    } else {
      exit := Leave(s, Completed);
    }
  }

  /** The body of the context after the subscription, and the disconnect that
      leaves it. */
  method Communicate(table: seq<Entry<Probe>>, s: Script) returns (events: seq<Event>, lines: seq<Line>)
    ensures Part(events, lines) == Exchange(table, s)
  {
    var heard, n;
    events, heard, n := WriteRequests(table, s);
    if n == |table| {
      heard := heard + s.settle;
      events := events + [Sleep(SettleWait), BleStopNotify, BleDisconnect];
    }
    lines := Transcript(table, heard);
  }

  /** The request loop: each request written and paced until one raises,
      which is followed by the disconnect; and the notifications heard
      meanwhile, starting with those that arrived during the subscription. */
  method WriteRequests(table: seq<Entry<Probe>>, s: Script) returns (events: seq<Event>, heard: seq<seq<byte>>, n: nat)
    ensures n == WritesCompleted(table, s)
    ensures events == WriteEvents(table, n)
      + (if n < |table| then [BleWrite(RequestFrame(table[n].prefix)), BleDisconnect] else [])
    ensures heard == s.early + Delivered(s, n)
  {
    events := [];
    heard := s.early;
    assert heard == s.early + Delivered(s, 0);
    n := 0;
    while n < |table|
      invariant n <= WritesCompleted(table, s)
      invariant events == WriteEvents(table, n)
      invariant heard == s.early + Delivered(s, n)
    {
      var request := RequestFrame(table[n].prefix);
      if s.raisesAt == Some(WriteCall(n)) {
        events := events + [BleWrite(request), BleDisconnect];
        return;
      }
      events := events + [BleWrite(request), Sleep(WritePause)];
      heard := heard + RepliesTo(s, n);
      n := n + 1;
    }
    assert events == WriteEvents(table, n) + [];
  }

  // ---------------------------------------------------------------------------
  // Properties of a session

  /** Once the client's context is entered it is left through a disconnect,
      whatever happens inside it; connect raising issues nothing else. */
  lemma AlwaysDisconnects(table: seq<Entry<Probe>>, s: Script)
    ensures var events := Expected(table, s).events;
      && events[0] == BleConnect
      && (s.raisesAt == Some(ConnectCall) <==> events == [BleConnect])
      && (s.raisesAt != Some(ConnectCall) ==> events[|events| - 1] == BleDisconnect)
  {
  }

  /** A client that is not connected after connecting is told so, and the
      script neither subscribes nor writes. */
  lemma NotConnectedReturns(table: seq<Entry<Probe>>, s: Script)
    requires s.raisesAt != Some(ConnectCall) && !s.connectedAfterConnect
    ensures var r := Expected(table, s);
      && BleStartNotify !in r.events
      && Writes(r.events) == []
      && r.lines == [NotConnectedNotice]
      && (r.exit == NotConnected <==> !s.disconnectRaises)
  {
    WritesNone(Expected(table, s).events);
  }

  /** A session in which nothing raises subscribes before the first write,
      writes every request once in table order, each followed by a 0.5 s
      pause, then waits 2 s and unsubscribes before disconnecting, and prints
      two lines for every notification heard. */
  lemma FullSession(table: seq<Entry<Probe>>, s: Script)
    requires s.raisesAt.None? && s.connectedAfterConnect && !s.disconnectRaises
    ensures var r := Expected(table, s);
      var heard := s.early + Delivered(s, |table|) + s.settle;
      && r.exit == Completed
      && r.events == [BleConnect, BleStartNotify] + WriteEvents(table, |table|)
                     + [Sleep(SettleWait), BleStopNotify, BleDisconnect]
      && r.events[..2] == [BleConnect, BleStartNotify]
      && Writes(r.events) == FullRequests(table)
      && r.events[|r.events| - 3..] == [Sleep(SettleWait), BleStopNotify, BleDisconnect]
      && r.lines == Transcript(table, heard)
      && |r.lines| == 2 * |heard|
  {
    var n := |table|;
    var head: seq<Event> := [BleConnect, BleStartNotify];
    var tail: seq<Event> := [Sleep(SettleWait), BleStopNotify, BleDisconnect];
    var heard := s.early + Delivered(s, n) + s.settle;
    assert Exchange(table, s) == Part(WriteEvents(table, n) + tail, Transcript(table, heard));
    assert Expected(table, s).events == head + WriteEvents(table, n) + tail;
    WritesOfCompleteSession(table);
    TranscriptAt(table, heard);
  }

  lemma WritesOfCompleteSession(table: seq<Entry<Probe>>)
    ensures Writes([BleConnect, BleStartNotify] + WriteEvents(table, |table|)
                   + [Sleep(SettleWait), BleStopNotify, BleDisconnect]) == FullRequests(table)
  {
    var head: seq<Event> := [BleConnect, BleStartNotify];
    var tail: seq<Event> := [Sleep(SettleWait), BleStopNotify, BleDisconnect];
    SessionEdgesWriteNothing();
    WritesAround(head, WriteEvents(table, |table|), tail);
    WritesOfAllRequests(table);
    assert FullRequests(table) + [] == FullRequests(table);
  }
  /** The steps before the first write and after the last write nothing. */
  lemma SessionEdgesWriteNothing()
    ensures Writes([BleConnect, BleStartNotify]) == []
    ensures Writes([Sleep(SettleWait), BleStopNotify, BleDisconnect]) == []
  {
    WritesNone([BleConnect, BleStartNotify]);
    WritesNone([Sleep(SettleWait), BleStopNotify, BleDisconnect]);
  }


  /** Request `k` failing to be written still leaves the context through a
      disconnect, after the requests before it and the failing write. */
  lemma WriteFailureSession(table: seq<Entry<Probe>>, s: Script, k: nat)
    requires s.connectedAfterConnect && s.raisesAt == Some(WriteCall(k)) && k < |table|
    ensures var r := Expected(table, s);
      && r.exit == Raised
      && Writes(r.events) == FullRequests(table)[..k + 1]
      && r.events[|r.events| - 1] == BleDisconnect
      && BleStopNotify !in r.events
  {
    FailingSessionShape(table, s, k);
    WritesOfFailingSession(table, k);
    NoStopNotifyAfterFailure(table, k);
  }

  /** A session whose write `k` raises never unsubscribes and ends with the
      disconnect. */
  lemma NoStopNotifyAfterFailure(table: seq<Entry<Probe>>, k: nat)
    requires k < |table|
    ensures var events := [BleConnect, BleStartNotify] + (WriteEvents(table, k)
                          + [BleWrite(RequestFrame(table[k].prefix)), BleDisconnect]);
      BleStopNotify !in events && events[|events| - 1] == BleDisconnect
  {
    var tail := [BleWrite(RequestFrame(table[k].prefix)), BleDisconnect];
    WriteEventsOnlyWrites(table, k);
    assert BleStopNotify !in WriteEvents(table, k);
    assert BleStopNotify !in WriteEvents(table, k) + tail;
  }

  lemma FailingSessionShape(table: seq<Entry<Probe>>, s: Script, k: nat)
    requires s.connectedAfterConnect && s.raisesAt == Some(WriteCall(k)) && k < |table|
    ensures Expected(table, s)
      == Session([BleConnect, BleStartNotify] + (WriteEvents(table, k)
                 + [BleWrite(RequestFrame(table[k].prefix)), BleDisconnect]),
                 Transcript(table, s.early + Delivered(s, k)), Raised)
  {
    assert WritesCompleted(table, s) == k;
  }

  /** A session whose write `k` raises has written requests 0 to `k`. */
  lemma WritesOfFailingSession(table: seq<Entry<Probe>>, k: nat)
    requires k < |table|
    ensures Writes([BleConnect, BleStartNotify] + (WriteEvents(table, k)
                   + [BleWrite(RequestFrame(table[k].prefix)), BleDisconnect]))
      == FullRequests(table)[..k + 1]
  {
    var head: seq<Event> := [BleConnect, BleStartNotify];
    var frame := RequestFrame(table[k].prefix);
    var tail: seq<Event> := [BleWrite(frame), BleDisconnect];
    assert head + (WriteEvents(table, k) + tail) == head + WriteEvents(table, k) + tail;
    WritesNone(head);
    WritesAround(head, WriteEvents(table, k), tail);
    WritesOfWriteEvents(table, k);
    WritesOfFailingPair(frame);
    FullRequestsSnoc(table, k);
  }

  lemma WritesOfFailingPair(frame: seq<byte>)
    ensures Writes([BleWrite(frame), BleDisconnect]) == [frame]
  {
    var pair := [BleWrite(frame), BleDisconnect];
    assert pair[..1] == [BleWrite(frame)];
    WritesSingle(BleWrite(frame));
  }
}
