/**
  The bridge's `received_data`: a dict from sensor name to its latest value,
  written by the notification handler (last write wins), cleared once per
  connected cycle and read, in insertion order, when values are published.
*/
module Accumulator {
  import opened Frames
  import opened Registry
  import opened Readings

  /** The dict's keys in insertion order, and the value under each key. */
  datatype Received = Received(keys: seq<string>, values: map<string, nat>)

  const Empty := Received([], map[])

  /** The keys are listed once each and are exactly the keys of the map. */
  ghost predicate Consistent(r: Received)
  {
    && (forall i, j :: 0 <= i < j < |r.keys| ==> r.keys[i] != r.keys[j])
    && (forall k :: k in r.values <==> k in r.keys)
  }

  /** `received_data[name] = value`: a new key goes to the end, an existing key
      keeps its place and has its value replaced. */
  function Put(r: Received, name: string, value: nat): (r': Received)
    requires Consistent(r)
    ensures Consistent(r')
    ensures r'.values == r.values[name := value]
    ensures r.keys <= r'.keys
    ensures name in r.values ==> r'.keys == r.keys
  {
    if name in r.values then Received(r.keys, r.values[name := value])
    else Received(r.keys + [name], r.values[name := value])
  }

  /** The handler applied to one notification. */
  function Absorb(table: seq<Entry<SensorInfo>>, r: Received, data: seq<byte>): (r': Received)
    requires Consistent(r)
    ensures Consistent(r')
  {
    match Decode(table, data)
    case Known(name, _, hundredths) => Put(r, name, hundredths)
    case Unknown(_) => r
  }

  /** The handler applied to each notification of `frames` in turn. */
  function AbsorbAll(table: seq<Entry<SensorInfo>>, r: Received, frames: seq<seq<byte>>): (r': Received)
    requires Consistent(r)
    ensures Consistent(r')
    decreases |frames|
  {
    if |frames| == 0 then r
    else Absorb(table, AbsorbAll(table, r, frames[..|frames| - 1]), frames[|frames| - 1])
  }

  /** Handling a batch and then another is handling their concatenation. */
  lemma {:induction false} AbsorbAllAppend(table: seq<Entry<SensorInfo>>, r: Received, a: seq<seq<byte>>, b: seq<seq<byte>>)
    requires Consistent(r)
    ensures AbsorbAll(table, r, a + b) == AbsorbAll(table, AbsorbAll(table, r, a), b)
    decreases |b|
  {
    if |b| == 0 {
      assert a + b == a;
    } else {
      var init, last := b[..|b| - 1], b[|b| - 1];
      assert (a + b)[..|a + b| - 1] == a + init;
      assert (a + b)[|a + b| - 1] == last;
      AbsorbAllAppend(table, r, a, init);
      calc {
        AbsorbAll(table, r, a + b);
        Absorb(table, AbsorbAll(table, r, a + init), last);
        Absorb(table, AbsorbAll(table, AbsorbAll(table, r, a), init), last);
        AbsorbAll(table, AbsorbAll(table, r, a), b);
      }
    }
  }

  /** A notification with an unregistered prefix leaves the dict unchanged. */
  lemma AbsorbUnknown(table: seq<Entry<SensorInfo>>, r: Received, data: seq<byte>)
    requires Consistent(r)
    requires forall i :: 0 <= i < |table| ==> table[i].prefix != FramePrefix(data)
    ensures Absorb(table, r, data) == r
  {
  }

  /** A registered notification sets its own sensor's entry to the decoded
      value and changes no other entry and no other key's position. */
  lemma AbsorbKnown(table: seq<Entry<SensorInfo>>, r: Received, data: seq<byte>, i: nat)
    requires Consistent(r) && WellFormed(table)
    requires i < |table| && table[i].prefix == FramePrefix(data)
    ensures var r' := Absorb(table, r, data); var name := table[i].info.name;
      && name in r'.values
      && r'.values[name] == Hundredths(RawValue(data), table[i].info.divisor)
      && (forall k :: k != name ==> (k in r'.values <==> k in r.values))
      && (forall k :: k != name && k in r.values ==> r'.values[k] == r.values[k])
      && r.keys <= r'.keys
  {
    LookupEntry(table, i);
  }

  /** Last write wins: after a batch, a sensor's value is the one decoded from
      the last notification in the batch that names it. */
  lemma {:induction false} LastWriteWins(table: seq<Entry<SensorInfo>>, r: Received, frames: seq<seq<byte>>, j: nat)
    requires Consistent(r)
    requires j < |frames| && Decode(table, frames[j]).Known?
    requires forall k :: j < k < |frames| ==>
      !(Decode(table, frames[k]).Known? && Decode(table, frames[k]).name == Decode(table, frames[j]).name)
    ensures var name := Decode(table, frames[j]).name;
      name in AbsorbAll(table, r, frames).values
      && AbsorbAll(table, r, frames).values[name] == Decode(table, frames[j]).hundredths
    decreases |frames|
  {
    if j < |frames| - 1 {
      var init := frames[..|frames| - 1];
      assert init[j] == frames[j];
      forall k | j < k < |init|
        ensures !(Decode(table, init[k]).Known? && Decode(table, init[k]).name == Decode(table, init[j]).name)
      {
        assert init[k] == frames[k];
      }
      LastWriteWins(table, r, init, j);
    }
  }

  /** Two responses for the same prefix: the dict keeps the second. */
  lemma SecondResponseOverwrites(table: seq<Entry<SensorInfo>>, r: Received, first: seq<byte>, second: seq<byte>)
    requires Consistent(r)
    requires FramePrefix(first) == FramePrefix(second)
    requires Decode(table, second).Known?
    ensures var name := Decode(table, second).name;
      AbsorbAll(table, r, [first, second]).values[name] == Decode(table, second).hundredths
  {
    LastWriteWins(table, r, [first, second], 1);
  }

  /** The notification decodes to a value for sensor `name`. */
  predicate Reports(table: seq<Entry<SensorInfo>>, data: seq<byte>, name: string)
  {
    Decode(table, data).Known? && Decode(table, data).name == name
  }

  /** A name is in the snapshot after a batch exactly when it was there
      before or some notification of the batch is a registered response
      that names it. */
  lemma {:induction false} AbsorbAllKeys(table: seq<Entry<SensorInfo>>, r: Received, frames: seq<seq<byte>>)
    requires Consistent(r)
    ensures forall k :: k in AbsorbAll(table, r, frames).values <==>
      (k in r.values || exists j :: 0 <= j < |frames| && Reports(table, frames[j], k))
    decreases |frames|
  {
    if |frames| > 0 {
      var init, last := frames[..|frames| - 1], frames[|frames| - 1];
      var mid := AbsorbAll(table, r, init);
      assert AbsorbAll(table, r, frames) == Absorb(table, mid, last);
      AbsorbAllKeys(table, r, init);
      AbsorbKeys(table, mid, last);
      forall k
        ensures (exists j :: 0 <= j < |frames| && Reports(table, frames[j], k))
            <==> (exists j :: 0 <= j < |init| && Reports(table, init[j], k)) || Reports(table, last, k)
      {
        ExistsSplit(frames, f => Reports(table, f, k));
      }
    }
  }

  /** Some element of a non-empty sequence satisfies `p` exactly when one
      before the last does, or the last does. */
  lemma ExistsSplit<T>(xs: seq<T>, p: T -> bool)
    requires |xs| > 0
    ensures var init := xs[..|xs| - 1];
      (exists j :: 0 <= j < |xs| && p(xs[j]))
        <==> (exists j :: 0 <= j < |init| && p(init[j])) || p(xs[|xs| - 1])
  {
    var init := xs[..|xs| - 1];
    if j :| 0 <= j < |xs| && p(xs[j]) {
      if j < |init| {
        assert init[j] == xs[j];
      }
    }
    if j :| 0 <= j < |init| && p(init[j]) {
      assert xs[j] == init[j];
    }
  }

  /** One notification adds the name it reports, if any, and keeps the rest. */
  lemma AbsorbKeys(table: seq<Entry<SensorInfo>>, r: Received, data: seq<byte>)
    requires Consistent(r)
    ensures forall k :: k in Absorb(table, r, data).values <==> k in r.values || Reports(table, data, k)
  {
  }

  /** The dict, as the handler and the poll cycle change it in place. */
  class ReceivedData {
    var keys: seq<string>
    var values: map<string, nat>

    ghost function Contents(): Received
      reads this
    {
      Received(keys, values)
    }

    ghost predicate Valid()
      reads this
    {
      Consistent(Contents())
    }

    constructor ()
      ensures Valid() && Contents() == Empty
    {
      keys, values := [], map[];
    }

    /** `received_data.clear()` */
    method Clear()
      modifies this
      ensures Valid() && Contents() == Empty
    {
      keys, values := [], map[];
    }

    /** `notification_handler(sender, data)` */
    method Handle(table: seq<Entry<SensorInfo>>, data: seq<byte>)
      requires Valid()
      modifies this
      ensures Valid() && Contents() == Absorb(table, old(Contents()), data)
    {
      var d := Decode(table, data);
      if d.Known? {
        if d.name !in values {
          keys := keys + [d.name];
        }
        values := values[d.name := d.hundredths];
      }
    }

    /** The handler called once per notification, in arrival order. */
    method HandleAll(table: seq<Entry<SensorInfo>>, frames: seq<seq<byte>>)
      requires Valid()
      modifies this
      ensures Valid() && Contents() == AbsorbAll(table, old(Contents()), frames)
    {
      for n := 0 to |frames|
        invariant Valid() && Contents() == AbsorbAll(table, old(Contents()), frames[..n])
      {
        assert frames[..n + 1][..n] == frames[..n];
        Handle(table, frames[n]);
      }
      assert frames[..|frames|] == frames;
    }
  }
}
