/**
  The wire format shared by the bridge and the diagnostic script: a request
  frame is a 6-byte opcode prefix followed by the terminator FF FF; a response
  is read as its first six bytes (the prefix) and its last two bytes (a
  little-endian unsigned value). A registry is an insertion-ordered table from
  prefix to some per-sensor information, as a Python dict literal is.
*/
module Frames {
  import opened Wrappers

  type byte = b: int | 0 <= b < 256

  const PrefixLength: nat := 6
  const Terminator: seq<byte> := [0xFF, 0xFF]

  /** One registry entry: an opcode prefix and what is known about it. */
  datatype Entry<V> = Entry(prefix: seq<byte>, info: V)

  /** A registry that can stand for a dict keyed by prefix: every prefix is
      six bytes long and no prefix occurs twice. */
  ghost predicate WellFormed<V>(table: seq<Entry<V>>)
  {
    && (forall i :: 0 <= i < |table| ==> |table[i].prefix| == PrefixLength)
    && (forall i, j :: 0 <= i < j < |table| ==> table[i].prefix != table[j].prefix)
  }

  // ---------------------------------------------------------------------------
  // Requests

  /** `prefix + b'\xFF\xFF'` */
  function RequestFrame(prefix: seq<byte>): (frame: seq<byte>)
    ensures |frame| == |prefix| + 2
    ensures frame[..|prefix|] == prefix
    ensures frame[|prefix|] == 0xFF && frame[|prefix| + 1] == 0xFF
  {
    prefix + Terminator
  }

  /** Drops the two terminator bytes of a request frame. */
  function StripTerminator(frame: seq<byte>): (prefix: seq<byte>)
    requires |frame| >= 2
    ensures |prefix| == |frame| - 2
  {
    frame[..|frame| - 2]
  }

  lemma RequestRoundTrip(prefix: seq<byte>)
    ensures StripTerminator(RequestFrame(prefix)) == prefix
    ensures |prefix| == PrefixLength ==> |RequestFrame(prefix)| == 8
  {
    assert RequestFrame(prefix)[..|prefix|] == prefix;
  }

  /** `{prefix: prefix + FF FF for prefix in sensor_requests}`: the request
      frames, built in registry order, one per entry. */
  function FullRequests<V>(table: seq<Entry<V>>): seq<seq<byte>>
  {
    seq(|table|, i requires 0 <= i < |table| => RequestFrame(table[i].prefix))
  }

  lemma FullRequestsSnoc<V>(table: seq<Entry<V>>, k: nat)
    requires k < |table|
    ensures FullRequests(table)[..k + 1] == FullRequests(table)[..k] + [RequestFrame(table[k].prefix)]
  {
    var frames := FullRequests(table);
    assert frames[..k + 1] == frames[..k] + [frames[k]];
  }

  /** In a well-formed registry each request frame is eight bytes, gives back
      its entry's prefix once the terminator is dropped, and no two entries
      share a frame, so there is exactly one frame per entry. */
  lemma FullRequestsOnePerEntry<V>(table: seq<Entry<V>>)
    requires WellFormed(table)
    ensures |FullRequests(table)| == |table|
    ensures forall i :: 0 <= i < |table| ==>
      |FullRequests(table)[i]| == 8 && StripTerminator(FullRequests(table)[i]) == table[i].prefix
    ensures forall i, j :: 0 <= i < j < |table| ==> FullRequests(table)[i] != FullRequests(table)[j]
  {
    var frames := FullRequests(table);
    forall i | 0 <= i < |table|
      ensures |frames[i]| == 8 && StripTerminator(frames[i]) == table[i].prefix
    {
      RequestRoundTrip(table[i].prefix);
    }
    forall i, j | 0 <= i < j < |table| ensures frames[i] != frames[j] {
      RequestRoundTrip(table[i].prefix);
      RequestRoundTrip(table[j].prefix);
    }
  }

  // ---------------------------------------------------------------------------
  // Responses

  /** `data[:6]`: the first six bytes, or all of a shorter frame. */
  function FramePrefix(data: seq<byte>): (p: seq<byte>)
    ensures |p| == if |data| < PrefixLength then |data| else PrefixLength
    ensures p <= data
  {
    if |data| < PrefixLength then data else data[..PrefixLength]
  }

  /** `data[-2:]`: the last two bytes, or all of a shorter frame. */
  function ValueBytes(data: seq<byte>): (v: seq<byte>)
    ensures |v| == if |data| < 2 then |data| else 2
    ensures |data| >= 2 ==> v == data[|data| - 2..]
    ensures |data| < 2 ==> v == data
  {
    if |data| < 2 then data else data[|data| - 2..]
  }

  /** `int.from_bytes(bs, "little")` */
  function LittleEndian(bs: seq<byte>): nat
  {
    if |bs| == 0 then 0 else bs[0] + 256 * LittleEndian(bs[1..])
  }

  lemma {:induction false} LittleEndianBound(bs: seq<byte>)
    ensures LittleEndian(bs) < Pow256(|bs|)
  {
    if |bs| > 0 {
      LittleEndianBound(bs[1..]);
    }
  }

  function Pow256(n: nat): (p: nat)
    ensures p > 0
  {
    if n == 0 then 1 else 256 * Pow256(n - 1)
  }

  /** The unsigned little-endian value carried in the last two bytes. */
  function RawValue(data: seq<byte>): nat
  {
    LittleEndian(ValueBytes(data))
  }

  /** The raw value always fits in 16 bits, and for a frame of at least two bytes
      it is `data[n-2] + 256 * data[n-1]`. */
  lemma RawValueBytes(data: seq<byte>)
    ensures RawValue(data) < 0x1_0000
    ensures |data| >= 2 ==> RawValue(data) == data[|data| - 2] as int + 256 * data[|data| - 1] as int
  {
    LittleEndianBound(ValueBytes(data));
    if |data| >= 2 {
      var v := ValueBytes(data);
      assert v[1..][1..] == [];
    } else if |data| == 1 {
      assert ValueBytes(data)[1..] == [];
    }
  }

  // ---------------------------------------------------------------------------
  // Lookup

  /** The position of the first entry whose prefix is `prefix`, if any. */
  function Find<V>(table: seq<Entry<V>>, prefix: seq<byte>): (r: Option<nat>)
    ensures r.Some? ==> r.value < |table| && table[r.value].prefix == prefix
    ensures r.Some? ==> forall j :: 0 <= j < r.value ==> table[j].prefix != prefix
    ensures r.None? <==> forall j :: 0 <= j < |table| ==> table[j].prefix != prefix
  {
    if |table| == 0 then None
    else if table[0].prefix == prefix then Some(0)
    else match Find(table[1..], prefix)
      case None => None
      case Some(j) => Some(j + 1)
  }

  /** `prefix in table` followed by `table[prefix]`. */
  function Lookup<V>(table: seq<Entry<V>>, prefix: seq<byte>): (r: Option<V>)
    ensures r.Some? <==> exists i :: 0 <= i < |table| && table[i].prefix == prefix
  {
    match Find(table, prefix)
    case None => None
    case Some(i) => Some(table[i].info)
  }

  /** In a well-formed registry a prefix finds exactly its own entry. */
  lemma LookupEntry<V>(table: seq<Entry<V>>, i: nat)
    requires WellFormed(table) && i < |table|
    ensures Find(table, table[i].prefix) == Some(i)
    ensures Lookup(table, table[i].prefix) == Some(table[i].info)
  {
  }

  /** A frame whose prefix is registered is at least six bytes long, so its
      value bytes are its last two. */
  lemma RegisteredFrameLength<V>(table: seq<Entry<V>>, data: seq<byte>)
    requires WellFormed(table)
    requires Lookup(table, FramePrefix(data)).Some?
    ensures |data| >= PrefixLength
    ensures FramePrefix(data) == data[..PrefixLength]
  {
    var i := Find(table, FramePrefix(data)).value;
    assert |table[i].prefix| == PrefixLength;
  }
}
