/**
  The decoding half of the bridge's notification handler: the first six bytes
  of a notification select a registry entry; the last two bytes give the raw
  value, which is divided by the entry's divisor and kept to two decimals.
  Values are integers counting hundredths (1013 stands for 10.13).
*/
module Readings {
  import opened Wrappers
  import opened Frames
  import opened Scaling
  import opened Registry

  datatype Decoded =
    | Known(name: string, raw: nat, hundredths: nat)
    | Unknown(data: seq<byte>)

  /** `round(raw / divisor, 2)`, counted in hundredths. */
  function Hundredths(raw: nat, divisor: Divisor): (h: nat)
    ensures NearestEven(raw * 100, divisor, h)
  {
    RoundRatio(raw * 100, divisor)
  }

  /** What the handler makes of one notification. */
  function Decode(table: seq<Entry<SensorInfo>>, data: seq<byte>): (d: Decoded)
    ensures d.Known? <==> exists i :: 0 <= i < |table| && table[i].prefix == FramePrefix(data)
    ensures d.Unknown? ==> d.data == data
    ensures d.Known? ==> d.raw < 0x1_0000 && d.raw == RawValue(data)
    ensures d.Known? ==>
      exists i :: 0 <= i < |table| && table[i].prefix == FramePrefix(data)
        && d.name == table[i].info.name
        && NearestEven(d.raw * 100, table[i].info.divisor, d.hundredths)
  {
    match Find(table, FramePrefix(data))
    case None => Unknown(data)
    case Some(i) =>
      var info := table[i].info;
      RawValueBytes(data);
      Known(info.name, RawValue(data), Hundredths(RawValue(data), info.divisor))
  }

  /** A response made of entry `i`'s prefix and any further bytes ending in
      `lo`, `hi` decodes to entry `i`'s name and the value `lo + 256 * hi`
      scaled by entry `i`'s divisor. */
  lemma DecodeResponse(table: seq<Entry<SensorInfo>>, i: nat, middle: seq<byte>, lo: byte, hi: byte)
    requires WellFormed(table) && i < |table|
    ensures var raw := lo as int + 256 * hi as int;
      Decode(table, table[i].prefix + middle + [lo, hi])
        == Known(table[i].info.name, raw, Hundredths(raw, table[i].info.divisor))
  {
    var data := table[i].prefix + middle + [lo, hi];
    assert FramePrefix(data) == table[i].prefix;
    LookupEntry(table, i);
    RawValueBytes(data);
  }

  /** A frame whose first six bytes are registered is read from its last two
      bytes, whatever its length. */
  lemma DecodeRegisteredFrame(table: seq<Entry<SensorInfo>>, data: seq<byte>)
    requires WellFormed(table)
    requires Decode(table, data).Known?
    ensures |data| >= PrefixLength
    ensures Decode(table, data).raw == data[|data| - 2] as int + 256 * data[|data| - 1] as int
  {
    RegisteredFrameLength(table, data);
    RawValueBytes(data);
  }

  /** Mains voltage, divisor 10: trailing bytes 64 00 (100) read as 10.00 V. */
  lemma MainsVoltageExample()
    ensures Decode(Sensors, [0xFF, 0xFF, 0xFF, 0x08, 0x0C, 0x01, 0x64, 0x00])
      == Known("Mains Voltage", 100, 1000)
  {
    var frame: seq<byte> := [0xFF, 0xFF, 0xFF, 0x08, 0x0C, 0x01, 0x64, 0x00];
    var entry := Sensors[0];
    assert entry.info == SensorInfo("Mains Voltage", 10, "V", "voltage");
    assert entry.prefix + [] + [0x64, 0x00] == frame;
    SensorPrefixes();
    DecodeResponse(Sensors, 0, [], 0x64, 0x00);
    assert Hundredths(100, 10) == 1000 by { RoundRatioUnique(100 * 100, 10, 1000); }
  }

  /** Battery charge level, divisor 297: trailing bytes 30 75 (30000) read as
      101.01 %, above one hundred. */
  lemma BatteryChargeExample()
    ensures Decode(Sensors, [0xFF, 0xFF, 0xFF, 0x3C, 0x0C, 0x01, 0x30, 0x75])
      == Known("Battery Charge Level", 30000, 10101)
  {
    var frame: seq<byte> := [0xFF, 0xFF, 0xFF, 0x3C, 0x0C, 0x01, 0x30, 0x75];
    var entry := Sensors[5];
    assert entry.info == SensorInfo("Battery Charge Level", 297, "%", "battery");
    assert entry.prefix + [] + [0x30, 0x75] == frame;
    SensorPrefixes();
    DecodeResponse(Sensors, 5, [], 0x30, 0x75);
    assert 0x30 as int + 256 * 0x75 as int == 30000;
    FullChargeScaling();
  }

  /** 30000 / 297 = 101.0101..., which rounds to 101.01. */
  lemma FullChargeScaling()
    ensures Hundredths(30000, 297) == 10101
  {
    RoundRatioUnique(30000 * 100, 297, 10101);
  }

  /** A response to a prefix the bridge does not request is reported, not decoded. */
  lemma UnregisteredExample()
    ensures Decode(Sensors, [0xFF, 0x01, 0x00, 0x34, 0x0C, 0x00, 0x01, 0x00]).Unknown?
  {
    var data: seq<byte> := [0xFF, 0x01, 0x00, 0x34, 0x0C, 0x00, 0x01, 0x00];
    assert FramePrefix(data) == [0xFF, 0x01, 0x00, 0x34, 0x0C, 0x00];
    forall i | 0 <= i < |Sensors| ensures Sensors[i].prefix != FramePrefix(data) {
      assert Sensors[i].prefix[1] != FramePrefix(data)[1];
    }
  }
}
