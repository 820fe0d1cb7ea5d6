/**
  The bridge's sensor table: six opcode prefixes, in the order the poll cycle
  requests them, each with its display name, divisor, unit and device class.
*/
module Registry {
  import opened Frames
  import opened Scaling

  datatype SensorInfo = SensorInfo(name: string, divisor: Divisor, unit: string, deviceClass: string)

  const Sensors: seq<Entry<SensorInfo>> := [
    Entry([0xFF, 0xFF, 0xFF, 0x08, 0x0C, 0x01], SensorInfo("Mains Voltage", 10, "V", "voltage")),
    Entry([0xFF, 0xFF, 0xFF, 0x06, 0x0C, 0x01], SensorInfo("Battery Voltage", 100, "V", "voltage")),
    Entry([0xFF, 0xFF, 0xFF, 0x10, 0x0C, 0x01], SensorInfo("Charge Current", 10, "A", "current")),
    Entry([0xFF, 0xFF, 0xFF, 0x0C, 0x0C, 0x01], SensorInfo("Discharge Current", 10, "A", "current")),
    Entry([0xFF, 0xFF, 0xFF, 0x2C, 0x0C, 0x01], SensorInfo("Load Percentage", 1, "%", "power_factor")),
    Entry([0xFF, 0xFF, 0xFF, 0x3C, 0x0C, 0x01], SensorInfo("Battery Charge Level", 297, "%", "battery"))
  ]

  /** No two entries carry the same name. */
  ghost predicate UniqueNames(table: seq<Entry<SensorInfo>>)
  {
    forall i, j :: 0 <= i < j < |table| ==> table[i].info.name != table[j].info.name
  }

  /** The registry has six entries with distinct six-byte prefixes and
      distinct names, and its divisors are 10, 100, 10, 10, 1 and 297. */
  lemma SensorsWellFormed()
    ensures |Sensors| == 6
    ensures WellFormed(Sensors)
    ensures UniqueNames(Sensors)
    ensures forall i :: 0 <= i < |Sensors| ==> Sensors[i].info.divisor > 0
    ensures Divisors(Sensors) == [10, 100, 10, 10, 1, 297]
  {
    SensorPrefixes();
    SensorNames();
  }

  /** The six prefixes are six bytes long and pairwise distinct. */
  lemma SensorPrefixes()
    ensures WellFormed(Sensors)
  {
  }

  /** The six names are pairwise distinct. */
  lemma SensorNames()
    ensures UniqueNames(Sensors)
  {
    var names := seq(|Sensors|, i requires 0 <= i < |Sensors| => Sensors[i].info.name);
    assert names == ["Mains Voltage", "Battery Voltage", "Charge Current",
                     "Discharge Current", "Load Percentage", "Battery Charge Level"];
    forall i, j | 0 <= i < j < |Sensors| ensures Sensors[i].info.name != Sensors[j].info.name {
      assert names[i] == Sensors[i].info.name && names[j] == Sensors[j].info.name;
      DistinctLiterals(names, i, j);
    }
  }

  lemma DistinctLiterals(names: seq<string>, i: nat, j: nat)
    requires names == ["Mains Voltage", "Battery Voltage", "Charge Current",
                       "Discharge Current", "Load Percentage", "Battery Charge Level"]
    requires i < j < |names|
    ensures names[i] != names[j]
  {
    if |names[i]| == |names[j]| {
      // only "Battery Voltage" and "Load Percentage" share a length
      assert names[i][0] != names[j][0];
    }
  }

  function Divisors(table: seq<Entry<SensorInfo>>): (ds: seq<int>)
    ensures |ds| == |table|
  {
    seq(|table|, i requires 0 <= i < |table| => table[i].info.divisor as int)
  }
}
