/**
  Bus topics and the discovery messages the bridge publishes so that the
  home-automation platform can configure one sensor per registry entry and
  one connectivity sensor for the device's availability. Payloads are
  records; their JSON text is not modelled.
*/
module Topics {
  import opened Frames
  import opened Registry

  const TopicPrefix: string := "home/ups"
  const AvailabilityTopic: string := "home/ups/status"
  const StatusDiscoveryTopic: string := "homeassistant/binary_sensor/home_ups_status/config"

  datatype DeviceInfo = DeviceInfo(identifiers: seq<string>, name: string, manufacturer: string, model: string)

  const Device := DeviceInfo(["home-ups"], "Home UPS", "V-Guard", "SOLSMART 1450")

  datatype Payload =
    | Text(text: string)
    | Number(hundredths: nat)
    | SensorConfig(name: string, stateTopic: string, unit: string, deviceClass: string,
                   stateClass: string, uniqueId: string, device: DeviceInfo)
    | StatusConfig(name: string, stateTopic: string, payloadOn: string, payloadOff: string,
                   deviceClass: string, uniqueId: string, device: DeviceInfo)

  datatype Message = Message(topic: string, payload: Payload, retain: bool)

  // ---------------------------------------------------------------------------
  // Keys

  predicate IsUpper(c: char) { 'A' <= c <= 'Z' }

  /** `s.replace(" ", "_")` */
  function SpacesToUnderscores(s: string): string
  {
    seq(|s|, i requires 0 <= i < |s| => if s[i] == ' ' then '_' else s[i])
  }

  /** `s.lower()` on ASCII letters */
  function Lower(s: string): string
  {
    seq(|s|, i requires 0 <= i < |s| => if IsUpper(s[i]) then (s[i] as int + 32) as char else s[i])
  }

  /** `name.replace(" ", "_").lower()`: the measurement key. */
  function Key(name: string): string
  {
    Lower(SpacesToUnderscores(name))
  }

  /** A key has the length of its name, contains neither spaces nor upper-case
      letters, and normalising it again changes nothing. */
  lemma KeyNormal(name: string)
    ensures |Key(name)| == |name|
    ensures forall i :: 0 <= i < |name| ==> Key(name)[i] != ' ' && !IsUpper(Key(name)[i])
    ensures forall i :: 0 <= i < |name| && name[i] != ' ' && !IsUpper(name[i]) ==> Key(name)[i] == name[i]
    ensures Key(Key(name)) == Key(name)
  {
  }

  function StateTopic(name: string): string
  {
    TopicPrefix + "/" + Key(name)
  }

  function DiscoveryTopic(name: string): string
  {
    "homeassistant/sensor/home_ups_" + Key(name) + "/config"
  }

  function UniqueId(name: string): string
  {
    "home_ups_" + Key(name)
  }

  // ---------------------------------------------------------------------------
  // Discovery

  /** The retained config message for one sensor. */
  function SensorDiscovery(info: SensorInfo): Message
  {
    Message(DiscoveryTopic(info.name),
            SensorConfig(info.name, StateTopic(info.name), info.unit, info.deviceClass,
                         "measurement", UniqueId(info.name), Device),
            true)
  }

  /** The retained config message for the availability signal. */
  const StatusDiscovery: Message :=
    Message(StatusDiscoveryTopic,
            StatusConfig("UPS Availability", AvailabilityTopic, "online", "offline",
                         "connectivity", "home_ups_status", Device),
            true)

  /** Everything one call of the discovery routine publishes, in order. */
  function Discovery(table: seq<Entry<SensorInfo>>): (msgs: seq<Message>)
  {
    seq(|table|, i requires 0 <= i < |table| => SensorDiscovery(table[i].info)) + [StatusDiscovery]
  }

  /** `publish_discovery_configs()`: the returned sequence is what it publishes. */
  method PublishDiscoveryConfigs(table: seq<Entry<SensorInfo>>) returns (published: seq<Message>)
    ensures |published| == |table| + 1
    ensures forall i :: 0 <= i < |table| ==> published[i] == SensorDiscovery(table[i].info)
    ensures published[|table|] == StatusDiscovery
    ensures published == Discovery(table)
  {
    published := [];
    for i := 0 to |table|
      invariant |published| == i
      invariant forall j :: 0 <= j < i ==> published[j] == SensorDiscovery(table[j].info)
    {
      var info := table[i].info;
      published := published + [SensorDiscovery(info)];
    }
    published := published + [StatusDiscovery];
  }

  /** The broker's connect callback: discovery is sent on every connect whose
      result code is 0, and nothing is sent otherwise. */
  method OnConnect(table: seq<Entry<SensorInfo>>, rc: int) returns (published: seq<Message>)
    ensures rc == 0 ==> published == Discovery(table)
    ensures rc != 0 ==> published == []
  {
    if rc == 0 {
      published := PublishDiscoveryConfigs(table);
    } else {
      published := [];
    }
  }

  /** Every discovery message is retained; the sensor messages come first, in
      registry order, each at its sensor's discovery topic and announcing its
      sensor's state topic; the availability record comes last. */
  lemma DiscoveryShape(table: seq<Entry<SensorInfo>>)
    ensures |Discovery(table)| == |table| + 1
    ensures forall m :: m in Discovery(table) ==> m.retain
    ensures forall i :: 0 <= i < |table| ==>
      && Discovery(table)[i].topic == DiscoveryTopic(table[i].info.name)
      && Discovery(table)[i].payload.SensorConfig?
      && Discovery(table)[i].payload.stateTopic == StateTopic(table[i].info.name)
      && Discovery(table)[i].payload.uniqueId == UniqueId(table[i].info.name)
    ensures Discovery(table)[|table|].topic == StatusDiscoveryTopic
    ensures Discovery(table)[|table|].payload.stateTopic == AvailabilityTopic
  {
  }

  /** The six keys of the registry, in order. */
  lemma SensorKeys()
    ensures |Sensors| == 6
    ensures Key(Sensors[0].info.name) == "mains_voltage"
    ensures Key(Sensors[1].info.name) == "battery_voltage"
    ensures Key(Sensors[2].info.name) == "charge_current"
    ensures Key(Sensors[3].info.name) == "discharge_current"
    ensures Key(Sensors[4].info.name) == "load_percentage"
    ensures Key(Sensors[5].info.name) == "battery_charge_level"
  {
    VoltageKeys();
    CurrentKeys();
    LevelKeys();
  }

  lemma VoltageKeys()
    ensures Key("Mains Voltage") == "mains_voltage"
    ensures Key("Battery Voltage") == "battery_voltage"
  {
    KeyOf("Mains Voltage", "mains_voltage");
    KeyOf("Battery Voltage", "battery_voltage");
  }

  lemma CurrentKeys()
    ensures Key("Charge Current") == "charge_current"
    ensures Key("Discharge Current") == "discharge_current"
  {
    KeyOf("Charge Current", "charge_current");
    KeyOf("Discharge Current", "discharge_current");
  }

  lemma LevelKeys()
    ensures Key("Load Percentage") == "load_percentage"
    ensures Key("Battery Charge Level") == "battery_charge_level"
  {
    KeyOf("Load Percentage", "load_percentage");
    KeyOf("Battery Charge Level", "battery_charge_level");
  }

  /** Key computed one character at a time. */
  lemma KeyOf(name: string, key: string)
    requires |name| == |key|
    requires forall i :: 0 <= i < |name| ==> key[i] == KeyChar(name[i])
    ensures Key(name) == key
  {
  }

  function KeyChar(c: char): char
  {
    if c == ' ' then '_' else if IsUpper(c) then (c as int + 32) as char else c
  }

  /** The mains voltage is published at `home/ups/mains_voltage`. */
  lemma MainsVoltageTopic()
    ensures StateTopic("Mains Voltage") == "home/ups/mains_voltage"
  {
    SensorKeys();
    assert Sensors[0].info.name == "Mains Voltage";
    assert TopicPrefix + "/" + "mains_voltage" == "home/ups/mains_voltage";
  }

  /** The six names give six distinct keys, hence six distinct state topics
      and six distinct discovery topics. */
  lemma SensorKeysDistinct()
    ensures forall i, j :: 0 <= i < j < |Sensors| ==> Key(Sensors[i].info.name) != Key(Sensors[j].info.name)
    ensures forall i, j :: 0 <= i < j < |Sensors| ==>
      StateTopic(Sensors[i].info.name) != StateTopic(Sensors[j].info.name)
      && DiscoveryTopic(Sensors[i].info.name) != DiscoveryTopic(Sensors[j].info.name)
  {
    SensorKeys();
    var keys := seq(|Sensors|, i requires 0 <= i < |Sensors| => Key(Sensors[i].info.name));
    assert keys == ["mains_voltage", "battery_voltage", "charge_current",
                    "discharge_current", "load_percentage", "battery_charge_level"];
    forall i, j | 0 <= i < j < |Sensors|
      ensures Key(Sensors[i].info.name) != Key(Sensors[j].info.name)
    {
      KeysDistinct(keys, i, j);
    }
    forall i, j | 0 <= i < j < |Sensors|
      ensures StateTopic(Sensors[i].info.name) != StateTopic(Sensors[j].info.name)
      ensures DiscoveryTopic(Sensors[i].info.name) != DiscoveryTopic(Sensors[j].info.name)
    {
      TopicsFollowKeys(Sensors[i].info.name, Sensors[j].info.name);
    }
  }

  /** Distinct keys give distinct state topics and distinct discovery topics,
      and no sensor's discovery topic is the availability record's. */
  lemma TopicsFollowKeys(a: string, b: string)
    ensures Key(a) != Key(b) ==> StateTopic(a) != StateTopic(b) && DiscoveryTopic(a) != DiscoveryTopic(b)
    ensures DiscoveryTopic(a) != StatusDiscoveryTopic
  {
    Framed(TopicPrefix + "/", Key(a), Key(b), "");
    assert StateTopic(a) == TopicPrefix + "/" + Key(a) + "";
    assert StateTopic(b) == TopicPrefix + "/" + Key(b) + "";
    Framed("homeassistant/sensor/home_ups_", Key(a), Key(b), "/config");
    assert DiscoveryTopic(a)[14] != StatusDiscoveryTopic[14];
  }

  lemma KeysDistinct(keys: seq<string>, i: nat, j: nat)
    requires keys == ["mains_voltage", "battery_voltage", "charge_current",
                      "discharge_current", "load_percentage", "battery_charge_level"]
    requires i < j < |keys|
    ensures keys[i] != keys[j]
  {
    if |keys[i]| == |keys[j]| {
      assert keys[i][0] != keys[j][0];
    }
  }

  /** Equal strings with a common head and tail have equal middles. */
  lemma Framed(head: string, x: string, y: string, tail: string)
    ensures head + x + tail == head + y + tail ==> x == y
  {
    if head + x + tail == head + y + tail {
      assert x == (head + x + tail)[|head|..|head| + |x|];
      assert y == (head + y + tail)[|head|..|head| + |y|];
    }
  }
}
