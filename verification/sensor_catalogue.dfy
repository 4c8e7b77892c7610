/**
  The sensor catalogue and the Home Assistant discovery record built from it
  (sensor_types and get_or_create_config). The broker-side settings that the
  source imports from its configuration module are a parameter here.
 */
module SensorCatalogue {
  import opened Wrappers

  /** The values taken from the configuration module that shape topics and ids. */
  datatype Settings = Settings(topicPrefix: string, meterName: string, meterId: string)

  /** One catalogue row: icon, display name, unit, state class and optional device class. */
  datatype SensorMeta = SensorMeta(icon: string, name: string, unit: string, stateClass: string, deviceClass: Option<string>)

  /** The keys announced at start-up, in the order they are announced. */
  const SensorTypes: seq<string> :=
    ["Fwd_kWh", "Rev_kWh", "fwd_Now", "rev_Now", "L1_A", "L1_V", "L2_A", "L2_V", "L3_A", "L3_V"]

  /** The dictionary of known sensors. */
  const ConfigDetails: map<string, SensorMeta> := map[
    "Fwd_kWh" := SensorMeta("mdi:transmission-tower-import", "Energy Import", "kWh", "total_increasing", Some("energy")),
    "Rev_kWh" := SensorMeta("mdi:transmission-tower-export", "Energy Export", "kWh", "total_increasing", Some("energy")),
    "fwd_Now" := SensorMeta("mdi:meter-electric-outline", "Power Import", "W", "measurement", Some("power")),
    "rev_Now" := SensorMeta("mdi:meter-electric", "Power Export", "W", "measurement", Some("power")),
    "L1_A" := SensorMeta("mdi:alpha-a-circle", "Phase 1 Amperage", "A", "measurement", None),
    "L1_V" := SensorMeta("mdi:alpha-v-circle", "Phase 1 Voltage", "V", "measurement", Some("voltage")),
    "L2_A" := SensorMeta("mdi:alpha-a-circle", "Phase 2 Amperage", "A", "measurement", None),
    "L2_V" := SensorMeta("mdi:alpha-v-circle", "Phase 2 Voltage", "V", "measurement", Some("voltage")),
    "L3_A" := SensorMeta("mdi:alpha-a-circle", "Phase 3 Amperage", "A", "measurement", None),
    "L3_V" := SensorMeta("mdi:alpha-v-circle", "Phase 3 Voltage", "V", "measurement", Some("voltage"))
  ]

  /** The "device" block shared by every discovery record of one meter. */
  datatype Device = Device(identifiers: seq<string>, manufacturer: string, model: string, name: string)

  /** The discovery record, field by field, before it is serialised to JSON. */
  datatype DiscoveryConfig = DiscoveryConfig(
    device: Device,
    name: string,
    unitOfMeasurement: string,
    stateTopic: string,
    uniqueId: string,
    stateClass: string,
    icon: string,
    platform: string,
    deviceClass: Option<string>)

  /** The data topic of a sensor: prefix/meter_name/key. */
  function StateTopic(s: Settings, key: string): string {
    s.topicPrefix + "/" + s.meterName + "/" + key
  }

  /** The discovery topic of a sensor. */
  function ConfigTopic(s: Settings, key: string): string {
    "homeassistant/sensor/" + s.meterName + "_" + key + "/config"
  }

  /** Python truthiness of an optional string: None and "" are false. */
  predicate Truthy(o: Option<string>) {
    o.Some? && o.value != ""
  }

  /**
    get_or_create_config(key): a record for the ten catalogued keys and None for
    any other key; the device class appears exactly for the sensors that have one.
   */
  function GetOrCreateConfig(s: Settings, key: string): (r: Option<DiscoveryConfig>)
    ensures r.Some? <==> key in SensorTypes
    ensures r.Some? ==>
              && r.value.stateTopic == StateTopic(s, key)
              && r.value.uniqueId == s.meterId + "_" + key
              && r.value.platform == "mqtt"
              && r.value.device.identifiers == [s.meterId]
              && (r.value.deviceClass.None? <==> key in {"L1_A", "L2_A", "L3_A"})
    ensures r.Some? ==>
              var m := ConfigDetails[key];
              && r.value.name == m.name
              && r.value.unitOfMeasurement == m.unit
              && r.value.stateClass == m.stateClass
              && r.value.icon == m.icon
              && r.value.deviceClass == m.deviceClass
              && r.value.device == Device([s.meterId], "Networked Electricity Services", "NES-Meter", "Electricity Meter")
  {
    if key in ConfigDetails then
      var meta := ConfigDetails[key];
      Some(DiscoveryConfig(
        Device([s.meterId], "Networked Electricity Services", "NES-Meter", "Electricity Meter"),
        meta.name,
        meta.unit,
        StateTopic(s, key),
        s.meterId + "_" + key,
        meta.stateClass,
        meta.icon,
        "mqtt",
        if Truthy(meta.deviceClass) then meta.deviceClass else None))
    else
      None
  }

  /** Every discovery record of one meter carries the same device block, naming the meter id. */
  lemma DeviceBlockShared(s: Settings, k1: string, k2: string)
    requires GetOrCreateConfig(s, k1).Some? && GetOrCreateConfig(s, k2).Some?
    ensures GetOrCreateConfig(s, k1).value.device == GetOrCreateConfig(s, k2).value.device
    ensures GetOrCreateConfig(s, k1).value.device.identifiers == [s.meterId]
  {
  }

  /** A common prefix can be cancelled from two equal strings. */
  lemma {:induction false} CancelPrefix(p: string, a: string, b: string)
    requires p + a == p + b
    ensures a == b
  {
    assert a == (p + a)[|p|..];
    assert b == (p + b)[|p|..];
  }

  /** A common suffix can be cancelled from two equal strings. */
  lemma {:induction false} CancelSuffix(a: string, b: string, t: string)
    requires a + t == b + t
    ensures a == b
  {
    assert |a| == |b|;
    assert a == (a + t)[..|a|];
    assert b == (b + t)[..|b|];
  }

  /** The unique_id and the state topic each determine the sensor key. */
  lemma ConfigIdsDetermineKey(s: Settings, k1: string, k2: string)
    ensures s.meterId + "_" + k1 == s.meterId + "_" + k2 ==> k1 == k2
    ensures StateTopic(s, k1) == StateTopic(s, k2) ==> k1 == k2
  {
    if s.meterId + "_" + k1 == s.meterId + "_" + k2 {
      CancelPrefix(s.meterId + "_", k1, k2);
    }
    if StateTopic(s, k1) == StateTopic(s, k2) {
      CancelPrefix(s.topicPrefix + "/" + s.meterName + "/", k1, k2);
    }
  }

  /** The discovery topic determines the sensor key. */
  lemma ConfigTopicDeterminesKey(s: Settings, k1: string, k2: string)
    requires ConfigTopic(s, k1) == ConfigTopic(s, k2)
    ensures k1 == k2
  {
    var p := "homeassistant/sensor/" + s.meterName + "_";
    var suffix := "/config";
    assert ConfigTopic(s, k1) == p + (k1 + suffix);
    assert ConfigTopic(s, k2) == p + (k2 + suffix);
    CancelPrefix(p, k1 + suffix, k2 + suffix);
    CancelSuffix(k1, k2, suffix);
  }
}
