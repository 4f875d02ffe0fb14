/** Wire records of device discovery and their validation rules. */
module Protocol {
  import opened Common
  import opened Ordering

  const MAX_BACKEND_ID_BYTES := 64
  const MAX_DEVICE_TEXT_BYTES := 256
  const MAX_DISCOVERY_METADATA_ENTRIES := 16
  const MAX_DISCOVERY_METADATA_KEY_BYTES := 64
  const MAX_DISCOVERY_METADATA_VALUE_BYTES := 256
  const MAX_DEVICES := 128
  const MAX_ENDPOINTS := 16

  function Utf8Length(s: string): nat {
    if s == [] then 0
    else
      var c := s[0] as int;
      (if c < 0x80 then 1 else if c < 0x800 then 2 else if c < 0x10000 then 3 else 4) + Utf8Length(s[1..])
  }

  /** Unicode general category Cc. */
  predicate IsControl(c: char) {
    c as int <= 0x1F || 0x7F <= c as int <= 0x9F
  }

  predicate ValidText(s: string, limit: nat) {
    s != [] && Utf8Length(s) <= limit && forall i :: 0 <= i < |s| ==> !IsControl(s[i])
  }

  predicate ValidBackendId(s: string) {
    ValidText(s, MAX_BACKEND_ID_BYTES)
    && forall i :: 0 <= i < |s| ==> 'a' <= s[i] <= 'z' || '0' <= s[i] <= '9' || s[i] == '-'
  }

  predicate ValidToken(s: string, limit: nat) {
    ValidText(s, limit)
    && forall i :: 0 <= i < |s| ==>
         'a' <= s[i] <= 'z' || 'A' <= s[i] <= 'Z' || '0' <= s[i] <= '9' || s[i] in {'-', '_', '.', ':', '@'}
  }

  datatype DeviceAvailability = Available | Busy | Unavailable

  datatype MetadataEntry = MetadataEntry(key: string, value: string)

  datatype DeviceIdentity = DeviceIdentity(backendId: string, deviceId: string) {
    function Key(): Key { (backendId, deviceId) }
  }

  datatype DeviceInfo = DeviceInfo(
    backendId: string,
    deviceId: string,
    displayName: string,
    availability: DeviceAvailability,
    metadata: seq<MetadataEntry>)
  {
    function Identity(): DeviceIdentity { DeviceIdentity(backendId, deviceId) }

    function Key(): Key { (backendId, deviceId) }
  }

  predicate ValidIdentity(identity: DeviceIdentity) {
    ValidBackendId(identity.backendId) && ValidText(identity.deviceId, MAX_DEVICE_TEXT_BYTES)
  }

  predicate ValidInfo(info: DeviceInfo) {
    && ValidIdentity(info.Identity())
    && ValidText(info.displayName, MAX_DEVICE_TEXT_BYTES)
    && |info.metadata| <= MAX_DISCOVERY_METADATA_ENTRIES
    && (forall i :: 0 <= i < |info.metadata| ==>
          && ValidToken(info.metadata[i].key, MAX_DISCOVERY_METADATA_KEY_BYTES)
          && ValidText(info.metadata[i].value, MAX_DISCOVERY_METADATA_VALUE_BYTES))
    && (forall i, j :: 0 <= i < j < |info.metadata| ==> info.metadata[i].key != info.metadata[j].key)
  }

  /**
   * The record checks both ends apply. Discovery is proved correct for every pair of checks that agree with each other;
   * the ones on the wire are `ValidInfo` and `ValidIdentity`.
   */
  datatype Rules = Rules(info: DeviceInfo -> bool, identity: DeviceIdentity -> bool) {
    ghost predicate Coherent() {
      forall i :: info(i) ==> identity(i.Identity())
    }
  }

  const WIRE_RULES := Rules(ValidInfo, ValidIdentity)

  lemma WireRulesCoherent()
    ensures WIRE_RULES.Coherent()
  {
    forall i | WIRE_RULES.info(i) ensures WIRE_RULES.identity(i.Identity()) {
      assert ValidInfo(i);
    }
  }

  datatype DeviceSnapshot = DeviceSnapshot(discoveryGeneration: u64, revision: u64, devices: seq<DeviceInfo>) {
    predicate Valid(rules: Rules) {
      && discoveryGeneration != 0
      && |devices| <= MAX_DEVICES
      && (forall i :: 0 <= i < |devices| ==> rules.info(devices[i]))
      && (forall i, j :: 0 <= i < j < |devices| ==> devices[i].Key() != devices[j].Key())
    }
  }

  /** What a discovery signal says about one device. */
  datatype Change =
    | Added(info: DeviceInfo)
    | Changed(info: DeviceInfo)
    | Removed(identity: DeviceIdentity)
  {
    function Key(): Key {
      if Removed? then identity.Key() else info.Key()
    }

    predicate Valid(rules: Rules) {
      if Removed? then rules.identity(identity) else rules.info(info)
    }
  }

  datatype DeviceEvent = DeviceEvent(discoveryGeneration: u64, revision: u64, change: Change)
}
