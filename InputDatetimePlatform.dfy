/** The input_datetime platform: one last-activity date and time per
    remote, and the value of one such entity. */
module InputDatetimePlatform {
  import opened Common
  import opened DeviceRegistry

  /** The constructor arguments of one date-time entity. */
  datatype DatetimeConfig = DatetimeConfig(uniqueId: string, name: string, hasDate: bool, hasTime: bool)

  /** A point in time, as seconds since the epoch. */
  type Timestamp = int

  /** The last-activity entity of a remote: it has both a date and a time. */
  function LastActivity(d: DeviceEntry): DatetimeConfig
    requires Qualifies(d)
  {
    DatetimeConfig(UniqueId(CleanIeee(d).value, "last_activity"), "Eglo Remote " + d.name + " Last Activity",
                   true, true)
  }

  /** The date-time entities built for one device: none unless it qualifies. */
  function DeviceDatetimes(d: DeviceEntry): seq<DatetimeConfig>
  {
    if Qualifies(d) then [LastActivity(d)] else []
  }

  /** The date-time entities built for a device list, in registry order. */
  function DatetimeConfigs(devices: seq<DeviceEntry>): seq<DatetimeConfig>
  {
    if devices == [] then []
    else DatetimeConfigs(devices[..|devices| - 1]) + DeviceDatetimes(devices[|devices| - 1])
  }

  /** The setup loop: skip devices that are not the remote or have no
      "zha" identifier, build one entity per other device, and hand the
      list to Home Assistant only when it is not empty. */
  method SetupEntry(devices: seq<DeviceEntry>)
    returns (entities: seq<DatetimeConfig>, added: bool)
    ensures entities == DatetimeConfigs(devices)
    ensures added <==> entities != []
  {
    entities := [];
    var i := 0;
    while i < |devices|
      invariant 0 <= i <= |devices|
      invariant entities == DatetimeConfigs(devices[..i])
    {
      var device := devices[i];
      assert devices[..i + 1][..i] == devices[..i];
      if device.manufacturer != EgloManufacturer || device.model != EgloModel {
        i := i + 1;
        continue;
      }
      var ieee := FindZhaIeee(device.identifiers);
      if ieee.None? || ieee.value == "" {
        i := i + 1;
        continue;
      }
      var ieeeClean := RemoveColons(ieee.value);
      entities := entities + [
        DatetimeConfig(UniqueId(ieeeClean, "last_activity"), "Eglo Remote " + device.name + " Last Activity",
                       true, true)
      ];
      i := i + 1;
    }
    assert devices[..i] == devices;
    added := entities != [];
  }

  /** Each qualifying device yields exactly one entity, in registry order. */
  lemma {:induction false} DatetimeConfigsPerRemote(devices: seq<DeviceEntry>)
    ensures |DatetimeConfigs(devices)| == |QualifyingDevices(devices)|
    ensures forall k :: 0 <= k < |QualifyingDevices(devices)| ==>
              DatetimeConfigs(devices)[k] == LastActivity(QualifyingDevices(devices)[k])
  {
    if devices != [] {
      var init := devices[..|devices| - 1];
      var last := devices[|devices| - 1];
      DatetimeConfigsPerRemote(init);
      var q0, c0 := QualifyingDevices(init), DatetimeConfigs(init);
      if Qualifies(last) {
        assert QualifyingDevices(devices) == q0 + [last];
        assert DatetimeConfigs(devices) == c0 + [LastActivity(last)];
      } else {
        assert QualifyingDevices(devices) == q0 && DatetimeConfigs(devices) == c0;
      }
    }
  }

  /** Every entity built has both a date and a time. */
  lemma {:induction false} DatetimeConfigsHaveDateAndTime(devices: seq<DeviceEntry>)
    ensures forall e :: e in DatetimeConfigs(devices) ==> e.hasDate && e.hasTime
  {
    if devices != [] {
      DatetimeConfigsHaveDateAndTime(devices[..|devices| - 1]);
    }
  }

  /** A date-time entity; its first value is the current time, passed in.
      `stateWrites` counts the state writes to Home Assistant. */
  class InputDatetimeEntity {
    const uniqueId: string
    const name: string
    const device: DeviceEntry
    const hasDate: bool
    const hasTime: bool
    var value: Timestamp
    var stateWrites: nat

    constructor (config: DatetimeConfig, device: DeviceEntry, now: Timestamp)
      ensures uniqueId == config.uniqueId && name == config.name && this.device == device
      ensures hasDate == config.hasDate && hasTime == config.hasTime
      ensures value == now && stateWrites == 0
    {
      uniqueId := config.uniqueId;
      name := config.name;
      this.device := device;
      hasDate := config.hasDate;
      hasTime := config.hasTime;
      value := now;
      stateWrites := 0;
    }

    /** Overwrites the value, whatever it is, and writes the state. */
    method SetValue(newValue: Timestamp)
      modifies this
      ensures value == newValue
      ensures stateWrites == old(stateWrites) + 1
    {
      value := newValue;
      stateWrites := stateWrites + 1;
    }
  }
}
