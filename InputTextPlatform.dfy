/** The input_text platform: one default-area text per remote, and the
    value of one text entity. */
module InputTextPlatform {
  import opened Common
  import opened DeviceRegistry

  /** The constructor arguments of one text entity. */
  datatype TextConfig = TextConfig(uniqueId: string, name: string, initial: string)

  /** The default-area text of a remote: it starts at the area name, or
      empty when the device has no area or the area is unknown. */
  function DefaultAreaText(d: DeviceEntry, areas: map<string, string>): TextConfig
    requires Qualifies(d)
  {
    TextConfig(UniqueId(CleanIeee(d).value, "default_area"), "Eglo Remote " + d.name + " Default Area",
               AreaName(d, areas))
  }

  /** The texts built for one device: none unless it qualifies. */
  function DeviceTexts(d: DeviceEntry, areas: map<string, string>): seq<TextConfig>
  {
    if Qualifies(d) then [DefaultAreaText(d, areas)] else []
  }

  /** The texts built for a device list, in registry order. */
  function TextConfigs(devices: seq<DeviceEntry>, areas: map<string, string>): seq<TextConfig>
  {
    if devices == [] then []
    else TextConfigs(devices[..|devices| - 1], areas) + DeviceTexts(devices[|devices| - 1], areas)
  }

  /** The setup loop: skip devices that are not the remote or have no
      "zha" identifier, build one text per other device, and hand the list
      to Home Assistant only when it is not empty. */
  method SetupEntry(devices: seq<DeviceEntry>, areas: map<string, string>)
    returns (entities: seq<TextConfig>, added: bool)
    ensures entities == TextConfigs(devices, areas)
    ensures added <==> entities != []
  {
    entities := [];
    var i := 0;
    while i < |devices|
      invariant 0 <= i <= |devices|
      invariant entities == TextConfigs(devices[..i], areas)
    {
      var device := devices[i];
      assert devices[..i + 1][..i] == devices[..i];
      if device.manufacturer != EgloManufacturer || device.model != EgloModel {
        i := i + 1;
        continue;
      }
      var ieee := FindZhaIeee(device.identifiers);
      if ieee.None? || ieee.value == "" {
        i := i + 1;
        continue;
      }
      var ieeeClean := RemoveColons(ieee.value);
      var area := "";
      if device.areaId.Some? && device.areaId.value != "" && device.areaId.value in areas {
        area := areas[device.areaId.value];
      }
      entities := entities + [
        TextConfig(UniqueId(ieeeClean, "default_area"), "Eglo Remote " + device.name + " Default Area", area)
      ];
      i := i + 1;
    }
    assert devices[..i] == devices;
    added := entities != [];
  }

  /** Each qualifying device yields exactly one text, in registry order. */
  lemma {:induction false} TextConfigsPerRemote(devices: seq<DeviceEntry>, areas: map<string, string>)
    ensures |TextConfigs(devices, areas)| == |QualifyingDevices(devices)|
    ensures forall k :: 0 <= k < |QualifyingDevices(devices)| ==>
              TextConfigs(devices, areas)[k] == DefaultAreaText(QualifyingDevices(devices)[k], areas)
  {
    if devices != [] {
      var init := devices[..|devices| - 1];
      var last := devices[|devices| - 1];
      TextConfigsPerRemote(init, areas);
      var q0, t0 := QualifyingDevices(init), TextConfigs(init, areas);
      if Qualifies(last) {
        assert QualifyingDevices(devices) == q0 + [last];
        assert TextConfigs(devices, areas) == t0 + [DefaultAreaText(last, areas)];
      } else {
        assert QualifyingDevices(devices) == q0 && TextConfigs(devices, areas) == t0;
      }
    }
  }

  /** A text entity. `stateWrites` counts the state writes to Home Assistant. */
  class InputTextEntity {
    const uniqueId: string
    const name: string
    const device: DeviceEntry
    var value: string
    var stateWrites: nat

    constructor (config: TextConfig, device: DeviceEntry)
      ensures uniqueId == config.uniqueId && name == config.name && this.device == device
      ensures value == config.initial && stateWrites == 0
    {
      uniqueId := config.uniqueId;
      name := config.name;
      this.device := device;
      value := config.initial;
      stateWrites := 0;
    }

    /** Overwrites the value, whatever it is, and writes the state. */
    method SetValue(newValue: string)
      modifies this
      ensures value == newValue
      ensures stateWrites == old(stateWrites) + 1
    {
      value := newValue;
      stateWrites := stateWrites + 1;
    }
  }
}
