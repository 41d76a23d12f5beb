/** The input_select platform: two selectors per remote (current area and
    current light), and the selection state of one selector. */
module InputSelectPlatform {
  import opened Common
  import opened DeviceRegistry

  /** The constructor arguments of one selector entity. */
  datatype SelectConfig = SelectConfig(uniqueId: string, name: string, options: seq<string>, initial: string)

  /** The current-area selector of a remote: it starts at the area name,
      or at "all" when the device has no area. */
  function CurrentAreaSelect(d: DeviceEntry, areas: map<string, string>): SelectConfig
    requires Qualifies(d)
  {
    var area := AreaName(d, areas);
    SelectConfig(UniqueId(CleanIeee(d).value, "current_area"), "Eglo Remote " + d.name + " Current Area",
                 ["all"], if area != "" then area else "all")
  }

  /** The current-light selector of a remote: it starts at "all". */
  function CurrentLightSelect(d: DeviceEntry): SelectConfig
    requires Qualifies(d)
  {
    SelectConfig(UniqueId(CleanIeee(d).value, "current_light"), "Eglo Remote " + d.name + " Current Light",
                 ["all"], "all")
  }

  /** The selectors built for one device: none unless it qualifies. */
  function DeviceSelects(d: DeviceEntry, areas: map<string, string>): seq<SelectConfig>
  {
    if Qualifies(d) then [CurrentAreaSelect(d, areas), CurrentLightSelect(d)] else []
  }

  /** The selectors built for a device list, in registry order. */
  function SelectConfigs(devices: seq<DeviceEntry>, areas: map<string, string>): seq<SelectConfig>
  {
    if devices == [] then []
    else SelectConfigs(devices[..|devices| - 1], areas) + DeviceSelects(devices[|devices| - 1], areas)
  }

  /** The setup loop: skip devices that are not the remote or have no
      "zha" identifier, build the two selectors of each other device, and
      hand the list to Home Assistant only when it is not empty. */
  method SetupEntry(devices: seq<DeviceEntry>, areas: map<string, string>)
    returns (entities: seq<SelectConfig>, added: bool)
    ensures entities == SelectConfigs(devices, areas)
    ensures added <==> entities != []
  {
    entities := [];
    var i := 0;
    while i < |devices|
      invariant 0 <= i <= |devices|
      invariant entities == SelectConfigs(devices[..i], areas)
    {
      var device := devices[i];
      assert devices[..i + 1][..i] == devices[..i];
      assert SelectConfigs(devices[..i + 1], areas) == entities + DeviceSelects(device, areas);
      if device.manufacturer != EgloManufacturer || device.model != EgloModel {
        i := i + 1;
        continue;
      }
      var ieee := FindZhaIeee(device.identifiers);
      if ieee.None? || ieee.value == "" {
        i := i + 1;
        continue;
      }
      var ieeeClean := RemoveColons(ieee.value);
      assert CleanIeee(device) == Some(ieeeClean);
      var area := AreaName(device, areas);
      entities := entities + [
        SelectConfig(UniqueId(ieeeClean, "current_area"), "Eglo Remote " + device.name + " Current Area",
                     ["all"], if area != "" then area else "all"),
        SelectConfig(UniqueId(ieeeClean, "current_light"), "Eglo Remote " + device.name + " Current Light",
                     ["all"], "all")
      ];
      i := i + 1;
    }
    assert devices[..i] == devices;
    added := entities != [];
  }

  /** Each qualifying device yields exactly two selectors, in registry
      order: its current-area selector, then its current-light selector. */
  lemma {:induction false} SelectConfigsPerRemote(devices: seq<DeviceEntry>, areas: map<string, string>)
    ensures |SelectConfigs(devices, areas)| == 2 * |QualifyingDevices(devices)|
    ensures forall k :: 0 <= k < |QualifyingDevices(devices)| ==>
              && SelectConfigs(devices, areas)[2 * k] == CurrentAreaSelect(QualifyingDevices(devices)[k], areas)
              && SelectConfigs(devices, areas)[2 * k + 1] == CurrentLightSelect(QualifyingDevices(devices)[k])
  {
    if devices != [] {
      var init := devices[..|devices| - 1];
      var last := devices[|devices| - 1];
      SelectConfigsPerRemote(init, areas);
      var q0, s0 := QualifyingDevices(init), SelectConfigs(init, areas);
      if Qualifies(last) {
        assert QualifyingDevices(devices) == q0 + [last];
        assert SelectConfigs(devices, areas) == s0 + [CurrentAreaSelect(last, areas), CurrentLightSelect(last)];
      } else {
        assert QualifyingDevices(devices) == q0 && SelectConfigs(devices, areas) == s0;
      }
    }
  }

  /** Every selector offers the options ["all"] and starts at a non-empty option. */
  lemma SelectConfigsOfferAll(devices: seq<DeviceEntry>, areas: map<string, string>)
    ensures forall e :: e in SelectConfigs(devices, areas) ==> e.options == ["all"] && e.initial != ""
  {
    SelectConfigsPerRemote(devices, areas);
    var q := QualifyingDevices(devices);
    var s := SelectConfigs(devices, areas);
    forall e | e in s ensures e.options == ["all"] && e.initial != "" {
      var n :| 0 <= n < |s| && s[n] == e;
      assert n == 2 * (n / 2) || n == 2 * (n / 2) + 1;
    }
  }

  /** The current-area selector starts at one of its options exactly when
      the device's area name is empty or "all"; for any other area it
      starts at an option it does not offer, which SelectOption can then
      never choose again. */
  lemma CurrentAreaStartsOffered(d: DeviceEntry, areas: map<string, string>)
    requires Qualifies(d)
    ensures var c := CurrentAreaSelect(d, areas);
            c.initial in c.options <==> AreaName(d, areas) == "" || AreaName(d, areas) == "all"
  {
  }

  /** The current option after `async_set_options`: kept if it is still
      offered, otherwise the first new option, or none for an empty list. */
  function OptionAfterSetOptions(current: Option<string>, options: seq<string>): (r: Option<string>)
    ensures (r.Some? && r.value in options) || (options == [] && r.None?)
    ensures current.Some? && current.value in options ==> r == current
    ensures r != current ==> r == (if options == [] then None else Some(options[0]))
  {
    if current.Some? && current.value in options then current
    else if options != [] then Some(options[0])
    else None
  }

  /** A selector entity. `stateWrites` counts the state writes to Home
      Assistant, so that a call that writes no state is visible. */
  class InputSelectEntity {
    const uniqueId: string
    const name: string
    const device: DeviceEntry
    var options: seq<string>
    var currentOption: Option<string>
    var stateWrites: nat

    /** The current option is offered, or there are no options and no
        current option. Setting the options establishes it; the
        constructor does not (a current-area selector starts at the area
        name while offering only "all"). */
    predicate Consistent()
      reads this
    {
      (currentOption.Some? && currentOption.value in options) || (options == [] && currentOption.None?)
    }

    constructor (config: SelectConfig, device: DeviceEntry)
      ensures uniqueId == config.uniqueId && name == config.name && this.device == device
      ensures options == config.options && currentOption == Some(config.initial)
      ensures stateWrites == 0
    {
      uniqueId := config.uniqueId;
      name := config.name;
      this.device := device;
      options := config.options;
      currentOption := Some(config.initial);
      stateWrites := 0;
    }

    /** Selects an offered option and writes the state; an option that is
        not offered changes nothing and writes nothing. */
    method SelectOption(option: string)
      modifies this
      ensures options == old(options)
      ensures option in old(options) ==> currentOption == Some(option) && stateWrites == old(stateWrites) + 1
      ensures option !in old(options) ==> currentOption == old(currentOption) && stateWrites == old(stateWrites)
      ensures old(Consistent()) ==> Consistent()
    {
      if option in options {
        currentOption := Some(option);
        stateWrites := stateWrites + 1;
      }
    }

    /** Replaces the options, keeps the current option when it is still
        offered, falls back otherwise, and writes the state. */
    method SetOptions(newOptions: seq<string>)
      modifies this
      ensures options == newOptions
      ensures currentOption == OptionAfterSetOptions(old(currentOption), newOptions)
      ensures stateWrites == old(stateWrites) + 1
      ensures Consistent()
    {
      options := newOptions;
      if !(currentOption.Some? && currentOption.value in newOptions) {
        currentOption := if newOptions != [] then Some(newOptions[0]) else None;
      }
      stateWrites := stateWrites + 1;
    }
  }
}
