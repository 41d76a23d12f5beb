/** The integration's entry points: the helper list built for a remote,
    the skip-existing loop over it, the handler of ZHA join events, the
    startup scan, and the per-entry data kept in `hass.data`. */
module Integration {
  import opened Common
  import opened DeviceRegistry
  import InputSelectPlatform
  import InputTextPlatform
  import InputDatetimePlatform

  datatype HelperDomain = InputSelect | InputText | InputDatetime

  function DomainName(domain: HelperDomain): string
  {
    match domain
    case InputSelect => "input_select"
    case InputText => "input_text"
    case InputDatetime => "input_datetime"
  }

  /** One entry of the helper list; the optional fields are the keys only
      some helpers carry. */
  datatype Helper = Helper(
    domain: HelperDomain,
    uniqueId: string,
    name: string,
    options: Option<seq<string>>,
    initial: Option<string>,
    hasDate: Option<bool>,
    hasTime: Option<bool>)

  /** The data of the helper-creation service call. */
  datatype ServiceData = ServiceData(
    name: string,
    options: Option<seq<string>>,
    hasDate: Option<bool>,
    hasTime: Option<bool>)

  /** The four helpers of a remote with the given clean IEEE address,
      device name and area name. */
  function HelpersFor(ieeeClean: string, deviceName: string, areaName: string): seq<Helper>
  {
    [ Helper(InputSelect, UniqueId(ieeeClean, "current_area"), "Eglo Remote " + deviceName + " Current Area",
             Some(["all"]), Some(if areaName != "" then areaName else "all"), None, None),
      Helper(InputSelect, UniqueId(ieeeClean, "current_light"), "Eglo Remote " + deviceName + " Current Light",
             Some(["all"]), Some("all"), None, None),
      Helper(InputText, UniqueId(ieeeClean, "default_area"), "Eglo Remote " + deviceName + " Default Area",
             None, Some(areaName), None, None),
      Helper(InputDatetime, UniqueId(ieeeClean, "last_activity"), "Eglo Remote " + deviceName + " Last Activity",
             None, None, Some(true), Some(true)) ]
  }

  /** A helper carries the keys its domain's service data reads. */
  predicate WellFormed(h: Helper)
  {
    && (h.domain == InputSelect ==> h.options.Some?)
    && (h.domain == InputDatetime ==> h.hasDate.Some? && h.hasTime.Some?)
  }

  /** The entity id of a helper: `<domain>.<unique id>`. */
  function EntityId(h: Helper): string
  {
    DomainName(h.domain) + "." + h.uniqueId
  }

  /** The service data of a helper: always its name; its options only for
      an input_select; its date and time flags only for an input_datetime. */
  function ServiceDataOf(h: Helper): (data: ServiceData)
    requires WellFormed(h)
    ensures data.name == h.name
    ensures data.options.Some? <==> h.domain == InputSelect
    ensures data.hasDate.Some? <==> h.domain == InputDatetime
    ensures data.hasTime.Some? <==> h.domain == InputDatetime
    ensures h.domain == InputSelect ==> data.options == h.options
    ensures h.domain == InputDatetime ==> data.hasDate == h.hasDate && data.hasTime == h.hasTime
  {
    var base := ServiceData(h.name, None, None, None);
    match h.domain
    case InputSelect => base.(options := h.options)
    case InputDatetime => base.(hasDate := h.hasDate, hasTime := h.hasTime)
    case InputText => base
  }

  /** The helpers the loop processes: those whose entity id is not yet
      registered, in list order, each with its entity id and service data. */
  function Pending(helpers: seq<Helper>, registered: set<string>): seq<(string, ServiceData)>
    requires forall h :: h in helpers ==> WellFormed(h)
  {
    if helpers == [] then []
    else
      var init := helpers[..|helpers| - 1];
      var h := helpers[|helpers| - 1];
      Pending(init, registered) + (if EntityId(h) in registered then [] else [(EntityId(h), ServiceDataOf(h))])
  }

  /** Pending skips exactly the registered helpers: an entity id is
      processed iff some helper has it and it is not registered. */
  lemma {:induction false} PendingSkipsRegistered(helpers: seq<Helper>, registered: set<string>, id: string)
    requires forall h :: h in helpers ==> WellFormed(h)
    ensures (exists p :: p in Pending(helpers, registered) && p.0 == id) <==>
              (id !in registered && exists h :: h in helpers && EntityId(h) == id)
  {
    if helpers != [] {
      var init := helpers[..|helpers| - 1];
      var last := helpers[|helpers| - 1];
      assert helpers == init + [last];
      assert forall h :: h in helpers <==> h in init || h == last;
      PendingSkipsRegistered(init, registered, id);
      var tail := if EntityId(last) in registered then [] else [(EntityId(last), ServiceDataOf(last))];
      assert Pending(helpers, registered) == Pending(init, registered) + tail;
      assert forall p :: p in Pending(helpers, registered) <==> p in Pending(init, registered) || p in tail;
      if EntityId(last) == id && id !in registered {
        assert (id, ServiceDataOf(last)) in Pending(helpers, registered);
      }
    }
  }

  /** Why the helpers of a device could not be processed. */
  datatype HelperError = NoIeee

  /** The outcome of processing a device's helpers: an error when it has no
      usable "zha" identifier, else the pending helpers of its clean address. */
  function HelperResult(device: DeviceEntry, areas: map<string, string>, registered: set<string>)
    : Result<seq<(string, ServiceData)>, HelperError>
  {
    if CleanIeee(device).None? then Failure(NoIeee)
    else Success(Pending(HelpersFor(CleanIeee(device).value, device.name, AreaName(device, areas)), registered))
  }

  /** `create_helpers_for_device`: find the IEEE address, build the four
      helpers, and process each one whose entity id is not registered. A
      device without a usable "zha" identifier is an error and no helper is
      processed. */
  method CreateHelpersForDevice(device: DeviceEntry, areas: map<string, string>, registered: set<string>)
    returns (r: Result<seq<(string, ServiceData)>, HelperError>)
    ensures CleanIeee(device).None? <==> r == Failure(NoIeee)
    ensures CleanIeee(device).Some? ==>
              r == Success(Pending(HelpersFor(CleanIeee(device).value, device.name, AreaName(device, areas)), registered))
    ensures r == HelperResult(device, areas, registered)
  {
    var ieee := FindZhaIeee(device.identifiers);
    if ieee.None? || ieee.value == "" {
      return Failure(NoIeee);
    }
    var ieeeClean := RemoveColons(ieee.value);
    var areaName := AreaName(device, areas);
    var helpers := HelpersFor(ieeeClean, device.name, areaName);
    var processed: seq<(string, ServiceData)> := [];
    var i := 0;
    while i < |helpers|
      invariant 0 <= i <= |helpers|
      invariant processed == Pending(helpers[..i], registered)
    {
      var helper := helpers[i];
      assert helpers[..i + 1][..i] == helpers[..i];
      var entityId := DomainName(helper.domain) + "." + helper.uniqueId;
      if entityId in registered {
        i := i + 1;
        continue;
      }
      var data := ServiceData(helper.name, None, None, None);
      if helper.domain == InputSelect {
        data := data.(options := helper.options);
      } else if helper.domain == InputDatetime {
        data := data.(hasDate := helper.hasDate, hasTime := helper.hasTime);
      }
      processed := processed + [(entityId, data)];
      i := i + 1;
    }
    assert helpers[..i] == helpers;
    r := Success(processed);
  }

  /** The four helpers have the domains select, select, text, date-time,
      and the unique ids, names and initial values that the three helper
      platforms give the entities of the same remote. */
  lemma HelpersMatchPlatforms(d: DeviceEntry, areas: map<string, string>)
    requires Qualifies(d)
    ensures var hs := HelpersFor(CleanIeee(d).value, d.name, AreaName(d, areas));
            var area := InputSelectPlatform.CurrentAreaSelect(d, areas);
            var light := InputSelectPlatform.CurrentLightSelect(d);
            var text := InputTextPlatform.DefaultAreaText(d, areas);
            var activity := InputDatetimePlatform.LastActivity(d);
            && |hs| == 4
            && hs[0].domain == InputSelect && hs[0].uniqueId == area.uniqueId && hs[0].name == area.name
            && hs[0].options == Some(area.options) && hs[0].initial == Some(area.initial)
            && hs[1].domain == InputSelect && hs[1].uniqueId == light.uniqueId && hs[1].name == light.name
            && hs[1].options == Some(light.options) && hs[1].initial == Some(light.initial)
            && hs[2].domain == InputText && hs[2].uniqueId == text.uniqueId && hs[2].name == text.name
            && hs[2].initial == Some(text.initial)
            && hs[3].domain == InputDatetime && hs[3].uniqueId == activity.uniqueId && hs[3].name == activity.name
            && hs[3].hasDate == Some(activity.hasDate) && hs[3].hasTime == Some(activity.hasTime)
  {
  }

  /** The four helpers of a remote have pairwise distinct entity ids, so
      the registered check of one helper never skips another. */
  lemma HelperEntityIdsDistinct(ieeeClean: string, deviceName: string, areaName: string)
    ensures var hs := HelpersFor(ieeeClean, deviceName, areaName);
            forall i, j :: 0 <= i < j < |hs| ==> EntityId(hs[i]) != EntityId(hs[j])
  {
    var hs := HelpersFor(ieeeClean, deviceName, areaName);
    var n := |ieeeClean|;
    assert |EntityId(hs[0])| == 13 + 12 + n + 13;
    assert |EntityId(hs[1])| == 13 + 12 + n + 14;
    assert |EntityId(hs[2])| == 11 + 12 + n + 13;
    assert |EntityId(hs[3])| == 15 + 12 + n + 14;
  }

  /** Whether some identifier of the device (of any domain) has this value. */
  predicate HasIdentifierValue(d: DeviceEntry, value: string)
  {
    exists i :: 0 <= i < |d.identifiers| && d.identifiers[i].id == value
  }

  /** The first device in registry order with an identifier of this value. */
  function FirstDeviceWithId(devices: seq<DeviceEntry>, value: string): Option<DeviceEntry>
  {
    if devices == [] then None
    else if HasIdentifierValue(devices[0], value) then Some(devices[0])
    else FirstDeviceWithId(devices[1..], value)
  }

  /** FirstDeviceWithId finds d exactly when d is the first device that has
      an identifier with the value. */
  lemma {:induction false} FirstDeviceWithIdIsFirst(devices: seq<DeviceEntry>, value: string, d: DeviceEntry)
    ensures FirstDeviceWithId(devices, value) == Some(d) <==>
              exists k :: 0 <= k < |devices| && devices[k] == d && HasIdentifierValue(d, value)
                          && forall j :: 0 <= j < k ==> !HasIdentifierValue(devices[j], value)
  {
    if devices != [] {
      FirstDeviceWithIdIsFirst(devices[1..], value, d);
      if exists k :: 0 <= k < |devices| && devices[k] == d && HasIdentifierValue(d, value)
                     && forall j :: 0 <= j < k ==> !HasIdentifierValue(devices[j], value) {
        var k :| 0 <= k < |devices| && devices[k] == d && HasIdentifierValue(d, value)
                 && forall j :: 0 <= j < k ==> !HasIdentifierValue(devices[j], value);
        if k > 0 {
          assert devices[1..][k - 1] == d;
        }
      }
      if !HasIdentifierValue(devices[0], value) && FirstDeviceWithId(devices, value) == Some(d) {
        var k :| 0 <= k < |devices[1..]| && devices[1..][k] == d && HasIdentifierValue(d, value)
                 && forall j :: 0 <= j < k ==> !HasIdentifierValue(devices[1..][j], value);
        assert devices[k + 1] == d;
      }
    }
  }

  /** The registry search of the join handler: a device loop around an
      identifier loop, both left at the first identifier with the value. */
  method FindDeviceByIdentifier(devices: seq<DeviceEntry>, value: string) returns (device: Option<DeviceEntry>)
    ensures device == FirstDeviceWithId(devices, value)
  {
    device := None;
    var i := 0;
    while i < |devices|
      invariant 0 <= i <= |devices|
      invariant device.None?
      invariant FirstDeviceWithId(devices, value) == FirstDeviceWithId(devices[i..], value)
    {
      var dev := devices[i];
      var j := 0;
      while j < |dev.identifiers|
        invariant 0 <= j <= |dev.identifiers|
        invariant device.None?
        invariant forall m :: 0 <= m < j ==> dev.identifiers[m].id != value
      {
        if dev.identifiers[j].id == value {
          device := Some(dev);
          break;
        }
        j := j + 1;
      }
      assert devices[i..][0] == dev;
      if device.Some? {
        assert 0 <= j < |dev.identifiers| && dev.identifiers[j].id == value;
        break;
      }
      assert !HasIdentifierValue(dev, value);
      assert devices[i..][1..] == devices[i + 1..];
      i := i + 1;
    }
  }

  /** What the join handler did. */
  datatype JoinOutcome =
    | Ignored
    | HelpersProcessed(device: DeviceEntry, result: Result<seq<(string, ServiceData)>, HelperError>)

  /** `handle_zha_device_joined`: an event without an IEEE address, an
      address no device has, or a device that is not the remote is
      ignored; otherwise the helpers of the device are processed. */
  method HandleZhaDeviceJoined(ieee: Option<string>, devices: seq<DeviceEntry>, areas: map<string, string>,
                               registered: set<string>)
    returns (outcome: JoinOutcome)
    ensures !Truthy(ieee) ==> outcome == Ignored
    ensures Truthy(ieee) && FirstDeviceWithId(devices, ieee.value).None? ==> outcome == Ignored
    ensures Truthy(ieee) && FirstDeviceWithId(devices, ieee.value).Some? ==>
              var d := FirstDeviceWithId(devices, ieee.value).value;
              if IsEgloRemote(d) then outcome.HelpersProcessed? && outcome.device == d
              else outcome == Ignored
    ensures outcome.HelpersProcessed? ==>
              && (CleanIeee(outcome.device).None? <==> outcome.result == Failure(NoIeee))
              && (CleanIeee(outcome.device).Some? ==>
                    outcome.result == Success(Pending(HelpersFor(CleanIeee(outcome.device).value, outcome.device.name,
                                                                 AreaName(outcome.device, areas)), registered)))
  {
    if ieee.None? || ieee.value == "" {
      return Ignored;
    }
    var device := FindDeviceByIdentifier(devices, ieee.value);
    if device.None? {
      return Ignored;
    }
    var dev := device.value;
    if dev.manufacturer != EgloManufacturer || dev.model != EgloModel {
      return Ignored;
    }
    var result := CreateHelpersForDevice(dev, areas, registered);
    outcome := HelpersProcessed(dev, result);
  }

  /** `check_existing_devices`: on the ZHA component's load event, process
      the helpers of every remote in the registry, in registry order; any
      other component's load event is ignored. */
  method CheckExistingDevices(eventDomain: Option<string>, devices: seq<DeviceEntry>, areas: map<string, string>,
                              registered: set<string>)
    returns (processed: seq<JoinOutcome>)
    ensures eventDomain != Some("zha") ==> processed == []
    ensures eventDomain == Some("zha") ==> |processed| == |Remotes(devices)|
    ensures eventDomain == Some("zha") ==>
              forall k :: 0 <= k < |processed| ==>
                && processed[k].HelpersProcessed?
                && processed[k].device == Remotes(devices)[k]
                && processed[k].result == HelperResult(Remotes(devices)[k], areas, registered)
  {
    processed := [];
    if eventDomain != Some("zha") {
      return;
    }
    var i := 0;
    while i < |devices|
      invariant 0 <= i <= |devices|
      invariant |processed| == |Remotes(devices[..i])|
      invariant forall k :: 0 <= k < |processed| ==>
                  && processed[k].HelpersProcessed?
                  && processed[k].device == Remotes(devices[..i])[k]
                  && processed[k].result == HelperResult(Remotes(devices[..i])[k], areas, registered)
    {
      var device := devices[i];
      assert devices[..i + 1][..i] == devices[..i];
      if device.manufacturer == EgloManufacturer && device.model == EgloModel {
        var result := CreateHelpersForDevice(device, areas, registered);
        processed := processed + [HelpersProcessed(device, result)];
      }
      i := i + 1;
    }
    assert devices[..i] == devices;
  }

  /** The remotes among the devices by manufacturer and model, in registry order. */
  function Remotes(devices: seq<DeviceEntry>): seq<DeviceEntry>
  {
    if devices == [] then []
    else
      var init := devices[..|devices| - 1];
      var last := devices[|devices| - 1];
      Remotes(init) + (if IsEgloRemote(last) then [last] else [])
  }

  /** The startup scan's devices are exactly the registry's remotes: each
      kept device is a remote from the registry, and none is dropped. */
  lemma {:induction false} RemotesAreTheRemotes(devices: seq<DeviceEntry>, d: DeviceEntry)
    ensures d in Remotes(devices) <==> d in devices && IsEgloRemote(d)
  {
    if devices != [] {
      var init := devices[..|devices| - 1];
      var last := devices[|devices| - 1];
      assert devices == init + [last];
      RemotesAreTheRemotes(init, d);
    }
  }

  /** Why unloading failed. */
  datatype UnloadError = KeyError

  /** The integration's slot in `hass.data`: the ids of the config entries
      that were set up; None until the first setup creates the slot. */
  class IntegrationData {
    var entries: Option<set<string>>

    constructor ()
      ensures entries == None
    {
      entries := None;
    }

    /** `async_setup_entry`: create the slot if needed and record the entry. */
    method SetupEntry(entryId: string)
      modifies this
      ensures entries == Some((if old(entries).Some? then old(entries).value else {}) + {entryId})
    {
      var current := if entries.Some? then entries.value else {};
      entries := Some(current + {entryId});
    }

    /** `async_unload_entry`: when the platforms unloaded, remove the
        entry's data and return true; otherwise change nothing and return
        false. Removing an entry that was never recorded raises KeyError. */
    method UnloadEntry(entryId: string, platformsUnloaded: bool) returns (r: Result<bool, UnloadError>)
      modifies this
      ensures !platformsUnloaded ==> r == Success(false) && entries == old(entries)
      ensures platformsUnloaded && old(entries).Some? && entryId in old(entries).value ==>
                r == Success(true) && entries == Some(old(entries).value - {entryId})
      ensures platformsUnloaded && !(old(entries).Some? && entryId in old(entries).value) ==>
                r == Failure(KeyError) && entries == old(entries)
    {
      if !platformsUnloaded {
        return Success(false);
      }
      if entries.None? || entryId !in entries.value {
        return Failure(KeyError);
      }
      entries := Some(entries.value - {entryId});
      r := Success(true);
    }
  }
}
