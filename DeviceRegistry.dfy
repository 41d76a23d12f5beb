/** Device records as the integration reads them from Home Assistant's
    device registry, and the derivations every helper platform shares:
    the manufacturer/model filter, the IEEE address taken from the first
    "zha" identifier, the address without colons, and the area name. */
module DeviceRegistry {
  import opened Common

  const EgloManufacturer: string := "AwoX"
  const EgloModel: string := "ERCU_3groups_Zm"

  /** One `(domain, id)` identifier pair of a device. */
  datatype Identifier = Identifier(domain: string, id: string)

  /** A device registry entry. `identifiers` is a Python set; the sequence
      is the order in which iterating it yields its pairs. */
  datatype DeviceEntry = DeviceEntry(
    manufacturer: string,
    model: string,
    name: string,
    identifiers: seq<Identifier>,
    areaId: Option<string>)

  predicate IsEgloRemote(d: DeviceEntry)
  {
    d.manufacturer == EgloManufacturer && d.model == EgloModel
  }

  /** The value of the first identifier whose domain is "zha". */
  function FirstZhaId(ids: seq<Identifier>): Option<string>
  {
    if ids == [] then None
    else if ids[0].domain == "zha" then Some(ids[0].id)
    else FirstZhaId(ids[1..])
  }

  /** FirstZhaId finds v exactly when some identifier at index i is
      ("zha", v) and no identifier before i has domain "zha". */
  lemma {:induction false} FirstZhaIdIsFirst(ids: seq<Identifier>, v: string)
    ensures FirstZhaId(ids) == Some(v) <==>
              exists i :: 0 <= i < |ids| && ids[i] == Identifier("zha", v)
                          && forall j :: 0 <= j < i ==> ids[j].domain != "zha"
  {
    if ids != [] && ids[0].domain != "zha" {
      FirstZhaIdIsFirst(ids[1..], v);
      if FirstZhaId(ids) == Some(v) {
        var i :| 0 <= i < |ids[1..]| && ids[1..][i] == Identifier("zha", v)
                 && forall j :: 0 <= j < i ==> ids[1..][j].domain != "zha";
        assert ids[i + 1] == Identifier("zha", v);
      }
      if exists i :: 0 <= i < |ids| && ids[i] == Identifier("zha", v)
                     && forall j :: 0 <= j < i ==> ids[j].domain != "zha" {
        var i :| 0 <= i < |ids| && ids[i] == Identifier("zha", v)
                 && forall j :: 0 <= j < i ==> ids[j].domain != "zha";
        assert i > 0;
        assert ids[1..][i - 1] == Identifier("zha", v);
      }
    } else if ids != [] {
      if exists i :: 0 <= i < |ids| && ids[i] == Identifier("zha", v)
                     && forall j :: 0 <= j < i ==> ids[j].domain != "zha" {
        var i :| 0 <= i < |ids| && ids[i] == Identifier("zha", v)
                 && forall j :: 0 <= j < i ==> ids[j].domain != "zha";
        assert i == 0;
      }
    }
  }

  /** FirstZhaId finds nothing exactly when no identifier has domain "zha". */
  lemma {:induction false} FirstZhaIdNone(ids: seq<Identifier>)
    ensures FirstZhaId(ids).None? <==> forall i :: 0 <= i < |ids| ==> ids[i].domain != "zha"
  {
    if ids != [] {
      FirstZhaIdNone(ids[1..]);
      if ids[0].domain != "zha" {
        assert forall i :: 1 <= i < |ids| ==> ids[i] == ids[1..][i - 1];
      }
    }
  }

  /** The identifier loop of the platforms and of the helper creation:
      stop at the first "zha" identifier and take its value. */
  method FindZhaIeee(ids: seq<Identifier>) returns (ieee: Option<string>)
    ensures ieee == FirstZhaId(ids)
  {
    ieee := None;
    var i := 0;
    while i < |ids|
      invariant 0 <= i <= |ids|
      invariant FirstZhaId(ids) == FirstZhaId(ids[i..])
    {
      if ids[i].domain == "zha" {
        ieee := Some(ids[i].id);
        break;
      }
      assert ids[i..][1..] == ids[i + 1..];
      i := i + 1;
    }
  }

  /** The address with every ':' removed (Python's `replace(":", "")`). */
  function RemoveColons(s: string): (r: string)
    ensures ':' !in r
    ensures |r| <= |s|
    ensures ':' !in s ==> r == s
  {
    if s == [] then []
    else if s[0] == ':' then RemoveColons(s[1..])
    else [s[0]] + RemoveColons(s[1..])
  }

  /** Removing colons distributes over concatenation, so the result is the
      original characters other than ':' in their original order. */
  lemma {:induction false} RemoveColonsAppend(a: string, b: string)
    ensures RemoveColons(a + b) == RemoveColons(a) + RemoveColons(b)
  {
    if a != [] {
      assert (a + b)[1..] == a[1..] + b;
      RemoveColonsAppend(a[1..], b);
    } else {
      assert a + b == b;
    }
  }

  /** Removing colons twice is removing them once. */
  lemma RemoveColonsIdempotent(s: string)
    ensures RemoveColons(RemoveColons(s)) == RemoveColons(s)
  {
  }

  /** The characters kept, with their multiplicities: all but the colons. */
  lemma {:induction false} RemoveColonsMultiset(s: string)
    ensures multiset(RemoveColons(s)) == multiset(s)[':' := 0]
  {
    if s != [] {
      RemoveColonsMultiset(s[1..]);
      assert s == [s[0]] + s[1..];
    }
  }

  /** The IEEE address a helper is keyed by: the first "zha" identifier's
      value without colons, or None when that value is missing or empty
      (Python treats both as falsy). */
  function CleanIeee(d: DeviceEntry): Option<string>
  {
    var ieee := FirstZhaId(d.identifiers);
    if Truthy(ieee) then Some(RemoveColons(ieee.value)) else None
  }

  /** A remote the helper platforms build entities for. */
  predicate Qualifies(d: DeviceEntry)
  {
    IsEgloRemote(d) && CleanIeee(d).Some?
  }

  /** The name of the device's area: empty when the device has no (or an
      empty) area id, or the area registry does not know it. */
  function AreaName(d: DeviceEntry, areas: map<string, string>): string
  {
    if Truthy(d.areaId) && d.areaId.value in areas then areas[d.areaId.value] else ""
  }

  /** The unique id of a helper: `eglo_remote_<ieee>_<suffix>`. */
  function UniqueId(ieeeClean: string, suffix: string): string
  {
    "eglo_remote_" + ieeeClean + "_" + suffix
  }

  /** The remotes among the devices, in registry order. */
  function QualifyingDevices(devices: seq<DeviceEntry>): (q: seq<DeviceEntry>)
    ensures |q| <= |devices|
    ensures forall d :: d in q ==> d in devices
    ensures forall k :: 0 <= k < |q| ==> Qualifies(q[k])
  {
    if devices == [] then []
    else
      var rest := QualifyingDevices(devices[..|devices| - 1]);
      var last := devices[|devices| - 1];
      if Qualifies(last) then rest + [last] else rest
  }

  /** No remote is dropped: every qualifying registry device is kept. */
  lemma {:induction false} QualifyingDevicesComplete(devices: seq<DeviceEntry>, d: DeviceEntry)
    requires d in devices && Qualifies(d)
    ensures d in QualifyingDevices(devices)
  {
    var init := devices[..|devices| - 1];
    if d != devices[|devices| - 1] {
      assert devices == init + [devices[|devices| - 1]];
      QualifyingDevicesComplete(init, d);
    }
  }

  /** The registry positions of the remotes: strictly increasing, and
      exactly the positions of the devices that qualify. */
  function QualifyingIndices(devices: seq<DeviceEntry>): (idx: seq<int>)
    ensures forall k :: 0 <= k < |idx| ==> 0 <= idx[k] < |devices|
    ensures forall k1, k2 :: 0 <= k1 < k2 < |idx| ==> idx[k1] < idx[k2]
    ensures forall j :: 0 <= j < |devices| ==> (j in idx <==> Qualifies(devices[j]))
  {
    if devices == [] then []
    else
      var init := devices[..|devices| - 1];
      assert forall j :: 0 <= j < |init| ==> devices[j] == init[j];
      QualifyingIndices(init) + (if Qualifies(devices[|devices| - 1]) then [|devices| - 1] else [])
  }

  /** QualifyingDevices is the order-preserving filter of the registry: its
      k-th device is the device at the k-th position of QualifyingIndices. */
  lemma {:induction false} QualifyingDevicesIsFilter(devices: seq<DeviceEntry>)
    ensures |QualifyingIndices(devices)| == |QualifyingDevices(devices)|
    ensures forall k :: 0 <= k < |QualifyingIndices(devices)| ==>
              devices[QualifyingIndices(devices)[k]] == QualifyingDevices(devices)[k]
  {
    if devices != [] {
      var init := devices[..|devices| - 1];
      var last := devices[|devices| - 1];
      QualifyingDevicesIsFilter(init);
      var idx0, q0 := QualifyingIndices(init), QualifyingDevices(init);
      var idx, q := QualifyingIndices(devices), QualifyingDevices(devices);
      if Qualifies(last) {
        assert idx == idx0 + [|devices| - 1] && q == q0 + [last];
      } else {
        assert idx == idx0 && q == q0;
      }
      forall k | 0 <= k < |idx| ensures devices[idx[k]] == q[k] {
        if k < |idx0| {
          assert idx[k] == idx0[k] && q[k] == q0[k];
          assert devices[idx0[k]] == init[idx0[k]];
        }
      }
    }
  }
}
