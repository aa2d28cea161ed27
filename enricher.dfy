/** The context a new ticket is filed with once its company is known: the
    company location, the default contract and the configuration item (device). */
module Enricher {
  import opened Optional
  import opened Seqs
  import opened Text

  // ---------------------------------------------------------------------
  // Location

  datatype Location = Location(id: int, isActive: bool, isPrimary: bool)

  /** The location id a ticket gets when no location was selected. */
  const FallbackLocationId: int := 10

  predicate IsActiveLocation(l: Location)
  {
    l.isActive
  }

  predicate IsPrimary(l: Location)
  {
    l.isPrimary
  }

  predicate IsActivePrimary(l: Location)
  {
    l.isActive && l.isPrimary
  }

  /** Among the active locations, the first primary one, else the first one. */
  function SelectLocation(locations: seq<Location>): Option<Location>
  {
    var active := Filter(locations, IsActiveLocation);
    if active == [] then None
    else
      var primary := Filter(active, IsPrimary);
      if primary != [] then Some(primary[0]) else Some(active[0])
  }

  /** The handler's selection, reassigning its list and its choice step by step. */
  method PickLocation(locations: seq<Location>) returns (location: Option<Location>)
    ensures location == SelectLocation(locations)
  {
    var active := Filter(locations, IsActiveLocation);
    location := None;
    if |active| > 0 {
      var primary := Filter(active, IsPrimary);
      if primary != [] {
        location := Some(primary[0]);
      }
      if location.None? {
        location := Some(active[0]);
      }
    }
  }

  /** The `CompanyLocationID` of the ticket. */
  function LocationId(selected: Option<Location>): int
  {
    match selected
    case None => FallbackLocationId
    case Some(l) => l.id
  }

  /** Only active locations are chosen, and one is chosen whenever one is active.
      The first active primary location wins; without one, the first active
      location does; without any, the ticket gets location id 10. */
  lemma LocationChoice(locations: seq<Location>)
    ensures SelectLocation(locations) == None <==> forall i :: 0 <= i < |locations| ==> !locations[i].isActive
    ensures SelectLocation(locations) == None ==> LocationId(SelectLocation(locations)) == FallbackLocationId
    ensures SelectLocation(locations).Some? ==>
              SelectLocation(locations).value in locations && SelectLocation(locations).value.isActive
    ensures forall j :: 0 <= j < |locations| && IsActivePrimary(locations[j])
                        && (forall i :: 0 <= i < j ==> !IsActivePrimary(locations[i])) ==>
              SelectLocation(locations) == Some(locations[j])
    ensures (forall i :: 0 <= i < |locations| ==> !IsActivePrimary(locations[i])) ==>
              forall j :: 0 <= j < |locations| && locations[j].isActive
                          && (forall i :: 0 <= i < j ==> !locations[i].isActive) ==>
                SelectLocation(locations) == Some(locations[j])
  {
    LocationNone(locations);
    LocationFirstPrimary(locations);
    LocationFirstActive(locations);
  }

  lemma LocationNone(locations: seq<Location>)
    ensures SelectLocation(locations) == None <==> forall i :: 0 <= i < |locations| ==> !locations[i].isActive
    ensures SelectLocation(locations).Some? ==>
              SelectLocation(locations).value in locations && SelectLocation(locations).value.isActive
  {
    var active := Filter(locations, IsActiveLocation);
    if forall i :: 0 <= i < |locations| ==> !locations[i].isActive {
      FilterNone(locations, IsActiveLocation);
    } else {
      var i :| 0 <= i < |locations| && locations[i].isActive;
      assert locations[i] in active;
    }
    if active != [] {
      assert active[0] in active;
      var primary := Filter(active, IsPrimary);
      if primary != [] {
        assert primary[0] in primary;
      }
    }
  }

  lemma LocationFirstPrimary(locations: seq<Location>)
    ensures forall j :: 0 <= j < |locations| && IsActivePrimary(locations[j])
                        && (forall i :: 0 <= i < j ==> !IsActivePrimary(locations[i])) ==>
              SelectLocation(locations) == Some(locations[j])
  {
    FilterCompose(locations, IsActiveLocation, IsPrimary, IsActivePrimary);
    forall j | 0 <= j < |locations| && IsActivePrimary(locations[j])
               && (forall i :: 0 <= i < j ==> !IsActivePrimary(locations[i]))
      ensures SelectLocation(locations) == Some(locations[j])
    {
      FilterFirst(locations, IsActivePrimary, j);
      assert locations[j] in Filter(locations, IsActiveLocation);
    }
  }

  lemma LocationFirstActive(locations: seq<Location>)
    ensures (forall i :: 0 <= i < |locations| ==> !IsActivePrimary(locations[i])) ==>
              forall j :: 0 <= j < |locations| && locations[j].isActive
                          && (forall i :: 0 <= i < j ==> !locations[i].isActive) ==>
                SelectLocation(locations) == Some(locations[j])
  {
    if forall i :: 0 <= i < |locations| ==> !IsActivePrimary(locations[i]) {
      FilterCompose(locations, IsActiveLocation, IsPrimary, IsActivePrimary);
      FilterNone(locations, IsActivePrimary);
      forall j | 0 <= j < |locations| && locations[j].isActive
                 && (forall i :: 0 <= i < j ==> !locations[i].isActive)
        ensures SelectLocation(locations) == Some(locations[j])
      {
        FilterFirst(locations, IsActiveLocation, j);
      }
    }
  }

  // ---------------------------------------------------------------------
  // Contract

  /** The `ContractID` of the ticket: the id of the first default contract the
      company lookup returned, unless there is none or that id is 0. */
  function ContractId(defaultContractIds: seq<int>): Option<int>
  {
    if |defaultContractIds| > 0 && defaultContractIds[0] != 0 then Some(defaultContractIds[0]) else None
  }

  // ---------------------------------------------------------------------
  // Device

  datatype Device = Device(id: int, isActive: bool, externalIp: string)

  const DevicePrefix: string := "Device:"

  /** The device name of the first tag that mentions `Device:`, with that text cut out and trimmed. */
  function DeviceName(tags: seq<string>): Option<string>
  {
    var found := Filter(tags, HasText(DevicePrefix));
    if found == [] then None else Some(Trim(ReplaceFirst(found[0], DevicePrefix, "")))
  }

  predicate IsActiveDevice(d: Device)
  {
    d.isActive
  }

  /** The device has an external address and, trimmed, it is the test's url or its ip. */
  function MatchesTarget(url: string, ip: string): Device -> bool
  {
    (d: Device) => d.externalIp != "" && (Trim(d.externalIp) == url || Trim(d.externalIp) == ip)
  }

  /** The device is active and its address matches the test. */
  function ActiveMatching(url: string, ip: string): Device -> bool
  {
    (d: Device) => d.isActive && MatchesTarget(url, ip)(d)
  }

  /** Active devices; when several, those whose address matches the test, unless none does. */
  function NarrowDevices(devices: seq<Device>, url: string, ip: string): seq<Device>
  {
    var active := Filter(devices, IsActiveDevice);
    if |active| > 1 then
      var matching := Filter(active, MatchesTarget(url, ip));
      if matching != [] then matching else active
    else active
  }

  /** The configuration item of the ticket: the first device left after
      narrowing the company's devices whose title or host name contains the
      device name of the tags. */
  function ResolveDevice(tags: seq<string>, companyId: int, url: string, ip: string,
                         devicesOf: (int, string) -> seq<Device>, useApi: bool): Option<int>
  {
    if !useApi then None
    else
      match DeviceName(tags)
      case None => None
      case Some(name) =>
        var narrowed := NarrowDevices(devicesOf(companyId, name), url, ip);
        if narrowed == [] then None else Some(narrowed[0].id)
  }

  /** Narrowing keeps active devices only, and is empty exactly when none is active. */
  lemma DevicesKeptActive(devices: seq<Device>, url: string, ip: string)
    ensures NarrowDevices(devices, url, ip) == [] <==> forall i :: 0 <= i < |devices| ==> !devices[i].isActive
    ensures forall d :: d in NarrowDevices(devices, url, ip) ==> d in devices && d.isActive
  {
    var active := Filter(devices, IsActiveDevice);
    if forall i :: 0 <= i < |devices| ==> !devices[i].isActive {
      FilterNone(devices, IsActiveDevice);
    } else {
      var i :| 0 <= i < |devices| && devices[i].isActive;
      assert devices[i] in active;
    }
  }

  /** When several devices are active and some of them match the test's
      address, exactly the matching active ones are kept. */
  lemma DevicesMatchingKept(devices: seq<Device>, url: string, ip: string)
    requires |Filter(devices, IsActiveDevice)| > 1
    requires exists d :: d in devices && d.isActive && MatchesTarget(url, ip)(d)
    ensures forall d :: d in NarrowDevices(devices, url, ip) <==>
              d in devices && d.isActive && MatchesTarget(url, ip)(d)
  {
    var active := Filter(devices, IsActiveDevice);
    var d :| d in devices && d.isActive && MatchesTarget(url, ip)(d);
    assert d in active;
    assert d in Filter(active, MatchesTarget(url, ip));
  }

  /** When no active device matches the test's address, all active ones are kept. */
  lemma DevicesNoneMatching(devices: seq<Device>, url: string, ip: string)
    requires forall d :: d in devices && d.isActive ==> !MatchesTarget(url, ip)(d)
    ensures NarrowDevices(devices, url, ip) == Filter(devices, IsActiveDevice)
  {
    var active := Filter(devices, IsActiveDevice);
    forall i | 0 <= i < |active|
      ensures !MatchesTarget(url, ip)(active[i])
    {
      assert active[i] in active;
    }
    FilterNone(active, MatchesTarget(url, ip));
  }

  /** When no active device has an external address, nothing is narrowed by
      address: all active devices are kept. */
  lemma DevicesWithoutAddress(devices: seq<Device>, url: string, ip: string)
    requires forall d :: d in devices && d.isActive ==> d.externalIp == ""
    ensures NarrowDevices(devices, url, ip) == Filter(devices, IsActiveDevice)
  {
    DevicesNoneMatching(devices, url, ip);
  }

  /** The device name, by position: the first tag that mentions `Device:`, with
      that text cut out and trimmed; none when no tag mentions it. */
  lemma DeviceNameDerivation(tags: seq<string>)
    ensures DeviceName(tags) == None <==> forall i :: 0 <= i < |tags| ==> !Includes(tags[i], DevicePrefix)
    ensures forall j :: 0 <= j < |tags| && Includes(tags[j], DevicePrefix)
                        && (forall i :: 0 <= i < j ==> !Includes(tags[i], DevicePrefix)) ==>
              DeviceName(tags) == Some(Trim(ReplaceFirst(tags[j], DevicePrefix, "")))
  {
    var found := Filter(tags, HasText(DevicePrefix));
    if forall i :: 0 <= i < |tags| ==> !Includes(tags[i], DevicePrefix) {
      FilterNone(tags, HasText(DevicePrefix));
    } else {
      var i :| 0 <= i < |tags| && Includes(tags[i], DevicePrefix);
      assert tags[i] in found;
    }
    forall j | 0 <= j < |tags| && Includes(tags[j], DevicePrefix)
               && (forall i :: 0 <= i < j ==> !Includes(tags[i], DevicePrefix))
      ensures DeviceName(tags) == Some(Trim(ReplaceFirst(tags[j], DevicePrefix, "")))
    {
      FilterFirst(tags, HasText(DevicePrefix), j);
    }
  }

  /** With a usable ticketing system and a device name in the tags, the ticket's
      configuration item is the id of an active device the name query returned,
      and there is none exactly when that query returned no active device. When
      several devices are active and one of them matches the test's url or ip,
      it is the first active matching device; otherwise the first active one. */
  lemma DeviceOutcome(tags: seq<string>, companyId: int, url: string, ip: string,
                      devicesOf: (int, string) -> seq<Device>, useApi: bool)
    requires useApi && DeviceName(tags).Some?
    ensures var ds := devicesOf(companyId, DeviceName(tags).value);
            var r := ResolveDevice(tags, companyId, url, ip, devicesOf, useApi);
            && (r == None <==> forall i :: 0 <= i < |ds| ==> !ds[i].isActive)
            && (r.Some? ==> exists d :: d in ds && d.isActive && d.id == r.value)
    ensures var ds := devicesOf(companyId, DeviceName(tags).value);
            forall j :: 0 <= j < |ds| && |Filter(ds, IsActiveDevice)| > 1 && ActiveMatching(url, ip)(ds[j])
                        && (forall i :: 0 <= i < j ==> !ActiveMatching(url, ip)(ds[i])) ==>
              ResolveDevice(tags, companyId, url, ip, devicesOf, useApi) == Some(ds[j].id)
    ensures var ds := devicesOf(companyId, DeviceName(tags).value);
            (|Filter(ds, IsActiveDevice)| <= 1 || forall i :: 0 <= i < |ds| ==> !ActiveMatching(url, ip)(ds[i])) ==>
              forall j :: 0 <= j < |ds| && ds[j].isActive && (forall i :: 0 <= i < j ==> !ds[i].isActive) ==>
                ResolveDevice(tags, companyId, url, ip, devicesOf, useApi) == Some(ds[j].id)
  {
    NarrowedFirst(devicesOf(companyId, DeviceName(tags).value), url, ip);
  }

  /** The device narrowing takes first: an active device, present exactly when
      one is active; by position, the first active matching one when several are
      active and one matches, else the first active one. */
  lemma NarrowedFirst(ds: seq<Device>, url: string, ip: string)
    ensures NarrowDevices(ds, url, ip) == [] <==> forall i :: 0 <= i < |ds| ==> !ds[i].isActive
    ensures NarrowDevices(ds, url, ip) != [] ==>
              NarrowDevices(ds, url, ip)[0] in ds && NarrowDevices(ds, url, ip)[0].isActive
    ensures forall j :: 0 <= j < |ds| && |Filter(ds, IsActiveDevice)| > 1 && ActiveMatching(url, ip)(ds[j])
                        && (forall i :: 0 <= i < j ==> !ActiveMatching(url, ip)(ds[i])) ==>
              NarrowDevices(ds, url, ip) != [] && NarrowDevices(ds, url, ip)[0] == ds[j]
    ensures (|Filter(ds, IsActiveDevice)| <= 1 || forall i :: 0 <= i < |ds| ==> !ActiveMatching(url, ip)(ds[i])) ==>
              forall j :: 0 <= j < |ds| && ds[j].isActive && (forall i :: 0 <= i < j ==> !ds[i].isActive) ==>
                NarrowDevices(ds, url, ip) != [] && NarrowDevices(ds, url, ip)[0] == ds[j]
  {
    var narrowed := NarrowDevices(ds, url, ip);
    DevicesKeptActive(ds, url, ip);
    if narrowed != [] {
      assert narrowed[0] in narrowed;
    }
    forall j | 0 <= j < |ds| && |Filter(ds, IsActiveDevice)| > 1 && ActiveMatching(url, ip)(ds[j])
               && (forall i :: 0 <= i < j ==> !ActiveMatching(url, ip)(ds[i]))
      ensures narrowed != [] && narrowed[0] == ds[j]
    {
      DevicesFirstMatching(ds, url, ip, j);
    }
    if |Filter(ds, IsActiveDevice)| <= 1 || forall i :: 0 <= i < |ds| ==> !ActiveMatching(url, ip)(ds[i]) {
      forall j | 0 <= j < |ds| && ds[j].isActive && (forall i :: 0 <= i < j ==> !ds[i].isActive)
        ensures narrowed != [] && narrowed[0] == ds[j]
      {
        DevicesFirstActive(ds, url, ip, j);
      }
    }
  }

  /** With several active devices, the first active device matching the test
      comes first after narrowing. */
  lemma DevicesFirstMatching(ds: seq<Device>, url: string, ip: string, j: nat)
    requires |Filter(ds, IsActiveDevice)| > 1
    requires j < |ds| && ActiveMatching(url, ip)(ds[j])
    requires forall i :: 0 <= i < j ==> !ActiveMatching(url, ip)(ds[i])
    ensures NarrowDevices(ds, url, ip) != [] && NarrowDevices(ds, url, ip)[0] == ds[j]
  {
    FilterCompose(ds, IsActiveDevice, MatchesTarget(url, ip), ActiveMatching(url, ip));
    FilterFirst(ds, ActiveMatching(url, ip), j);
  }

  /** With at most one active device, or none matching the test, the first
      active device comes first after narrowing. */
  lemma DevicesFirstActive(ds: seq<Device>, url: string, ip: string, j: nat)
    requires |Filter(ds, IsActiveDevice)| <= 1 || forall i :: 0 <= i < |ds| ==> !ActiveMatching(url, ip)(ds[i])
    requires j < |ds| && ds[j].isActive
    requires forall i :: 0 <= i < j ==> !ds[i].isActive
    ensures NarrowDevices(ds, url, ip) != [] && NarrowDevices(ds, url, ip)[0] == ds[j]
  {
    if |Filter(ds, IsActiveDevice)| > 1 {
      forall d | d in ds && d.isActive
        ensures !MatchesTarget(url, ip)(d)
      {
        var i :| 0 <= i < |ds| && ds[i] == d;
        assert !ActiveMatching(url, ip)(ds[i]);
      }
      DevicesNoneMatching(ds, url, ip);
    }
    FilterFirst(ds, IsActiveDevice, j);
  }

  /** Without a usable ticketing system, or without a device name in the tags,
      the ticket has no configuration item. */
  lemma NoDeviceWithoutName(tags: seq<string>, companyId: int, url: string, ip: string,
                            devicesOf: (int, string) -> seq<Device>, useApi: bool)
    requires !useApi || forall i :: 0 <= i < |tags| ==> !Includes(tags[i], DevicePrefix)
    ensures ResolveDevice(tags, companyId, url, ip, devicesOf, useApi) == None
  {
    DeviceNameDerivation(tags);
  }
}
