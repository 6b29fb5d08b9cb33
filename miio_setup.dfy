/** The Xiaomi Miio integration's entry points: which Home Assistant
    platforms a config entry gets, the status poll with its single retry, and
    what setting up and unloading an entry return and store.

    The model tables (MODELS_SWITCH, MODELS_VACUUM, ...) live in const.py,
    which is not part of this model; they are a `ModelTables` argument. */
module MiioSetup {
  import opened Wrappers
  import opened Strings

  datatype Platform =
    | AirQuality | AlarmControlPanel | BinarySensor | Button | Fan | Humidifier
    | Light | Number | Select | Sensor | Switch | Vacuum

  const COMMON_PLATFORMS: set<Platform> := {Sensor, BinarySensor, Button, Number, Select, Switch}
  const GATEWAY_PLATFORMS: set<Platform> := {AlarmControlPanel, Light}
  const SWITCH_PLATFORMS: set<Platform> := {}
  const FAN_PLATFORMS: set<Platform> := {Fan}
  const HUMIDIFIER_PLATFORMS: set<Platform> := {Humidifier}
  const LIGHT_PLATFORMS: set<Platform> := {Light}
  const VACUUM_PLATFORMS: set<Platform> := {Vacuum}
  const AIR_MONITOR_PLATFORMS: set<Platform> := {AirQuality}

  /** The entry's CONF_FLOW_TYPE. */
  datatype FlowType = Gateway | Device | OtherFlow(name: string)

  /** MODELS_SWITCH, MODELS_HUMIDIFIER, MODELS_FAN and MODELS_LIGHT are
      matched exactly; MODELS_VACUUM and MODELS_AIR_MONITOR by prefix. */
  datatype ModelTables = ModelTables(
    switch: seq<string>, humidifier: seq<string>, fan: seq<string>, light: seq<string>,
    vacuum: seq<string>, airMonitor: seq<string>)

  /** `hass.data[DOMAIN][entry_id]`: a device entry holds the miio device
      (only whether it implements VacuumInterface matters here); a gateway
      entry holds the gateway and no device. */
  datatype EntryData = DeviceEntry(isVacuum: bool) | GatewayEntry

  datatype SetupError = KeyError | DeviceException

  /** Some prefix in `prefixes` starts `model` (the `for ... startswith` loops). */
  function HasPrefixIn(model: string, prefixes: seq<string>): (b: bool)
    ensures b <==> exists i :: 0 <= i < |prefixes| && StartsWith(model, prefixes[i])
    decreases |prefixes|
  {
    if prefixes == [] then false
    else
      var rest := HasPrefixIn(model, prefixes[1..]);
      assert forall i :: 1 <= i < |prefixes| ==> prefixes[1..][i - 1] == prefixes[i];
      StartsWith(model, prefixes[0]) || rest
  }

  /** The device-flow decision: exact membership in the switch, humidifier,
      fan and light tables, then a vacuum prefix, then an air-monitor prefix;
      the first match wins. */
  function ModelPlatforms(model: string, t: ModelTables): set<Platform> {
    if model in t.switch then SWITCH_PLATFORMS + COMMON_PLATFORMS
    else if model in t.humidifier then HUMIDIFIER_PLATFORMS + COMMON_PLATFORMS
    else if model in t.fan then FAN_PLATFORMS + COMMON_PLATFORMS
    else if model in t.light then LIGHT_PLATFORMS + COMMON_PLATFORMS
    else if HasPrefixIn(model, t.vacuum) then VACUUM_PLATFORMS + COMMON_PLATFORMS
    else if HasPrefixIn(model, t.airMonitor) then AIR_MONITOR_PLATFORMS + COMMON_PLATFORMS
    else COMMON_PLATFORMS
  }

  /** `get_platforms` with the device looked up only where it is used, after
      the gateway test. */
  function GetPlatforms(flow: FlowType, model: string, isVacuum: bool, t: ModelTables): (r: set<Platform>)
    ensures COMMON_PLATFORMS <= r
    ensures flow == Gateway ==> r == GATEWAY_PLATFORMS + COMMON_PLATFORMS
    ensures flow != Gateway && isVacuum ==> r == COMMON_PLATFORMS + {Vacuum}
  {
    if flow == Gateway then GATEWAY_PLATFORMS + COMMON_PLATFORMS
    else if isVacuum then COMMON_PLATFORMS + {Vacuum}
    else if flow == Device then ModelPlatforms(model, t)
    else COMMON_PLATFORMS
  }

  /** `get_platforms` as written: it reads `hass.data[DOMAIN][entry_id][KEY_DEVICE]`
      before testing the flow type, and a gateway entry stores no KEY_DEVICE. */
  function GetPlatformsAsWritten(data: EntryData, flow: FlowType, model: string, t: ModelTables)
    : Result<set<Platform>, SetupError>
  {
    match data
    case GatewayEntry => Err(KeyError)
    case DeviceEntry(isVacuum) =>
      if flow == Gateway then Ok(GATEWAY_PLATFORMS + COMMON_PLATFORMS)
      else if isVacuum then Ok(COMMON_PLATFORMS + {Vacuum})
      else if flow == Device then Ok(ModelPlatforms(model, t))
      else Ok(COMMON_PLATFORMS)
  }

  /** As written, asking for a gateway entry's platforms raises KeyError, so
      its gateway branch is never reached; the corrected lookup returns the
      gateway platforms. On device entries the two agree. */
  lemma GatewayPlatformsLookup(model: string, t: ModelTables, flow: FlowType, isVacuum: bool)
    ensures GetPlatformsAsWritten(GatewayEntry, Gateway, model, t) == Err(KeyError)
    ensures GetPlatforms(Gateway, model, false, t) == GATEWAY_PLATFORMS + COMMON_PLATFORMS
    ensures GetPlatformsAsWritten(DeviceEntry(isVacuum), flow, model, t) == Ok(GetPlatforms(flow, model, isVacuum, t))
  {
  }

  /** The order of the device-flow checks: an exact table hit wins over any
      prefix, a vacuum prefix over an air-monitor prefix. */
  lemma DeviceFlowOrder(model: string, t: ModelTables)
    ensures model in t.switch ==> GetPlatforms(Device, model, false, t) == COMMON_PLATFORMS
    ensures model !in t.switch && model in t.humidifier ==>
      GetPlatforms(Device, model, false, t) == COMMON_PLATFORMS + {Humidifier}
    ensures model !in t.switch && model !in t.humidifier && model in t.fan ==>
      GetPlatforms(Device, model, false, t) == COMMON_PLATFORMS + {Fan}
    ensures model !in t.switch && model !in t.humidifier && model !in t.fan && model in t.light ==>
      GetPlatforms(Device, model, false, t) == COMMON_PLATFORMS + {Light}
    ensures model !in t.switch + t.humidifier + t.fan + t.light ==>
      GetPlatforms(Device, model, false, t) ==
        if exists i :: 0 <= i < |t.vacuum| && StartsWith(model, t.vacuum[i]) then COMMON_PLATFORMS + {Vacuum}
        else if exists i :: 0 <= i < |t.airMonitor| && StartsWith(model, t.airMonitor[i]) then COMMON_PLATFORMS + {AirQuality}
        else COMMON_PLATFORMS
  {
  }

  /** A model no table matches gets exactly the common platforms. */
  lemma UnmatchedModelIsCommon(model: string, t: ModelTables)
    requires model !in t.switch + t.humidifier + t.fan + t.light
    requires forall i :: 0 <= i < |t.vacuum| ==> !StartsWith(model, t.vacuum[i])
    requires forall i :: 0 <= i < |t.airMonitor| ==> !StartsWith(model, t.airMonitor[i])
    ensures GetPlatforms(Device, model, false, t) == COMMON_PLATFORMS
  {
  }

  /** One `device.status()` call inside the polling timeout. */
  datatype Fetch<S> = Fetched(status: S) | DeviceError(code: Option<int>) | TimedOut

  /** What the coordinator's update method raises. */
  datatype UpdateError = UpdateFailed(code: Option<int>) | Timeout

  /** `_async_update_data_default`: the status, or the exception raised, and
      how many fetches were made. A DeviceException whose code is -9999 is
      retried once; any other code, or a failing retry, raises UpdateFailed.
      A timeout is not a DeviceException and propagates as it is. */
  function UpdateData<S>(first: Fetch<S>, second: Fetch<S>): (r: (Result<S, UpdateError>, nat))
    ensures r.1 == 2 <==> first == DeviceError(Some(-9999))
    ensures r.1 == 1 || r.1 == 2
    ensures r.0.Ok? <==> first.Fetched? || (r.1 == 2 && second.Fetched?)
    ensures first.Fetched? ==> r == (Ok(first.status), 1)
    ensures first.TimedOut? ==> r == (Err(Timeout), 1)
    ensures first.DeviceError? && first.code != Some(-9999) ==> r == (Err(UpdateFailed(first.code)), 1)
    ensures r.1 == 2 && second.Fetched? ==> r.0 == Ok(second.status)
    ensures r.1 == 2 && second.TimedOut? ==> r.0 == Err(Timeout)
    ensures r.1 == 2 && second.DeviceError? ==> r.0 == Err(UpdateFailed(second.code))
  {
    match first
    case Fetched(s) => (Ok(s), 1)
    case TimedOut => (Err(Timeout), 1)
    case DeviceError(code) =>
      if code != Some(-9999) then (Err(UpdateFailed(code)), 1)
      else
        match second
        case Fetched(s) => (Ok(s), 2)
        case TimedOut => (Err(Timeout), 2)
        case DeviceError(code2) => (Err(UpdateFailed(code2)), 2)
  }

  /** The second fetch only matters after a -9999 error. */
  lemma RetryOnlyAfterMinus9999<S>(first: Fetch<S>, second: Fetch<S>, other: Fetch<S>)
    requires first != DeviceError(Some(-9999))
    ensures UpdateData(first, second) == UpdateData(first, other)
  {
  }

  /** `async_setup_entry`'s result: True for a gateway entry and for any
      flow that is neither gateway nor device; the device setup's result for
      a device entry. */
  function SetupEntryResult(flow: FlowType, deviceSetupResult: bool): (r: bool)
    ensures flow != Device ==> r
    ensures flow == Device ==> r == deviceSetupResult
  {
    if flow == Gateway then true
    else flow != Device || deviceSetupResult
  }

  /** `async_setup_device_entry` returns False only for an empty platform
      set, and get_platforms never returns one: device setup that does not
      raise always reports success. */
  lemma DeviceSetupSucceeds(model: string, isVacuum: bool, t: ModelTables)
    ensures GetPlatforms(Device, model, isVacuum, t) != {}
    ensures SetupEntryResult(Device, GetPlatforms(Device, model, isVacuum, t) != {})
  {
    assert Sensor in GetPlatforms(Device, model, isVacuum, t);
  }

  /** The integration's slice of `hass.data`: entry id to stored data. */
  class DomainData {
    var entries: map<string, EntryData>

    constructor()
      ensures entries == map[]
    {
      entries := map[];
    }

    /** `async_setup_entry`. `created` is what `DeviceFactory.create` gave
        (None: it raised DeviceException); gateway connection is not modelled. */
    method SetupEntry(entryId: string, flow: FlowType, model: string, created: Option<bool>, t: ModelTables)
      returns (r: Result<bool, SetupError>)
      modifies this
      ensures flow == Gateway ==> r == Ok(true) && entries == old(entries)[entryId := GatewayEntry]
      ensures flow.OtherFlow? ==> r == Ok(true) && entries == old(entries)
      ensures flow == Device && created.None? ==> r == Err(DeviceException) && entries == old(entries)
      ensures flow == Device && created.Some? ==>
        r == Ok(true) && entries == old(entries)[entryId := DeviceEntry(created.value)]
    {
      if flow == Gateway {
        entries := entries[entryId := GatewayEntry];
        return Ok(true);
      }
      if flow != Device {
        return Ok(true);
      }
      if created.None? {
        return Err(DeviceException);
      }
      entries := entries[entryId := DeviceEntry(created.value)];
      var platforms := GetPlatforms(flow, model, created.value, t);
      DeviceSetupSucceeds(model, created.value, t);
      return Ok(SetupEntryResult(flow, platforms != {}));
    }

    /** `async_unload_entry`: unloads the entry's platforms and forgets its
        data only when that succeeded (`unloadOk`). */
    method UnloadEntry(entryId: string, flow: FlowType, model: string, t: ModelTables, unloadOk: bool)
      returns (r: Result<(bool, set<Platform>), SetupError>)
      modifies this
      ensures entryId !in old(entries) ==> r == Err(KeyError) && entries == old(entries)
      ensures entryId in old(entries) ==> r.Ok? && r.value.0 == unloadOk
      ensures entryId in old(entries) ==>
        r.value.1 == GetPlatforms(flow, model, old(entries)[entryId] == DeviceEntry(true), t)
      ensures entryId in old(entries) ==>
        entries == if unloadOk then old(entries) - {entryId} else old(entries)
    {
      if entryId !in entries {
        return Err(KeyError);
      }
      var isVacuum := entries[entryId] == DeviceEntry(true);
      var platforms := GetPlatforms(flow, model, isVacuum, t);
      if unloadOk {
        entries := entries - {entryId};
      }
      return Ok((unloadOk, platforms));
    }
  }
}
