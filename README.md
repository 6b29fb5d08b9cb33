# Home Assistant adapters: ubus tracker, Xiaomi Miio, SamyGO

A Dafny model of the logic these Home Assistant integrations run between
their calls into device SDKs. Each proof holds whatever the SDK or network
returns.

- **OpenWRT ubus device tracker.** Parses dnsmasq lease files into a map
  keyed by upper-cased MAC. Merges the lease maps of several files and the
  client lists of several wireless interfaces; the later one wins. Answers
  `scan_devices` and `get_device_name`.
- **Xiaomi Miio integration.** Decides which platforms a config entry
  gets. Retries a status poll once after error -9999. Reports what setting
  up and unloading an entry return and store.
- **Xiaomi robot vacuum entity.**
  - Translates the device state (a stuck error stays shown).
  - Maps fan-speed presets to speed values and back.
  - Resolves a fan speed given by name or number.
  - Normalises segment arguments.
  - Appends the repeat count to each zone in place.
  - Refreshes after a device command only when it succeeded.
- **Xiaomi Miio binary sensors.** Picks the sensors for a model. Creates
  entities in table order. Works out the value each sensor reports.
- **Xiaomi switch and select entities.** Their state is overwritten by
  polls, and set optimistically only after a command the device accepted.
- **SamyGO TV media player.** The request parameters it sends. The state,
  volume, mute flag and title derived from the last channel info,
  including the Python `defaultdict` the info starts as.

The modules, one per source file:

- `Ubus` (`ubus.dfy`)
- `Vacuum` (`vacuum.dfy`)
- `MiioSetup` (`miio_setup.dfy`)
- `BinarySensor` (`binary_sensor.dfy`)
- `NgSwitch` (`ng_switch.dfy`)
- `NgSelect` (`ng_select.dfy`)
- `SamyGO` (`samygo.dfy`)

Shared helpers:

- `Wrappers`: Option and Result.
- `Strings`: the CPython semantics of `split(" ")`, `splitlines()`,
  `upper()`, `int()`, `startswith` and substring `in`.
- `Keyed`: a dict built from key/value pairs, where the last writer wins.
- `MiioValues`: polled values, Python truthiness, and the attribute
  extractor.

Where the source changes state in place it is modelled as a class:

- the scanner;
- the vacuum, with its command log;
- the integration's `hass.data` slice;
- the binary sensor;
- the switch and select entities;
- the TV.

Each such method is proved against the pure functions that specify it.

## Model

| member | source | states |
|---|---|---|
| Strings.SplitLinesTerminated | homeassistant/components/device_tracker/ubus.py:122 | `splitlines()` of a newline-terminated file gives back exactly the lines written, empty ones included |
| Strings.JoinSplit | homeassistant/components/device_tracker/ubus.py:123 | joining the fields of `split(" ")` with a space gives the text back |
| Strings.SplitJoin | homeassistant/components/device_tracker/ubus.py:123 | splitting the space-join of space-free fields gives the same fields back |
| Strings.UpperIsUpper | homeassistant/components/device_tracker/ubus.py:124 | `upper()` yields a string with no lower-case letter, and leaves exactly such strings unchanged |
| Strings.ParseIntOfIntToString | homeassistant/components/xiaomi_miio/vacuum.py:281 | `int(str(n)) == n` for every integer |
| Strings.ParseIntRejects | homeassistant/components/xiaomi_miio/vacuum.py:280-288 | text with a character that is neither a digit nor a sign is not an integer (ValueError) |
| Strings.SplitHead | homeassistant/components/media_player/samygo.py:163 | the first field of a split is the text up to the first separator, and all of it when there is none |
| Ubus.ParseLease | homeassistant/components/device_tracker/ubus.py:123 | `Lease(*line.split(" "))`: a lease from exactly five space-separated fields, else a malformed-line error; ParseFormatLease and ParseLeaseArity state its round trips |
| Ubus.ParseLeases | homeassistant/components/device_tracker/ubus.py:122-123 | the leases of the lines in order, or the first malformed line's error; PrefixErrorIsFinal states that an error is final |
| Ubus.LeaseMap | homeassistant/components/device_tracker/ubus.py:119-126 | the lease map of one file's text; DnsmasqLeases is proved equal to it and LeaseMapKeys states its keys and values |
| Ubus.ParseFormatLease | homeassistant/components/device_tracker/ubus.py:34-41 | a lease line dnsmasq writes parses back into the same five fields, in the order expires, mac, ip, hostname, client_id |
| Ubus.ParseLeaseArity | homeassistant/components/device_tracker/ubus.py:123 | a line is accepted exactly when it has five space-separated fields, and the lease it gives prints back to the line |
| Ubus.DnsmasqLeases | homeassistant/components/device_tracker/ubus.py:119-126 | the loop builds the map of each line's lease under its upper-cased MAC, and a malformed line raises |
| Ubus.LeaseMapKeys | homeassistant/components/device_tracker/ubus.py:122-124 | the lease-map keys are exactly the upper-cased MACs of the lease lines, all upper-case, each holding a lease with that MAC; a MAC's entry is its last lease line |
| Ubus.ConfiguredLeaseFileOnly | homeassistant/components/device_tracker/ubus.py:139-142 | with a configured lease file, the leases depend only on that file and not on the UCI list or other files |
| Ubus.MergeLeaseFiles | homeassistant/components/device_tracker/ubus.py:143-150 | merges each file's lease map into the accumulated map in order; an unreadable file ends the merge with what was gathered; a malformed line raises |
| Ubus.MergeKeeps | homeassistant/components/device_tracker/ubus.py:143-144 | a MAC that none of the remaining files lists keeps its accumulated lease through the merge |
| Ubus.MergeLastWins | homeassistant/components/device_tracker/ubus.py:143-144 | after merging, a MAC has the lease of the last file that lists it, for any position of that file in the list |
| Ubus.Leases | homeassistant/components/device_tracker/ubus.py:128-150 | `_get_leases` without odhcpd: empty on an invalid session or unreadable UCI list, else the merge of the lease files; ConfiguredLeaseFileOnly and LaterFileWins state its properties |
| Ubus.LaterFileWins | homeassistant/components/device_tracker/ubus.py:139-144 | for any UCI-listed file j that is readable after readable files, a MAC it lists that no later file lists keeps file j's lease in the merged map |
| Ubus.UbusDeviceScanner.GetLeases | homeassistant/components/device_tracker/ubus.py:128-150 | the loop merges each file's map in order; an unreadable file ends the merge with what was gathered; a malformed line raises |
| Ubus.ClientMap | homeassistant/components/device_tracker/ubus.py:92 | an interface's client map has exactly the `mac` fields of its association list as keys |
| Ubus.NetworkInterfaces | homeassistant/components/device_tracker/ubus.py:72-82 | the router's interface list, or empty when it cannot be read; NoInterfacesNoClients states the consequence |
| Ubus.ReadablePrefix | homeassistant/components/device_tracker/ubus.py:88-96 | clients are gathered from the interfaces before the first one whose association list raises |
| Ubus.MergeClientsKeys | homeassistant/components/device_tracker/ubus.py:90-92 | the merged client map holds exactly the MACs that some interface reported |
| Ubus.MergeClients | homeassistant/components/device_tracker/ubus.py:90-92 | the client maps of the interfaces merged in order; MergeClientsKeys and LaterInterfaceWins state its keys and which record wins |
| Ubus.ConnectedDevices | homeassistant/components/device_tracker/ubus.py:84-98 | the merged clients of the interfaces before the first unreadable one, empty on an invalid session; GetConnectedDevices is proved equal to it |
| Ubus.LaterInterfaceWins | homeassistant/components/device_tracker/ubus.py:90-92 | for any interface j, a MAC it reports that no later interface reports has interface j's record in the merged map |
| Ubus.NoInterfacesNoClients | homeassistant/components/device_tracker/ubus.py:75-82 | when the interface list cannot be read it is empty, so no client is ever found |
| Ubus.UbusDeviceScanner.constructor | homeassistant/components/device_tracker/ubus.py:59-70 | the scanner keeps the optional lease file, the interfaces read at start-up, and whether the session was valid |
| Ubus.UbusDeviceScanner.GetConnectedDevices | homeassistant/components/device_tracker/ubus.py:84-98 | the loop's `clients.update` per interface gives the merged client map of the readable interfaces |
| Ubus.UbusDeviceScanner.ScanDevices | homeassistant/components/device_tracker/ubus.py:152-154 | the scanned devices are exactly the key set of the connected-client map |
| Ubus.UbusDeviceScanner.GetDeviceName | homeassistant/components/device_tracker/ubus.py:156-160 | the hostname leased to the MAC when it is a lease key, else None; a lease error raises |
| Ubus.DeviceName | homeassistant/components/device_tracker/ubus.py:159-160 | the result is present exactly when the MAC is a lease key, and is that lease's hostname |
| Ubus.LowerCaseMacUnknown | homeassistant/components/device_tracker/ubus.py:159-160 | a MAC given with a lower-case letter is never found, because the keys are upper-cased and the lookup is not |
| Vacuum.VacuumStateToHass | homeassistant/components/xiaomi_miio/vacuum.py:391-404 | the six known device states map to a Home Assistant state, and only an unknown state maps to None |
| Vacuum.VacuumStateTableInverse | homeassistant/components/xiaomi_miio/vacuum.py:392-399 | the state table is one-to-one: each Home Assistant state comes from exactly one device state |
| Vacuum.DisplayedState | homeassistant/components/xiaomi_miio/vacuum.py:199-206 | an Error report is shown as Error whatever was cached; otherwise the cached state is shown |
| Vacuum.DisplayedAfterUpdate | homeassistant/components/xiaomi_miio/vacuum.py:199-206 | after an update the shown state is the table image of the reported state, and None only for an unknown state |
| Vacuum.FanSpeedList | homeassistant/components/xiaomi_miio/vacuum.py:219-222 | the fan-speed list is the preset names in table order |
| Vacuum.ReversePresets | homeassistant/components/xiaomi_miio/vacuum.py:187-190 | the reverse map's keys are the preset speeds, and each maps to a preset with that speed |
| Vacuum.PresetValue | homeassistant/components/xiaomi_miio/vacuum.py:277-278 | a name has a preset value exactly when some preset has that name |
| Vacuum.ReverseLooksUp | homeassistant/components/xiaomi_miio/vacuum.py:187-190 | the reverse map inverts the presets: the name it gives a speed looks that speed up again |
| Vacuum.ReverseNames | homeassistant/components/xiaomi_miio/vacuum.py:187-190 | with distinct speeds, every preset's speed is in the reverse map and is named by that preset |
| Vacuum.FanSpeedName | homeassistant/components/xiaomi_miio/vacuum.py:213-217 | the fan speed is the preset name of the current speed, or "Custom" |
| Vacuum.FanSpeedOfUnknownSpeed | homeassistant/components/xiaomi_miio/vacuum.py:216-217 | a speed no preset has is shown as "Custom" |
| Vacuum.ResolveFanSpeed | homeassistant/components/xiaomi_miio/vacuum.py:277-288 | the speed `async_set_fan_speed` sends: a preset's value, else the integer the text spells, else none; ResolveFanSpeedCases states the three cases |
| Vacuum.ResolveFanSpeedCases | homeassistant/components/xiaomi_miio/vacuum.py:277-288 | a preset name sends its value; an integer string sends its value; any other text sends nothing |
| Vacuum.DisplayedFanSpeedRoundTrip | homeassistant/components/xiaomi_miio/vacuum.py:213-291 | setting the fan speed to the displayed preset name sends the speed the device reported |
| Vacuum.ExtraStateAttributes | homeassistant/components/xiaomi_miio/vacuum.py:237-245 | the attributes are only "status", holding the status text, because the timers list is always empty |
| Vacuum.NormaliseSegments | homeassistant/components/xiaomi_miio/vacuum.py:363-366 | a single segment becomes a one-element list, and a list passes unchanged |
| Vacuum.WithRepeats | homeassistant/components/xiaomi_miio/vacuum.py:376-377 | every zone keeps its coordinates in order and gains the repeat count as its last element |
| Vacuum.MiroboVacuum.constructor | homeassistant/components/xiaomi_miio/vacuum.py:178-191 | given presets with distinct names (a dict), the reverse preset map is built from them, and the cached state starts as None |
| Vacuum.MiroboVacuum.TryCommand | homeassistant/components/xiaomi_miio/vacuum.py:247-256 | the command is sent; the method returns True and refreshes on success, and returns False without refreshing on DeviceException |
| Vacuum.MiroboVacuum.Start | homeassistant/components/xiaomi_miio/vacuum.py:258-262 | sends resume_or_start through the command wrapper |
| Vacuum.MiroboVacuum.PauseCleaning | homeassistant/components/xiaomi_miio/vacuum.py:264-266 | sends pause through the command wrapper |
| Vacuum.MiroboVacuum.StopCleaning | homeassistant/components/xiaomi_miio/vacuum.py:268-270 | sends stop through the command wrapper |
| Vacuum.MiroboVacuum.ReturnToBase | homeassistant/components/xiaomi_miio/vacuum.py:293-295 | sends home through the command wrapper |
| Vacuum.MiroboVacuum.CleanSpot | homeassistant/components/xiaomi_miio/vacuum.py:297-301 | sends spot through the command wrapper |
| Vacuum.MiroboVacuum.Locate | homeassistant/components/xiaomi_miio/vacuum.py:303-305 | sends find through the command wrapper |
| Vacuum.MiroboVacuum.SendCommand | homeassistant/components/xiaomi_miio/vacuum.py:307-316 | sends raw_command with the command and its parameters |
| Vacuum.MiroboVacuum.RemoteControlStart | homeassistant/components/xiaomi_miio/vacuum.py:318-322 | sends manual_start |
| Vacuum.MiroboVacuum.RemoteControlStop | homeassistant/components/xiaomi_miio/vacuum.py:324-328 | sends manual_stop |
| Vacuum.MiroboVacuum.RemoteControlMove | homeassistant/components/xiaomi_miio/vacuum.py:330-340 | sends manual_control with velocity, rotation and duration, each defaulting to 0.3, 0 and 1500 when not given |
| Vacuum.MiroboVacuum.RemoteControlMoveStep | homeassistant/components/xiaomi_miio/vacuum.py:342-352 | sends manual_control_once with velocity, rotation and duration, each defaulting to 0.2, 0 and 1500 when not given |
| Vacuum.MiroboVacuum.GotoTarget | homeassistant/components/xiaomi_miio/vacuum.py:354-361 | sends goto with the coordinates |
| Vacuum.MiroboVacuum.SetFanSpeedByName | homeassistant/components/xiaomi_miio/vacuum.py:272-291 | sends set_fan_speed with the resolved speed, and sends nothing when the text is neither a preset nor an integer |
| Vacuum.MiroboVacuum.CleanSegment | homeassistant/components/xiaomi_miio/vacuum.py:363-372 | sends segment_clean with the normalised segment list |
| Vacuum.MiroboVacuum.CleanZone | homeassistant/components/xiaomi_miio/vacuum.py:374-383 | the loop appends the repeat count to every zone in place; the extended zones are sent, with a refresh only on success |
| Vacuum.MiroboVacuum.HandleCoordinatorUpdate | homeassistant/components/xiaomi_miio/vacuum.py:385-406 | stores the polled status, and the cached and shown state become the table image of its device state |
| MiioSetup.HasPrefixIn | homeassistant/components/xiaomi_miio/__init__.py:114-119 | true exactly when some listed model name starts the model |
| MiioSetup.ModelPlatforms | homeassistant/components/xiaomi_miio/__init__.py:105-128 | the device-flow table decision; DeviceFlowOrder and UnmatchedModelIsCommon state its order and fallback |
| MiioSetup.GetPlatforms | homeassistant/components/xiaomi_miio/__init__.py:85-128 | every result contains the common platforms; a gateway gets GATEWAY ∪ COMMON; a vacuum device gets COMMON ∪ {VACUUM}, before any model test |
| MiioSetup.GetPlatformsAsWritten | homeassistant/components/xiaomi_miio/__init__.py:85-128 | `get_platforms` as written, reading the device before the flow test; GatewayPlatformsLookup shows it raises KeyError for a gateway entry |
| MiioSetup.GatewayPlatformsLookup | homeassistant/components/xiaomi_miio/__init__.py:87-92 | as written, a gateway entry raises KeyError before its gateway branch; on device entries the written and corrected versions agree |
| MiioSetup.DeviceFlowOrder | homeassistant/components/xiaomi_miio/__init__.py:105-119 | device-flow checks run in order (switch, humidifier, fan, light, then vacuum prefix, then air-monitor prefix) and the first match wins |
| MiioSetup.UnmatchedModelIsCommon | homeassistant/components/xiaomi_miio/__init__.py:121-128 | a model no table matches gets exactly the common platforms |
| MiioSetup.UpdateData | homeassistant/components/xiaomi_miio/__init__.py:131-152 | a successful fetch returns its status; a second fetch happens exactly after error -9999, and its status or error is the result; any other code, or a failed retry, raises UpdateFailed with that code; a timeout propagates |
| MiioSetup.RetryOnlyAfterMinus9999 | homeassistant/components/xiaomi_miio/__init__.py:142-152 | unless the first fetch failed with -9999, the second fetch has no influence on the result |
| MiioSetup.SetupEntryResult | homeassistant/components/xiaomi_miio/__init__.py:70-81 | True for the gateway flow and for non-device flows; the device setup's result for the device flow |
| MiioSetup.DeviceSetupSucceeds | homeassistant/components/xiaomi_miio/__init__.py:268-279 | a device setup that does not raise always returns True, since its platform set is never empty |
| MiioSetup.DomainData.constructor | homeassistant/components/xiaomi_miio/__init__.py:72 | the integration's data starts empty |
| MiioSetup.DomainData.SetupEntry | homeassistant/components/xiaomi_miio/__init__.py:70-81 | a gateway entry stores gateway data and returns True; a device entry stores the device, or raises when creation failed; other flows store nothing and return True |
| MiioSetup.DomainData.UnloadEntry | homeassistant/components/xiaomi_miio/__init__.py:282-293 | returns the platform-unload result, and the entry's data is removed only when the unload succeeded; the platforms unloaded are those of the corrected MiioSetup.GetPlatforms, so a gateway entry unloads instead of raising KeyError as written (see Findings) |
| BinarySensor.SensorKeysByModel | homeassistant/components/xiaomi_miio/binary_sensor.py:99-111 | following the elif order: A1/T2017 get ptc_status, ZA5 powersupply_attached, MIIO, MIOT and MJJSQ humidifiers their own lists, other models none; no_water exactly for MJJSQ models not matched earlier, and water_tank_detached exactly for humidifiers not matched earlier |
| BinarySensor.PartialModelGetsPtcSensor | homeassistant/components/xiaomi_miio/binary_sensor.py:102 | as written, any piece of the A1 model name is given ptc_status; with equality it is not |
| BinarySensor.EmptyModelGetsPtcSensor | homeassistant/components/xiaomi_miio/binary_sensor.py:102 | the empty model string is given ptc_status as written, and not with equality |
| BinarySensor.SensorKeys | homeassistant/components/xiaomi_miio/binary_sensor.py:99-111 | the sensor keys of a model with the single-model tests as equality; SensorKeysByModel states the mapping |
| BinarySensor.SensorKeysAsWritten | homeassistant/components/xiaomi_miio/binary_sensor.py:102-104 | the sensor keys with the single-model tests as substring tests; PartialModelGetsPtcSensor exhibits the difference |
| BinarySensor.GenericEntity | homeassistant/components/xiaomi_miio/binary_sensor.py:116-120 | a generic entity's unique id is the key, "_" and the entry's unique id |
| BinarySensor.GenericEntities | homeassistant/components/xiaomi_miio/binary_sensor.py:113-124 | the generic entities of the selected descriptions in table order; GenericEntitiesSelected states which are created |
| BinarySensor.GenericEntitiesSelected | homeassistant/components/xiaomi_miio/binary_sensor.py:113-124 | an entity is created for exactly the descriptions whose key was selected |
| BinarySensor.GenericEntitiesByKeys | homeassistant/components/xiaomi_miio/binary_sensor.py:54-124 | the entities each sensor-key set yields, listed in description-table order |
| BinarySensor.SdkEntities | homeassistant/components/xiaomi_miio/binary_sensor.py:126-136 | the setup fails exactly when a binary sensor's attribute is missing; otherwise the entities are exactly the binary sensors whose value is not None, in the SDK's order |
| BinarySensor.ShownSensors | homeassistant/components/xiaomi_miio/binary_sensor.py:128-132 | the sensors kept are exactly the binary ones with a value that is not None, in order |
| BinarySensor.ShownSensorsAppend | homeassistant/components/xiaomi_miio/binary_sensor.py:128-136 | the sensors kept keep the SDK's order: those kept from a list split in two are the first part's, then the second part's |
| BinarySensor.AsSdkEntities | homeassistant/components/xiaomi_miio/binary_sensor.py:134-136 | one SDK entity per kept sensor, in the same order |
| BinarySensor.SetupEntities | homeassistant/components/xiaomi_miio/binary_sensor.py:91-138 | no entities for a non-device entry; otherwise the generic entities, then the SDK entities; AsyncSetupEntry is proved equal to it; the sensor keys are those of the corrected BinarySensor.SensorKeys, which compares the single model names for equality (see Findings) |
| BinarySensor.AsyncSetupEntry | homeassistant/components/xiaomi_miio/binary_sensor.py:91-138 | the two loops build the generic entities, then the SDK entities; a non-device entry gets none; on the corrected BinarySensor.SensorKeys (see Findings) |
| BinarySensor.DetermineNativeValue | homeassistant/components/xiaomi_miio/binary_sensor.py:162-176 | the value a description reports; NativeValueMeaning states it against the raw value |
| BinarySensor.NativeValueMeaning | homeassistant/components/xiaomi_miio/binary_sensor.py:162-176 | None passes through; a negated sensor is on exactly when the raw value is false; a parent-keyed value is read from the parent without a transform |
| BinarySensor.OnlyWaterTankInverts | homeassistant/components/xiaomi_miio/binary_sensor.py:54-81 | only the water-tank description negates, so a detached tank reads as not connected |
| BinarySensor.GenericBinarySensor.constructor | homeassistant/components/xiaomi_miio/binary_sensor.py:146-154 | the initial state is the native value |
| BinarySensor.GenericBinarySensor.HandleCoordinatorUpdate | homeassistant/components/xiaomi_miio/binary_sensor.py:156-160 | every update recomputes the native value |
| MiioValues.Not | homeassistant/components/xiaomi_miio/binary_sensor.py:66 | `not value` is a bool that is true exactly when the value is falsy |
| NgSwitch.SwitchUniqueId | homeassistant/components/xiaomi_miio/ng_switch.py:21 | the unique id is the entry's unique id, then "_switch_", then the slug of the name |
| NgSwitch.Step | homeassistant/components/xiaomi_miio/ng_switch.py:35-70 | the state after one poll or command: a poll overwrites it, an accepted command sets True or False, a rejected one keeps it |
| NgSwitch.Run | homeassistant/components/xiaomi_miio/ng_switch.py:35-70 | the state after a run of events; LastEffectiveEventWins and RejectedCommandsKeepState state its properties |
| NgSwitch.LastEffectiveEventWins | homeassistant/components/xiaomi_miio/ng_switch.py:36-70 | the state is set by the last accepted command (True for on, False for off) or the last poll; rejected commands after it do not count |
| NgSwitch.RejectedCommandsKeepState | homeassistant/components/xiaomi_miio/ng_switch.py:58-70 | commands the device rejects never change the state |
| NgSwitch.XiaomiSwitch.constructor | homeassistant/components/xiaomi_miio/ng_switch.py:15-33 | the initial state is the polled value at the switch's key |
| NgSwitch.XiaomiSwitch.HandleCoordinatorUpdate | homeassistant/components/xiaomi_miio/ng_switch.py:35-42 | a poll overwrites the state unconditionally |
| NgSwitch.XiaomiSwitch.AsyncTurnOn | homeassistant/components/xiaomi_miio/ng_switch.py:58-63 | calls the setter with True, and sets the state to True only on success |
| NgSwitch.XiaomiSwitch.AsyncTurnOff | homeassistant/components/xiaomi_miio/ng_switch.py:65-70 | calls the setter with False, and sets the state to False only on success |
| NgSelect.Options | homeassistant/components/xiaomi_miio/ng_select.py:38 | the option list, one name per choice that is not an alias, in order; OptionsMembers states which names are in it |
| NgSelect.OptionsMembers | homeassistant/components/xiaomi_miio/ng_select.py:38 | a text is an option exactly when it is the name of a choice that is not an alias |
| NgSelect.ByValue | homeassistant/components/xiaomi_miio/ng_select.py:50 | a value lookup fails exactly when no choice has the value, and otherwise finds the first choice with it |
| NgSelect.ByName | homeassistant/components/xiaomi_miio/ng_select.py:62 | a name lookup fails (KeyError) exactly when no choice has the name, and otherwise gives that choice's value |
| NgSelect.OptionRoundTrip | homeassistant/components/xiaomi_miio/ng_select.py:38-62 | looking an option's value up again gives the option back |
| NgSelect.AsEnumValue | homeassistant/components/xiaomi_miio/ng_select.py:50 | the integer an Enum lookup compares a polled value with (True as 1, False as 0), or none for other values |
| NgSelect.UpdatedOption | homeassistant/components/xiaomi_miio/ng_select.py:40-55 | None, strings and values no choice has leave the current option unchanged; any other value, a bool counting as 1 or 0, sets it to that value's first option name |
| NgSelect.SelectUniqueId | homeassistant/components/xiaomi_miio/ng_select.py:22 | the unique id is the entry's unique id, "_" and the slug of the name |
| NgSelect.XiaomiSelect.constructor | homeassistant/components/xiaomi_miio/ng_select.py:19-38 | the current option starts as None, and the options are the choice names |
| NgSelect.XiaomiSelect.HandleCoordinatorUpdate | homeassistant/components/xiaomi_miio/ng_select.py:40-55 | the current option becomes the updated option for the polled value |
| NgSelect.XiaomiSelect.AsyncSelectOption | homeassistant/components/xiaomi_miio/ng_select.py:57-65 | an unknown option raises KeyError before the setter; otherwise the setter gets the option's value, and the option becomes current only on success |
| SamyGO.Lookup | homeassistant/components/media_player/samygo.py:155-160 | the initial defaultdict answers None for a missing key and stores it; a fetched dict raises KeyError; None raises TypeError |
| SamyGO.State | homeassistant/components/media_player/samygo.py:145-150 | ON exactly when the info is not None and not empty; UpdateState and FreshDeviceReads state it after an update and before the first |
| SamyGO.Source | homeassistant/components/media_player/samygo.py:152-155 | the info's source, by the lookup rules |
| SamyGO.VolumeLevel | homeassistant/components/media_player/samygo.py:157-165 | `volume_level`; VolumeLevelMeaning states it against the reported volume |
| SamyGO.IsVolumeMuted | homeassistant/components/media_player/samygo.py:167-172 | `is_volume_muted`; IsVolumeMutedMeaning states it against the reported volume |
| SamyGO.MediaTitle | homeassistant/components/media_player/samygo.py:174-183 | `media_title`; NonTvTitleIsSource states the Non-TV case |
| SamyGO.FreshDeviceReads | homeassistant/components/media_player/samygo.py:146-183 | before the first update the state is OFF and every property reads None, but reading one stores a key and turns the state ON |
| SamyGO.VolumeLevelMeaning | homeassistant/components/media_player/samygo.py:157-165 | a null volume, or a missing one in the initial defaultdict, reads None, and a fetched dict without a volume raises KeyError; info that is None raises TypeError; a volume without "(mute)" is shown as reported; with it, the part before the first space is shown |
| SamyGO.IsVolumeMutedMeaning | homeassistant/components/media_player/samygo.py:167-172 | a None volume reads None; a volume reads muted exactly when "mute" occurs in it; a missing volume reads None from the initial defaultdict and raises KeyError from a fetched dict; info that is None raises TypeError |
| SamyGO.MuteMarkMeansMuted | homeassistant/components/media_player/samygo.py:167-172 | a volume containing "(mute)" is reported as muted |
| SamyGO.NonTvTitleIsSource | homeassistant/components/media_player/samygo.py:174-183 | a program name containing "Non-TV" is replaced by the source |
| SamyGO.MediaTitleMeaning | homeassistant/components/media_player/samygo.py:174-183 | a null program name, or a missing one in the initial defaultdict, reads None, and a fetched dict without one raises KeyError; info that is None raises TypeError; a name containing "Non-TV" reads the source; any other name is shown as it is |
| SamyGO.FetchResult | homeassistant/components/media_player/samygo.py:112-121 | a JSON object becomes the info and JSON null becomes None; a connection error yields an empty dict; any other request failure propagates |
| SamyGO.UpdateState | homeassistant/components/media_player/samygo.py:131-150 | after an update the TV is ON exactly when the channel info is a non-empty object, and OFF after a connection error |
| SamyGO.WithChallenge | homeassistant/components/media_player/samygo.py:112-114 | the request carries `challenge` = secret next to the caller's parameters, which are otherwise unchanged |
| SamyGO.KeyRequest | homeassistant/components/media_player/samygo.py:127-129 | a key press sends exactly action KEY, the key and the challenge |
| SamyGO.KeyCode | homeassistant/components/media_player/samygo.py:190-217 | each control sends a fixed KEY_ code, and muting sends KEY_MUTE whatever its argument |
| SamyGO.KeyCodesDistinct | homeassistant/components/media_player/samygo.py:190-217 | different controls send different keys, except mute and unmute |
| SamyGO.TargetDevices | homeassistant/components/media_player/samygo.py:64-73 | with no entity_id, or an empty one, the service acts on all devices; otherwise on exactly the devices requested: listed in an entity-id list, or a substring of an entity-id string |
| SamyGO.Selected | homeassistant/components/media_player/samygo.py:70-71 | the filter keeps exactly the devices `device.entity_id in entity_ids` selects |
| SamyGO.SelectedAppend | homeassistant/components/media_player/samygo.py:70-71 | the filter keeps the devices' order: the devices kept from a list split in two are the first part's, then the second part's |
| SamyGO.PartialEntityIdSelects | homeassistant/components/media_player/samygo.py:70-71 | a single entity-id string selects every device whose entity id is a piece of it, not only the device it names |
| SamyGO.SamyGODevice.constructor | homeassistant/components/media_player/samygo.py:101-110 | the base URL is built from host and port; the info starts as an empty defaultdict |
| SamyGO.SamyGODevice.Fetch | homeassistant/components/media_player/samygo.py:112-121 | sends the parameters with the challenge added, and returns the fetch result |
| SamyGO.SamyGODevice.Reboot | homeassistant/components/media_player/samygo.py:123-125 | sends action REBOOT |
| SamyGO.SamyGODevice.SendKey | homeassistant/components/media_player/samygo.py:127-129 | sends action KEY with the key |
| SamyGO.SamyGODevice.Update | homeassistant/components/media_player/samygo.py:131-133 | requests CHANNELINFO; the reply replaces the info, and a failed request raises and leaves it unchanged |
| SamyGO.SamyGODevice.Press | homeassistant/components/media_player/samygo.py:190-217 | each control method sends exactly one key press, with that control's key code; the fetch's error propagates as it is |
| SamyGO.SamyGODevice.ReadVolumeLevel | homeassistant/components/media_player/samygo.py:157-165 | reads `volume_level`, including the key a defaultdict stores |
| SamyGO.SamyGODevice.ReadIsVolumeMuted | homeassistant/components/media_player/samygo.py:167-172 | reads `is_volume_muted`, including the key a defaultdict stores |
| SamyGO.SamyGODevice.ReadMediaTitle | homeassistant/components/media_player/samygo.py:174-183 | reads `media_title`, including the keys a defaultdict stores |

## Left out

- `_get_odhcpd_leases` and the `"dhcp" in ubus` branch (ubus.py:100-112, 135-137). They only log, and the function returns whatever its loop variable last held, so the model has no odhcpd leases.
- `CONF_LEASEFILE` (ubus.py:65) raises NameError as written, because the defined name is `CONF_LEASE_FILE`.
  - Ubus.UbusDeviceScanner.constructor instead takes the optional lease file that the schema declares (ubus.py:30).
  - `get_scanner`'s check of `success_init` is the constructor's `successInit`.
- Router, device and HTTP I/O are arguments: the `Router` answers, `deviceOk` and `ok` outcomes, SamyGO `Response` values.
- Async scheduling, `async_write_ha_state`, platform forwarding and logging are not modelled.
- Voluptuous schemas are not modelled, and neither is the vacuum's velocity clamp (vacuum.py:94-95, 108-109, floating point).
- Gateway setup and the device registry (`__init__.py:197-265`) are not modelled. MiioSetup.DomainData.SetupEntry records a gateway entry and returns True; it does not model connection failures (ConfigEntryAuthFailed, ConfigEntryNotReady).
- MiioSetup.DomainData.SetupEntry does not model a failing first refresh of the coordinator (ConfigEntryNotReady). The device DeviceFactory creates is represented only by whether it is a vacuum.
- const.py is not part of this model. Model tables and model names are arguments (`ModelTables`, `ModelNames`).
  - The singular `MODEL_` names are taken to be single strings.
  - `KEY_DEVICE` is taken to differ from the gateway entry's keys.
- `slugify`, `_extract_value_from_attribute` and the Miio base class's `_try_command` are not shown. They are function arguments and success flags.
- ng_binary_sensor.py is not part of this model. Its only logic is reflection with a fallback.
- Dead code is not modelled: the timers comprehension after `return []` (vacuum.py:228-235) and the string literals in `__init__.py:97-101` and ng_switch.py:47-55.
- Strings.Upper: upper-cases ASCII letters only; CPython also maps non-ASCII letters.
- Strings.ParseInt: leading/trailing whitespace, `_` separators and non-ASCII digits, which `int()` accepts, are not modelled.
- JSON values are strings or null.
  - SamyGO info values of other JSON types (numbers, lists) are not modelled.
  - A reply that is neither an object nor null is not modelled.
  - The vacuum's raw-command parameters are a string.
- Vacuum.MiroboVacuum.CleanZone: zones are an array of sequences. The update in place happens per array slot; aliasing between the caller's inner lists is not captured.
- NgSelect: choice values are integers, and an Enum with values of other types is not modelled.
- NgSelect.XiaomiSelect.HandleCoordinatorUpdate: the state write in `finally` is not modelled.
- MiioSetup.DomainData.UnloadEntry, BinarySensor.SetupEntities and BinarySensor.AsyncSetupEntry use the corrected `get_platforms` and sensor selection of the Findings table. As written, unloading a gateway entry raises KeyError, and a substring of a single model name selects that model's sensors.
- Ubus.UbusDeviceScanner.ScanDevices returns the MACs as a set. The insertion order of the dict's keys view is not modelled, because Dafny maps are unordered.
- SamyGO `setup_platform` is not modelled: the shared device list append and service registration (samygo.py:52-95). The per-device dispatch loop (samygo.py:75-81) is not modelled either; only its device filter is.
- SamyGO `name`, `supported_features` and `media_channel` return a constant or a bare lookup (`Lookup`). The vacuum's `battery_level` returns a polled field.

## Findings

| source | as written | input that shows it | evidently intended | confidence | as-written member | corrected member |
|---|---|---|---|---|---|---|
| homeassistant/components/xiaomi_miio/__init__.py:89-92 | `get_platforms` reads `hass.data[DOMAIN][entry_id][KEY_DEVICE]` before testing for the gateway flow, and a gateway entry stores only the gateway and its coordinators | unloading a gateway config entry: the lookup raises KeyError | return GATEWAY_PLATFORMS ∪ COMMON_PLATFORMS for a gateway entry | high (not executed) | MiioSetup.GetPlatformsAsWritten | MiioSetup.GetPlatforms |
| homeassistant/components/xiaomi_miio/binary_sensor.py:102-104 | `model in MODEL_AIRFRESH_A1` (likewise T2017 and ZA5) with a single model string on the right is a substring test | model "" (or any proper piece of the A1 model name) is given the auxiliary-heat sensor | compare the model with these names for equality | medium (not executed; const.py not part of this model) | BinarySensor.SensorKeysAsWritten | BinarySensor.SensorKeys |
