/** The Xiaomi Miio binary sensors: which sensors a device model gets, the
    entities created for a config entry, and the value each sensor reports.

    The model-name constants (MODEL_AIRFRESH_A1, MODELS_HUMIDIFIER_MIIO, ...)
    live in const.py, which is not part of this model; they are a
    `ModelNames` argument. The singular MODEL_ names are single model
    strings, the plural MODELS_ names lists of them. */
module BinarySensor {
  import opened Wrappers
  import opened Strings
  import opened MiioValues

  const ATTR_NO_WATER := "no_water"
  const ATTR_PTC_STATUS := "ptc_status"
  const ATTR_POWERSUPPLY_ATTACHED := "powersupply_attached"
  const ATTR_WATER_TANK_DETACHED := "water_tank_detached"

  /** `XiaomiMiioBinarySensorDescription`: the key, the display name, whether
      the `value` transform `not value` is set, and the optional parent key. */
  datatype Description = Description(key: string, name: string, negate: bool, parentKey: Option<string>)

  const BINARY_SENSOR_TYPES: seq<Description> := [
    Description(ATTR_NO_WATER, "Water tank empty", false, None),
    Description(ATTR_WATER_TANK_DETACHED, "Water tank", true, None),
    Description(ATTR_PTC_STATUS, "Auxiliary heat status", false, None),
    Description(ATTR_POWERSUPPLY_ATTACHED, "Power supply", false, None)
  ]

  const AIRFRESH_A1_BINARY_SENSORS: seq<string> := [ATTR_PTC_STATUS]
  const FAN_ZA5_BINARY_SENSORS: seq<string> := [ATTR_POWERSUPPLY_ATTACHED]
  const HUMIDIFIER_MIIO_BINARY_SENSORS: seq<string> := [ATTR_WATER_TANK_DETACHED]
  const HUMIDIFIER_MIOT_BINARY_SENSORS: seq<string> := [ATTR_WATER_TANK_DETACHED]
  const HUMIDIFIER_MJJSQ_BINARY_SENSORS: seq<string> := [ATTR_NO_WATER, ATTR_WATER_TANK_DETACHED]

  datatype ModelNames = ModelNames(
    airfreshA1: string, airfreshT2017: string, fanZA5: string,
    humidifierMiio: seq<string>, humidifierMiot: seq<string>, humidifierMjjsq: seq<string>)

  /** The sensor keys a device model gets, first match wins; the single
      model names are compared for equality. */
  function SensorKeys(names: ModelNames, model: string): seq<string> {
    if model == names.airfreshA1 || model == names.airfreshT2017 then AIRFRESH_A1_BINARY_SENSORS
    else if model == names.fanZA5 then FAN_ZA5_BINARY_SENSORS
    else if model in names.humidifierMiio then HUMIDIFIER_MIIO_BINARY_SENSORS
    else if model in names.humidifierMiot then HUMIDIFIER_MIOT_BINARY_SENSORS
    else if model in names.humidifierMjjsq then HUMIDIFIER_MJJSQ_BINARY_SENSORS
    else []
  }

  /** The selection as written: `model in MODEL_AIRFRESH_A1` with a string on
      the right is Python's substring test, and so are the T2017 and ZA5
      tests. */
  function SensorKeysAsWritten(names: ModelNames, model: string): seq<string> {
    if Contains(names.airfreshA1, model) || Contains(names.airfreshT2017, model) then AIRFRESH_A1_BINARY_SENSORS
    else if Contains(names.fanZA5, model) then FAN_ZA5_BINARY_SENSORS
    else if model in names.humidifierMiio then HUMIDIFIER_MIIO_BINARY_SENSORS
    else if model in names.humidifierMiot then HUMIDIFIER_MIOT_BINARY_SENSORS
    else if model in names.humidifierMjjsq then HUMIDIFIER_MJJSQ_BINARY_SENSORS
    else []
  }

  /** The model is the A1, T2017 or ZA5 model, whose tests come first. */
  predicate IsSingleModel(names: ModelNames, model: string) {
    model == names.airfreshA1 || model == names.airfreshT2017 || model == names.fanZA5
  }

  /** Which sensors each kind of model gets, and that an unknown model gets
      none. */
  lemma SensorKeysByModel(names: ModelNames, model: string)
    ensures model == names.airfreshA1 ==> SensorKeys(names, model) == [ATTR_PTC_STATUS]
    ensures model == names.airfreshT2017 ==> SensorKeys(names, model) == [ATTR_PTC_STATUS]
    ensures ATTR_PTC_STATUS in SensorKeys(names, model) <==>
      model == names.airfreshA1 || model == names.airfreshT2017
    ensures ATTR_POWERSUPPLY_ATTACHED in SensorKeys(names, model) <==>
      model != names.airfreshA1 && model != names.airfreshT2017 && model == names.fanZA5
    ensures !IsSingleModel(names, model) && model in names.humidifierMiio ==>
      SensorKeys(names, model) == HUMIDIFIER_MIIO_BINARY_SENSORS
    ensures !IsSingleModel(names, model) && model !in names.humidifierMiio && model in names.humidifierMiot ==>
      SensorKeys(names, model) == HUMIDIFIER_MIOT_BINARY_SENSORS
    ensures !IsSingleModel(names, model) && model !in names.humidifierMiio && model !in names.humidifierMiot
            && model in names.humidifierMjjsq ==>
      SensorKeys(names, model) == HUMIDIFIER_MJJSQ_BINARY_SENSORS
    ensures ATTR_NO_WATER in SensorKeys(names, model) <==>
      !IsSingleModel(names, model) && model !in names.humidifierMiio && model !in names.humidifierMiot
      && model in names.humidifierMjjsq
    ensures ATTR_WATER_TANK_DETACHED in SensorKeys(names, model) <==>
      !IsSingleModel(names, model)
      && (model in names.humidifierMiio || model in names.humidifierMiot || model in names.humidifierMjjsq)
    ensures model !in [names.airfreshA1, names.airfreshT2017, names.fanZA5]
              + names.humidifierMiio + names.humidifierMiot + names.humidifierMjjsq
      ==> SensorKeys(names, model) == []
  {
  }

  /** Any proper piece of the A1 model name, the empty model included, is
      given the auxiliary-heat sensor as written; with equality only the A1
      and T2017 models get it. */
  lemma PartialModelGetsPtcSensor(names: ModelNames, model: string)
    requires Contains(names.airfreshA1, model)
    requires model != names.airfreshA1 && model != names.airfreshT2017
    ensures SensorKeysAsWritten(names, model) == [ATTR_PTC_STATUS]
    ensures ATTR_PTC_STATUS !in SensorKeys(names, model)
  {
    SensorKeysByModel(names, model);
  }

  /** The concrete case: the empty model string. */
  lemma EmptyModelGetsPtcSensor(names: ModelNames)
    requires names.airfreshA1 != "" && names.airfreshT2017 != ""
    ensures SensorKeysAsWritten(names, "") == [ATTR_PTC_STATUS]
    ensures ATTR_PTC_STATUS !in SensorKeys(names, "")
  {
    assert OccursAt(names.airfreshA1, "", 0);
    PartialModelGetsPtcSensor(names, "");
  }

  /** A device sensor the SDK describes: its type and the status property it
      reads. */
  datatype SdkSensor = SdkSensor(kind: string, property: string)

  datatype Entity =
    | Generic(description: Description, uniqueId: string)
    | FromSdk(sensor: SdkSensor)

  /** `getattr(coordinator.data, name)` on a status without that attribute. */
  datatype SetupError = AttributeError(name: string)

  /** The generic entity for a description: unique id `<key>_<entry unique id>`. */
  function GenericEntity(d: Description, entryUid: string): (e: Entity)
    ensures e.Generic? && e.description == d
    ensures StartsWith(e.uniqueId, d.key + "_")
    ensures e.uniqueId[|d.key| + 1..] == entryUid
  {
    Generic(d, d.key + "_" + entryUid)
  }

  /** The generic entities for the descriptions whose key was selected, in
      table order. */
  function GenericEntities(table: seq<Description>, keys: seq<string>, entryUid: string): seq<Entity>
    decreases |table|
  {
    if table == [] then []
    else
      var d := table[|table| - 1];
      var init := GenericEntities(table[..|table| - 1], keys, entryUid);
      if d.key in keys then init + [GenericEntity(d, entryUid)] else init
  }

  /** An entity exactly for each description whose key was selected. */
  lemma {:induction false} GenericEntitiesSelected(table: seq<Description>, keys: seq<string>, entryUid: string)
    ensures |GenericEntities(table, keys, entryUid)| <= |table|
    ensures forall e :: e in GenericEntities(table, keys, entryUid) ==>
      e.Generic? && e.description in table && e.description.key in keys
    ensures forall d :: d in table && d.key in keys ==> GenericEntity(d, entryUid) in GenericEntities(table, keys, entryUid)
    decreases |table|
  {
    if table != [] {
      var init := table[..|table| - 1];
      GenericEntitiesSelected(init, keys, entryUid);
      assert forall x :: x in init ==> x in table;
      assert forall x :: x in table ==> x in init || x == table[|table| - 1];
    }
  }

  /** An SDK sensor that gets an entity: a binary sensor whose property has
      a value other than None. */
  predicate Shown(s: SdkSensor, data: map<string, Value>) {
    s.kind == "binary" && s.property in data && data[s.property] != Null
  }

  /** The sensors that get an entity, in the SDK's order. */
  function ShownSensors(sensors: seq<SdkSensor>, data: map<string, Value>): (r: seq<SdkSensor>)
    ensures |r| <= |sensors|
    ensures forall s :: s in r <==> s in sensors && Shown(s, data)
    decreases |sensors|
  {
    if sensors == [] then []
    else
      var s := sensors[|sensors| - 1];
      var init := ShownSensors(sensors[..|sensors| - 1], data);
      assert forall x :: x in sensors <==> x in sensors[..|sensors| - 1] || x == s;
      if Shown(s, data) then init + [s] else init
  }

  /** Filtering keeps the SDK's order: the sensors shown from a list that
      is split in two are those shown from the first part, then those shown
      from the second. */
  lemma {:induction false} ShownSensorsAppend(a: seq<SdkSensor>, b: seq<SdkSensor>, data: map<string, Value>)
    ensures ShownSensors(a + b, data) == ShownSensors(a, data) + ShownSensors(b, data)
    decreases |b|
  {
    if b == [] {
      assert a + b == a;
    } else {
      var last := b[|b| - 1];
      var b' := b[..|b| - 1];
      assert (a + b)[..|a + b| - 1] == a + b';
      ShownSensorsAppend(a, b', data);
    }
  }

  /** One entity per SDK sensor, in order. */
  function AsSdkEntities(sensors: seq<SdkSensor>): (r: seq<Entity>)
    ensures |r| == |sensors|
    ensures forall i :: 0 <= i < |sensors| ==> r[i] == FromSdk(sensors[i])
  {
    seq(|sensors|, i requires 0 <= i < |sensors| => FromSdk(sensors[i]))
  }

  /** Entities for the SDK's binary sensors whose current value is not None,
      every one of them and in the SDK's order; a property the status lacks
      raises. */
  function SdkEntities(sensors: seq<SdkSensor>, data: map<string, Value>): (r: Result<seq<Entity>, SetupError>)
    ensures r.Ok? <==> forall s :: s in sensors && s.kind == "binary" ==> s.property in data
    ensures r.Ok? ==> r.value == AsSdkEntities(ShownSensors(sensors, data))
    decreases |sensors|
  {
    if sensors == [] then Ok([])
    else
      var s := sensors[|sensors| - 1];
      var init := SdkEntities(sensors[..|sensors| - 1], data);
      assert forall x :: x in sensors <==> x in sensors[..|sensors| - 1] || x == s;
      if init.Err? then init
      else if s.kind != "binary" then init
      else if s.property !in data then Err(AttributeError(s.property))
      else if data[s.property] == Null then init
      else
        var shown := ShownSensors(sensors[..|sensors| - 1], data);
        assert AsSdkEntities(shown + [s]) == AsSdkEntities(shown) + [FromSdk(s)];
        Ok(init.value + [FromSdk(s)])
  }

  /** `async_setup_entry`'s entities: none for an entry that is not a device
      entry; otherwise the generic entities, then the SDK's. */
  function SetupEntities(isDevice: bool, names: ModelNames, model: string, entryUid: string,
                         sensors: seq<SdkSensor>, data: map<string, Value>): Result<seq<Entity>, SetupError>
  {
    if !isDevice then Ok([])
    else
      var sdk := SdkEntities(sensors, data);
      if sdk.Err? then Err(sdk.error)
      else Ok(GenericEntities(BINARY_SENSOR_TYPES, SensorKeys(names, model), entryUid) + sdk.value)
  }

  /** One more description: its entity is appended exactly when its key was
      selected. */
  lemma GenericEntitiesSnoc(table: seq<Description>, k: nat, keys: seq<string>, uid: string)
    requires k < |table|
    ensures GenericEntities(table[..k + 1], keys, uid) ==
      GenericEntities(table[..k], keys, uid) + (if table[k].key in keys then [GenericEntity(table[k], uid)] else [])
  {
    assert table[..k + 1][..k] == table[..k];
  }

  /** The generic entities of the description table, one description at a time. */
  lemma GenericEntitiesUnfold(keys: seq<string>, uid: string)
    ensures GenericEntities(BINARY_SENSOR_TYPES, keys, uid) ==
      (if ATTR_NO_WATER in keys then [GenericEntity(BINARY_SENSOR_TYPES[0], uid)] else [])
      + (if ATTR_WATER_TANK_DETACHED in keys then [GenericEntity(BINARY_SENSOR_TYPES[1], uid)] else [])
      + (if ATTR_PTC_STATUS in keys then [GenericEntity(BINARY_SENSOR_TYPES[2], uid)] else [])
      + (if ATTR_POWERSUPPLY_ATTACHED in keys then [GenericEntity(BINARY_SENSOR_TYPES[3], uid)] else [])
  {
    var t := BINARY_SENSOR_TYPES;
    assert t[..0] == [];
    assert t[..4] == t;
    GenericEntitiesSnoc(t, 0, keys, uid);
    GenericEntitiesSnoc(t, 1, keys, uid);
    GenericEntitiesSnoc(t, 2, keys, uid);
    GenericEntitiesSnoc(t, 3, keys, uid);
  }

  /** The entities each kind of model gets from the description table, in
      table order. */
  lemma GenericEntitiesByKeys(uid: string)
    ensures GenericEntities(BINARY_SENSOR_TYPES, HUMIDIFIER_MJJSQ_BINARY_SENSORS, uid) ==
      [GenericEntity(BINARY_SENSOR_TYPES[0], uid), GenericEntity(BINARY_SENSOR_TYPES[1], uid)]
    ensures GenericEntities(BINARY_SENSOR_TYPES, HUMIDIFIER_MIIO_BINARY_SENSORS, uid) ==
      [GenericEntity(BINARY_SENSOR_TYPES[1], uid)]
    ensures GenericEntities(BINARY_SENSOR_TYPES, AIRFRESH_A1_BINARY_SENSORS, uid) ==
      [GenericEntity(BINARY_SENSOR_TYPES[2], uid)]
    ensures GenericEntities(BINARY_SENSOR_TYPES, FAN_ZA5_BINARY_SENSORS, uid) ==
      [GenericEntity(BINARY_SENSOR_TYPES[3], uid)]
    ensures GenericEntities(BINARY_SENSOR_TYPES, [], uid) == []
  {
    GenericEntitiesUnfold(HUMIDIFIER_MJJSQ_BINARY_SENSORS, uid);
    GenericEntitiesUnfold(HUMIDIFIER_MIIO_BINARY_SENSORS, uid);
    GenericEntitiesUnfold(AIRFRESH_A1_BINARY_SENSORS, uid);
    GenericEntitiesUnfold(FAN_ZA5_BINARY_SENSORS, uid);
    GenericEntitiesUnfold([], uid);
  }

  /** `async_setup_entry` of the platform: the generic entities first, then
      the SDK's binary sensors, each list built in order. */
  method AsyncSetupEntry(isDevice: bool, names: ModelNames, model: string, entryUid: string,
                         sensors: seq<SdkSensor>, data: map<string, Value>)
    returns (r: Result<seq<Entity>, SetupError>)
    ensures r == SetupEntities(isDevice, names, model, entryUid, sensors, data)
  {
    if !isDevice {
      return Ok([]);
    }
    var keys := SensorKeys(names, model);
    var entities: seq<Entity> := [];
    var i := 0;
    while i < |BINARY_SENSOR_TYPES|
      invariant 0 <= i <= |BINARY_SENSOR_TYPES|
      invariant entities == GenericEntities(BINARY_SENSOR_TYPES[..i], keys, entryUid)
    {
      var d := BINARY_SENSOR_TYPES[i];
      GenericEntitiesSnoc(BINARY_SENSOR_TYPES, i, keys, entryUid);
      if d.key in keys {
        entities := entities + [GenericEntity(d, entryUid)];
      }
      i := i + 1;
    }
    assert BINARY_SENSOR_TYPES[..i] == BINARY_SENSOR_TYPES;
    var generic := entities;
    var sdk: seq<Entity> := [];
    var j := 0;
    while j < |sensors|
      invariant 0 <= j <= |sensors|
      invariant SdkEntities(sensors[..j], data) == Ok(sdk)
    {
      var s := sensors[j];
      SdkEntitiesStep(sensors, data, j, sdk);
      if s.kind == "binary" {
        if s.property !in data {
          SdkErrorIsFinal(sensors, data, j + 1);
          return Err(AttributeError(s.property));
        }
        if data[s.property] != Null {
          sdk := sdk + [FromSdk(s)];
        }
      }
      j := j + 1;
    }
    assert sensors[..j] == sensors;
    entities := generic + sdk;
    return Ok(entities);
  }

  /** One more SDK sensor: raises when it is binary and its property is
      missing, and adds an entity when it is binary with a value. */
  lemma SdkEntitiesStep(sensors: seq<SdkSensor>, data: map<string, Value>, j: nat, sdk: seq<Entity>)
    requires j < |sensors| && SdkEntities(sensors[..j], data) == Ok(sdk)
    ensures var s := sensors[j];
      SdkEntities(sensors[..j + 1], data) ==
        if s.kind != "binary" then Ok(sdk)
        else if s.property !in data then Err(AttributeError(s.property))
        else if data[s.property] == Null then Ok(sdk)
        else Ok(sdk + [FromSdk(s)])
  {
    assert sensors[..j + 1][..j] == sensors[..j];
  }

  /** Once a prefix of the sensors raises, every longer prefix raises the same. */
  lemma {:induction false} SdkErrorIsFinal(sensors: seq<SdkSensor>, data: map<string, Value>, n: nat)
    requires n <= |sensors| && SdkEntities(sensors[..n], data).Err?
    ensures SdkEntities(sensors, data) == SdkEntities(sensors[..n], data)
    decreases |sensors| - n
  {
    if n < |sensors| {
      assert sensors[..n + 1][..n] == sensors[..n];
      SdkErrorIsFinal(sensors, data, n + 1);
    } else {
      assert sensors[..n] == sensors;
    }
  }

  /** `_determine_native_value`: with a parent key, the key read from the
      parent attribute as it is; otherwise the key read from the data, passed
      through the transform only when it is not None. */
  function DetermineNativeValue(d: Description, extract: Extractor): Value {
    match d.parentKey
    case Some(parent) => extract(Parent(parent), d.key)
    case None =>
      var state := extract(Root, d.key);
      if d.negate && state != Null then Not(state) else state
  }

  /** What a sensor reports, against the raw value: None stays None, a
      negated sensor is on exactly when the raw value is false, any other
      sensor reports the raw value, and a parent-keyed one is never
      transformed. */
  lemma NativeValueMeaning(d: Description, extract: Extractor)
    ensures d.parentKey.None? && extract(Root, d.key) == Null ==> DetermineNativeValue(d, extract) == Null
    ensures d.parentKey.None? && d.negate && extract(Root, d.key) != Null ==>
      DetermineNativeValue(d, extract).Bool?
      && (Truthy(DetermineNativeValue(d, extract)) <==> !Truthy(extract(Root, d.key)))
    ensures d.parentKey.None? && !d.negate ==> DetermineNativeValue(d, extract) == extract(Root, d.key)
    ensures d.parentKey.Some? ==> DetermineNativeValue(d, extract) == extract(Parent(d.parentKey.value), d.key)
  {
  }

  /** In the description table only the water-tank sensor inverts its value:
      the tank reads "detached", the entity reports "connected". */
  lemma OnlyWaterTankInverts(extract: Extractor)
    ensures forall i :: 0 <= i < |BINARY_SENSOR_TYPES| ==>
      (BINARY_SENSOR_TYPES[i].negate <==> BINARY_SENSOR_TYPES[i].key == ATTR_WATER_TANK_DETACHED)
    ensures forall i :: 0 <= i < |BINARY_SENSOR_TYPES| && BINARY_SENSOR_TYPES[i].key != ATTR_WATER_TANK_DETACHED ==>
      DetermineNativeValue(BINARY_SENSOR_TYPES[i], extract) == extract(Root, BINARY_SENSOR_TYPES[i].key)
    ensures extract(Root, ATTR_WATER_TANK_DETACHED) == Bool(true) ==>
      DetermineNativeValue(BINARY_SENSOR_TYPES[1], extract) == Bool(false)
  {
  }

  /** `XiaomiGenericBinarySensor`: its state is the native value, worked out
      again on every coordinator update. */
  class GenericBinarySensor {
    const description: Description
    const uniqueId: string
    var isOn: Value

    constructor(description: Description, uniqueId: string, extract: Extractor)
      ensures this.description == description && this.uniqueId == uniqueId
      ensures isOn == DetermineNativeValue(description, extract)
    {
      this.description := description;
      this.uniqueId := uniqueId;
      isOn := DetermineNativeValue(description, extract);
    }

    method HandleCoordinatorUpdate(extract: Extractor)
      modifies this
      ensures isOn == DetermineNativeValue(description, extract)
    {
      isOn := DetermineNativeValue(description, extract);
    }
  }
}
