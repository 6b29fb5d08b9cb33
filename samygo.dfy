/** A SamyGO TV as a Home Assistant media player: the requests it sends to
    the TV's web API, and the state shown from the last channel info.

    The HTTP call is not part of this model: each request's outcome is a
    `Response` argument. JSON values are strings or null here. */
module SamyGO {
  import opened Wrappers
  import opened Strings

  /** `_info`: the initial `defaultdict(lambda: None)`, a dict decoded from a
      JSON object, or the None a JSON `null` decodes to. */
  datatype Info =
    | Defaults(m: map<string, Option<string>>)
    | Plain(m: map<string, Option<string>>)
    | NoInfo

  /** What a lookup `_info[key]` raises: KeyError on a plain dict without
      the key, TypeError on None. */
  datatype LookupError = KeyError(key: string) | TypeError

  /** The result of reading `_info`, and `_info` after the read: a
      defaultdict stores None under every key it is asked for. */
  datatype Read<T> = Read(result: Result<T, LookupError>, info: Info)

  function Lookup(info: Info, key: string): (r: Read<Option<string>>)
    ensures info.Defaults? ==> r.result.Ok? && r.info.Defaults? && key in r.info.m
    ensures info.Defaults? ==> forall k :: k in info.m ==> k in r.info.m && r.info.m[k] == info.m[k]
    ensures info.Defaults? ==> r.result.value == (if key in info.m then info.m[key] else None)
    ensures !info.Defaults? ==> r.info == info
    ensures info.Plain? ==> (r.result.Ok? <==> key in info.m) && (r.result.Ok? ==> r.result.value == info.m[key])
    ensures info.NoInfo? ==> r.result == Err(TypeError)
  {
    match info
    case Defaults(m) =>
      if key in m then Read(Ok(m[key]), info) else Read(Ok(None), Defaults(m[key := None]))
    case Plain(m) =>
      if key in m then Read(Ok(m[key]), info) else Read(Err(KeyError(key)), info)
    case NoInfo => Read(Err(TypeError), info)
  }

  datatype MediaState = On | Off

  /** `state`: ON when `_info` is not None and not empty. */
  function State(info: Info): MediaState {
    if !info.NoInfo? && |info.m| > 0 then On else Off
  }

  /** `source`. */
  function Source(info: Info): Read<Option<string>> {
    Lookup(info, "source")
  }

  /** `volume_level`: None without a volume; the part before the first space
      when the volume contains "(mute)"; otherwise the volume as reported. */
  function VolumeLevel(info: Info): Read<Option<string>> {
    var v := Lookup(info, "volume");
    if v.result.Err? || v.result.value.None? then v
    else
      var volume := v.result.value.value;
      if Contains(volume, "(mute)") then Read(Ok(Some(Split(volume, ' ')[0])), v.info)
      else v
  }

  /** `is_volume_muted`: None without a volume, else whether it contains
      "mute". */
  function IsVolumeMuted(info: Info): Read<Option<bool>> {
    var v := Lookup(info, "volume");
    match v.result
    case Err(e) => Read(Err(e), v.info)
    case Ok(None) => Read(Ok(None), v.info)
    case Ok(Some(volume)) => Read(Ok(Some(Contains(volume, "mute"))), v.info)
  }

  /** `media_title`: None without a program name; the source when the name
      contains "Non-TV"; otherwise the program name. */
  function MediaTitle(info: Info): Read<Option<string>> {
    var p := Lookup(info, "program_name");
    if p.result.Err? || p.result.value.None? then p
    else if Contains(p.result.value.value, "Non-TV") then Source(p.info)
    else p
  }

  /** The volume as displayed, against the reported one: None for a null
      volume, and for a missing one in the initial defaultdict (a fetched
      dict raises KeyError, and None raises TypeError); unchanged without
      "(mute)"; else its first space-separated token, which starts the
      reported text and stops before its first space. */
  lemma VolumeLevelMeaning(info: Info)
    ensures info.NoInfo? ==> VolumeLevel(info).result == Err(TypeError)
    ensures !info.NoInfo? && "volume" !in info.m ==>
      VolumeLevel(info).result == (if info.Defaults? then Ok(None) else Err(KeyError("volume")))
    ensures !info.NoInfo? && "volume" in info.m && info.m["volume"].None? ==> VolumeLevel(info).result == Ok(None)
    ensures !info.NoInfo? && "volume" in info.m && info.m["volume"].Some? ==>
      var level := VolumeLevel(info).result;
      var volume := info.m["volume"].value;
      level.Ok? && level.value.Some?
      && (!Contains(volume, "(mute)") ==> level.value.value == volume)
      && (Contains(volume, "(mute)") ==>
            StartsWith(volume, level.value.value) && ' ' !in level.value.value
            && (|level.value.value| < |volume| ==> volume[|level.value.value|] == ' '))
  {
    if !info.NoInfo? && "volume" in info.m && info.m["volume"].Some? {
      SplitHead(info.m["volume"].value, ' ');
    }
  }

  /** `is_volume_muted` reads None for a missing volume and otherwise says
      whether "mute" occurs in the volume; a plain dict without a volume
      raises KeyError, and None raises TypeError. */
  lemma IsVolumeMutedMeaning(info: Info)
    ensures info.NoInfo? ==> IsVolumeMuted(info).result == Err(TypeError)
    ensures !info.NoInfo? && "volume" in info.m && info.m["volume"].None? ==> IsVolumeMuted(info).result == Ok(None)
    ensures !info.NoInfo? && "volume" in info.m && info.m["volume"].Some? ==>
      IsVolumeMuted(info).result == Ok(Some(Contains(info.m["volume"].value, "mute")))
    ensures !info.NoInfo? && "volume" !in info.m ==>
      IsVolumeMuted(info).result == (if info.Defaults? then Ok(None) else Err(KeyError("volume")))
  {
  }

  /** A volume marked "(mute)" is reported as muted. */
  lemma MuteMarkMeansMuted(info: Info, volume: string)
    requires info.Plain? || info.Defaults?
    requires "volume" in info.m && info.m["volume"] == Some(volume)
    requires Contains(volume, "(mute)")
    ensures IsVolumeMuted(info).result == Ok(Some(true))
  {
    assert OccursAt("(mute)", "mute", 1);
    ContainsTransitive(volume, "(mute)", "mute");
  }

  /** `media_title` against the reported program name: None for a null
      name, and for a missing one in the initial defaultdict (a fetched dict
      raises KeyError, and None raises TypeError); the source for a name containing "Non-TV"; otherwise
      the name itself. */
  lemma MediaTitleMeaning(info: Info)
    ensures info.NoInfo? ==> MediaTitle(info).result == Err(TypeError)
    ensures !info.NoInfo? && "program_name" !in info.m ==>
      MediaTitle(info).result == (if info.Defaults? then Ok(None) else Err(KeyError("program_name")))
    ensures !info.NoInfo? && "program_name" in info.m && info.m["program_name"].None? ==> MediaTitle(info).result == Ok(None)
    ensures !info.NoInfo? && "program_name" in info.m && info.m["program_name"].Some? ==>
      var name := info.m["program_name"].value;
      MediaTitle(info).result == (if Contains(name, "Non-TV") then Source(info).result else Ok(Some(name)))
  {
  }

  /** A program name containing "Non-TV" is replaced by the source. */
  lemma NonTvTitleIsSource(m: map<string, Option<string>>, name: string)
    requires "program_name" in m && m["program_name"] == Some(name) && Contains(name, "Non-TV")
    ensures MediaTitle(Plain(m)).result == (if "source" in m then Ok(m["source"]) else Err(KeyError("source")))
  {
  }

  /** Before the first update nothing is known and the TV shows as off, and
      every property reads None; but each read stores a None entry in the
      defaultdict, after which the TV shows as on. */
  lemma FreshDeviceReads()
    ensures State(Defaults(map[])) == Off
    ensures VolumeLevel(Defaults(map[])).result == Ok(None)
    ensures IsVolumeMuted(Defaults(map[])).result == Ok(None)
    ensures MediaTitle(Defaults(map[])).result == Ok(None)
    ensures State(VolumeLevel(Defaults(map[])).info) == On
    ensures State(MediaTitle(Defaults(map[])).info) == On
  {
    var none: Option<string> := None;
    assert |map["volume" := none]| == 1 by { assert map["volume" := none].Keys == {"volume"}; }
    assert |map["program_name" := none]| == 1 by { assert map["program_name" := none].Keys == {"program_name"}; }
  }

  /** A reply from the TV: a decoded JSON body, a connection error, or any
      other failure of the request (a timeout, a body that is not JSON). */
  datatype Response = Json(body: JsonBody) | ConnectionError | RequestFailed(reason: string)

  datatype JsonBody = Object(m: map<string, Option<string>>) | Null

  /** The exception `fetch` lets through. */
  datatype FetchError = FetchFailed(reason: string)

  /** What `fetch` returns: the decoded body, an empty dict after a
      connection error; any other failure propagates. */
  function FetchResult(response: Response): (r: Result<Info, FetchError>)
    ensures r.Ok? <==> !response.RequestFailed?
    ensures response.ConnectionError? ==> r == Ok(Plain(map[]))
    ensures response == Json(Null) ==> r == Ok(NoInfo)
    ensures response.Json? && response.body.Object? ==> r == Ok(Plain(response.body.m))
  {
    match response
    case Json(Object(m)) => Ok(Plain(m))
    case Json(Null) => Ok(NoInfo)
    case ConnectionError => Ok(Plain(map[]))
    case RequestFailed(reason) => Err(FetchFailed(reason))
  }

  /** An update that meets a connection error shows the TV as off, and one
      that gets channel info shows it as on exactly when the info is not
      empty. */
  lemma UpdateState(response: Response)
    ensures response.ConnectionError? ==> State(FetchResult(response).value) == Off
    ensures response.Json? && response.body.Object? ==>
      (State(FetchResult(response).value) == On <==> response.body.m != map[])
    ensures response == Json(Null) ==> State(FetchResult(response).value) == Off
  {
    if response.Json? && response.body.Object? && response.body.m != map[] {
      var k :| k in response.body.m;
      assert |response.body.m| > 0 by { assert k in response.body.m.Keys; }
    }
  }

  /** `parameters.update({"challenge": secret})`. */
  function WithChallenge(parameters: map<string, string>, secret: string): (r: map<string, string>)
    ensures "challenge" in r && r["challenge"] == secret
    ensures r.Keys == parameters.Keys + {"challenge"}
    ensures forall k :: k in parameters && k != "challenge" ==> r[k] == parameters[k]
  {
    parameters["challenge" := secret]
  }

  /** The query parameters of a key press. */
  function KeyRequest(key: string, secret: string): (r: map<string, string>)
    ensures r.Keys == {"action", "key", "challenge"}
    ensures r["action"] == "KEY" && r["challenge"] == secret
    ensures r["key"] == key
  {
    WithChallenge(map["action" := "KEY", "key" := key], secret)
  }

  /** The key code each remote-control method sends. */
  datatype Control = TurnOn | TurnOff | VolumeUp | VolumeDown | MuteVolume(mute: bool) | Play | Pause | Stop

  function KeyCode(c: Control): (key: string)
    ensures StartsWith(key, "KEY_")
    ensures c.MuteVolume? ==> key == "KEY_MUTE"
  {
    match c
    case TurnOn => "KEY_POWERON"
    case TurnOff => "KEY_POWEROFF"
    case VolumeUp => "KEY_VOLUP"
    case VolumeDown => "KEY_VOLDOWN"
    case MuteVolume(_) => "KEY_MUTE"
    case Play => "KEY_PLAY"
    case Pause => "KEY_PAUSE"
    case Stop => "KEY_STOP"
  }

  /** Different controls send different keys, except that muting and
      unmuting both send KEY_MUTE. */
  lemma KeyCodesDistinct(a: Control, b: Control)
    ensures KeyCode(a) == KeyCode(b) <==> a == b || (a.MuteVolume? && b.MuteVolume?)
  {
  }

  /** The service call's `entity_id`: a list of entity ids, or one entity
      id given as a string. */
  datatype EntityIds = IdList(ids: seq<string>) | IdString(id: string)

  /** Python truthiness of `entity_ids`: a non-empty list or string. */
  predicate Given(ids: EntityIds) {
    match ids
    case IdList(l) => l != []
    case IdString(t) => t != ""
  }

  /** `device.entity_id in entity_ids`: list membership, or Python's
      substring test when a single string was given. */
  predicate Requested(ids: EntityIds, d: string) {
    match ids
    case IdList(l) => d in l
    case IdString(t) => Contains(t, d)
  }

  /** The devices a service call acts on: those whose entity id was asked
      for, or all of them when the call names none. */
  function TargetDevices(devices: seq<string>, requested: Option<EntityIds>): (r: seq<string>)
    ensures |r| <= |devices|
    ensures requested.None? || !Given(requested.value) ==> r == devices
    ensures requested.Some? && Given(requested.value) ==>
      forall d :: d in r <==> d in devices && Requested(requested.value, d)
  {
    if requested.None? || !Given(requested.value) then devices
    else Selected(devices, requested.value)
  }

  /** `[d for d in devices if d.entity_id in ids]`. */
  function Selected(devices: seq<string>, ids: EntityIds): (r: seq<string>)
    ensures |r| <= |devices|
    ensures forall d :: d in r <==> d in devices && Requested(ids, d)
    decreases |devices|
  {
    if devices == [] then []
    else
      var rest := Selected(devices[1..], ids);
      assert forall d :: d in devices <==> d == devices[0] || d in devices[1..];
      if Requested(ids, devices[0]) then [devices[0]] + rest else rest
  }

  /** The filter keeps the devices' order: the devices kept from a list
      split in two are those kept from the first part, then those kept from
      the second. */
  lemma {:induction false} SelectedAppend(a: seq<string>, b: seq<string>, ids: EntityIds)
    ensures Selected(a + b, ids) == Selected(a, ids) + Selected(b, ids)
    decreases |a|
  {
    if a == [] {
      assert a + b == b;
    } else {
      assert (a + b)[0] == a[0];
      assert (a + b)[1..] == a[1..] + b;
      SelectedAppend(a[1..], b, ids);
    }
  }

  /** With one entity id given as a string, every device whose entity id is
      a piece of it is selected too, not only the device named. */
  lemma PartialEntityIdSelects(devices: seq<string>, id: string, d: string, i: nat)
    requires d in devices && id != "" && OccursAt(id, d, i)
    ensures d in TargetDevices(devices, Some(IdString(id)))
  {
  }

  class SamyGODevice {
    const name: string
    const baseUrl: string
    const secret: string
    var info: Info
    /** The query parameters of every request sent, oldest first. */
    var requests: seq<map<string, string>>

    constructor(name: string, host: string, port: int, secret: string)
      ensures this.name == name && this.secret == secret
      ensures baseUrl == "http://" + host + ":" + IntToString(port) + "/cgi-bin/samygo-web-api.cgi"
      ensures info == Defaults(map[]) && requests == []
    {
      this.name := name;
      this.secret := secret;
      baseUrl := "http://" + host + ":" + IntToString(port) + "/cgi-bin/samygo-web-api.cgi";
      info := Defaults(map[]);
      requests := [];
    }

    /** `fetch`: sends the parameters with the challenge added. */
    method Fetch(parameters: map<string, string>, response: Response) returns (r: Result<Info, FetchError>)
      modifies this`requests
      ensures requests == old(requests) + [WithChallenge(parameters, secret)]
      ensures r == FetchResult(response)
    {
      requests := requests + [WithChallenge(parameters, secret)];
      r := FetchResult(response);
    }

    method Reboot(response: Response) returns (r: Result<Info, FetchError>)
      modifies this`requests
      ensures requests == old(requests) + [WithChallenge(map["action" := "REBOOT"], secret)]
      ensures r == FetchResult(response)
    {
      r := Fetch(map["action" := "REBOOT"], response);
    }

    method SendKey(key: string, response: Response) returns (r: Result<Info, FetchError>)
      modifies this`requests
      ensures requests == old(requests) + [KeyRequest(key, secret)]
      ensures r == FetchResult(response)
    {
      r := Fetch(map["action" := "KEY", "key" := key], response);
    }

    /** `update`: the fetched channel info replaces `_info`; a failed
        request raises and leaves it as it was. */
    method Update(response: Response) returns (r: Result<(), FetchError>)
      modifies this`requests, this`info
      ensures requests == old(requests) + [WithChallenge(map["action" := "CHANNELINFO"], secret)]
      ensures FetchResult(response).Ok? ==> r == Ok(()) && info == FetchResult(response).value
      ensures FetchResult(response).Err? ==> r == Err(FetchResult(response).error) && info == old(info)
    {
      var fetched := Fetch(map["action" := "CHANNELINFO"], response);
      if fetched.Err? {
        return Err(fetched.error);
      }
      info := fetched.value;
      return Ok(());
    }

    /** The remote-control methods: one key press each; the reply is
        dropped, a failure raises. */
    method Press(c: Control, response: Response) returns (r: Result<(), FetchError>)
      modifies this`requests
      ensures requests == old(requests) + [KeyRequest(KeyCode(c), secret)]
      ensures r == (if FetchResult(response).Ok? then Ok(()) else Err(FetchResult(response).error))
    {
      var sent := SendKey(KeyCode(c), response);
      if sent.Err? {
        return Err(sent.error);
      }
      return Ok(());
    }

    function CurrentState(): MediaState
      reads this
    {
      State(info)
    }

    /** Reading `volume_level`, which may store a None entry in `_info`. */
    method ReadVolumeLevel() returns (r: Result<Option<string>, LookupError>)
      modifies this`info
      ensures Read(r, info) == VolumeLevel(old(info))
    {
      var read := VolumeLevel(info);
      info := read.info;
      r := read.result;
    }

    method ReadIsVolumeMuted() returns (r: Result<Option<bool>, LookupError>)
      modifies this`info
      ensures Read(r, info) == IsVolumeMuted(old(info))
    {
      var read := IsVolumeMuted(info);
      info := read.info;
      r := read.result;
    }

    method ReadMediaTitle() returns (r: Result<Option<string>, LookupError>)
      modifies this`info
      ensures Read(r, info) == MediaTitle(old(info))
    {
      var read := MediaTitle(info);
      info := read.info;
      r := read.result;
    }
  }
}
