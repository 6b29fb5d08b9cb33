/** The Xiaomi robot vacuum entity: how the device's polled status becomes
    the state Home Assistant shows, how fan-speed names map to the device's
    speed values, and how each service call becomes one device command.

    Device calls are not executed: each is appended to `commands`, and
    whether it raised DeviceException is the `deviceOk` argument. */
module Vacuum {
  import opened Wrappers
  import opened Strings
  import opened Keyed

  /** python-miio's VacuumState. */
  datatype VacuumState = Unknown | Cleaning | Returning | Idle | Docked | Paused | Error

  /** Home Assistant's vacuum states. */
  datatype HassState = StateCleaning | StateDocked | StateError | StateIdle | StatePaused | StateReturning

  /** The status object the coordinator polled last; `stateText` is
      `str(status.state)`. */
  datatype VacuumStatus = VacuumStatus(vacuumState: VacuumState, fanspeed: int, battery: int, stateText: string)

  /** A call on the python-miio device object, with its arguments. */
  datatype Command =
    | ResumeOrStart | Pause | Stop | SetFanSpeed(speed: int) | Home | Spot | Find
    | RawCommand(command: string, params: Option<string>)
    | ManualStart | ManualStop
    | ManualControl(velocity: real, rotation: int, duration: int)
    | ManualControlOnce(velocity: real, rotation: int, duration: int)
    | Goto(x: int, y: int)
    | SegmentClean(segments: seq<int>)
    | ZonedClean(zones: seq<seq<int>>)

  /** Keyword defaults of the remote-control services. */
  const DEFAULT_ROTATION: int := 0
  const MOVE_VELOCITY: real := 0.3
  const STEP_VELOCITY: real := 0.2
  const DEFAULT_DURATION: int := 1500

  /** The device's `fan_speed_presets()`: preset names with their speed
      values, in dictionary order. */
  type Presets = seq<(string, int)>

  /** A dictionary's keys are distinct. */
  predicate DistinctNames(p: Presets) {
    forall i, j :: 0 <= i < j < |p| ==> p[i].0 != p[j].0
  }

  predicate DistinctSpeeds(p: Presets) {
    forall i, j :: 0 <= i < j < |p| ==> p[i].1 != p[j].1
  }

  /** `VACUUMSTATE_TO_HASS.get(state)`: the six known states map to their
      Home Assistant state, anything else to None. */
  function VacuumStateToHass(s: VacuumState): (r: Option<HassState>)
    ensures r.None? <==> s == Unknown
  {
    match s
    case Error => Some(StateError)
    case Cleaning => Some(StateCleaning)
    case Idle => Some(StateIdle)
    case Docked => Some(StateDocked)
    case Returning => Some(StateReturning)
    case Paused => Some(StatePaused)
    case Unknown => None
  }

  /** The device state a Home Assistant state stands for. */
  function HassToVacuumState(h: HassState): VacuumState {
    match h
    case StateError => Error
    case StateCleaning => Cleaning
    case StateIdle => Idle
    case StateDocked => Docked
    case StateReturning => Returning
    case StatePaused => Paused
  }

  /** The table is one-to-one: every Home Assistant state comes from exactly
      one device state. */
  lemma VacuumStateTableInverse(s: VacuumState, h: HassState)
    ensures VacuumStateToHass(HassToVacuumState(h)) == Some(h)
    ensures VacuumStateToHass(s) == Some(h) <==> s == HassToVacuumState(h)
  {
  }

  /** The `state` property: while the device reports Error the entity shows
      Error whatever it cached; otherwise the cached state. */
  function DisplayedState(reported: VacuumState, cached: Option<HassState>): (r: Option<HassState>)
    ensures reported == Error ==> r == Some(StateError)
    ensures reported != Error ==> r == cached
  {
    if reported == Error then Some(StateError) else cached
  }

  /** After a coordinator update the displayed state is the table's image of
      the reported state, and Error stays Error. */
  lemma DisplayedAfterUpdate(reported: VacuumState)
    ensures DisplayedState(reported, VacuumStateToHass(reported)) == VacuumStateToHass(reported)
    ensures DisplayedState(reported, VacuumStateToHass(reported)).None? <==> reported == Unknown
  {
  }

  /** `list(presets)`: the preset names in table order. */
  function FanSpeedList(p: Presets): (r: seq<string>)
    ensures |r| == |p|
    ensures forall i :: 0 <= i < |p| ==> r[i] == p[i].0
  {
    seq(|p|, i requires 0 <= i < |p| => p[i].0)
  }

  /** `{speed: name for name, speed in presets.items()}`. */
  function ReversePresets(p: Presets): (r: map<int, string>)
    ensures r.Keys == set i | 0 <= i < |p| :: p[i].1
    ensures forall s :: s in r ==> exists i :: 0 <= i < |p| && p[i] == (r[s], s)
  {
    var pairs := seq(|p|, i requires 0 <= i < |p| => (p[i].1, p[i].0));
    assert forall i :: 0 <= i < |p| ==> pairs[i].0 == p[i].1;
    ToMapDomain(pairs);
    ToMap(pairs)
  }

  /** `presets[name]` when `name in presets`. */
  function PresetValue(p: Presets, name: string): (r: Option<int>)
    ensures r.Some? <==> exists i :: 0 <= i < |p| && p[i].0 == name
    decreases |p|
  {
    if p == [] then None
    else if p[0].0 == name then Some(p[0].1)
    else
      var r := PresetValue(p[1..], name);
      assert forall i :: 1 <= i < |p| ==> p[1..][i - 1] == p[i];
      r
  }

  lemma {:induction false} PresetValueAt(p: Presets, i: nat)
    requires DistinctNames(p) && i < |p|
    ensures PresetValue(p, p[i].0) == Some(p[i].1)
    decreases |p|
  {
    if i > 0 {
      assert p[1..][i - 1] == p[i];
      PresetValueAt(p[1..], i - 1);
    }
  }

  /** The reverse map inverts the preset map: the name it gives a speed
      looks that very speed up again. */
  lemma ReverseLooksUp(p: Presets, s: int)
    requires DistinctNames(p) && s in ReversePresets(p)
    ensures PresetValue(p, ReversePresets(p)[s]) == Some(s)
  {
    var r := ReversePresets(p);
    var i :| 0 <= i < |p| && p[i] == (r[s], s);
    PresetValueAt(p, i);
  }

  /** With distinct speeds, every preset's speed is named back by it. */
  lemma ReverseNames(p: Presets, i: nat)
    requires DistinctSpeeds(p) && i < |p|
    ensures p[i].1 in ReversePresets(p) && ReversePresets(p)[p[i].1] == p[i].0
  {
    var pairs := seq(|p|, i requires 0 <= i < |p| => (p[i].1, p[i].0));
    assert ReversePresets(p) == ToMap(pairs);
    ToMapLastWins(pairs, i);
  }

  /** The `fan_speed` property: the preset name of the current speed, or
      "Custom" for a speed no preset has. */
  function FanSpeedName(reverse: map<int, string>, speed: int): (r: string)
    ensures speed in reverse ==> r == reverse[speed]
    ensures speed !in reverse ==> r == "Custom"
  {
    if speed in reverse then reverse[speed] else "Custom"
  }

  lemma FanSpeedOfUnknownSpeed(p: Presets, speed: int)
    requires forall i :: 0 <= i < |p| ==> p[i].1 != speed
    ensures FanSpeedName(ReversePresets(p), speed) == "Custom"
  {
  }

  /** What `async_set_fan_speed` sends: a preset's value, else the integer the
      text spells, else nothing. */
  function ResolveFanSpeed(p: Presets, fanSpeed: string): Option<int> {
    match PresetValue(p, fanSpeed)
    case Some(v) => Some(v)
    case None => ParseInt(fanSpeed)
  }

  /** A preset name sends its value; an integer that is not a preset name
      sends itself; text that is neither sends nothing. */
  lemma ResolveFanSpeedCases(p: Presets, i: nat, n: int, other: string)
    requires DistinctNames(p) && i < |p|
    requires forall j :: 0 <= j < |p| ==> p[j].0 != IntToString(n)
    requires forall j :: 0 <= j < |p| ==> p[j].0 != other
    requires ParseInt(other).None?
    ensures ResolveFanSpeed(p, p[i].0) == Some(p[i].1)
    ensures ResolveFanSpeed(p, IntToString(n)) == Some(n)
    ensures ResolveFanSpeed(p, other) == None
  {
    PresetValueAt(p, i);
    ParseIntOfIntToString(n);
  }

  /** Choosing the fan speed the entity displays sends the speed the device
      reported, whenever that speed is a preset. */
  lemma DisplayedFanSpeedRoundTrip(p: Presets, speed: int)
    requires DistinctNames(p)
    requires speed in ReversePresets(p)
    ensures ResolveFanSpeed(p, FanSpeedName(ReversePresets(p), speed)) == Some(speed)
  {
    ReverseLooksUp(p, speed);
  }

  /** `extra_state_attributes`: only "status", since `timers` is always empty. */
  function ExtraStateAttributes(status: VacuumStatus): (r: map<string, string>)
    ensures r.Keys == {"status"}
    ensures r["status"] == status.stateText
  {
    map["status" := status.stateText]
  }

  /** The `segments` argument: one segment id or a list of them. */
  datatype Segments = OneSegment(id: int) | SegmentList(ids: seq<int>)

  function NormaliseSegments(s: Segments): (r: seq<int>)
    ensures s.OneSegment? ==> r == [s.id]
    ensures s.SegmentList? ==> r == s.ids
  {
    match s
    case OneSegment(id) => [id]
    case SegmentList(ids) => ids
  }

  /** The zones after `_zone.append(repeats)` on each: every zone keeps its
      coordinates and gains the repeat count as its last element. */
  function WithRepeats(zones: seq<seq<int>>, repeats: int): (r: seq<seq<int>>)
    ensures |r| == |zones|
    ensures forall i :: 0 <= i < |zones| ==>
      |r[i]| == |zones[i]| + 1 && r[i][..|zones[i]|] == zones[i] && r[i][|zones[i]|] == repeats
  {
    seq(|zones|, i requires 0 <= i < |zones| => zones[i] + [repeats])
  }

  class MiroboVacuum {
    const presets: Presets
    const presetsReverse: map<int, string>
    /** The cached `_state`. */
    var state: Option<HassState>
    /** `coordinator.data`. */
    var data: VacuumStatus
    /** Device calls attempted, in order. */
    var commands: seq<Command>
    /** Coordinator refreshes requested. */
    var refreshes: nat

    constructor(presets: Presets, data: VacuumStatus)
      requires DistinctNames(presets)
      ensures this.presets == presets && presetsReverse == ReversePresets(presets)
      ensures state == None && this.data == data
      ensures commands == [] && refreshes == 0
    {
      this.presets := presets;
      presetsReverse := ReversePresets(presets);
      state := None;
      this.data := data;
      commands := [];
      refreshes := 0;
    }

    function State(): Option<HassState>
      reads this
    {
      DisplayedState(data.vacuumState, state)
    }

    function FanSpeed(): string
      reads this
    {
      FanSpeedName(presetsReverse, data.fanspeed)
    }

    /** The command was attempted, and the coordinator refreshed only if it
        succeeded. */
    ghost predicate Ran(commands0: seq<Command>, refreshes0: nat, cmd: Command, ok: bool)
      reads this
    {
      commands == commands0 + [cmd] && refreshes == refreshes0 + (if ok then 1 else 0)
    }

    /** `_try_command`: True and a refresh on success; False and no refresh
        when the device raised. */
    method TryCommand(cmd: Command, deviceOk: bool) returns (ok: bool)
      modifies this`commands, this`refreshes
      ensures ok == deviceOk
      ensures Ran(old(commands), old(refreshes), cmd, deviceOk)
    {
      commands := commands + [cmd];
      if deviceOk {
        refreshes := refreshes + 1;
      }
      ok := deviceOk;
    }

    method Start(deviceOk: bool)
      modifies this`commands, this`refreshes
      ensures Ran(old(commands), old(refreshes), ResumeOrStart, deviceOk)
    {
      var _ := TryCommand(ResumeOrStart, deviceOk);
    }

    method PauseCleaning(deviceOk: bool)
      modifies this`commands, this`refreshes
      ensures Ran(old(commands), old(refreshes), Pause, deviceOk)
    {
      var _ := TryCommand(Pause, deviceOk);
    }

    method StopCleaning(deviceOk: bool)
      modifies this`commands, this`refreshes
      ensures Ran(old(commands), old(refreshes), Stop, deviceOk)
    {
      var _ := TryCommand(Stop, deviceOk);
    }

    method ReturnToBase(deviceOk: bool)
      modifies this`commands, this`refreshes
      ensures Ran(old(commands), old(refreshes), Home, deviceOk)
    {
      var _ := TryCommand(Home, deviceOk);
    }

    method CleanSpot(deviceOk: bool)
      modifies this`commands, this`refreshes
      ensures Ran(old(commands), old(refreshes), Spot, deviceOk)
    {
      var _ := TryCommand(Spot, deviceOk);
    }

    method Locate(deviceOk: bool)
      modifies this`commands, this`refreshes
      ensures Ran(old(commands), old(refreshes), Find, deviceOk)
    {
      var _ := TryCommand(Find, deviceOk);
    }

    method SendCommand(command: string, params: Option<string>, deviceOk: bool)
      modifies this`commands, this`refreshes
      ensures Ran(old(commands), old(refreshes), RawCommand(command, params), deviceOk)
    {
      var _ := TryCommand(RawCommand(command, params), deviceOk);
    }

    method RemoteControlStart(deviceOk: bool)
      modifies this`commands, this`refreshes
      ensures Ran(old(commands), old(refreshes), ManualStart, deviceOk)
    {
      var _ := TryCommand(ManualStart, deviceOk);
    }

    method RemoteControlStop(deviceOk: bool)
      modifies this`commands, this`refreshes
      ensures Ran(old(commands), old(refreshes), ManualStop, deviceOk)
    {
      var _ := TryCommand(ManualStop, deviceOk);
    }

    /** An argument left out (None) takes its keyword default. */
    method RemoteControlMove(rotation: Option<int>, velocity: Option<real>, duration: Option<int>, deviceOk: bool)
      modifies this`commands, this`refreshes
      ensures Ran(old(commands), old(refreshes),
                  ManualControl(velocity.GetOr(MOVE_VELOCITY), rotation.GetOr(DEFAULT_ROTATION),
                                duration.GetOr(DEFAULT_DURATION)),
                  deviceOk)
    {
      var command := ManualControl(velocity.GetOr(MOVE_VELOCITY), rotation.GetOr(DEFAULT_ROTATION),
                                   duration.GetOr(DEFAULT_DURATION));
      var _ := TryCommand(command, deviceOk);
    }

    method RemoteControlMoveStep(rotation: Option<int>, velocity: Option<real>, duration: Option<int>, deviceOk: bool)
      modifies this`commands, this`refreshes
      ensures Ran(old(commands), old(refreshes),
                  ManualControlOnce(velocity.GetOr(STEP_VELOCITY), rotation.GetOr(DEFAULT_ROTATION),
                                    duration.GetOr(DEFAULT_DURATION)),
                  deviceOk)
    {
      var command := ManualControlOnce(velocity.GetOr(STEP_VELOCITY), rotation.GetOr(DEFAULT_ROTATION),
                                       duration.GetOr(DEFAULT_DURATION));
      var _ := TryCommand(command, deviceOk);
    }

    method GotoTarget(x: int, y: int, deviceOk: bool)
      modifies this`commands, this`refreshes
      ensures Ran(old(commands), old(refreshes), Goto(x, y), deviceOk)
    {
      var _ := TryCommand(Goto(x, y), deviceOk);
    }

    /** `async_set_fan_speed`: sends the resolved speed, or nothing when the
        text is neither a preset nor an integer. */
    method SetFanSpeedByName(fanSpeed: string, deviceOk: bool)
      modifies this`commands, this`refreshes
      ensures ResolveFanSpeed(presets, fanSpeed).None? ==>
        commands == old(commands) && refreshes == old(refreshes)
      ensures ResolveFanSpeed(presets, fanSpeed).Some? ==>
        Ran(old(commands), old(refreshes), SetFanSpeed(ResolveFanSpeed(presets, fanSpeed).value), deviceOk)
    {
      var speed: int;
      var preset := PresetValue(presets, fanSpeed);
      if preset.Some? {
        speed := preset.value;
      } else {
        var parsed := ParseInt(fanSpeed);
        if parsed.None? {
          return;
        }
        speed := parsed.value;
      }
      var _ := TryCommand(SetFanSpeed(speed), deviceOk);
    }

    /** `async_clean_segment`. */
    method CleanSegment(segments: Segments, deviceOk: bool)
      modifies this`commands, this`refreshes
      ensures Ran(old(commands), old(refreshes), SegmentClean(NormaliseSegments(segments)), deviceOk)
    {
      var ids := match segments case OneSegment(id) => [id] case SegmentList(ids) => ids;
      var _ := TryCommand(SegmentClean(ids), deviceOk);
    }

    /** `async_clean_zone`: appends the repeat count to every zone in place,
        then sends the zones; OSError and DeviceException are caught. */
    method CleanZone(zone: array<seq<int>>, repeats: int, deviceOk: bool)
      modifies this`commands, this`refreshes, zone
      ensures zone[..] == WithRepeats(old(zone[..]), repeats)
      ensures Ran(old(commands), old(refreshes), ZonedClean(zone[..]), deviceOk)
    {
      var i := 0;
      while i < zone.Length
        invariant 0 <= i <= zone.Length
        invariant forall j :: 0 <= j < i ==> zone[j] == old(zone[j]) + [repeats]
        invariant forall j :: i <= j < zone.Length ==> zone[j] == old(zone[j])
        invariant commands == old(commands) && refreshes == old(refreshes)
      {
        zone[i] := zone[i] + [repeats];
        i := i + 1;
      }
      commands := commands + [ZonedClean(zone[..])];
      if deviceOk {
        refreshes := refreshes + 1;
      }
    }

    /** `_handle_coordinator_update`: the coordinator delivers `polled`, and
        the cached state becomes its table image. */
    method HandleCoordinatorUpdate(polled: VacuumStatus)
      modifies this`data, this`state
      ensures data == polled
      ensures state == VacuumStateToHass(polled.vacuumState)
      ensures State() == VacuumStateToHass(polled.vacuumState)
    {
      data := polled;
      state := VacuumStateToHass(polled.vacuumState);
    }
  }
}
