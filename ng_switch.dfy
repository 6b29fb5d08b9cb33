/** `XiaomiSwitch`: a switch entity for one boolean setting of a Xiaomi Miio
    device. Its state is the polled value, overwritten on every coordinator
    update, and set optimistically after a command the device accepted.

    `slugify` and the base class's `_try_command` are not part of this
    model: the first is a function argument, the second is the outcome
    `ok` of sending the setter call. */
module NgSwitch {
  import opened Strings
  import opened MiioValues

  const SWITCH_INFIX := "_switch_"

  /** `f"{entry.unique_id}_switch_{slugify(name)}"`. */
  function SwitchUniqueId(entryUid: string, slug: string): (r: string)
    ensures |r| == |entryUid| + |SWITCH_INFIX| + |slug|
    ensures StartsWith(r, entryUid)
    ensures r[|entryUid|..|entryUid| + |SWITCH_INFIX|] == SWITCH_INFIX
    ensures r[|entryUid| + |SWITCH_INFIX|..] == slug
  {
    entryUid + SWITCH_INFIX + slug
  }

  /** What can happen to a switch: a turn-on or turn-off command, accepted
      or not, or a coordinator update that reads `value`. */
  datatype SwitchEvent = TurnOn(ok: bool) | TurnOff(ok: bool) | Polled(value: Value)

  /** The switch state after one event. */
  function Step(isOn: Value, e: SwitchEvent): Value {
    match e
    case TurnOn(ok) => if ok then Bool(true) else isOn
    case TurnOff(ok) => if ok then Bool(false) else isOn
    case Polled(v) => v
  }

  /** The switch state after a run of events. */
  function Run(isOn: Value, events: seq<SwitchEvent>): Value
    decreases |events|
  {
    if events == [] then isOn else Step(Run(isOn, events[..|events| - 1]), events[|events| - 1])
  }

  /** Rejected commands change nothing. */
  predicate Effective(e: SwitchEvent) {
    e.Polled? || e.ok
  }

  /** The state is set by the last accepted command or poll: rejected
      commands after it are as if they never happened, and with none at all
      the state is the initial one. */
  lemma {:induction false} LastEffectiveEventWins(isOn: Value, events: seq<SwitchEvent>, i: nat)
    requires i < |events| && Effective(events[i])
    requires forall j :: i < j < |events| ==> !Effective(events[j])
    ensures Run(isOn, events) == Step(Run(isOn, events[..i]), events[i])
    ensures events[i].TurnOn? ==> Run(isOn, events) == Bool(true)
    ensures events[i].TurnOff? ==> Run(isOn, events) == Bool(false)
    ensures events[i].Polled? ==> Run(isOn, events) == events[i].value
    decreases |events|
  {
    var init := events[..|events| - 1];
    if i < |events| - 1 {
      assert init[..i] == events[..i];
      LastEffectiveEventWins(isOn, init, i);
    } else {
      assert init == events[..i];
    }
  }

  /** With only rejected commands the state never changes. */
  lemma {:induction false} RejectedCommandsKeepState(isOn: Value, events: seq<SwitchEvent>)
    requires forall j :: 0 <= j < |events| ==> !Effective(events[j])
    ensures Run(isOn, events) == isOn
    decreases |events|
  {
    if events != [] {
      RejectedCommandsKeepState(isOn, events[..|events| - 1]);
    }
  }

  class XiaomiSwitch {
    const key: string
    const uniqueId: string
    var isOn: Value
    /** The values passed to the device setter, oldest first. */
    var setterCalls: seq<bool>

    /** The state starts as the polled value at the switch's key. */
    constructor(entryUid: string, name: string, id: string, slugify: string -> string, extract: Extractor)
      ensures key == id && uniqueId == SwitchUniqueId(entryUid, slugify(name))
      ensures isOn == extract(Root, id) && setterCalls == []
    {
      key := id;
      uniqueId := SwitchUniqueId(entryUid, slugify(name));
      isOn := extract(Root, id);
      setterCalls := [];
    }

    method HandleCoordinatorUpdate(extract: Extractor)
      modifies this`isOn
      ensures isOn == Step(old(isOn), Polled(extract(Root, key)))
    {
      isOn := extract(Root, key);
    }

    /** `async_turn_on`: calls the setter with True; `ok` is whether the
        device accepted it. */
    method AsyncTurnOn(ok: bool)
      modifies this`isOn, this`setterCalls
      ensures setterCalls == old(setterCalls) + [true]
      ensures isOn == Step(old(isOn), TurnOn(ok))
    {
      setterCalls := setterCalls + [true];
      if ok {
        isOn := Bool(true);
      }
    }

    /** `async_turn_off`: calls the setter with False. */
    method AsyncTurnOff(ok: bool)
      modifies this`isOn, this`setterCalls
      ensures setterCalls == old(setterCalls) + [false]
      ensures isOn == Step(old(isOn), TurnOff(ok))
    {
      setterCalls := setterCalls + [false];
      if ok {
        isOn := Bool(false);
      }
    }
  }
}
