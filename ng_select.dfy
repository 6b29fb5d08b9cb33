/** `XiaomiSelect`: a select entity for one enumerated setting of a Xiaomi
    Miio device.

    The setting's choices are a Python Enum with integer values: names are
    unique, and a member whose value an earlier member already has is an
    alias of it. Looking a value up gives the first member with that value,
    iterating skips the aliases, and looking a name up finds aliases too. */
module NgSelect {
  import opened Wrappers
  import opened Strings
  import opened MiioValues

  datatype Choice = Choice(name: string, value: int)

  predicate DistinctNames(choices: seq<Choice>) {
    forall i, j :: 0 <= i < j < |choices| ==> choices[i].name != choices[j].name
  }

  /** choices[i] is not an alias: no earlier member has its value. */
  predicate Canonical(choices: seq<Choice>, i: int)
    requires 0 <= i < |choices|
  {
    forall j :: 0 <= j < i ==> choices[j].value != choices[i].value
  }

  /** `[x.name for x in choices]`: the names of the canonical members, in
      definition order. */
  function Options(choices: seq<Choice>): (r: seq<string>)
    ensures |r| <= |choices|
    decreases |choices|
  {
    if choices == [] then []
    else
      var n := |choices| - 1;
      var rest := Options(choices[..n]);
      if Canonical(choices, n) then rest + [choices[n].name] else rest
  }

  /** An option is exactly the name of a member that is not an alias. */
  lemma {:induction false} OptionsMembers(choices: seq<Choice>, o: string)
    ensures o in Options(choices) <==> exists i :: 0 <= i < |choices| && Canonical(choices, i) && choices[i].name == o
    decreases |choices|
  {
    if choices != [] {
      var n := |choices| - 1;
      var init := choices[..n];
      OptionsMembers(init, o);
      assert forall i :: 0 <= i < n ==> init[i] == choices[i];
      assert forall i :: 0 <= i < n ==> (Canonical(init, i) <==> Canonical(choices, i));
      if o in Options(choices) && o !in Options(init) {
        assert Canonical(choices, n) && choices[n].name == o;
      }
    }
  }

  /** `choices(value)`: the first member with that value. */
  function ByValue(choices: seq<Choice>, v: int): (r: Option<string>)
    ensures r.None? <==> forall i :: 0 <= i < |choices| ==> choices[i].value != v
    ensures r.Some? ==> exists i :: 0 <= i < |choices| && Canonical(choices, i)
                                  && choices[i].value == v && choices[i].name == r.value
    decreases |choices|
  {
    if choices == [] then None
    else
      var n := |choices| - 1;
      var init := choices[..n];
      var first := ByValue(init, v);
      assert forall i :: 0 <= i < n ==> init[i] == choices[i];
      assert forall i :: 0 <= i < n ==> (Canonical(init, i) <==> Canonical(choices, i));
      if first.Some? then first
      else if choices[n].value == v then Some(choices[n].name)
      else None
  }

  /** `choices[name].value`: None where Python raises KeyError. */
  function ByName(choices: seq<Choice>, name: string): (r: Option<int>)
    ensures r.None? <==> forall i :: 0 <= i < |choices| ==> choices[i].name != name
    ensures r.Some? ==> exists i :: 0 <= i < |choices| && choices[i].name == name && choices[i].value == r.value
    decreases |choices|
  {
    if choices == [] then None
    else if choices[0].name == name then Some(choices[0].value)
    else
      var r := ByName(choices[1..], name);
      assert forall i :: 1 <= i < |choices| ==> choices[1..][i - 1] == choices[i];
      r
  }

  /** The value of a member found by its name. */
  lemma ByNameAt(choices: seq<Choice>, i: int)
    requires DistinctNames(choices) && 0 <= i < |choices|
    ensures ByName(choices, choices[i].name) == Some(choices[i].value)
  {
  }

  /** The canonical member with a given value is the one ByValue finds. */
  lemma ByValueAt(choices: seq<Choice>, i: int)
    requires 0 <= i < |choices| && Canonical(choices, i)
    ensures ByValue(choices, choices[i].value) == Some(choices[i].name)
  {
    var r := ByValue(choices, choices[i].value);
    var k :| 0 <= k < |choices| && Canonical(choices, k) && choices[k].value == choices[i].value && choices[k].name == r.value;
    assert k == i;
  }

  /** Every option round-trips: its value looked up again gives the option
      back. */
  lemma OptionRoundTrip(choices: seq<Choice>, o: string)
    requires DistinctNames(choices)
    ensures o in Options(choices) ==> ByName(choices, o).Some? && ByValue(choices, ByName(choices, o).value) == Some(o)
  {
    OptionsMembers(choices, o);
    if o in Options(choices) {
      var i :| 0 <= i < |choices| && Canonical(choices, i) && choices[i].name == o;
      ByNameAt(choices, i);
      ByValueAt(choices, i);
    }
  }

  /** The enum value Python's `choices(value)` is asked for, or None when no
      int-valued member can equal it (`True == 1`, `False == 0`). */
  function AsEnumValue(v: Value): Option<int> {
    match v
    case Int(i) => Some(i)
    case Bool(b) => Some(if b then 1 else 0)
    case _ => None
  }

  /** The current option after a coordinator update: unchanged for None and
      for a value that is not a valid choice (the ValueError is swallowed),
      else that value's member name; a bool polls as the member valued 1 or
      0. */
  function UpdatedOption(current: Option<string>, v: Value, choices: seq<Choice>): (r: Option<string>)
    ensures v == Null || v.Str? ==> r == current
    ensures AsEnumValue(v).None? ==> r == current
    ensures AsEnumValue(v).Some? && (forall i :: 0 <= i < |choices| ==> choices[i].value != AsEnumValue(v).value) ==>
      r == current
    ensures r != current ==> r.Some? && r.value in Options(choices)
    ensures AsEnumValue(v).Some? && (exists i :: 0 <= i < |choices| && choices[i].value == AsEnumValue(v).value) ==>
      r == ByValue(choices, AsEnumValue(v).value)
  {
    if v == Null then current
    else
      var e := AsEnumValue(v);
      if e.None? then current
      else
        var found := ByValue(choices, e.value);
        if found.None? then current
        else
          OptionsMembers(choices, found.value);
          found
  }

  /** Why `async_select_option` fails before calling the device. */
  datatype SelectError = KeyError(option: string)

  /** `f"{entry.unique_id}_{slugify(name)}"`. */
  function SelectUniqueId(entryUid: string, slug: string): (r: string)
    ensures StartsWith(r, entryUid + "_")
    ensures r[|entryUid| + 1..] == slug
  {
    entryUid + "_" + slug
  }

  class XiaomiSelect {
    const key: string
    const uniqueId: string
    const choices: seq<Choice>
    const options: seq<string>
    var currentOption: Option<string>
    /** The values passed to the device setter, oldest first. */
    var setterCalls: seq<int>

    constructor(entryUid: string, name: string, id: string, choices: seq<Choice>, slugify: string -> string)
      requires DistinctNames(choices)
      ensures key == id && uniqueId == SelectUniqueId(entryUid, slugify(name))
      ensures this.choices == choices && options == Options(choices)
      ensures currentOption == None && setterCalls == []
    {
      key := id;
      uniqueId := SelectUniqueId(entryUid, slugify(name));
      this.choices := choices;
      options := Options(choices);
      currentOption := None;
      setterCalls := [];
    }

    method HandleCoordinatorUpdate(extract: Extractor)
      modifies this`currentOption
      ensures currentOption == UpdatedOption(old(currentOption), extract(Root, key), choices)
    {
      var value := extract(Root, key);
      if value != Null {
        var e := AsEnumValue(value);
        if e.Some? {
          var found := ByValue(choices, e.value);
          if found.Some? {
            currentOption := found;
          }
        }
      }
    }

    /** `async_select_option`: an unknown name raises KeyError before the
        device is called; otherwise the setter gets the option's value and,
        when the device accepts it (`ok`), the option becomes current. */
    method AsyncSelectOption(option: string, ok: bool) returns (r: Result<bool, SelectError>)
      modifies this`currentOption, this`setterCalls
      ensures ByName(choices, option).None? ==>
        r == Err(KeyError(option)) && currentOption == old(currentOption) && setterCalls == old(setterCalls)
      ensures ByName(choices, option).Some? ==>
        r == Ok(ok) && setterCalls == old(setterCalls) + [ByName(choices, option).value]
        && currentOption == (if ok then Some(option) else old(currentOption))
    {
      var value := ByName(choices, option);
      if value.None? {
        return Err(KeyError(option));
      }
      setterCalls := setterCalls + [value.value];
      if ok {
        currentOption := Some(option);
      }
      return Ok(ok);
    }
  }
}
