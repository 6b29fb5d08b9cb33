/** Values read off a Xiaomi Miio device's polled status, and the way the
    entities read them.

    The coordinator's data is a python-miio status object; entities read an
    attribute of it through `_extract_value_from_attribute`, a base-class
    helper that is not part of this model. Here it is an `Extractor`, a
    function the caller supplies, so every statement holds whatever the
    helper returns. */
module MiioValues {

  /** A value as Python sees it: None, a bool, an int or a string. */
  datatype Value = Null | Bool(b: bool) | Int(i: int) | Str(s: string)

  /** Python truthiness: None, False, 0 and "" are false. */
  predicate Truthy(v: Value) {
    match v
    case Null => false
    case Bool(b) => b
    case Int(i) => i != 0
    case Str(s) => s != ""
  }

  /** `not v`. */
  function Not(v: Value): (r: Value)
    ensures r.Bool? && (r.b <==> !Truthy(v))
  {
    Bool(!Truthy(v))
  }

  /** Where an attribute is read from: the status object itself, or the
      object held in one of its attributes (`getattr(data, parent)`). */
  datatype Source = Root | Parent(name: string)

  /** `_extract_value_from_attribute(source, key)` on the current data. */
  type Extractor = (Source, string) -> Value
}
