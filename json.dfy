/** Decoded JSON values, as `json.load` hands them to the normalizer. */
module JsonValues {
  import opened Dicts

  /** A decoded JSON value. Objects keep their members in document order.
      Numbers that decode to a Python `int` are `JInt`; floats, arrays and
      anything else are carried opaquely as `JOther`. */
  datatype Json =
    | JObject(members: Dict<Json>)
    | JString(str: string)
    | JInt(num: int)
    | JBool(b: bool)
    | JNull
    | JOther(raw: string)

  /** `obj.get(key, {})` can be read further: the member is absent or is an object. */
  predicate ObjectOrAbsent(obj: Dict<Json>, key: string)
  {
    match Get(obj, key)
    case None => true
    case Some(v) => v.JObject?
  }

  /** `obj.get(outer, {}).get(inner, default)`. */
  function NestedGetOr(obj: Dict<Json>, outer: string, inner: string, default: Json): Json
    requires ObjectOrAbsent(obj, outer)
  {
    match Get(obj, outer)
    case None => default
    case Some(v) => GetOr(v.members, inner, default)
  }
}
