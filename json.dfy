/**
 * Decoded JSON values, as `JSONSerialization` hands them to the SDK
 * (dictionaries `[String: Any]`, arrays, strings, numbers, booleans, null),
 * and the `as?` casts the SDK applies to dictionary entries.
 */
module JsonValues {
  import opened Wrappers

  datatype Json =
    | JNull
    | JBool(b: bool)
    | JNumber(n: int)
    | JString(s: string)
    | JArray(items: seq<Json>)
    | JObject(fields: map<string, Json>)

  /** A `[String: Any]` dictionary. */
  type Object = map<string, Json>

  /** Swift's `Int` is 64 bits wide on the platforms the SDK targets. */
  const INT_MIN: int := -0x8000_0000_0000_0000
  const INT_MAX: int := 0x7FFF_FFFF_FFFF_FFFF

  predicate IsInt(n: int) {
    INT_MIN <= n <= INT_MAX
  }

  /** `o[key] as? Int`: a number that fits a Swift `Int`. */
  function IntAt(o: Object, key: string): Option<int> {
    if key in o && o[key].JNumber? && IsInt(o[key].n) then Some(o[key].n) else None
  }

  /** `o[key] as? String`. */
  function StringAt(o: Object, key: string): Option<string> {
    if key in o && o[key].JString? then Some(o[key].s) else None
  }

  /** `o[key] as? [String: Any]`. */
  function ObjectAt(o: Object, key: string): Option<Object> {
    if key in o && o[key].JObject? then Some(o[key].fields) else None
  }

  /** `value as? [String: Any] ?? [:]`. */
  function AsObjectOrEmpty(value: Json): Object {
    if value.JObject? then value.fields else map[]
  }
}
