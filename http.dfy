/**
 * What every contact backend sees of an HTTP request body.
 *
 * A body either fails to parse as JSON or is a JSON object; the members the
 * handlers read are strings, so an object is its map from member name to
 * string value. A member that is absent (or null) is simply not in the map.
 */
module Http {
  import opened Wrappers

  datatype Payload = Malformed | Object(fields: map<string, string>)

  /** `body.name` in JavaScript, `data.get('name')` in Python. */
  function Member(fields: map<string, string>, key: string): Option<string> {
    if key in fields then Some(fields[key]) else None
  }

  /** Truthiness of an optional string, identical in JavaScript and Python:
      absent and the empty string are falsy, every other string is truthy. */
  predicate Truthy(v: Option<string>) {
    v.Some? && v.value != ""
  }

  /** `x || ''`: the value when truthy, the empty string otherwise. */
  function OrEmpty(v: Option<string>): string {
    if Truthy(v) then v.value else ""
  }

  /** `data.get(key, '')`: the member, or the empty string when it is absent. */
  function Field(fields: map<string, string>, key: string): string {
    if key in fields then fields[key] else ""
  }
}
