/** Values shared by the request handlers of server.js: optional values, the
    three states a property of a JavaScript object literal can be in, and the
    JSON values read from the site's data files together with JavaScript's
    truthiness test on them. */
module Values {

  /** A value that may be missing (`undefined` in the source). */
  datatype Option<+T> = None | Some(value: T)

  /** A property of an object literal handed to the template: not present at
      all, present and `null`, or present with a value. */
  datatype Field<+T> = Unset | Null | Set(value: T)

  /** A value parsed from a `.json` file. */
  datatype Json =
    | JNull
    | JBool(b: bool)
    | JNumber(n: real)
    | JString(s: string)
    | JArray(items: seq<Json>)
    | JObject(members: seq<(string, Json)>)

  /** JavaScript truthiness of a parsed JSON value: `null`, `false`, `0` and
      the empty string are falsy, every array and object is truthy. */
  predicate Truthy(v: Json)
  {
    match v
    case JNull => false
    case JBool(b) => b
    case JNumber(n) => n != 0.0
    case JString(s) => s != ""
    case JArray(_) => true
    case JObject(_) => true
  }
}
