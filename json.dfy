/** The slice of `serde_json::Value` that loading an ion list reads. */
module Json {
  import opened Common

  /** A parsed JSON document. An object's members are listed in the order in
      which its map iterates over them. */
  datatype JsonValue =
    | JNull
    | JBool(b: bool)
    | JNumber(n: real)
    | JString(s: string)
    | JArray(items: seq<JsonValue>)
    | JObject(members: seq<(string, JsonValue)>)

  /** The value of the first member named `key`. */
  function Lookup(members: seq<(string, JsonValue)>, key: string): (r: Option<JsonValue>)
    ensures r.None? <==> forall i :: 0 <= i < |members| ==> members[i].0 != key
    ensures r.Some? ==> exists i :: 0 <= i < |members| && members[i] == (key, r.value)
  {
    if |members| == 0 then None
    else if members[0].0 == key then Some(members[0].1)
    else
      var r := Lookup(members[1..], key);
      assert r.Some? ==> exists i :: 0 <= i < |members| - 1 && members[1..][i] == (key, r.value);
      r
  }

  /** `Value::get(key)`: the member of an object, nothing for any other value. */
  function Get(v: JsonValue, key: string): Option<JsonValue> {
    if v.JObject? then Lookup(v.members, key) else None
  }

  /** `value[key]`: like `get`, but `Null` where `get` finds nothing. */
  function Index(v: JsonValue, key: string): JsonValue {
    match Get(v, key)
    case Some(member) => member
    case None => JNull
  }

  function AsArray(v: JsonValue): Option<seq<JsonValue>> {
    if v.JArray? then Some(v.items) else None
  }

  function AsObject(v: JsonValue): Option<seq<(string, JsonValue)>> {
    if v.JObject? then Some(v.members) else None
  }

  /** `as_f64`: every JSON number, and nothing else. */
  function AsF64(v: JsonValue): Option<real> {
    if v.JNumber? then Some(v.n) else None
  }

  function AsStr(v: JsonValue): Option<string> {
    if v.JString? then Some(v.s) else None
  }
}
