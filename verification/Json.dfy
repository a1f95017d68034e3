/** JSON as cJSON holds it: members in order, the same key possibly more than once. */
module Json {
  import opened Prelude

  datatype Json =
    | Null
    | Bool(b: bool)
    | Number(value: real)
    | Str(text: string)
    | Array(items: seq<Json>)
    | Object(members: seq<Member>)

  datatype Member = Member(key: string, value: Json)

  function Lookup(members: seq<Member>, key: string): Option<Json> {
    if members == [] then None
    else if members[0].key == key then Some(members[0].value)
    else Lookup(members[1..], key)
  }

  /** `cJSON_GetObjectItemCaseSensitive`: the first member of that name; nothing on a non-object. */
  function Get(j: Json, key: string): Option<Json> {
    if j.Object? then Lookup(j.members, key) else None
  }

  /** The text of a string member, or None. */
  function GetString(j: Json, key: string): Option<string> {
    var v := Get(j, key);
    if v.Some? && v.value.Str? then Some(v.value.text) else None
  }

  /** `valueint`: the number cut toward zero, saturated to an int. */
  function ValueInt(v: real): int {
    var n := if v >= 0.0 then v.Floor else -(-v).Floor;
    if n > INT_MAX then INT_MAX else if n < INT_MIN then INT_MIN else n
  }
}
