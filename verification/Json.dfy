/** JSON values, as parsed from drafts and responses. */
module Json {
  import opened Common

  datatype Json =
    | Null
    | Bool(b: bool)
    | Num(n: int)
    | Str(s: string)
    | Arr(items: seq<Json>)
    | Obj(fields: map<string, Json>)

  /** A member of an object; none when the value is not an object or lacks it. */
  function Member(j: Json, name: string): Option<Json> {
    if j.Obj? && name in j.fields then Some(j.fields[name]) else None
  }

  function StringMember(j: Json, name: string): Option<string> {
    match Member(j, name)
    case Some(Str(s)) => Some(s)
    case _ => None
  }

  /** The elements of an array member; none of them when it is not an array. */
  function ArrayMember(j: Json, name: string): seq<Json> {
    match Member(j, name)
    case Some(Arr(items)) => items
    case _ => []
  }
}
