/** An already-parsed JSON value, as nlohmann::json holds it after `parse`
    and as `JSON.parse`/axios hand it to the TypeScript code.
    Only integral numbers are represented. */
module Json {
  import opened Wrappers
  import Text

  datatype Json =
    | Null
    | Bool(b: bool)
    | Num(n: int)
    | Str(s: string)
    | Arr(elems: seq<Json>)
    | Obj(fields: map<string, Json>)

  /** True when `j` is an object that has the member `key`
      (nlohmann's `contains`; JavaScript's own-property lookup). */
  predicate HasMember(j: Json, key: string)
  {
    j.Obj? && key in j.fields
  }

  /** nlohmann's `type_name()`. */
  function TypeName(j: Json): string
  {
    match j
    case Null => "null"
    case Bool(_) => "boolean"
    case Num(_) => "number"
    case Str(_) => "string"
    case Arr(_) => "array"
    case Obj(_) => "object"
  }

  /** The `what()` text of a `json::type_error` with the given id. */
  function TypeError(id: nat, message: string): string
  {
    "[json.exception.type_error." + Text.NatToString(id) + "] " + message
  }

  /** `j.get<int>()`: numbers convert, so do booleans (as 0 or 1);
      anything else throws type_error 302. */
  function GetInt(j: Json): (r: Result<int, string>)
    ensures r.Ok? <==> j.Num? || j.Bool?
    ensures j.Num? ==> r == Ok(j.n)
  {
    match j
    case Num(n) => Ok(n)
    case Bool(b) => Ok(if b then 1 else 0)
    case _ => Err(TypeError(302, "type must be number, but is " + TypeName(j)))
  }

  /** `j.get<std::string>()`: only strings convert. */
  function GetString(j: Json): (r: Result<string, string>)
    ensures r.Ok? <==> j.Str?
    ensures j.Str? ==> r == Ok(j.s)
  {
    match j
    case Str(s) => Ok(s)
    case _ => Err(TypeError(302, "type must be string, but is " + TypeName(j)))
  }

  /** `j.value(key, default)` read as an int: the default when the key is
      absent, the converted member when present; a non-object throws
      type_error 306. */
  function ValueInt(j: Json, key: string, default: int): (r: Result<int, string>)
    ensures r.Ok? <==> j.Obj? && (key in j.fields ==> GetInt(j.fields[key]).Ok?)
    ensures j.Obj? && key !in j.fields ==> r == Ok(default)
    ensures j.Obj? && key in j.fields ==> r == GetInt(j.fields[key])
  {
    if !j.Obj? then Err(TypeError(306, "cannot use value() with " + TypeName(j)))
    else if key !in j.fields then Ok(default)
    else GetInt(j.fields[key])
  }

  /** `j.value(key, default)` read as a string. */
  function ValueString(j: Json, key: string, default: string): (r: Result<string, string>)
    ensures r.Ok? <==> j.Obj? && (key in j.fields ==> j.fields[key].Str?)
    ensures j.Obj? && key !in j.fields ==> r == Ok(default)
    ensures j.Obj? && key in j.fields && j.fields[key].Str? ==> r == Ok(j.fields[key].s)
  {
    if !j.Obj? then Err(TypeError(306, "cannot use value() with " + TypeName(j)))
    else if key !in j.fields then Ok(default)
    else GetString(j.fields[key])
  }
}
