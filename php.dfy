/** Values as the PHP controllers see them: nullable scalars, decoded JSON
    bodies, and the loose truthiness and `isset` tests the routes branch on. */
module Php {

  datatype Option<+T> = None | Some(value: T) {
    /** `$x ?? $default` for a nullable value. */
    function GetOr(default: T): T {
      match this
      case Some(v) => v
      case None => default
    }
  }

  /** A value produced by `json_decode($body, true)`: JSON objects become
      PHP arrays with string keys. Lists are not used by any route. */
  datatype Json =
    | JNull
    | JBool(b: bool)
    | JInt(i: int)
    | JStr(s: string)
    | JArr(fields: map<string, Json>)

  /** PHP's `empty()` on a nullable string: null, "" and "0" are empty. */
  predicate EmptyStr(v: Option<string>) {
    v.None? || v.value == "" || v.value == "0"
  }

  /** PHP's `empty()` on a nullable integer column. */
  predicate EmptyInt(v: Option<int>) {
    v.None? || v.value == 0
  }

  /** Truthiness of a decoded value (`if ($x)`). */
  predicate Truthy(j: Json) {
    match j
    case JNull => false
    case JBool(b) => b
    case JInt(i) => i != 0
    case JStr(s) => s != "" && s != "0"
    case JArr(m) => m != map[]
  }

  /** `isset($j[$key])`: the value is an array holding a non-null entry. */
  predicate IsSet(j: Json, key: string) {
    j.JArr? && key in j.fields && j.fields[key] != JNull
  }

  /** `$j[$key] ?? null`. */
  function Get(j: Json, key: string): (r: Json)
    ensures r != JNull <==> IsSet(j, key)
    ensures IsSet(j, key) ==> r == j.fields[key]
  {
    if IsSet(j, key) then j.fields[key] else JNull
  }

  /** `$j[$key] ?? $default`. */
  function Coalesce(j: Json, key: string, default: Json): Json {
    if IsSet(j, key) then j.fields[key] else default
  }

  /** String conversion of a message value for `new Exception($m)` and
      string concatenation: null becomes "", a string stays itself. Any
      other value is also read as "" here, although PHP would write an
      integer or a boolean out and refuse an array. */
  function MessageText(j: Json): string {
    match j
    case JStr(s) => s
    case _ => ""
  }

  function StrOrNull(v: Option<string>): (r: Json)
    ensures v.Some? <==> r.JStr?
    ensures v.Some? ==> r == JStr(v.value)
  {
    match v
    case Some(s) => JStr(s)
    case None => JNull
  }

  /** PHP 8 `substr($s, -n)` for n >= 0: the last n characters, or the whole
      string when it is shorter than n. */
  function LastChars(s: string, n: nat): (r: string)
    ensures |r| == if |s| < n then |s| else n
    ensures s == s[..|s| - |r|] + r
  {
    if |s| < n then s else s[|s| - n..]
  }

  /** What a route hands back: a status code with a JSON body, or an error
      that escapes the route (the framework's error middleware renders it). */
  datatype Response =
    | Response(status: int, body: Json)
    | Uncaught(error: string)

  function ErrorBody(message: string): Json {
    JArr(map["error" := JStr(message)])
  }
}
