/**
 * JSON values as the backend sees them after `response.json()`: Python
 * `None`, `bool`, `int`, `str`, `list` and `dict`. An object keeps its
 * members in insertion order, as a Python `dict` does. This module also
 * gives the Python behaviour the handler depends on: truthiness,
 * `d.get(key, default)`, `x[0]`, `for x in v`, and `f"{v}"`.
 */
module Json {
  import opened PyRuntime

  datatype Json =
    | JNull
    | JBool(b: bool)
    | JInt(i: int)
    | JString(s: string)
    | JArray(items: seq<Json>)
    | JObject(members: seq<(string, Json)>)

  /** `bool(v)` */
  predicate Truthy(v: Json) {
    match v
    case JNull => false
    case JBool(b) => b
    case JInt(i) => i != 0
    case JString(s) => s != ""
    case JArray(items) => items != []
    case JObject(members) => members != []
  }

  /** `type(v).__name__` */
  function TypeName(v: Json): string {
    match v
    case JNull => "NoneType"
    case JBool(_) => "bool"
    case JInt(_) => "int"
    case JString(_) => "str"
    case JArray(_) => "list"
    case JObject(_) => "dict"
  }

  predicate HasKey(members: seq<(string, Json)>, key: string) {
    exists i :: 0 <= i < |members| && members[i].0 == key
  }

  /** `d.get(key, default)` on a dict, given its members. */
  function Lookup(members: seq<(string, Json)>, key: string, default: Json): (r: Json)
    ensures !HasKey(members, key) ==> r == default
    ensures HasKey(members, key) ==> exists i :: 0 <= i < |members| && members[i] == (key, r)
  {
    if members == [] then default
    else if members[0].0 == key then members[0].1
    else
      var r := Lookup(members[1..], key, default);
      assert HasKey(members, key) ==> HasKey(members[1..], key);
      assert forall i :: 0 <= i < |members| - 1 ==> members[1..][i] == members[i + 1];
      r
  }

  /** The AttributeError raised by `v.name` when `v` has no such attribute. */
  function NoAttribute(v: Json, name: string): PyError {
    AttributeError("'" + TypeName(v) + "' object has no attribute '" + name + "'")
  }

  /** `v.get(key, default)`: only a dict has `get`. */
  function Get(v: Json, key: string, default: Json): (r: Result<Json>)
    ensures r.Ok? <==> v.JObject?
    ensures r.Ok? ==> !HasKey(v.members, key) ==> r.value == default
    ensures r.Ok? ==> HasKey(v.members, key) ==> exists i :: 0 <= i < |v.members| && v.members[i] == (key, r.value)
    ensures r.Err? ==> r.error == NoAttribute(v, "get")
  {
    if v.JObject? then Ok(Lookup(v.members, key, default)) else Err(NoAttribute(v, "get"))
  }

  /** `v[0]` */
  function First(v: Json): (r: Result<Json>)
    ensures r.Ok? <==> (v.JArray? && v.items != []) || (v.JString? && v.s != "")
    ensures r.Ok? && v.JArray? ==> r.value == v.items[0]
    ensures r.Ok? && v.JString? ==> r.value == JString([v.s[0]])
    ensures r.Err? ==> if v.JArray? || v.JString? then r.error.IndexError?
                       else if v.JObject? then r.error.KeyError?
                       else r.error.TypeError?
  {
    match v
    case JArray(items) =>
      if items == [] then Err(IndexError("list index out of range")) else Ok(items[0])
    case JString(s) =>
      if s == "" then Err(IndexError("string index out of range")) else Ok(JString([s[0]]))
    case JObject(_) =>
      // JSON keys are strings, so the integer key 0 is never present
      Err(KeyError("0"))
    case _ =>
      Err(TypeError("'" + TypeName(v) + "' object is not subscriptable"))
  }

  /** The elements `for x in v` visits: list items, dict keys, or one-character strings. */
  function Iterate(v: Json): (r: Result<seq<Json>>)
    ensures r.Ok? <==> v.JArray? || v.JObject? || v.JString?
    ensures r.Err? ==> r.error.TypeError?
    ensures v.JArray? ==> r == Ok(v.items)
    ensures v.JObject? ==> r.Ok? && |r.value| == |v.members|
                           && forall i :: 0 <= i < |v.members| ==> r.value[i] == JString(v.members[i].0)
    ensures v.JString? ==> r.Ok? && |r.value| == |v.s|
                           && forall i :: 0 <= i < |v.s| ==> r.value[i] == JString([v.s[i]])
  {
    match v
    case JArray(items) => Ok(items)
    case JObject(members) => Ok(seq(|members|, i requires 0 <= i < |members| => JString(members[i].0)))
    case JString(s) => Ok(Chars(s))
    case _ => Err(TypeError("'" + TypeName(v) + "' object is not iterable"))
  }

  /** The characters of `s`, each as a one-character string. */
  function Chars(s: string): seq<Json> {
    seq(|s|, i requires 0 <= i < |s| => JString([s[i]]))
  }

  /** `f"{v}"`, that is `str(v)`. */
  function Format(v: Json): string {
    match v
    case JNull => "None"
    case JBool(b) => if b then "True" else "False"
    case JInt(i) => IntToString(i)
    case JString(s) => s
    case JArray(_) => Repr(v)
    case JObject(_) => Repr(v)
  }

  /** `str(v)` is the string itself for a string, and `repr(v)` for anything else. */
  lemma FormatIsRepr(v: Json)
    ensures v.JString? ==> Format(v) == v.s
    ensures !v.JString? ==> Format(v) == Repr(v)
  {
  }

  /** `repr(v)`, used for the items of a list or dict inside `str`. */
  function Repr(v: Json): string {
    match v
    case JNull => "None"
    case JBool(b) => if b then "True" else "False"
    case JInt(i) => IntToString(i)
    case JString(s) => StrRepr(s)
    case JArray(items) =>
      "[" + Join(", ", seq(|items|, i requires 0 <= i < |items| => Repr(items[i]))) + "]"
    case JObject(members) =>
      "{" + Join(", ", seq(|members|, i requires 0 <= i < |members| =>
                             StrRepr(members[i].0) + ": " + Repr(members[i].1))) + "}"
  }

  /** `repr(s)` for a string: single quotes unless only double quotes avoid escaping. */
  function StrRepr(s: string): string {
    var quote := if '\'' in s && '"' !in s then '"' else '\'';
    [quote] + Escape(s, quote) + [quote]
  }

  function Escape(s: string, quote: char): string {
    if s == [] then "" else EscapeChar(s[0], quote) + Escape(s[1..], quote)
  }

  function EscapeChar(c: char, quote: char): string {
    var n := c as int;
    if c == quote || c == '\\' then ['\\', c]
    else if c == '\t' then "\\t"
    else if c == '\n' then "\\n"
    else if c == '\r' then "\\r"
    else if n < 0x20 || (0x7F <= n <= 0xA0) || n == 0xAD then "\\x" + [HexDigit(n / 16), HexDigit(n % 16)]
    else [c]
  }

  function HexDigit(d: nat): char
    requires d < 16
  {
    if d < 10 then ('0' as int + d) as char else ('a' as int + d - 10) as char
  }
}
