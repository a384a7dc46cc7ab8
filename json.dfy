/**
 * Decoded JSON values as the tools see them (Python dicts, lists, strings,
 * integers, booleans and None), with Python's truthiness, `dict.get` and
 * `str()`, and a mutable dictionary for the one tool that edits a payload in
 * place.
 */
module Json {
  import opened Strings

  datatype Json =
    | JNull
    | JBool(b: bool)
    | JInt(i: int)
    | JStr(s: string)
    | JList(items: seq<Json>)
    | JObj(fields: map<string, Json>)

  /** Python's `bool(value)`. */
  predicate Truthy(j: Json) {
    match j
    case JNull => false
    case JBool(b) => b
    case JInt(i) => i != 0
    case JStr(s) => s != ""
    case JList(xs) => xs != []
    case JObj(m) => m != map[]
  }

  /** Python's `d.get(key)`: None when the key is absent. */
  function Get(m: map<string, Json>, key: string): Json {
    if key in m then m[key] else JNull
  }

  /** The name Python gives the value's type. */
  function PyTypeName(j: Json): string {
    match j
    case JNull => "NoneType"
    case JBool(_) => "bool"
    case JInt(_) => "int"
    case JStr(_) => "str"
    case JList(_) => "list"
    case JObj(_) => "dict"
  }

  /** The text of the AttributeError raised by calling `.get` on a non-dict. */
  function NoGetAttribute(j: Json): string {
    "'" + PyTypeName(j) + "' object has no attribute 'get'"
  }

  /** Python's `str(value)` (f-string rendering) for scalars; containers get a placeholder. */
  function PyStr(j: Json): string {
    match j
    case JNull => "None"
    case JBool(b) => if b then "True" else "False"
    case JInt(i) => IntToString(i)
    case JStr(s) => s
    case JList(_) => "[...]"
    case JObj(_) => "{...}"
  }

  /** A Python dict that a tool changes in place. */
  class Dict {
    var entries: map<string, Json>

    constructor (entries: map<string, Json>)
      ensures this.entries == entries
    {
      this.entries := entries;
    }

    function Lookup(key: string): Json
      reads this
    {
      Get(entries, key)
    }

    /** `d[key] = value`. */
    method Set(key: string, value: Json)
      modifies this
      ensures entries == old(entries)[key := value]
    {
      entries := entries[key := value];
    }

    /** `d.pop(key, None)`: removes the key, if present, and returns its old value. */
    method Pop(key: string) returns (v: Json)
      modifies this
      ensures v == Get(old(entries), key)
      ensures entries == old(entries) - {key}
    {
      v := Get(entries, key);
      entries := entries - {key};
    }
  }
}
