/**
 * JSON values as Python sees them after `json.load`/`srsly.read_json`:
 * objects keep their keys in insertion order, as Python dicts do. A float is
 * kept as its `repr` text (which decides `str()` and truthiness) together with
 * the text `f"{v * 100:.2f}"` gives for it, since float arithmetic is outside
 * the model.
 */
module Json {
  import opened Wrappers
  import Strings

  datatype Json =
    | JNull
    | JBool(b: bool)
    | JInt(i: int)
    | JFloat(repr: string, percentText: string)
    | JStr(s: string)
    | JArr(items: seq<Json>)
    | JObj(fields: seq<Entry>)

  /** One key of a JSON object and its value. */
  datatype Entry = Entry(key: string, value: Json)

  /** The Python exceptions that reading and formatting JSON values can raise. */
  datatype PyError =
    | KeyError(key: string)
    | TypeError(context: string)
    | AttributeError(context: string)

  /** Python's `bool(v)`. */
  predicate Truthy(v: Json)
  {
    match v
    case JNull => false
    case JBool(b) => b
    case JInt(i) => i != 0
    case JFloat(repr, _) => repr != "0.0" && repr != "-0.0"
    case JStr(s) => s != ""
    case JArr(items) => items != []
    case JObj(fields) => fields != []
  }

  /** Python's `str(v)`. Strings inside containers are quoted without escaping. */
  function Str(v: Json): string
  {
    match v
    case JStr(s) => s
    case _ => Repr(v)
  }

  /** Python's `repr(v)`, with strings quoted by single quotes and not escaped. */
  function Repr(v: Json): string
  {
    match v
    case JNull => "None"
    case JBool(b) => if b then "True" else "False"
    case JInt(i) => Strings.IntToString(i)
    case JFloat(repr, _) => repr
    case JStr(s) => "'" + s + "'"
    case JArr(items) => "[" + ReprItems(items) + "]"
    case JObj(fields) => "{" + ReprFields(fields) + "}"
  }

  function ReprItems(items: seq<Json>): string
    decreases items
  {
    if |items| == 0 then ""
    else if |items| == 1 then Repr(items[0])
    else Repr(items[0]) + ", " + ReprItems(items[1..])
  }

  function ReprFields(fields: seq<Entry>): string
    decreases fields
  {
    if |fields| == 0 then ""
    else
      var entry := "'" + fields[0].key + "': " + Repr(fields[0].value);
      if |fields| == 1 then entry else entry + ", " + ReprFields(fields[1..])
  }

  /** The keys of an object, in order. */
  function Keys(fields: seq<Entry>): (ks: seq<string>)
    ensures |ks| == |fields|
    ensures forall i :: 0 <= i < |fields| ==> ks[i] == fields[i].key
  {
    if |fields| == 0 then [] else [fields[0].key] + Keys(fields[1..])
  }

  /** `d.get(key)` on a dict: the value of the first entry with that key. */
  function Get(fields: seq<Entry>, key: string): (r: Option<Json>)
    ensures r.Some? <==> key in Keys(fields)
  {
    if |fields| == 0 then None
    else if fields[0].key == key then Some(fields[0].value)
    else Get(fields[1..], key)
  }

  /** `d.get(key, default)`. */
  function GetOr(fields: seq<Entry>, key: string, default: Json): Json
  {
    match Get(fields, key)
    case Some(v) => v
    case None => default
  }

  /**
   * `d[key] = v` on a dict: the first entry with that key gets the new value
   * where it stands, otherwise the entry is appended.
   */
  function Set(fields: seq<Entry>, key: string, v: Json): (r: seq<Entry>)
    ensures Get(r, key) == Some(v)
    ensures forall k :: k != key ==> Get(r, k) == Get(fields, k)
    ensures key in Keys(fields) ==> Keys(r) == Keys(fields)
    ensures key !in Keys(fields) ==> Keys(r) == Keys(fields) + [key]
  {
    if |fields| == 0 then [Entry(key, v)]
    else if fields[0].key == key then
      var r := [Entry(key, v)] + fields[1..];
      assert r[1..] == fields[1..];
      r
    else
      var rest := Set(fields[1..], key, v);
      var r := [fields[0]] + rest;
      assert r[1..] == rest;
      r
  }

  /** `v[key]`: a key of a dict, KeyError when absent, TypeError on anything else. */
  function Subscript(v: Json, key: string): (r: Result<Json, PyError>)
    ensures r.Ok? <==> v.JObj? && Get(v.fields, key).Some?
  {
    match v
    case JObj(fields) =>
      (match Get(fields, key)
       case Some(x) => Ok(x)
       case None => Err(KeyError(key)))
    case _ => Err(TypeError("object is not subscriptable"))
  }

  /**
   * What `for x in v` visits: the items of a list, the one-character strings
   * of a string, the keys of a dict; any other value raises TypeError.
   * Python's `len(v)` is the number of these for the same three kinds.
   */
  function Iterate(v: Json): (r: Result<seq<Json>, PyError>)
    ensures r.Ok? <==> v.JArr? || v.JStr? || v.JObj?
  {
    match v
    case JArr(items) => Ok(items)
    case JStr(s) => Ok(seq(|s|, i requires 0 <= i < |s| => JStr([s[i]])))
    case JObj(fields) => Ok(seq(|fields|, i requires 0 <= i < |fields| => JStr(fields[i].key)))
    case _ => Err(TypeError("object is not iterable"))
  }
}
