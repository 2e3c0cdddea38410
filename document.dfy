/**
 * A loaded recipe document: the tree of dicts, lists, strings and numbers that the
 * XML and YAML loaders produce, and the few Python operations the parsers apply to
 * its values (`dict.get`, truthiness, `str()`, `float()`).
 */
module Document {
  import opened Wrappers
  import opened Text
  import opened Numbers

  datatype Json =
    | JNull
    | JBool(b: bool)
    | JNum(n: Number)
    | JStr(s: string)
    | JList(items: seq<Json>)
    | JDict(entries: seq<(string, Json)>)

  /** The value stored under `key` in a dict's entries (the first entry with that key). */
  function Lookup(entries: seq<(string, Json)>, key: string): (r: Option<Json>)
    ensures r.Some? ==> (key, r.value) in entries
    ensures r.None? <==> forall i | 0 <= i < |entries| :: entries[i].0 != key
  {
    if entries == [] then None
    else if entries[0].0 == key then Some(entries[0].1)
    else Lookup(entries[1..], key)
  }

  /** `d.get(key, default)`: the stored value, or `default` when the key is absent. */
  function GetOr(entries: seq<(string, Json)>, key: string, default: Json): Json {
    Lookup(entries, key).GetOr(default)
  }

  /** `d.get(key)`: a missing key reads as `None`, like a key stored with `None`. */
  function Get(entries: seq<(string, Json)>, key: string): Json {
    GetOr(entries, key, JNull)
  }

  /** Python truthiness: `None`, `False`, zero and empty strings and containers are false. */
  predicate Truthy(j: Json) {
    match j
    case JNull => false
    case JBool(b) => b
    case JNum(n) => Value(n) != 0.0
    case JStr(s) => s != []
    case JList(items) => items != []
    case JDict(entries) => entries != []
  }

  /** `type(j).__name__` */
  function TypeName(j: Json): string {
    match j
    case JNull => "NoneType"
    case JBool(_) => "bool"
    case JNum(Int(_)) => "int"
    case JNum(Float(_)) => "float"
    case JStr(_) => "str"
    case JList(_) => "list"
    case JDict(_) => "dict"
  }

  /** The message of the AttributeError raised by calling `.get` on a value that is not a dict. */
  function NoAttributeGet(j: Json): string {
    "'" + TypeName(j) + "' object has no attribute 'get'"
  }

  function Join(parts: seq<string>, separator: string): string {
    if parts == [] then ""
    else if |parts| == 1 then parts[0]
    else parts[0] + separator + Join(parts[1..], separator)
  }

  /** `repr(j)`: strings in single quotes, containers written out element by element. */
  function Repr(j: Json): string {
    match j
    case JNull => "None"
    case JBool(b) => if b then "True" else "False"
    case JNum(Int(i)) => IntToString(i)
    case JNum(Float(x)) => FloatRepr(x)
    case JStr(s) => "'" + s + "'"
    case JList(items) =>
      "[" + Join(seq(|items|, i requires 0 <= i < |items| => Repr(items[i])), ", ") + "]"
    case JDict(entries) =>
      "{" + Join(seq(|entries|, i requires 0 <= i < |entries| =>
        "'" + entries[i].0 + "': " + Repr(entries[i].1)), ", ") + "}"
  }

  /** `str(j)`: a string is itself, anything else is its `repr`. */
  function Str(j: Json): (r: string)
    ensures j.JStr? ==> r == j.s
    ensures !j.JStr? ==> r == Repr(j)
  {
    if j.JStr? then j.s else Repr(j)
  }

  /**
   * `float(j)`: booleans are 1.0 and 0.0, numbers keep their value, strings are read
   * as decimal text, and anything else raises (`None` here).
   */
  function PyFloat(j: Json): (r: Option<real>)
    ensures j.JNum? ==> r == Some(Value(j.n))
    ensures j.JList? || j.JDict? || j.JNull? ==> r == None
    ensures j.JBool? ==> r == Some(if j.b then 1.0 else 0.0)
    ensures j.JStr? ==> r == ParseDecimal(j.s)
  {
    match j
    case JBool(b) => Some(if b then 1.0 else 0.0)
    case JNum(n) => Some(Value(n))
    case JStr(s) => ParseDecimal(s)
    case _ => None
  }

  /** The text of a whole number reads back as that number. */
  lemma PyFloatOfDigits(n: nat)
    ensures PyFloat(JStr(NatToString(n))) == Some(n as real)
  {
    ParseDecimalOfNat(n);
  }

  /** Blank text is not a number. */
  lemma PyFloatOfBlank(s: string)
    requires AllSpace(s)
    ensures PyFloat(JStr(s)) == None
  {
  }

  /** `str()` of a number is its decimal text. */
  lemma StrOfInt(i: int)
    ensures Str(JNum(Int(i))) == IntToString(i)
  {
  }
}
