/**
 * Loosely shaped data as it arrives from JSON: the values that the factories and
 * the converter inspect with `isinstance`, truthiness and `str()`.
 */
module RawValues {
  import opened Wrappers
  import opened PyText
  import PyDict

  datatype Raw =
    | RNone
    | RBool(b: bool)
    | RInt(i: int)
    | RStr(s: string)
    | RList(items: seq<Raw>)
    | RDict(entries: seq<(string, Raw)>)

  /** Python truthiness: None, False, 0, "", [] and {} are falsy. */
  predicate Truthy(r: Raw) {
    match r
    case RNone => false
    case RBool(b) => b
    case RInt(i) => i != 0
    case RStr(s) => s != ""
    case RList(items) => items != []
    case RDict(entries) => entries != []
  }

  /** `a or b`. */
  function Or(a: Raw, b: Raw): (r: Raw)
    ensures r == a || r == b
    ensures Truthy(a) ==> r == a
  {
    if Truthy(a) then a else b
  }

  /** `d.get(key, default)` on a dict's entries. */
  function GetOr(entries: seq<(string, Raw)>, key: string, default: Raw): Raw {
    PyDict.GetOr(entries, key, default)
  }

  /** `key in d` on a dict's entries. */
  predicate Has(entries: seq<(string, Raw)>, key: string) {
    PyDict.HasKey(entries, key)
  }

  /** `repr(r)`; quotes inside strings are not escaped in this model. */
  function Repr(r: Raw): string
    decreases r, 1
  {
    match r
    case RStr(s) => "'" + s + "'"
    case _ => Str(r)
  }

  /** `str(r)`. */
  function Str(r: Raw): string
    decreases r, 0
  {
    match r
    case RNone => "None"
    case RBool(b) => if b then "True" else "False"
    case RInt(i) => IntToString(i)
    case RStr(s) => s
    case RList(items) =>
      "[" + Join(", ", seq(|items|, k requires 0 <= k < |items| => Repr(items[k]))) + "]"
    case RDict(entries) =>
      "{" + Join(", ", seq(|entries|, k requires 0 <= k < |entries| =>
        "'" + entries[k].0 + "': " + Repr(entries[k].1))) + "}"
  }
}
