/**
 * The JSON-shaped values that the game reads from its story file and
 * writes to its save file, with Python's notion of truthiness.
 */
module Json {

  /** A JSON value as the game sees it: null, an integer, a string or a list. */
  datatype Json = JNull | JInt(n: int) | JStr(s: string) | JList(elems: seq<Json>)

  /** Python's `bool(v)`: null, 0, "" and [] are falsy, everything else is truthy. */
  predicate Truthy(v: Json) {
    match v
    case JNull => false
    case JInt(n) => n != 0
    case JStr(s) => s != ""
    case JList(xs) => xs != []
  }

  /** Python's `d.get(key, default)` on a dictionary. */
  function Get(d: map<string, Json>, key: string, default: Json := JNull): (r: Json)
    ensures key in d ==> r == d[key]
    ensures key !in d ==> r == default
  {
    if key in d then d[key] else default
  }
}
