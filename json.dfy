/** JSON documents as the browser and the serverless runtime see them after
    `JSON.parse`, with the three JavaScript behaviours the checkout relies on:
    truthiness (what `||` and `if` test), property reads (`doc.key`), and
    string conversion (`String(v)`). Numbers are integers here. */
module JsonValues {
  import opened Wrappers
  import opened Text

  datatype Json =
    | Null
    | Bool(b: bool)
    | Num(n: int)
    | Str(s: string)
    | Arr(items: seq<Json>)
    | Obj(members: seq<(string, Json)>)

  /** JavaScript truthiness of a property read; `None` is `undefined`.
      Falsy: `undefined`, `null`, `false`, `0` and `""`; everything else,
      every array and every object included, is truthy. */
  predicate Truthy(v: Option<Json>) {
    match v
    case None => false
    case Some(j) =>
      match j
      case Null => false
      case Bool(b) => b
      case Num(n) => n != 0
      case Str(s) => s != ""
      case Arr(_) => true
      case Obj(_) => true
  }

  /** The value of `key` among an object's members. When a key occurs more
      than once the last occurrence wins, as it does in `JSON.parse`. */
  function Lookup(members: seq<(string, Json)>, key: string): (r: Option<Json>)
    ensures r.None? <==> forall i :: 0 <= i < |members| ==> members[i].0 != key
    ensures r.Some? ==> exists i :: 0 <= i < |members| && members[i] == (key, r.value)
                          && forall j :: i < j < |members| ==> members[j].0 != key
  {
    if members == [] then None
    else if members[|members| - 1].0 == key then Some(members[|members| - 1].1)
    else Lookup(members[..|members| - 1], key)
  }

  /** `doc.key` for a value that is not `null` or `undefined`: an object's
      member, and `undefined` for every other kind of value (none of the keys
      read by the checkout names a built-in property of strings or arrays). */
  function Get(doc: Json, key: string): (r: Option<Json>)
    ensures !doc.Obj? ==> r.None?
  {
    if doc.Obj? then Lookup(doc.members, key) else None
  }

  /** `String(v)`: arrays join their elements with "," (a `null` element
      becomes ""), objects become "[object Object]". */
  function ToJsString(v: Json): (r: string)
    ensures v.Str? ==> r == v.s
    decreases v, 1
  {
    match v
    case Null => "null"
    case Bool(b) => if b then "true" else "false"
    case Num(n) => IntToString(n)
    case Str(s) => s
    case Arr(items) => ElementsToString(v, 0)
    case Obj(_) => "[object Object]"
  }

  /** The elements of array `v` from index `i` on, as `Array.prototype.toString` joins them. */
  function ElementsToString(v: Json, i: nat): string
    requires v.Arr? && i <= |v.items|
    decreases v, 0, |v.items| - i
  {
    if i == |v.items| then ""
    else
      var e := if v.items[i].Null? then "" else ToJsString(v.items[i]);
      if i + 1 == |v.items| then e else e + "," + ElementsToString(v, i + 1)
  }
}
