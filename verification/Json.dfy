/** JSON and YAML documents as immutable trees, with Python's subscript, `.get`
    and truth-value rules. Numbers are integers. */
module JsonTree {
  import opened Wrappers

  datatype Json =
    | Null
    | Bool(b: bool)
    | Num(n: int)
    | Str(s: string)
    | Arr(items: seq<Json>)
    | Obj(fields: map<string, Json>)

  predicate Truthy(j: Json)
  {
    match j
    case Null => false
    case Bool(b) => b
    case Num(n) => n != 0
    case Str(s) => s != ""
    case Arr(items) => items != []
    case Obj(fields) => fields != map[]
  }

  /** `j[key]` on a mapping. */
  function Index(j: Json, key: string): Result<Json>
  {
    if j.Obj? && key in j.fields then Ok(j.fields[key]) else Raised
  }

  /** `j.get(key, default)`. */
  function GetOr(j: Json, key: string, default: Json): Result<Json>
  {
    if !j.Obj? then Raised
    else if key in j.fields then Ok(j.fields[key]) else Ok(default)
  }

  /** `j.get(key) or {}` for a nested section. */
  function Section(j: Json, key: string): Result<Json>
  {
    var v :- GetOr(j, key, Null);
    Ok(if Truthy(v) then v else Obj(map[]))
  }

  /** `j[key] = v`, returning the changed mapping. */
  function Put(j: Json, key: string, v: Json): Result<Json>
  {
    if j.Obj? then Ok(Obj(j.fields[key := v])) else Raised
  }

  /** Iterating `j` when every element is then used as a mapping: an empty string or
      mapping yields nothing, and any other non-list fails on its first element. */
  function AsList(j: Json): Result<seq<Json>>
  {
    match j
    case Arr(items) => Ok(items)
    case Str(s) => if s == "" then Ok([]) else Raised
    case Obj(fields) => if fields == map[] then Ok([]) else Raised
    case _ => Raised
  }

  function AsText(j: Json): Result<string>
  {
    if j.Str? then Ok(j.s) else Raised
  }

  function Strings(xs: seq<string>): (r: seq<Json>)
    ensures |r| == |xs| && forall i :: 0 <= i < |xs| ==> r[i] == Str(xs[i])
  {
    seq(|xs|, i requires 0 <= i < |xs| => Str(xs[i]))
  }
}
