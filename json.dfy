/** Parsed JSON values, as Python's json.load hands them to the program. */
module Json {
  import opened Dicts

  /** A JSON value. Objects keep their members in document order; numbers are
      integers only, since no number is ever rendered by the modelled code. */
  datatype Json =
    | Null
    | Bool(b: bool)
    | Num(n: int)
    | Str(s: string)
    | Arr(items: seq<Json>)
    | Obj(members: seq<(string, Json)>)

  /** The value fails Python's truth test: null, false, zero, and the empty
      string, list and dict. */
  predicate Falsy(j: Json)
    ensures j.Obj? ==> (Falsy(j) <==> Keys(j.members) == [])
    ensures j.Arr? || j.Str? || j.Obj? || j.Null? ==> (Falsy(j) <==> j in {Null, Str(""), Arr([]), Obj([])})
  {
    match j
    case Null => true
    case Bool(b) => !b
    case Num(n) => n == 0
    case Str(s) => s == ""
    case Arr(items) => items == []
    case Obj(members) => members == []
  }

  /** A JSON object as Python holds it: a dict, so no key occurs twice. */
  predicate IsDict(j: Json)
  {
    j.Obj? && DistinctKeys(j.members)
  }

  /** The value under k, if there is one, is a string. */
  predicate TextOrAbsent(m: seq<(string, Json)>, k: string)
  {
    match Get(m, k)
    case None => true
    case Some(v) => v.Str?
  }

  /** The value under k, if there is one, is a boolean. */
  predicate FlagOrAbsent(m: seq<(string, Json)>, k: string)
  {
    match Get(m, k)
    case None => true
    case Some(v) => v.Bool?
  }

  /** m.get(k, default) for a key whose value, when present, is a string. */
  function GetText(m: seq<(string, Json)>, k: string, default: string): (r: string)
    requires TextOrAbsent(m, k)
    ensures !Has(m, k) ==> r == default
    ensures Has(m, k) ==> Get(m, k) == Some(Str(r))
  {
    match Get(m, k)
    case Some(v) => v.s
    case None => default
  }

  /** The truth value of m.get(k, False) for a key whose value, when present,
      is a boolean. */
  function GetFlag(m: seq<(string, Json)>, k: string): (r: bool)
    requires FlagOrAbsent(m, k)
    ensures r <==> Get(m, k) == Some(Bool(true))
  {
    match Get(m, k)
    case Some(v) => v.b
    case None => false
  }
}
