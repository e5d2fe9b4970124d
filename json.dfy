/** Parsed JSON as the fetcher sees it after `response.json()`: Python's
    `None`, `bool`, numbers, `str`, `list` and `dict`. */
module JsonValues {
  import opened Common

  /** `Null` is Python's `None`: both JSON `null` and the `None` that
      `dict.get` answers for a missing key. */
  datatype Json =
    | Null
    | Bool(b: bool)
    | Num(x: real)
    | Str(s: string)
    | Arr(items: seq<Json>)
    | Obj(fields: map<string, Json>)

  /** Python truthiness: `None`, `False`, zero, and empty strings, lists
      and dicts are false; everything else is true. */
  predicate Truthy(j: Json)
  {
    match j
    case Null => false
    case Bool(b) => b
    case Num(x) => x != 0.0
    case Str(s) => s != ""
    case Arr(items) => items != []
    case Obj(fields) => fields != map[]
  }

  /** The six falsy values, and only they, fail an `if not x` test. */
  lemma FalsyValues(j: Json)
    ensures !Truthy(j) <==>
      j == Null || j == Bool(false) || j == Num(0.0) || j == Str("") || j == Arr([]) || j == Obj(map[])
  {
  }

  /** `d.get(key, default)`: the default only when the key is missing, so a
      key present with `null` yields `None`, not the default. */
  function Lookup(fields: map<string, Json>, key: string, default: Json): (r: Json)
    ensures key in fields ==> r == fields[key]
    ensures key !in fields ==> r == default
  {
    if key in fields then fields[key] else default
  }

  /** Python's `a or b`: `a` when it is truthy, otherwise `b` (even a falsy `b`). */
  function Or(a: Json, b: Json): (r: Json)
    ensures Truthy(r) <==> Truthy(a) || Truthy(b)
    ensures Truthy(a) ==> r == a
    ensures !Truthy(a) ==> r == b
  {
    if Truthy(a) then a else b
  }

  /** `x in container` raises TypeError when the container is `None`, a
      bool or a number; for strings, lists and dicts it answers. */
  predicate MembershipRaises(container: Json)
  {
    container.Null? || container.Bool? || container.Num?
  }

  /** The first truthy value of `s`, or `None` if there is none: what a
      chain `a or b or c` followed by `if not x: return None` yields. */
  function FirstTruthy(s: seq<Json>): (r: Json)
    ensures r == Null <==> forall i :: 0 <= i < |s| ==> !Truthy(s[i])
    ensures r != Null ==> Truthy(r)
    ensures r != Null ==> exists i :: 0 <= i < |s| && s[i] == r && forall j :: 0 <= j < i ==> !Truthy(s[j])
  {
    match FirstIndex(s, Truthy)
    case None => Null
    case Some(i) => s[i]
  }

  /** The `data` member of a response body, where lines such as
      `if not data or 'data' not in data` followed by `data['data']` get
      past both checks. A falsy body and a dict without the key fail the
      check; a truthy list or string either fails it or, when it contains
      "data", makes the subscript raise TypeError; a number or bool makes
      the `in` raise. Only a dict with the key gets through. */
  function DataMember(body: Json): (r: Option<Json>)
    ensures r.Some? <==> body.Obj? && "data" in body.fields
    ensures r.Some? ==> Truthy(body)
  {
    if body.Obj? && "data" in body.fields then Some(body.fields["data"]) else None
  }

  /** A chain of two `or`s settled by a truth test equals the first truthy one. */
  lemma OrChainIsFirstTruthy(a: Json, b: Json, c: Json)
    ensures (if Truthy(Or(a, b)) then Or(a, b) else Null) == FirstTruthy([a, b])
    ensures (if Truthy(a) then a else if Truthy(Or(b, c)) then Or(b, c) else Null) == FirstTruthy([a, b, c])
  {
    if Truthy(a) {
      FirstIndexIs([a, b], Truthy, 0);
      FirstIndexIs([a, b, c], Truthy, 0);
    } else if Truthy(b) {
      FirstIndexIs([a, b], Truthy, 1);
      FirstIndexIs([a, b, c], Truthy, 1);
    } else if Truthy(c) {
      FirstIndexIs([a, b, c], Truthy, 2);
    }
  }
}
