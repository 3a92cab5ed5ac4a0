/** JSON values as the gjson library presents them, and the few accessors of
    `gjson.Result` that the policy pipeline reads. Parsing JSON text into
    these values is not modelled: parsed values are inputs. */
module Gjson {
  import opened Wrappers
  import opened Strings

  /** A parsed JSON value. Numbers keep their literal text; objects are seen
      through their member map (for a repeated member the parser keeps the
      last one). */
  datatype Json =
    | Null
    | Bool(b: bool)
    | Num(raw: string)
    | Str(s: string)
    | Arr(elems: seq<Json>)
    | Obj(fields: map<string, Json>)

  /** A map lookup that yields gjson's zero (non-existent) Result as None. */
  function Lookup(m: map<string, Json>, key: string): (r: Option<Json>) {
    if key in m then Some(m[key]) else None
  }

  /** `Result.Map()`: the members of an object, and an empty map for any
      other value. */
  function AsMap(v: Json): (m: map<string, Json>)
    ensures !v.Obj? ==> m == map[]
    ensures v.Obj? ==> m == v.fields
  {
    if v.Obj? then v.fields else map[]
  }

  /** `Result.Array()`: a missing value or null gives no elements, an array
      its elements in order, and any other value a one-element array. */
  function AsArray(v: Option<Json>): (r: seq<Json>)
    ensures v.None? || v == Some(Null) ==> r == []
    ensures v.Some? && v.value.Arr? ==> r == v.value.elems
    ensures v.Some? && !v.value.Null? && !v.value.Arr? ==> r == [v.value]
  {
    match v
    case None => []
    case Some(Null) => []
    case Some(Arr(es)) => es
    case Some(x) => [x]
  }

  /** `Result.Get(key)` for a key without path syntax: the member of an
      object, and a missing result otherwise. */
  function Get(v: Option<Json>, key: string): (r: Option<Json>) {
    match v
    case Some(Obj(f)) => Lookup(f, key)
    case _ => None
  }

  /** A literal gjson reads as an integer: an optional '-' followed by at
      least one decimal digit. */
  predicate IsIntLiteral(s: string) {
    var start := if |s| > 0 && s[0] == '-' then 1 else 0;
    start < |s| && forall i :: start <= i < |s| ==> IsDigit(s[i])
  }

  /** gjson's `parseInt`: succeeds exactly on integer literals. */
  function ParseInt(s: string): (r: Option<int>)
    ensures r.Some? <==> IsIntLiteral(s)
  {
    if IsIntLiteral(s) then
      if s[0] == '-' then Some(-(DigitsValue(s[1..]) as int)) else Some(DigitsValue(s))
    else None
  }

  /** `Result.String()`: a string's contents, a number's literal, "true" or
      "false", and "" for null or a missing value. Objects and arrays, whose
      raw text gjson would return, give "" here. */
  function AsString(v: Option<Json>): (r: string) {
    match v
    case Some(Str(s)) => s
    case Some(Num(raw)) => raw
    case Some(Bool(b)) => if b then "true" else "false"
    case _ => ""
  }

  /** `Result.Int()`: 1 for true, the value of an integer literal held by a
      number or a string, and 0 for everything else. */
  function AsInt(v: Option<Json>): (r: int) {
    match v
    case Some(Bool(b)) => if b then 1 else 0
    case Some(Num(raw)) => ParseInt(raw).GetOr(0)
    case Some(Str(s)) => ParseInt(s).GetOr(0)
    case _ => 0
  }

  /** A decimal rendering parses back to its value, with or without a sign. */
  lemma ParseIntRoundTrip(n: nat)
    ensures ParseInt(NatToDecimal(n)) == Some(n)
    ensures ParseInt("-" + NatToDecimal(n)) == Some(-(n as int))
  {
    var s := NatToDecimal(n);
    NatToDecimalRoundTrip(n);
    assert ("-" + s)[1..] == s;
  }

  /** A line number stored as a JSON number reads back unchanged. */
  lemma AsIntOfLiteral(n: nat)
    ensures AsInt(Some(Num(NatToDecimal(n)))) == n
    ensures AsString(Some(Num(NatToDecimal(n)))) == NatToDecimal(n)
  {
    ParseIntRoundTrip(n);
  }
}
