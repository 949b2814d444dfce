/**
 * The JavaScript values the service passes around, and the few coercions of the
 * language the simulator depends on: property reads (`undefined` is an absent key),
 * truthiness, `parseFloat(x) || d`, `??`, `Number(x)` and object spread.
 */
module Js {

  datatype Option<T> = None | Some(value: T)

  datatype Result<T> = Ok(value: T) | Err(error: string)

  /** A JSON-like JavaScript value. Objects are maps from property names to values. */
  datatype Json =
    | JNull
    | JBool(b: bool)
    | JNum(n: real)
    | JNaN
    | JStr(s: string)
    | JArr(items: seq<Json>)
    | JObj(fields: map<string, Json>)

  /** `v[key]` on a value: `None` stands for `undefined`. Only objects have own properties here. */
  function Get(v: Json, key: string): (r: Option<Json>)
    ensures r.Some? <==> v.JObj? && key in v.fields
    ensures r.Some? ==> r.value == v.fields[key]
  {
    match v
    case JObj(m) => if key in m then Some(m[key]) else None
    case _ => None
  }

  /** JavaScript truthiness of a possibly undefined value. */
  predicate Truthy(v: Option<Json>)
  {
    match v
    case None => false
    case Some(JNull) => false
    case Some(JBool(b)) => b
    case Some(JNum(n)) => n != 0.0
    case Some(JNaN) => false
    case Some(JStr(s)) => s != ""
    case Some(JArr(_)) => true
    case Some(JObj(_)) => true
  }

  /** `parseFloat(v)`: `None` stands for `NaN`. Number values parse to themselves. */
  function ParseFloat(v: Option<Json>): (r: Option<real>)
    ensures r.Some? <==> v.Some? && v.value.JNum?
    ensures r.Some? ==> r.value == v.value.n
  {
    if v.Some? && v.value.JNum? then Some(v.value.n) else None
  }

  /** `parseFloat(v) || d`: a zero or unparsable value falls back to `d`. */
  function NumOr(v: Option<Json>, d: real): (r: real)
    ensures (ParseFloat(v).Some? && ParseFloat(v).value != 0.0) ==> r == ParseFloat(v).value
    ensures (ParseFloat(v).None? || ParseFloat(v).value == 0.0) ==> r == d
    ensures d != 0.0 ==> r != 0.0
  {
    match ParseFloat(v)
    case Some(x) => if x != 0.0 then x else d
    case None => d
  }

  /** `v ?? d`: only `undefined` and `null` fall back to `d`. */
  function Nullish(v: Option<Json>, d: Json): (r: Json)
    ensures v.None? || v == Some(JNull) ==> r == d
    ensures v.Some? && v.value != JNull ==> r == v.value
  {
    match v
    case None => d
    case Some(JNull) => d
    case Some(x) => x
  }

  /** A JavaScript number that is either finite or `NaN` (infinities do not arise in this model). */
  datatype Num = NaN | Fin(r: real)

  /** `Number(v)` as an arithmetic operator applies it. */
  function ToNumber(v: Option<Json>): Num
  {
    match v
    case None => NaN
    case Some(JNull) => Fin(0.0)
    case Some(JBool(b)) => Fin(if b then 1.0 else 0.0)
    case Some(JNum(n)) => Fin(n)
    case Some(JNaN) => NaN
    case Some(JStr(s)) => if s == "" then Fin(0.0) else NaN
    case Some(JArr(items)) => if |items| == 0 then Fin(0.0) else NaN
    case Some(JObj(_)) => NaN
  }

  /** `a * b`: `NaN` is absorbing. */
  function Mul(a: Num, b: Num): (r: Num)
    ensures r.Fin? <==> a.Fin? && b.Fin?
    ensures r.Fin? ==> r.r == a.r * b.r
  {
    if a.Fin? && b.Fin? then Fin(a.r * b.r) else NaN
  }

  /** `a - b`: `NaN` is absorbing. */
  function Sub(a: Num, b: Num): (r: Num)
    ensures r.Fin? <==> a.Fin? && b.Fin?
    ensures r.Fin? ==> r.r == a.r - b.r
  {
    if a.Fin? && b.Fin? then Fin(a.r - b.r) else NaN
  }

  /** `a / b` for a divisor that is not zero. */
  function Div(a: Num, b: Num): (r: Num)
    requires b != Fin(0.0)
    ensures r.Fin? <==> a.Fin? && b.Fin?
    ensures r.Fin? ==> r.r * b.r == a.r
  {
    if a.Fin? && b.Fin? then Fin(a.r / b.r) else NaN
  }

  /** A number as a JavaScript value. */
  function NumJson(n: Num): (v: Json)
    ensures v.JNum? || v.JNaN?
    ensures v.JNum? <==> n.Fin?
    ensures v.JNum? ==> v.n == n.r
  {
    if n.Fin? then JNum(n.r) else JNaN
  }

  /** `v * k` for a number `k`. */
  function Times(v: Option<Json>, k: real): Json
  {
    NumJson(Mul(ToNumber(v), Fin(k)))
  }

  /** `v / k` for a non-zero number `k`. */
  function Over(v: Option<Json>, k: real): Json
    requires k != 0.0
  {
    NumJson(Div(ToNumber(v), Fin(k)))
  }

  /** The own properties `{...v}` copies: an object's fields, nothing for any other value. */
  function Spread(v: Option<Json>): (m: map<string, Json>)
    ensures v.Some? && v.value.JObj? ==> m == v.value.fields
    ensures !(v.Some? && v.value.JObj?) ==> m == map[]
  {
    if v.Some? && v.value.JObj? then v.value.fields else map[]
  }

  /** `c.toLowerCase()` on one character, for the ASCII letters. */
  function LowerChar(c: char): (d: char)
    ensures 'A' <= c <= 'Z' ==> d as int == c as int + 32
    ensures !('A' <= c <= 'Z') ==> d == c
  {
    if 'A' <= c <= 'Z' then (c as int + 32) as char else c
  }

  /** `s.toLowerCase()`, for the ASCII letters. */
  function Lower(s: string): (t: string)
    ensures |t| == |s|
    ensures forall i :: 0 <= i < |s| ==> t[i] == LowerChar(s[i])
  {
    if s == "" then "" else [LowerChar(s[0])] + Lower(s[1..])
  }

  /** `s.startsWith(p)`. */
  predicate StartsWith(s: string, p: string)
  {
    |p| <= |s| && s[..|p|] == p
  }

  /** `s.includes(sub)`, scanning from the left. */
  predicate Contains(s: string, sub: string)
    decreases |s|
  {
    if |sub| > |s| then false
    else if s[..|sub|] == sub then true
    else Contains(s[1..], sub)
  }

  /** `sub` occurs in `s` starting at position `i`. */
  predicate OccursAt(s: string, sub: string, i: int)
  {
    0 <= i <= |s| - |sub| && s[i..i + |sub|] == sub
  }

  /** `Contains` holds exactly when `sub` occurs at some position of `s`. */
  lemma {:induction false} ContainsIff(s: string, sub: string)
    ensures Contains(s, sub) <==> exists i :: OccursAt(s, sub, i)
    decreases |s|
  {
    if |sub| > |s| {
    } else if s[..|sub|] == sub {
      assert OccursAt(s, sub, 0);
    } else {
      ContainsIff(s[1..], sub);
      if Contains(s, sub) {
        var i :| OccursAt(s[1..], sub, i);
        assert s[1..][i..i + |sub|] == s[i + 1..i + 1 + |sub|];
        assert OccursAt(s, sub, i + 1);
      }
      if exists i :: OccursAt(s, sub, i) {
        var i :| OccursAt(s, sub, i);
        assert i != 0;
        assert s[1..][i - 1..i - 1 + |sub|] == s[i..i + |sub|];
        assert OccursAt(s[1..], sub, i - 1);
      }
    }
  }
}
