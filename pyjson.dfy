/**
 * Decoded JSON values and the Python operations the integration applies to
 * them: truthiness, `==`, `in`, subscripting, `.get`, iteration, `str.lower`
 * and f-string rendering.  Every operation that Python would reject with a
 * built-in exception returns `Failure(Runtime)`.
 */
module PyJson {
  import opened Wrappers
  import opened Errors

  /** What `json.loads` produces.  Objects are maps: key order is not modelled. */
  datatype Json =
    | Null
    | Bool(b: bool)
    | Int(i: int)
    | Float(f: real)
    | Str(s: string)
    | Arr(items: seq<Json>)
    | Obj(fields: map<string, Json>)

  const EmptyObj: Json := Obj(map[])

  /** Python's `bool(j)`: None, False, zero, and empty strings, lists and dicts are false. */
  predicate Truthy(j: Json) {
    match j
    case Null => false
    case Bool(b) => b
    case Int(i) => i != 0
    case Float(f) => f != 0.0
    case Str(s) => s != ""
    case Arr(a) => a != []
    case Obj(m) => m != map[]
  }

  /** The numeric value Python compares by: `True == 1 == 1.0`. */
  function NumberValue(j: Json): Option<real> {
    match j
    case Bool(b) => Some(if b then 1.0 else 0.0)
    case Int(i) => Some(i as real)
    case Float(f) => Some(f)
    case _ => None
  }

  /** Python's `a == b` on decoded JSON values. */
  predicate PyEq(a: Json, b: Json)
    decreases a
  {
    if NumberValue(a).Some? || NumberValue(b).Some? then NumberValue(a) == NumberValue(b)
    else match a
      case Arr(x) =>
        b.Arr? && |x| == |b.items| && forall i :: 0 <= i < |x| ==> PyEq(x[i], b.items[i])
      case Obj(m) =>
        b.Obj? && m.Keys == b.fields.Keys && forall k :: k in m ==> PyEq(m[k], b.fields[k])
      case _ => a == b
  }

  /** Python equality is reflexive on every decoded JSON value. */
  lemma {:induction false} PyEqReflexive(j: Json)
    ensures PyEq(j, j)
    decreases j
  {
    match j
    case Arr(x) =>
      forall i | 0 <= i < |x| ensures PyEq(x[i], x[i]) {
        PyEqReflexive(x[i]);
      }
    case Obj(m) =>
      forall k | k in m ensures PyEq(m[k], m[k]) {
        PyEqReflexive(m[k]);
      }
    case _ =>
  }

  /** `needle in hay` for strings: substring test. */
  predicate Occurs(needle: string, hay: string)
    decreases |hay|
  {
    needle <= hay || (hay != [] && Occurs(needle, hay[1..]))
  }

  /** `key in j` with a string key: dict keys, list elements, substrings; TypeError otherwise. */
  function Contains(j: Json, key: string): (r: Result<bool, Error>)
    ensures r.Failure? <==> !(j.Obj? || j.Arr? || j.Str?)
    ensures j.Obj? ==> r == Success(key in j.fields)
  {
    match j
    case Obj(m) => Success(key in m)
    case Arr(a) => Success(Str(key) in a)
    case Str(s) => Success(Occurs(key, s))
    case _ => Failure(Runtime)
  }

  /** `j[key]`: a dict lookup; KeyError for a missing key, TypeError for any other type. */
  function Index(j: Json, key: string): (r: Result<Json, Error>)
    ensures r.Success? <==> j.Obj? && key in j.fields
  {
    if j.Obj? && key in j.fields then Success(j.fields[key]) else Failure(Runtime)
  }

  /** `j.get(key, default)`: AttributeError when `j` is not a dict. */
  function Get(j: Json, key: string, default: Json): (r: Result<Json, Error>)
    ensures r.Success? <==> j.Obj?
  {
    if j.Obj? then Success(if key in j.fields then j.fields[key] else default) else Failure(Runtime)
  }

  /** `d.get(key)` on a value known to be a dict. */
  function Field(m: map<string, Json>, key: string): (r: Json)
    ensures key in m ==> r == m[key]
    ensures key !in m ==> r == Null
  {
    if key in m then m[key] else Null
  }

  /** `j or {}`. */
  function OrEmpty(j: Json): Json {
    if Truthy(j) then j else EmptyObj
  }

  /**
   * `for x in j`.  A list yields its elements and a string its characters.  A
   * dict yields its keys; every loop of the integration that meets a dict here
   * skips an empty key and fails on `.get` of any other, so the model yields the
   * empty key (if present) followed by a stand-in string for each other key.
   * None, booleans and numbers are not iterable: TypeError.
   */
  function Iter(j: Json): (r: Result<seq<Json>, Error>)
    ensures r.Success? <==> j.Arr? || j.Str? || j.Obj?
    ensures j.Arr? ==> r == Success(j.items)
  {
    match j
    case Arr(a) => Success(a)
    case Str(s) => Success(seq(|s|, i requires 0 <= i < |s| => Str([s[i]])))
    case Obj(m) =>
      var others := |m.Keys - {""}|;
      Success((if "" in m then [Str("")] else []) + seq(others, _ => Str(OtherKey)))
    case _ => Failure(Runtime)
  }

  /** Stands in for a non-empty dict key met by iteration (see Iter). */
  const OtherKey: string := "key"

  /** ASCII case folding, as `str.lower()` does on ASCII text. */
  function Lower(s: string): (r: string)
    ensures |r| == |s|
    ensures forall i :: 0 <= i < |s| ==> r[i] == LowerChar(s[i])
  {
    if s == [] then [] else [LowerChar(s[0])] + Lower(s[1..])
  }

  function LowerChar(c: char): char {
    if 'A' <= c <= 'Z' then (c as int + 32) as char else c
  }

  /** Decimal digits of a natural number. */
  function Digits(n: nat): (r: string)
    ensures r != []
    decreases n
  {
    if n < 10 then [DigitChar(n)] else Digits(n / 10) + [DigitChar(n % 10)]
  }

  function DigitChar(d: nat): char
    requires d < 10
  {
    "0123456789"[d]
  }

  /** Stands in for the rendering of a float, list or dict inside an f-string. */
  const Unrendered: string := "<value>"

  /** `f"{j}"` for None, booleans, integers and strings. */
  function PyStr(j: Json): string {
    match j
    case Null => "None"
    case Bool(b) => if b then "True" else "False"
    case Int(i) => if i < 0 then "-" + Digits(-i) else Digits(i)
    case Str(s) => s
    case _ => Unrendered
  }
}
