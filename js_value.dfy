/** The slice of JavaScript value semantics that the API-key resolver relies on:
    JSON-shaped values, truthiness, property and index reads (which throw on
    `null`/`undefined`), object spread, and lodash's `pick`. */
module JsValue {

  /** A JSON-shaped JavaScript value. Numbers are modelled as integers. */
  datatype Value =
    | Undefined
    | Null
    | Bool(b: bool)
    | Num(n: int)
    | Str(s: string)
    | Arr(items: seq<Value>)
    | Obj(fields: map<string, Value>)

  datatype Option<T> = None | Some(value: T)

  /** JavaScript truthiness: `undefined`, `null`, `false`, `0` and `""` are falsy;
      every array and every object is truthy. */
  predicate Truthy(v: Value)
    ensures !Truthy(v) <==> v in {Undefined, Null, Bool(false), Num(0), Str("")}
  {
    match v
    case Undefined => false
    case Null => false
    case Bool(b) => b
    case Num(n) => n != 0
    case Str(s) => s != ""
    case Arr(_) => true
    case Obj(_) => true
  }

  /** `v == null`: reading a property of such a value throws a TypeError. */
  predicate Nullish(v: Value) {
    v.Undefined? || v.Null?
  }

  /** `o[key]` on a plain object: a key that is not there reads as `undefined`. */
  function Get(o: map<string, Value>, key: string): Value {
    if key in o then o[key] else Undefined
  }

  /** `v.key`: `None` stands for the TypeError thrown when `v` is nullish. */
  function Prop(v: Value, key: string): (r: Option<Value>)
    ensures r.None? <==> Nullish(v)
  {
    match v
    case Undefined => None
    case Null => None
    case Obj(f) => Some(Get(f, key))
    case _ => Some(Undefined)
  }

  /** The canonical decimal spelling of `n`: the property key `o[n]` reads, for
      `n` below 10^21 (JavaScript spells larger numbers in exponent form). */
  function DecimalString(n: nat): (digits: string)
    ensures |digits| > 0
    ensures digits[0] == '0' <==> n == 0
    ensures forall k :: 0 <= k < |digits| ==> '0' <= digits[k] <= '9'
  {
    var last := ['0' + (n % 10) as char];
    if n < 10 then last else DecimalString(n / 10) + last
  }

  /** The number a string of decimal digits spells. */
  function DigitsValue(digits: string): nat
    requires forall k :: 0 <= k < |digits| ==> '0' <= digits[k] <= '9'
  {
    if digits == [] then 0
    else DigitsValue(digits[..|digits| - 1]) * 10 + (digits[|digits| - 1] as int - '0' as int)
  }

  /** `DecimalString(n)` spells `n`: reading it back gives `n`. */
  lemma {:induction false} DecimalStringSpellsValue(n: nat)
    ensures DigitsValue(DecimalString(n)) == n
  {
    if n >= 10 {
      var digits := DecimalString(n);
      assert digits[..|digits| - 1] == DecimalString(n / 10);
      DecimalStringSpellsValue(n / 10);
    }
  }

  /** `v[i]`: `None` stands for the TypeError thrown when `v` is nullish. On an
      array or a string an index past the end reads as `undefined`; on an object
      `v[i]` reads the property named by the decimal spelling of `i` (as
      JavaScript's `String(i)` does for `i` below 10^21). */
  function Index(v: Value, i: nat): (r: Option<Value>)
    ensures r.None? <==> Nullish(v)
    ensures v.Arr? && i < |v.items| ==> r == Some(v.items[i])
    ensures v.Arr? && |v.items| <= i ==> r == Some(Undefined)
    ensures v.Str? && i < |v.s| ==> r == Some(Str([v.s[i]]))
    ensures v.Str? && |v.s| <= i ==> r == Some(Undefined)
    ensures v.Obj? ==> r == Prop(v, DecimalString(i))
    ensures v.Bool? || v.Num? ==> r == Some(Undefined)
  {
    match v
    case Undefined => None
    case Null => None
    case Arr(items) => Some(if i < |items| then items[i] else Undefined)
    case Str(s) => Some(if i < |s| then Str([s[i]]) else Undefined)
    case Obj(f) => Some(Get(f, DecimalString(i)))
    case _ => Some(Undefined)
  }

  /** The own properties that `{...v}` copies: `{...o}.k === o.k` for an object
      `o`, and spreading any other value adds no property that a read can see. */
  function OwnFields(v: Value): (own: map<string, Value>)
    ensures forall k :: Prop(Obj(own), k) == (if v.Obj? then Prop(v, k) else Some(Undefined))
  {
    if v.Obj? then v.fields else map[]
  }

  /** lodash `pick(keys)(v)`: the properties of `v` named in `keys`, and no others. */
  function Pick(v: Value, keys: set<string>): (r: map<string, Value>)
    ensures r.Keys <= keys
    ensures forall k :: k in r ==> v.Obj? && k in v.fields && r[k] == v.fields[k]
    ensures forall k :: k in keys && v.Obj? && k in v.fields ==> k in r
  {
    if v.Obj? then map k | k in v.fields.Keys * keys :: v.fields[k] else map[]
  }

  /** A property read and an index read throw on the same values: exactly
      `null` and `undefined`. */
  lemma ReadsThrowTogether(v: Value, key: string, i: nat)
    ensures Prop(v, key).None? <==> Index(v, i).None?
    ensures Prop(v, key).None? <==> Nullish(v)
  {
  }
}
