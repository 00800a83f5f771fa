/**
 * The JavaScript values the annotation code inspects, and the `Utils`
 * predicates it applies to them. An options object is a map from its own
 * enumerable keys to their values; a key that is absent reads as `undefined`.
 */
module JsValues {

  datatype Value =
    | Undefined
    | Null
    | Num(n: real)                     // a finite number
    | NaN
    | Infinity(negative: bool)
    | Str(s: string)
    | Bool(b: bool)
    | Obj(props: map<string, Value>)   // a plain object with its own enumerable properties

  type Options = map<string, Value>

  /** `options[key]`: an absent key reads as `undefined`. */
  function Get(o: Options, key: string): (v: Value)
    ensures key !in o ==> v == Undefined
    ensures key in o ==> v == o[key]
  {
    if key in o then o[key] else Undefined
  }

  /** `Utils.extend(target, source)`: every own key of `source` overwrites `target`. */
  function Extend(target: Options, source: Options): (r: Options)
    ensures r.Keys == target.Keys + source.Keys
    ensures forall k :: k in source ==> Get(r, k) == source[k]
    ensures forall k :: k !in source ==> Get(r, k) == Get(target, k)
  {
    target + source
  }

  predicate IsNullOrUndefined(v: Value) {
    v.Undefined? || v.Null?
  }

  /** `Utils.isValidTime`: a number that is neither NaN nor infinite. */
  predicate IsValidTime(v: Value) {
    v.Num?
  }

  predicate IsString(v: Value) {
    v.Str?
  }

  predicate IsBoolean(v: Value) {
    v.Bool?
  }

  /** `Utils.isObject`: a non-null, non-array object. */
  predicate IsObject(v: Value) {
    v.Obj?
  }

  /** `Utils.isLinearGradientColor`: an object carrying the three gradient keys. */
  predicate IsLinearGradientColor(v: Value) {
    v.Obj? &&
    "linearGradientStart" in v.props &&
    "linearGradientEnd" in v.props &&
    "linearGradientColorStops" in v.props
  }

  /** `typeof v === 'number'` (NaN and the infinities are numbers too). */
  predicate IsNumberType(v: Value) {
    v.Num? || v.NaN? || v.Infinity?
  }

  /** JavaScript truthiness. */
  predicate Truthy(v: Value) {
    match v
    case Undefined => false
    case Null => false
    case Num(n) => n != 0.0
    case NaN => false
    case Infinity(_) => true
    case Str(s) => s != ""
    case Bool(b) => b
    case Obj(_) => true
  }

  /** `a === b` on the primitive values ids and times take (NaN equals nothing). */
  predicate StrictEquals(a: Value, b: Value) {
    a == b && !a.NaN?
  }
}
