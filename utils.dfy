/**
 * JavaScript values as they reach the server from a parsed JSON configuration,
 * together with the value tests the validator relies on: JavaScript truthiness
 * and the `isString`, `isNumber` and `isBool` predicates of the utility module.
 */
module Utils {

  /**
   * A configuration field. `Undefined` is a key that is absent; `Other` stands
   * for a JSON array or object (always truthy). JSON has no NaN, so a number is
   * falsy exactly when it is zero.
   */
  datatype Value =
    | Undefined
    | Null
    | Bool(b: bool)
    | Num(x: real)
    | Str(s: string)
    | Other

  /** JavaScript truthiness: `undefined`, `null`, `false`, `0` and `""` are falsy. */
  predicate Truthy(v: Value)
  {
    match v
    case Undefined => false
    case Null => false
    case Bool(b) => b
    case Num(x) => x != 0.0
    case Str(s) => s != ""
    case Other => true
  }

  /** `isString`: a `typeof` test for strings. */
  predicate IsString(v: Value) { v.Str? }

  /** `isNumber`: a `typeof` test for numbers. */
  predicate IsNumber(v: Value) { v.Num? }

  /** `isBool`: a `typeof` test for booleans. */
  predicate IsBool(v: Value) { v.Bool? }

  /** A value that is a string or falsy: what a path field holds once it passed its kind check. */
  predicate StringOrFalsy(v: Value) { IsString(v) || !Truthy(v) }

  /** The text a template literal `${v}` produces for a string or falsy value. */
  function TemplateText(v: Value): (t: string)
    requires StringOrFalsy(v)
    ensures IsString(v) ==> t == v.s
  {
    match v
    case Undefined => "undefined"
    case Null => "null"
    case Bool(_) => "false"
    case Num(_) => "0"
    case Str(s) => s
  }
}
