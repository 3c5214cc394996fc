/** JavaScript values as the command handlers and the mock data layer see them. */
module JsValues {

  /** A lookup that yields a record or `null`. */
  datatype Option<+T> = None | Some(value: T)

  /** A repository call that resolves, or rejects with an error message. */
  datatype Outcome = Pass | Fail(message: string)

  /**
   * A JavaScript value, one constructor per answer `typeof` can give
   * (`null` reports "object" like a real object). Objects carry their own
   * enumerable properties; functions are opaque.
   */
  datatype Value =
    | Str(s: string)
    | Num(n: int)
    | Bool(b: bool)
    | Undef
    | Null
    | Obj(props: map<string, Value>)
    | Func

  /** A plain object seen as its table of own properties. */
  type Record = map<string, Value>

  /** The string the `typeof` operator returns. */
  function TypeOf(v: Value): string {
    match v
    case Str(_) => "string"
    case Num(_) => "number"
    case Bool(_) => "boolean"
    case Undef => "undefined"
    case Null => "object"
    case Obj(_) => "object"
    case Func => "function"
  }

  /** `typeof` answers "function" for functions only, and "object" for objects and for `null`. */
  lemma TypeOfKinds(v: Value)
    ensures TypeOf(v) == "function" <==> v.Func?
    ensures TypeOf(v) == "object" <==> v.Obj? || v.Null?
  {
  }

  /** JavaScript truthiness, as used by `if (x)`, `!x` and `x || y`. */
  predicate Truthy(v: Value) {
    match v
    case Str(s) => s != ""
    case Num(n) => n != 0
    case Bool(b) => b
    case Undef => false
    case Null => false
    case Obj(_) => true
    case Func => true
  }

  /** Decimal digits of a natural number. */
  function NatToString(n: nat): (s: string)
    ensures |s| >= 1
    ensures forall i :: 0 <= i < |s| ==> '0' <= s[i] <= '9'
    decreases n
  {
    var d := [(48 + n % 10) as char];
    if n < 10 then d else NatToString(n / 10) + d
  }

  /** How `sprintf('%s', v)` and string concatenation render a value. */
  function Display(v: Value): string {
    match v
    case Str(s) => s
    case Num(n) => if n < 0 then "-" + NatToString(-n) else NatToString(n)
    case Bool(b) => if b then "true" else "false"
    case Undef => "undefined"
    case Null => "null"
    case Obj(_) => "[object Object]"
    case Func => "function"
  }

  /** A JavaScript object whose properties are changed in place. */
  class JsObject {
    var props: Record

    constructor (props: Record)
      ensures this.props == props
    {
      this.props := props;
    }
  }
}
