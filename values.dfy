/**
 * The loosely typed values that arrive in the engine's input dictionaries,
 * as Python sees them after `json.loads`, and the three Python operations the
 * engine applies to them: truthiness (`if x`, `x or y`), `float(x)` and `int(x)`.
 */
module Values {
  import opened Wrappers
  import Text

  /** A Python value of JSON shape; real numbers stand for Python floats. */
  datatype Value =
    | Null
    | Bool(b: bool)
    | Int(i: int)
    | Num(r: real)
    | Str(s: string)
    | List(items: seq<Value>)
    | Dict(fields: map<string, Value>)

  /** Python truthiness: `None`, `False`, zero, and empty strings, lists and dicts are falsy. */
  predicate Truthy(v: Value) {
    match v
    case Null => false
    case Bool(b) => b
    case Int(i) => i != 0
    case Num(r) => r != 0.0
    case Str(s) => s != []
    case List(xs) => xs != []
    case Dict(m) => m != map[]
  }

  /** Python's `a or b`: the first operand when it is truthy, else the second. */
  function Or(a: Value, b: Value): (r: Value)
    ensures Truthy(a) ==> r == a
    ensures !Truthy(a) ==> r == b
    ensures Truthy(r) <==> Truthy(a) || Truthy(b)
  {
    if Truthy(a) then a else b
  }

  /** `d.get(key)` on one key of a dictionary: an absent key reads as `None`. */
  function Get(entry: Option<Value>): Value {
    entry.GetOr(Null)
  }

  /**
   * `float(v)` with every exception turned into `None`, as the engine's
   * amount helper does; `None` itself also gives `None`.
   */
  function ToAmount(v: Value): Option<real> {
    match v
    case Null => None
    case Bool(b) => Some(if b then 1.0 else 0.0)
    case Int(i) => Some(i as real)
    case Num(r) => Some(r)
    case Str(s) => Text.ParseDecimal(s)
    case List(_) => None
    case Dict(_) => None
  }

  /** A numeral in a string converts to the number it spells. */
  lemma ToAmountOfNumeral(n: nat)
    ensures ToAmount(Str(Text.NatToString(n))) == Some(n as real)
  {
    Text.ParseDecimalOfNatToString(n);
  }

  /** `int(r)` for a float: truncation toward zero. */
  function Truncate(r: real): (t: int)
    ensures r >= 0.0 ==> 0.0 <= t as real <= r < t as real + 1.0
    ensures r < 0.0 ==> t as real - 1.0 < r <= t as real <= 0.0
  {
    if r >= 0.0 then r.Floor else -((-r).Floor)
  }

  /** `int(v)`, or `None` where Python raises. */
  function ToInt(v: Value): Option<int> {
    match v
    case Null => None
    case Bool(b) => Some(if b then 1 else 0)
    case Int(i) => Some(i)
    case Num(r) => Some(Truncate(r))
    case Str(s) => Text.ParseInt(s)
    case List(_) => None
    case Dict(_) => None
  }
}
