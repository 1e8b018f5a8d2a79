/** JSON-like context values with Python's truth, equality and ordering. */
module Values {
  import opened Basics

  datatype Value =
    | Null
    | Bool(b: bool)
    | Num(n: real)
    | Str(s: string)
    | List(items: seq<Value>)
    | Dict(fields: map<string, Value>)

  type Data = map<string, Value>

  datatype CmpOp = Eq | Ne | Lt | Le | Gt | Ge

  predicate Truthy(v: Value) {
    match v
    case Null => false
    case Bool(b) => b
    case Num(n) => n != 0.0
    case Str(s) => s != ""
    case List(items) => items != []
    case Dict(fields) => fields != map[]
  }

  /** Python's booleans are the integers 0 and 1. */
  function AsNumber(v: Value): Option<real> {
    match v
    case Bool(b) => Some(if b then 1.0 else 0.0)
    case Num(n) => Some(n)
    case _ => None
  }

  predicate PyEq(a: Value, b: Value)
    decreases a
  {
    match (a, b)
    case (Null, Null) => true
    case (Str(x), Str(y)) => x == y
    case (List(x), List(y)) => |x| == |y| && forall i | 0 <= i < |x| :: PyEq(x[i], y[i])
    case (Dict(x), Dict(y)) => x.Keys == y.Keys && forall k | k in x :: PyEq(x[k], y[k])
    case _ => AsNumber(a).Some? && AsNumber(a) == AsNumber(b)
  }

  predicate OrdReal(op: CmpOp, a: real, b: real) {
    match op
    case Lt => a < b
    case Le => a <= b
    case Gt => a > b
    case Ge => a >= b
    case Eq => a == b
    case Ne => a != b
  }

  predicate OrdStr(op: CmpOp, a: string, b: string) {
    match op
    case Lt => StrLt(a, b)
    case Le => !StrLt(b, a)
    case Gt => StrLt(b, a)
    case Ge => !StrLt(a, b)
    case Eq => a == b
    case Ne => a != b
  }

  /** The four ordering operators; a type mismatch is False, never an error. */
  predicate PyOrder(op: CmpOp, a: Value, b: Value)
    decreases a
  {
    match (a, b)
    case (Str(x), Str(y)) => OrdStr(op, x, y)
    case (List(x), List(y)) => OrderItems(op, x, y)
    case _ => AsNumber(a).Some? && AsNumber(b).Some? && OrdReal(op, AsNumber(a).value, AsNumber(b).value)
  }

  /** Lists compare at their first unequal position, else by length. */
  predicate OrderItems(op: CmpOp, x: seq<Value>, y: seq<Value>)
    decreases x
  {
    if x == [] || y == [] then OrdReal(op, |x| as real, |y| as real)
    else if PyEq(x[0], y[0]) then OrderItems(op, x[1..], y[1..])
    else PyOrder(op, x[0], y[0])
  }

  predicate Compare(op: CmpOp, a: Value, b: Value) {
    match op
    case Eq => PyEq(a, b)
    case Ne => !PyEq(a, b)
    case _ => PyOrder(op, a, b)
  }

  const MAX_KEY_SEGMENTS := 4

  /** A dotted key resolves to Null when it is too long, missing, or passes
      through something that is not a mapping. */
  function ResolveKey(path: seq<string>, ctx: Data): Value {
    if |path| > MAX_KEY_SEGMENTS then Null else Walk(path, ctx)
  }

  function Walk(path: seq<string>, ctx: Data): Value
    decreases |path|
  {
    if path == [] || path[0] !in ctx then Null
    else if |path| == 1 then ctx[path[0]]
    else if ctx[path[0]].Dict? then Walk(path[1..], ctx[path[0]].fields)
    else Null
  }
}
