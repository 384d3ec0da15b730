/**
 * The generic "numeric model": an entity that exposes one number (`get_number`)
 * and takes part in comparisons and arithmetic through a closed table of
 * operator symbols. Every operator first validates its symbol, then dispatches
 * on the kind of the other operand.
 *
 * The entity is represented here by its number: for a `Rank` that is its stored
 * score, taken to be a float, so every number below is a `real` standing for a
 * Python float (an int score held before the first save is not modelled).
 */
module Numeric {
  import opened Failures

  /** The operators of the `operator` module that the table can name. */
  datatype Op =
    | Plus | Minus | Times | Divide | Modulo | BitXor
    | GreaterEq | Greater | LessEq | Less | Equal | NotEqual

  /** What applying an operator gives: a float for arithmetic, a bool for a comparison. */
  datatype Value = Number(x: real) | Bool(b: bool)

  /** The exceptions the dispatch can raise. */
  datatype Error =
    | NoOperator(symbol: string)  // `check_op`: the symbol is not a key of the table
    | DictLookupRaises            // `other.__dict__()`: missing (None, a bool, a str) or a dict, which is not callable
    | ZeroDivision                // float division or modulo by zero
    | UnsupportedOperand          // `^` on a float operand

  /**
   * The other operand of a comparison or arithmetic operator, by its Python type.
   * `SameModel` is an instance of exactly the same model class (compared through
   * its own number); `Int` and `Float` are exactly `int` and `float`; `Other` is
   * any other value (None, a bool, a string, a different model class, ...),
   * carrying its Python truth value.
   */
  datatype Operand = SameModel(number: real) | Int(i: int) | Float(f: real) | Other(truthy: bool)

  /** The `ops` table: twelve symbols, each naming one operator. */
  const Ops: map<string, Op> := map[
    "+" := Plus, "-" := Minus, "*" := Times, "/" := Divide, "%" := Modulo, "^" := BitXor,
    ">=" := GreaterEq, ">" := Greater, "<=" := LessEq, "<" := Less, "==" := Equal, "!=" := NotEqual
  ]

  /** The symbol under which the table lists each operator. */
  function Symbol(op: Op): string
  {
    match op
    case Plus => "+"
    case Minus => "-"
    case Times => "*"
    case Divide => "/"
    case Modulo => "%"
    case BitXor => "^"
    case GreaterEq => ">="
    case Greater => ">"
    case LessEq => "<="
    case Less => "<"
    case Equal => "=="
    case NotEqual => "!="
  }

  /** The keys of the table, written out. */
  lemma OpsKeys()
    ensures Ops.Keys == {"+", "-", "*", "/", "%", "^", ">=", ">", "<=", "<", "==", "!="}
  {
  }

  /** Every operator is listed under its symbol. */
  lemma SymbolInOps(op: Op)
    ensures Symbol(op) in Ops && Ops[Symbol(op)] == op
  {
  }

  /** Every key of the table is the symbol of the operator it names. */
  lemma OpsKeyIsSymbol(s: string)
    requires s in Ops
    ensures Symbol(Ops[s]) == s
  {
    if s == "+" {} else if s == "-" {} else if s == "*" {} else if s == "/" {}
    else if s == "%" {} else if s == "^" {} else if s == ">=" {} else if s == ">" {}
    else if s == "<=" {} else if s == "<" {} else if s == "==" {} else {}
  }

  /** No two operators share a symbol. */
  lemma SymbolNamesOneOp(op: Op)
    ensures forall o :: Symbol(o) == Symbol(op) ==> o == op
  {
    forall o | Symbol(o) == Symbol(op)
      ensures o == op
    {
      SymbolInOps(o);
      SymbolInOps(op);
    }
  }

  /**
   * `check_op`: a symbol passes exactly when it is one of the twelve keys of the
   * table; any other string raises. On success the operator the symbol names is
   * returned, which is the entry `run_operator` goes on to look up.
   */
  function CheckOp(oper: string): (r: Result<Op, Error>)
    ensures r.Ok? <==> oper in Ops
    ensures r.Ok? <==> exists op :: Symbol(op) == oper
    ensures r.Ok? ==> r.value == Ops[oper] && Symbol(r.value) == oper
    ensures r.Err? ==> r.error == NoOperator(oper)
  {
    if oper in Ops then
      OpsKeyIsSymbol(oper);
      Ok(Ops[oper])
    else
      assert forall op :: Symbol(op) != oper by {
        forall op ensures Symbol(op) != oper { SymbolInOps(op); }
      }
      Err(NoOperator(oper))
  }

  /** Python's `int()` on a float: truncation toward zero. */
  function Truncate(f: real): (i: int)
    ensures 0.0 <= f ==> i as real <= f < i as real + 1.0
    ensures f < 0.0 ==> i as real - 1.0 < f <= i as real
  {
    if 0.0 <= f then f.Floor else -((-f).Floor)
  }

  /** A comparison operator yields a bool; the others yield a number. */
  predicate IsComparison(op: Op)
  {
    op in {GreaterEq, Greater, LessEq, Less, Equal, NotEqual}
  }

  /**
   * The operator applied to two floats, as the `operator` module does it:
   * true division and floored modulo raise on a zero divisor, and `^` raises
   * because a float has no bitwise exclusive or.
   */
  function Apply(op: Op, x: real, y: real): (r: Result<Value, Error>)
    ensures r.Err? <==> op == BitXor || ((op == Divide || op == Modulo) && y == 0.0)
    ensures r.Ok? ==> (r.value.Bool? <==> IsComparison(op))
    ensures op == Divide && r.Ok? ==> r.value.x * y == x
    ensures op == Modulo && y != 0.0 ==> exists q: int :: r.value.x == x - Multiple(y, q)
    ensures op == Modulo && 0.0 < y ==> 0.0 <= r.value.x < y
    ensures op == Modulo && y < 0.0 ==> y < r.value.x <= 0.0
    ensures op == GreaterEq ==> r.value.b == !(x < y)
    ensures op == Greater ==> r.value.b == !(x <= y)
    ensures op == NotEqual ==> r.value.b == !(x == y)
  {
    match op
    case Plus => Ok(Number(x + y))
    case Minus => Ok(Number(x - y))
    case Times => Ok(Number(x * y))
    case Divide => if y == 0.0 then Err(ZeroDivision) else Ok(Number(x / y))
    case Modulo => if y == 0.0 then Err(ZeroDivision) else Ok(Number(FloorMod(x, y)))
    case BitXor => Err(UnsupportedOperand)
    case GreaterEq => Ok(Bool(x >= y))
    case Greater => Ok(Bool(x > y))
    case LessEq => Ok(Bool(x <= y))
    case Less => Ok(Bool(x < y))
    case Equal => Ok(Bool(x == y))
    case NotEqual => Ok(Bool(x != y))
  }

  /** `q` whole times `y`. */
  function Multiple(y: real, q: int): real
  {
    y * q as real
  }

  /** Python's float `%`: the remainder of floored division, with the divisor's sign. */
  function FloorMod(x: real, y: real): (m: real)
    requires y != 0.0
    ensures exists q: int :: m == x - Multiple(y, q)
    ensures 0.0 < y ==> 0.0 <= m < y
    ensures y < 0.0 ==> y < m <= 0.0
  {
    var q := (x / y).Floor;
    FloorModBounds(x, y, q as real);
    assert x - y * q as real == x - Multiple(y, q);
    x - y * q as real
  }

  /** With `lo` within 1 below `x / y`, `x - y * lo` lies between 0 and the divisor. */
  lemma FloorModBounds(x: real, y: real, lo: real)
    requires y != 0.0 && lo <= x / y < lo + 1.0
    ensures 0.0 < y ==> 0.0 <= x - y * lo < y
    ensures y < 0.0 ==> y < x - y * lo <= 0.0
  {
    var d := x / y - lo;
    RemainderIsScaledFraction(x, y, lo, d);
    if 0.0 < y {
      PositiveFraction(x - y * lo, y, d);
    } else {
      NegativeFraction(x - y * lo, y, d);
    }
  }

  /** The remainder `x - y * lo` is `y` times the fractional part `x / y - lo` of the quotient. */
  lemma RemainderIsScaledFraction(x: real, y: real, lo: real, d: real)
    requires y != 0.0 && d == x / y - lo
    ensures x - y * lo == y * d
  {
  }

  /** A fraction in [0, 1) of a positive `y` lies in [0, y). */
  lemma PositiveFraction(m: real, y: real, d: real)
    requires 0.0 < y && 0.0 <= d < 1.0 && m == y * d
    ensures 0.0 <= m < y
  {
  }

  /** A fraction in [0, 1) of a negative `y` lies in (y, 0]. */
  lemma NegativeFraction(m: real, y: real, d: real)
    requires y < 0.0 && 0.0 <= d < 1.0 && m == y * d
    ensures y < m <= 0.0
  {
  }

  /** `run_operator`: validate the symbol, then apply the operator it names. */
  function RunOperator(oper: string, x: real, y: real): (r: Result<Value, Error>)
    ensures (forall op :: Symbol(op) != oper) ==> r == Err(NoOperator(oper))
    ensures forall op :: Symbol(op) == oper ==> r == Apply(op, x, y)
  {
    match CheckOp(oper)
    case Err(e) => Err(e)
    case Ok(op) => SymbolNamesOneOp(op); Apply(op, x, y)
  }

  /**
   * The number an operand is compared against, or None when the dispatch
   * cannot produce one: another instance of the model gives its own number, an
   * int gives itself and a float its truncation.
   */
  function Coerced(other: Operand): Option<real>
  {
    match other
    case SameModel(n) => Some(n)
    case Int(i) => Some(i as real)
    case Float(f) => Some(Truncate(f) as real)
    case Other(_) => None
  }

  /**
   * `numerical`: the symbol is validated before the operand is looked at, so a
   * bad symbol fails whatever the operand. Against a model of the same type the
   * operator is applied to both numbers; against an int or a float, to the
   * operand truncated toward zero. Any other operand reaches `other.__dict__()`,
   * which raises for an ordinary object (its `__dict__` is missing or a plain
   * dict), so it never yields a value. Objects that make `__dict__` callable
   * are not among the operands modelled.
   */
  function Numerical(number: real, other: Operand, compareType: string): (r: Result<Value, Error>)
    ensures (forall op :: Symbol(op) != compareType) ==> r == Err(NoOperator(compareType))
    ensures forall op :: Symbol(op) == compareType ==>
      r == if Coerced(other).Some? then Apply(op, number, Coerced(other).value) else Err(DictLookupRaises)
    ensures other.Other? ==> r.Err?
  {
    match CheckOp(compareType)
    case Err(e) => Err(e)
    case Ok(op) =>
      SymbolNamesOneOp(op);
      match other
      case SameModel(n) => RunOperator(compareType, number, n)
      case Int(i) => RunOperator(compareType, number, i as real)
      case Float(f) => RunOperator(compareType, number, Truncate(f) as real)
      case Other(_) => Err(DictLookupRaises)
  }

  /** Python truthiness of an operand; a model instance defines neither `__bool__` nor `__len__`. */
  predicate Truthy(other: Operand)
  {
    match other
    case SameModel(_) => true
    case Int(i) => i != 0
    case Float(f) => f != 0.0
    case Other(t) => t
  }

  /** `__eq__`: a falsy operand (None, 0, 0.0, ...) is unequal without any comparison. */
  function Eq(number: real, other: Operand): (r: Result<Value, Error>)
    ensures !Truthy(other) ==> r == Ok(Bool(false))
    ensures Truthy(other) && Coerced(other).Some? ==> r == Ok(Bool(number == Coerced(other).value))
    ensures Truthy(other) && Coerced(other).None? ==> r == Err(DictLookupRaises)
  {
    if !Truthy(other) then Ok(Bool(false)) else Numerical(number, other, "==")
  }

  /** `__lt__` */
  function Lt(number: real, other: Operand): (r: Result<Value, Error>)
    ensures Coerced(other).Some? ==> r == Ok(Bool(number < Coerced(other).value))
    ensures Coerced(other).None? ==> r == Err(DictLookupRaises)
  {
    Numerical(number, other, "<")
  }

  /** `__le__` */
  function Le(number: real, other: Operand): (r: Result<Value, Error>)
    ensures Coerced(other).Some? ==> r == Ok(Bool(number <= Coerced(other).value))
    ensures Coerced(other).None? ==> r == Err(DictLookupRaises)
  {
    Numerical(number, other, "<=")
  }

  /** `__ge__` */
  function Ge(number: real, other: Operand): (r: Result<Value, Error>)
    ensures Coerced(other).Some? ==> r == Ok(Bool(number >= Coerced(other).value))
    ensures Coerced(other).None? ==> r == Err(DictLookupRaises)
  {
    Numerical(number, other, ">=")
  }

  /** `__gt__` */
  function Gt(number: real, other: Operand): (r: Result<Value, Error>)
    ensures Coerced(other).Some? ==> r == Ok(Bool(number > Coerced(other).value))
    ensures Coerced(other).None? ==> r == Err(DictLookupRaises)
  {
    Numerical(number, other, ">")
  }

  /** `__ne__`: unlike `__eq__`, a falsy operand is compared like any other. */
  function Ne(number: real, other: Operand): (r: Result<Value, Error>)
    ensures Coerced(other).Some? ==> r == Ok(Bool(number != Coerced(other).value))
    ensures Coerced(other).None? ==> r == Err(DictLookupRaises)
  {
    Numerical(number, other, "!=")
  }

  /** `__add__` */
  function Add(number: real, other: Operand): (r: Result<Value, Error>)
    ensures Coerced(other).Some? ==> r == Ok(Number(number + Coerced(other).value))
    ensures Coerced(other).None? ==> r == Err(DictLookupRaises)
  {
    Numerical(number, other, "+")
  }

  /** `__radd__`: `other + self` is computed as `self + other`. */
  function RAdd(number: real, other: Operand): (r: Result<Value, Error>)
    ensures Coerced(other).Some? ==> r == Ok(Number(Coerced(other).value + number))
    ensures Coerced(other).None? ==> r == Err(DictLookupRaises)
  {
    Add(number, other)
  }

  /** `__mul__` */
  function Mul(number: real, other: Operand): (r: Result<Value, Error>)
    ensures Coerced(other).Some? ==> r == Ok(Number(number * Coerced(other).value))
    ensures Coerced(other).None? ==> r == Err(DictLookupRaises)
  {
    Numerical(number, other, "*")
  }

  /** `__truediv__`: a zero divisor, including a float that truncates to zero, raises. */
  function TrueDiv(number: real, other: Operand): (r: Result<Value, Error>)
    ensures Coerced(other) == Some(0.0) ==> r == Err(ZeroDivision)
    ensures Coerced(other).Some? && Coerced(other).value != 0.0 ==>
      r == Ok(Number(number / Coerced(other).value))
    ensures Coerced(other).None? ==> r == Err(DictLookupRaises)
  {
    Numerical(number, other, "/")
  }

  /** `__sub__` */
  function Sub(number: real, other: Operand): (r: Result<Value, Error>)
    ensures Coerced(other).Some? ==> r == Ok(Number(number - Coerced(other).value))
    ensures Coerced(other).None? ==> r == Err(DictLookupRaises)
  {
    Numerical(number, other, "-")
  }

  /**
   * `__mod__`: floored modulo. The result differs from the number by a whole
   * multiple of the divisor and lies between 0 and the divisor: in [0, divisor)
   * for a positive divisor, in (divisor, 0] for a negative one.
   */
  function Mod(number: real, other: Operand): (r: Result<Value, Error>)
    ensures Coerced(other) == Some(0.0) ==> r == Err(ZeroDivision)
    ensures Coerced(other).Some? && Coerced(other).value != 0.0 ==>
      r.Ok? && r.value.Number? && exists q: int :: r.value.x == number - Multiple(Coerced(other).value, q)
    ensures Coerced(other).Some? && 0.0 < Coerced(other).value ==>
      r.Ok? && r.value.Number? && 0.0 <= r.value.x < Coerced(other).value
    ensures Coerced(other).Some? && Coerced(other).value < 0.0 ==>
      r.Ok? && r.value.Number? && Coerced(other).value < r.value.x <= 0.0
    ensures Coerced(other).None? ==> r == Err(DictLookupRaises)
  {
    Numerical(number, other, "%")
  }

  /** `__xor__`: never a value, since the number is taken to be a float. */
  function Xor(number: real, other: Operand): (r: Result<Value, Error>)
    ensures Coerced(other).Some? ==> r == Err(UnsupportedOperand)
    ensures Coerced(other).None? ==> r == Err(DictLookupRaises)
  {
    Numerical(number, other, "^")
  }

  /** `n + r == r + n`: the reflected addition agrees with the plain one. */
  lemma RAddIsAdd(number: real, other: Operand)
    ensures RAdd(number, other) == Add(number, other)
  {
  }

  /**
   * `==` and `!=` are not complements: against a falsy operand that compares
   * equal to the number (`0` against a score of 0.0) both give False.
   */
  lemma EqAndNeBothFalse(number: real, other: Operand)
    requires !Truthy(other) && Coerced(other) == Some(number)
    ensures Eq(number, other) == Ok(Bool(false))
    ensures Ne(number, other) == Ok(Bool(false))
  {
  }

  /** Comparing with 2.9 compares with 2, and so does comparing with -2.9 and -2. */
  lemma FloatOperandIsTruncated()
    ensures Eq(2.0, Float(2.9)) == Ok(Bool(true))
    ensures Lt(2.5, Float(2.9)) == Ok(Bool(false))
    ensures Gt(-2.5, Float(-2.9)) == Ok(Bool(false))
  {
    assert Truncate(2.9) == 2;
    assert Truncate(-2.9) == -2;
  }

  /** An unknown symbol fails before the operand is inspected, whatever the operand. */
  lemma UnknownSymbolAlwaysFails(number: real, other: Operand, compareType: string)
    requires compareType !in Ops
    ensures Numerical(number, other, compareType) == Err(NoOperator(compareType))
  {
    forall op ensures Symbol(op) != compareType { SymbolInOps(op); }
  }
}
