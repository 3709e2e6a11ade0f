/** The scalar value operators of the evaluator: truthiness, the arithmetic
    and comparison families over Int and Float, and the unary operators.
    Each is a plain scalar function; lists reach them through Broadcast. */
module Operators {
  import opened Wrappers
  import opened Values

  /** Truthiness: a nonzero number, a nonempty string or a nonempty list.
      Nil, Inf, ranges and callables are all false. */
  predicate IsTruthy(v: Value) {
    match v
    case Int(i) => i != 0
    case Float(f) => f != 0.0
    case Str(s) => |s| > 0
    case List(es) => |es| > 0
    case _ => false
  }

  /** The Int the source uses for a boolean: TRUE is 1, FALSE is 0. */
  function FromBool(b: bool): (r: Value)
    ensures r.Int? && (r.i == 1 <==> b) && (r.i == 0 <==> !b)
  {
    if b then Int(1) else Int(0)
  }

  function Abs(x: int): int {
    if x < 0 then -x else x
  }

  /** C's `/` on integers: the quotient truncated toward zero. */
  function TruncDiv(a: int, b: int): (q: int)
    requires b != 0
    ensures a >= 0 ==> 0 <= a - q * b < Abs(b)
    ensures a < 0 ==> -Abs(b) < a - q * b <= 0
    ensures a >= 0 && b > 0 ==> q == a / b
  {
    var q := Abs(a) / Abs(b);
    DivModAbs(a, b, q);
    if (a < 0) == (b < 0) then q else -q
  }

  /** The four sign cases of truncating division, from Euclidean division
      of the magnitudes. */
  lemma DivModAbs(a: int, b: int, q: int)
    requires b != 0 && q == Abs(a) / Abs(b)
    ensures (a < 0) == (b < 0) ==> (a >= 0 ==> 0 <= a - q * b < Abs(b)) && (a < 0 ==> -Abs(b) < a - q * b <= 0)
    ensures (a < 0) != (b < 0) ==> (a >= 0 ==> 0 <= a - (-q) * b < Abs(b)) && (a < 0 ==> -Abs(b) < a - (-q) * b <= 0)
  {
    var A := Abs(a);
    var B := Abs(b);
    var m := A % B;
    var qb := q * B;
    assert A == qb + m && 0 <= m < B;
    if b < 0 {
      assert b == -B;
      assert q * b == -qb;
      assert (-q) * b == qb;
      if a < 0 { assert a == -A; } else { assert a == A; }
    } else {
      assert b == B;
      assert q * b == qb;
      assert (-q) * b == -qb;
      if a < 0 { assert a == -A; } else { assert a == A; }
    }
  }

  /** C's `%` on integers: the remainder takes the sign of the dividend. */
  function TruncMod(a: int, b: int): (m: int)
    requires b != 0
    ensures a >= 0 ==> 0 <= m < Abs(b)
    ensures a < 0 ==> -Abs(b) < m <= 0
    ensures a == TruncDiv(a, b) * b + m
    ensures a >= 0 && b > 0 ==> m == a % b
  {
    a - TruncDiv(a, b) * b
  }

  /** The three operators whose Int branch stays Int (the source's binop_impl). */
  datatype Arith = Plus | Minus | Times

  function ApplyInt(op: Arith, a: int, b: int): int {
    match op
    case Plus => a + b
    case Minus => a - b
    case Times => a * b
  }

  function ApplyReal(op: Arith, a: real, b: real): real {
    match op
    case Plus => a + b
    case Minus => a - b
    case Times => a * b
  }

  /** `+`, `-` and `*` on two scalars. Int with Int stays Int (a result
      outside the 64-bit range is signed overflow, undefined in C); any Float
      operand makes the result Float; any other operand type is fatal. */
  function BinopImpl(op: Arith, lhs: Value, rhs: Value): (r: Outcome<Value>)
    ensures lhs.Int? && rhs.Int? && InInt64(ApplyInt(op, lhs.i, rhs.i)) ==>
      r == Ok(Int(ApplyInt(op, lhs.i, rhs.i)))
    ensures lhs.Int? && rhs.Int? && !InInt64(ApplyInt(op, lhs.i, rhs.i)) ==> r.Err? && r.error.Undefined?
    ensures lhs.IsNumber() && rhs.IsNumber() && (lhs.Float? || rhs.Float?) ==>
      r == Ok(Float(ApplyReal(op, lhs.AsReal(), rhs.AsReal())))
    ensures !(lhs.IsNumber() && rhs.IsNumber()) ==> r == Err(TypeMismatch(TypeOf(lhs), TypeOf(rhs)))
    ensures r.Ok? ==> r.value.IsNumber()
  {
    if lhs.Int? && rhs.Int? then
      var x := ApplyInt(op, lhs.i, rhs.i);
      if InInt64(x) then Ok(Int(x)) else Err(Undefined("signed overflow"))
    else if lhs.IsNumber() && rhs.IsNumber() then
      Ok(Float(ApplyReal(op, lhs.AsReal(), rhs.AsReal())))
    else
      Err(TypeMismatch(TypeOf(lhs), TypeOf(rhs)))
  }

  function OpPlus(lhs: Value, rhs: Value): Outcome<Value> {
    BinopImpl(Plus, lhs, rhs)
  }

  function OpMinus(lhs: Value, rhs: Value): Outcome<Value> {
    BinopImpl(Minus, lhs, rhs)
  }

  function OpTimes(lhs: Value, rhs: Value): Outcome<Value> {
    BinopImpl(Times, lhs, rhs)
  }

  /** `/`: truncating on Int/Int; division by zero and INT64_MIN / -1 are
      undefined in C. A Float operand gives the real quotient, except that a
      zero divisor yields an IEEE infinity or NaN, which is not modelled. */
  function OpDivide(lhs: Value, rhs: Value): (r: Outcome<Value>)
    ensures lhs.Int? && rhs.Int? && rhs.i != 0 && InInt64(TruncDiv(lhs.i, rhs.i)) ==>
      r == Ok(Int(TruncDiv(lhs.i, rhs.i)))
    ensures lhs.Int? && rhs.Int? && rhs.i == 0 ==> r.Err? && r.error.Undefined?
    ensures !(lhs.IsNumber() && rhs.IsNumber()) ==> r == Err(TypeMismatch(TypeOf(lhs), TypeOf(rhs)))
  {
    if lhs.Int? && rhs.Int? then
      if rhs.i == 0 then Err(Undefined("integer division by zero"))
      else
        var q := TruncDiv(lhs.i, rhs.i);
        if InInt64(q) then Ok(Int(q)) else Err(Undefined("signed overflow"))
    else if lhs.IsNumber() && rhs.IsNumber() then
      if rhs.AsReal() == 0.0 then Err(NotModelled("IEEE division by zero"))
      else Ok(Float(lhs.AsReal() / rhs.AsReal()))
    else
      Err(TypeMismatch(TypeOf(lhs), TypeOf(rhs)))
  }

  /** `%`: C's truncating remainder on Int/Int (zero divisor and
      INT64_MIN % -1 undefined); the Float branches go through `fmod`,
      which is not modelled. */
  function OpMod(lhs: Value, rhs: Value): (r: Outcome<Value>)
    ensures lhs.Int? && rhs.Int? && rhs.i != 0 && InInt64(lhs.i) && !(lhs.i == INT64_MIN && rhs.i == -1) ==>
      r.Ok? && r.value.Int? && lhs.i == TruncDiv(lhs.i, rhs.i) * rhs.i + r.value.i
      && (lhs.i >= 0 ==> 0 <= r.value.i < Abs(rhs.i))
      && (lhs.i < 0 ==> -Abs(rhs.i) < r.value.i <= 0)
    ensures lhs.Int? && rhs.Int? && rhs.i == 0 ==> r.Err? && r.error.Undefined?
    ensures !(lhs.IsNumber() && rhs.IsNumber()) ==> r == Err(TypeMismatch(TypeOf(lhs), TypeOf(rhs)))
  {
    if lhs.Int? && rhs.Int? then
      if rhs.i == 0 then Err(Undefined("integer division by zero"))
      else if lhs.i == INT64_MIN && rhs.i == -1 then Err(Undefined("signed overflow"))
      else Ok(Int(TruncMod(lhs.i, rhs.i)))
    else if lhs.IsNumber() && rhs.IsNumber() then
      Err(NotModelled("fmod"))
    else
      Err(TypeMismatch(TypeOf(lhs), TypeOf(rhs)))
  }

  /** `^` always goes through the C library's `pow`, which is not modelled. */
  function OpPower(lhs: Value, rhs: Value): (r: Outcome<Value>)
    ensures r.Err?
    ensures !(lhs.IsNumber() && rhs.IsNumber()) ==> r == Err(TypeMismatch(TypeOf(lhs), TypeOf(rhs)))
  {
    if lhs.IsNumber() && rhs.IsNumber() then Err(NotModelled("pow"))
    else Err(TypeMismatch(TypeOf(lhs), TypeOf(rhs)))
  }

  /** The six comparison operators (the source's comp_impl). */
  datatype Comparison = Lt | Gt | Leq | Geq | Eeq | Neq

  function Holds(op: Comparison, a: real, b: real): bool {
    match op
    case Lt => a < b
    case Gt => a > b
    case Leq => a <= b
    case Geq => a >= b
    case Eeq => a == b
    case Neq => a != b
  }

  function HoldsInt(op: Comparison, a: int, b: int): bool {
    match op
    case Lt => a < b
    case Gt => a > b
    case Leq => a <= b
    case Geq => a >= b
    case Eeq => a == b
    case Neq => a != b
  }

  /** A comparison of two numbers yields Int 1 or Int 0; any non-number
      operand is fatal. Int with Int is compared exactly; a mixed pair is
      compared as reals. */
  function CompImpl(op: Comparison, lhs: Value, rhs: Value): (r: Outcome<Value>)
    ensures r.Ok? <==> lhs.IsNumber() && rhs.IsNumber()
    ensures r.Ok? ==> r.value == Int(1) || r.value == Int(0)
    ensures r.Ok? ==> (r.value == Int(1) <==> Holds(op, lhs.AsReal(), rhs.AsReal()))
    ensures r.Err? ==> r.error == TypeMismatch(TypeOf(lhs), TypeOf(rhs))
  {
    if lhs.Int? && rhs.Int? then
      Ok(FromBool(HoldsInt(op, lhs.i, rhs.i)))
    else if lhs.IsNumber() && rhs.IsNumber() then
      Ok(FromBool(Holds(op, lhs.AsReal(), rhs.AsReal())))
    else
      Err(TypeMismatch(TypeOf(lhs), TypeOf(rhs)))
  }

  function OpLt(lhs: Value, rhs: Value): Outcome<Value> { CompImpl(Lt, lhs, rhs) }
  function OpGt(lhs: Value, rhs: Value): Outcome<Value> { CompImpl(Gt, lhs, rhs) }
  function OpLeq(lhs: Value, rhs: Value): Outcome<Value> { CompImpl(Leq, lhs, rhs) }
  function OpGeq(lhs: Value, rhs: Value): Outcome<Value> { CompImpl(Geq, lhs, rhs) }
  function OpEeq(lhs: Value, rhs: Value): Outcome<Value> { CompImpl(Eeq, lhs, rhs) }
  function OpNeq(lhs: Value, rhs: Value): Outcome<Value> { CompImpl(Neq, lhs, rhs) }

  /** The scalar `|` and `&` applied elementwise by the broadcasting
      branches of `or` and `and`: never an error, always Int 0 or 1. */
  function OpOr(lhs: Value, rhs: Value): (r: Outcome<Value>)
    ensures r == Ok(Int(1)) <==> IsTruthy(lhs) || IsTruthy(rhs)
    ensures r == Ok(Int(0)) <==> !IsTruthy(lhs) && !IsTruthy(rhs)
  {
    Ok(FromBool(IsTruthy(lhs) || IsTruthy(rhs)))
  }

  function OpAnd(lhs: Value, rhs: Value): (r: Outcome<Value>)
    ensures r == Ok(Int(1)) <==> IsTruthy(lhs) && IsTruthy(rhs)
    ensures r == Ok(Int(0)) <==> !IsTruthy(lhs) || !IsTruthy(rhs)
  {
    Ok(FromBool(IsTruthy(lhs) && IsTruthy(rhs)))
  }

  /** Unary `-`: negates a number. Negating INT64_MIN overflows, and for a
      non-number the source returns an uninitialised value: both undefined. */
  function OpUnaryMinus(v: Value): (r: Outcome<Value>)
    ensures v.Int? && InInt64(-v.i) ==> r == Ok(Int(-v.i))
    ensures v.Float? ==> r == Ok(Float(-v.f))
    ensures !v.IsNumber() ==> r.Err? && r.error.Undefined?
  {
    match v
    case Int(i) => if InInt64(-i) then Ok(Int(-i)) else Err(Undefined("signed overflow"))
    case Float(f) => Ok(Float(-f))
    case _ => Err(Undefined("uninitialised result of unary minus"))
  }

  /** Unary `!`: the negation of truthiness, as Int 0 or 1, for any value. */
  function OpUnaryNot(v: Value): (r: Outcome<Value>)
    ensures r == Ok(Int(0)) <==> IsTruthy(v)
    ensures r == Ok(Int(1)) <==> !IsTruthy(v)
  {
    Ok(FromBool(!IsTruthy(v)))
  }
}
