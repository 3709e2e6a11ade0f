/** The runtime value model of the evaluator: a tagged union of scalars,
    lists, lazy ranges and callables, plus the errors evaluation can raise. */
module Values {
  import opened Wrappers

  /** Bounds of the C `long long` that holds an Int value. */
  const INT64_MIN: int := -0x8000_0000_0000_0000
  const INT64_MAX: int := 0x7fff_ffff_ffff_ffff

  /** Modulus of the C `size_t` used for counts and lengths. */
  const SIZE_MOD: int := 0x1_0000_0000_0000_0000

  predicate InInt64(x: int) {
    INT64_MIN <= x <= INT64_MAX
  }

  /** A runtime value. `Float` holds the exact real the double stands for
      (rounding is not modelled). A `List` holds its elements by value and a
      `Range` holds its iteration state by value: the sharing of backing
      storage between copies is not modelled. A `Callable` is an opaque handle. */
  datatype Value =
    | Nil
    | Int(i: int)
    | Float(f: real)
    | Inf
    | Str(s: string)
    | List(elems: seq<Value>)
    | Range(range: RangeState)
    | Callable(handle: nat)
  {
    predicate IsNumber() {
      Int? || Float?
    }

    /** The number as a real, for the Int/Float mixed branches. */
    function AsReal(): real
      requires IsNumber()
    {
      if Int? then i as real else f
    }
  }

  /** The lazy range state machine. `length` is `None` for ranges bounded by
      a step (the source's UNDEF_SIZE) and `Some(n)` for counted ranges;
      `count` is the number of `next` calls made on a counted range. */
  datatype RangeState = RangeState(
    start: Value,
    stop: Value,
    step: Value,
    value: Value,
    count: nat,
    length: Option<nat>,
    started: bool,
    done: bool)

  /** The type tags the source reports in its error messages. */
  datatype ValueType = VNil | VInt | VFloat | VInf | VString | VList | VRange | VCallable

  function TypeOf(v: Value): ValueType {
    match v
    case Nil => VNil
    case Int(_) => VInt
    case Float(_) => VFloat
    case Inf => VInf
    case Str(_) => VString
    case List(_) => VList
    case Range(_) => VRange
    case Callable(_) => VCallable
  }

  /** The fatal errors of the evaluator. `Undefined` stands for C undefined
      behaviour (signed overflow, division by zero, an uninitialised result);
      `NotModelled` for a branch whose meaning is floating-point or foreign;
      `OutOfFuel` for a loop the model stops that the source might never leave. */
  datatype EvalError =
    | TypeMismatch(lhs: ValueType, rhs: ValueType)
    | NotNumeric(t: ValueType)
    | NoLength(t: ValueType)
    | LengthMismatch(left: nat, right: nat)
    | ExhaustedRange
    | InfiniteRange
    | CountNotInt(t: ValueType)
    | StepNotNumber(t: ValueType)
    | UndefinedName(name: string)
    | IndexNotInt(name: string)
    | BadLvalue
    | UnknownNode
    | UnknownOperator
    | UnknownValueType(t: ValueType)
    | Undefined(what: string)
    | NotModelled(what: string)
    | OutOfFuel

  type Outcome<T> = Result<T, EvalError>
}
