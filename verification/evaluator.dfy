/** The tree-walking evaluator for the non-call fragment of the language.
    Assignment is its only side effect, so evaluating a node takes the
    context and returns the context after it together with the value. */
module Evaluator {
  import opened Wrappers
  import opened Values
  import opened Operators
  import opened Broadcast
  import opened Scope
  import opened Ranges
  import opened Ast
  import opened Loops
  import T = Tokens

  /** A scalar result paired with the context it was computed in. */
  function Lift(o: Outcome<Value>, ctx: Context): (r: Outcome<Evaluated>)
    ensures r.Ok? <==> o.Ok?
    ensures r.Ok? ==> r.value == Evaluated(o.value, ctx)
    ensures r.Err? ==> r.error == o.error
  {
    match o
    case Ok(v) => Ok(Evaluated(v, ctx))
    case Err(e) => Err(e)
  }

  /** A list with at least one element: the case in which `or` and `and`
      broadcast instead of short-circuiting. */
  predicate NonEmptyList(v: Value) { v.List? && |v.elems| > 0 }

  /** The scalar operator behind each broadcasting binary operator; None
      for `|`, `&` and every token that is no binary operator. */
  function ScalarOp(op: T.TokenKind): (r: Option<(Value, Value) -> Outcome<Value>>)
    ensures r.Some? <==> IsBinaryOp(op) && !op.Pipe? && !op.Amp?
  {
    match op
    case Plus => Some(OpPlus)
    case Minus => Some(OpMinus)
    case Star => Some(OpTimes)
    case Slash => Some(OpDivide)
    case Percent => Some(OpMod)
    case Power => Some(OpPower)
    case Lt => Some(OpLt)
    case Gt => Some(OpGt)
    case Leq => Some(OpLeq)
    case Geq => Some(OpGeq)
    case Eeq => Some(OpEeq)
    case Neq => Some(OpNeq)
    case _ => None
  }

  /** op_length: the element count of a list, the number of values a range
      drains to, or the length of a string; no other value has one. */
  function OpLength(v: Value, fuel: nat): (r: Outcome<Value>)
    ensures r.Ok? ==> r.value.Int? && r.value.i >= 0
    ensures v.List? ==> r == Ok(Int(|v.elems|))
    ensures v.Str? ==> r == Ok(Int(|v.s|))
    ensures v.Range? ==> (r.Ok? <==> RangeToList(v.range, fuel).Ok?)
    ensures v.Range? && r.Ok? ==> r.value.i == |RangeToList(v.range, fuel).value|
    ensures !(v.List? || v.Str? || v.Range?) ==> r == Err(NoLength(TypeOf(v)))
  {
    match v
    case List(es) => Ok(Int(|es|))
    case Range(st) =>
      (match RangeToList(st, fuel)
       case Ok(vs) => Ok(Int(|vs|))
       case Err(e) => Err(e))
    case Str(s) => Ok(Int(|s|))
    case _ => Err(NoLength(TypeOf(v)))
  }

  /** A constructed range as a value; the float fallback of a counted range
      is not modelled. */
  function FromBuilt(b: Outcome<Built>): (r: Outcome<Value>)
    ensures r.Ok? ==> r.value.Range?
  {
    match b
    case Ok(IntRange(st)) => Ok(Range(st))
    case Ok(FloatRange(_, _, _)) => Err(NotModelled("float range"))
    case Err(e) => Err(e)
  }

  function FromState(s: Outcome<RangeState>): (r: Outcome<Value>)
    ensures r.Ok? ==> r.value.Range?
  {
    match s
    case Ok(st) => Ok(Range(st))
    case Err(e) => Err(e)
  }

  /** The Int operands of eval_range, each held in a `long long`. */
  predicate Int64Value(v: Value) { v.Int? && InInt64(v.i) }

  /** The range eval_range builds from its evaluated operands. An Inf stop
      gives an unbounded range (or, with a count, the counted range of
      `count` values from start); otherwise start and stop must be numbers,
      and a count makes a counted range, a step or the default step 1 a
      stepped one. Every float-valued path is left unmodelled. */
  function RangeValue(vstart: Value, vstop: Value, vcount: Option<Value>, vstep: Option<Value>): (r: Outcome<Value>)
    ensures r.Ok? ==> r.value.Range?
    ensures !vstop.Inf? && !(vstart.IsNumber() && vstop.IsNumber()) ==>
      r == Err(TypeMismatch(TypeOf(vstart), TypeOf(vstop)))
    ensures (vstop.Inf? || (vstart.IsNumber() && vstop.IsNumber())) && vcount.Some? && !vcount.value.Int? ==>
      r == Err(CountNotInt(TypeOf(vcount.value)))
    ensures r.Ok? && vstop.Inf? && vcount.None? ==> r.value.range.stop == Inf && r.value.range.length.None?
    ensures vstop.Inf? && vcount.None? && vstep.None? && Int64Value(vstart) ==>
      r.Ok? && r.value.range.start == vstart && r.value.range.step == Int(1)
    ensures !vstop.Inf? && vcount.None? && vstep.None? && Int64Value(vstart) && Int64Value(vstop) ==>
      r.Ok? && r.value.range.start == vstart && r.value.range.stop == vstop
      && r.value.range.step == Int(if vstart.i > vstop.i then -1 else 1)
  {
    if vstop.Inf? then
      if vcount.Some? then
        if !vcount.value.Int? then Err(CountNotInt(TypeOf(vcount.value)))
        else if !vstart.Int? then Err(NotModelled("float range"))
        else if !Int64Value(vstart) || !Int64Value(vcount.value) then Err(Undefined("Int outside long long"))
        else
          var sum := vstart.i + vcount.value.i;
          if !InInt64(sum) || !InInt64(sum - 1) then Err(Undefined("signed overflow"))
          else FromBuilt(MakeIntRangeCount(vstart.i, sum - 1, vcount.value.i % SIZE_MOD))
      else if vstep.Some? then
        if !(vstart.Int? && vstep.value.Int?) then Err(NotModelled("float range"))
        else if !Int64Value(vstart) || !Int64Value(vstep.value) then Err(Undefined("Int outside long long"))
        else FromState(MakeIntRangeInf(vstart.i, vstep.value.i))
      else if !vstart.Int? then Err(NotModelled("float range"))
      else if !Int64Value(vstart) then Err(Undefined("Int outside long long"))
      else FromState(MakeIntRangeInf(vstart.i, 1))
    else if !(vstart.IsNumber() && vstop.IsNumber()) then Err(TypeMismatch(TypeOf(vstart), TypeOf(vstop)))
    else if vcount.Some? then
      if !vcount.value.Int? then Err(CountNotInt(TypeOf(vcount.value)))
      else if !(vstart.Int? && vstop.Int?) then Err(NotModelled("float range"))
      else if !Int64Value(vstart) || !Int64Value(vstop) then Err(Undefined("Int outside long long"))
      else FromBuilt(MakeIntRangeCount(vstart.i, vstop.i, vcount.value.i % SIZE_MOD))
    else if vstep.Some? then
      if !vstep.value.IsNumber() then Err(StepNotNumber(TypeOf(vstep.value)))
      else if !(vstart.Int? && vstop.Int? && vstep.value.Int?) then Err(NotModelled("float range"))
      else if !Int64Value(vstart) || !Int64Value(vstop) || !Int64Value(vstep.value) then Err(Undefined("Int outside long long"))
      else FromState(MakeIntRangeStep(vstart.i, vstop.i, vstep.value.i))
    else if !(vstart.Int? && vstop.Int?) then Err(NotModelled("float range"))
    else if !Int64Value(vstart) || !Int64Value(vstop) then Err(Undefined("Int outside long long"))
    else FromState(MakeIntRangeStep(vstart.i, vstop.i, 1))
  }

  /** eval: dispatch on the node kind. Function calls, definitions and
      commands are not modelled; an IDX node has no case in the source's
      dispatch and is an unknown node there too. `fuel` bounds the number
      of values a range may yield to `#` or to a `for` loop. */
  function Eval(n: Node, ctx: Context, fuel: nat): (r: Outcome<Evaluated>)
    ensures r.Ok? ==> Extends(ctx, r.value.ctx)
    decreases n, 2
  {
    match n
    case Lit(v) => Ok(Evaluated(v, ctx))
    case BinOp(op, lhs, rhs) => EvalBinop(op, lhs, rhs, ctx, fuel)
    case UnOp(op, x) => EvalUnop(op, x, ctx, fuel)
    case Ident(name) => Ok(Evaluated(GetValue(ctx, name), ctx))
    case Assign(target, rvalue) => EvalAssignment(target, rvalue, ctx, fuel)
    case Program(ss) => Sequence(Thunks(ss, fuel), 0, Evaluated(Nil, ctx))
    case Items(xs) => Collect(Thunks(xs, fuel), 0, [], ctx)
    case Call(_, _) => Err(NotModelled("function call"))
    case FunDef(_, _, _) => Err(NotModelled("function definition"))
    case Block(ss) => Sequence(Thunks(ss, fuel), 0, Evaluated(Nil, ctx))
    case ForLoop(name, e, body) => EvalFor(name, e, body, ctx, fuel)
    case RangeNode(a, b, c, s) => EvalRange(a, b, c, s, ctx, fuel)
    case CmdStmt(_, _) => Err(NotModelled("command"))
    case Case(e, p) => EvalCase(e, p, ctx, fuel)
    case Cases(ss) => FirstNonNil(Thunks(ss, fuel), 0, Evaluated(Nil, ctx))
    case Index(_, _) => Err(UnknownNode)
  }

  /** The evaluator of one node, as the statement loops take it. */
  function Runner(n: Node, fuel: nat): (f: Context -> Outcome<Evaluated>)
    ensures Grows(f)
    ensures forall c :: f(c) == Eval(n, c, fuel)
    decreases n, 3
  {
    (c: Context) => Eval(n, c, fuel)
  }

  /** The evaluators of a sequence of nodes, in order. */
  function Thunks(ns: seq<Node>, fuel: nat): (fs: seq<Context -> Outcome<Evaluated>>)
    ensures |fs| == |ns| && AllGrow(fs)
    ensures forall k, c :: 0 <= k < |ns| ==> fs[k](c) == Eval(ns[k], c, fuel)
    decreases ns, 0
  {
    seq(|ns|, k requires 0 <= k < |ns| => Runner(ns[k], fuel))
  }

  /** eval_binop: `|` and `&` go to their short-circuiting evaluators; every
      other operator evaluates both operands, left first, and broadcasts its
      scalar operator over them. */
  function EvalBinop(op: T.TokenKind, lhs: Node, rhs: Node, ctx: Context, fuel: nat): (r: Outcome<Evaluated>)
    ensures r.Ok? ==> Extends(ctx, r.value.ctx)
    ensures !IsBinaryOp(op) ==> r == Err(UnknownOperator)
    decreases BinOp(op, lhs, rhs), 1
  {
    if op.Pipe? then EvalOr(lhs, rhs, ctx, fuel)
    else if op.Amp? then EvalAnd(lhs, rhs, ctx, fuel)
    else match ScalarOp(op)
      case None => Err(UnknownOperator)
      case Some(f) =>
        match Eval(lhs, ctx, fuel)
        case Err(e) => Err(e)
        case Ok(a) =>
          match Eval(rhs, a.ctx, fuel)
          case Err(e) => Err(e)
          case Ok(b) =>
            ExtendsTrans(ctx, a.ctx, b.ctx);
            Lift(BroadcastFunc2(f, a.value, b.value), b.ctx)
  }

  /** eval_or: a nonempty list on the left broadcasts `|` against the right;
      otherwise a truthy left is 1 and the right is never evaluated; then a
      nonempty list on the right broadcasts, and anything else is the
      right's truthiness. */
  function EvalOr(lhs: Node, rhs: Node, ctx: Context, fuel: nat): (r: Outcome<Evaluated>)
    ensures r.Ok? ==> Extends(ctx, r.value.ctx)
    decreases BinOp(T.Pipe, lhs, rhs), 0
  {
    match Eval(lhs, ctx, fuel)
    case Err(e) => Err(e)
    case Ok(a) =>
      if !NonEmptyList(a.value) && IsTruthy(a.value) then Ok(Evaluated(Int(1), a.ctx))
      else
        match Eval(rhs, a.ctx, fuel)
        case Err(e) => Err(e)
        case Ok(b) =>
          ExtendsTrans(ctx, a.ctx, b.ctx);
          if NonEmptyList(a.value) || NonEmptyList(b.value) then Lift(BroadcastFunc2(OpOr, a.value, b.value), b.ctx)
          else Ok(Evaluated(FromBool(IsTruthy(b.value)), b.ctx))
  }

  /** eval_and: a nonempty list on the left broadcasts `&`; otherwise a
      falsy left is 0 and the right is never evaluated; then a nonempty list
      on the right broadcasts, and anything else is the right's truthiness. */
  function EvalAnd(lhs: Node, rhs: Node, ctx: Context, fuel: nat): (r: Outcome<Evaluated>)
    ensures r.Ok? ==> Extends(ctx, r.value.ctx)
    decreases BinOp(T.Amp, lhs, rhs), 0
  {
    match Eval(lhs, ctx, fuel)
    case Err(e) => Err(e)
    case Ok(a) =>
      if !NonEmptyList(a.value) && !IsTruthy(a.value) then Ok(Evaluated(Int(0), a.ctx))
      else
        match Eval(rhs, a.ctx, fuel)
        case Err(e) => Err(e)
        case Ok(b) =>
          ExtendsTrans(ctx, a.ctx, b.ctx);
          if NonEmptyList(a.value) || NonEmptyList(b.value) then Lift(BroadcastFunc2(OpAnd, a.value, b.value), b.ctx)
          else Ok(Evaluated(FromBool(IsTruthy(b.value)), b.ctx))
  }

  /** eval_unop: `-` and `!` broadcast over lists, `#` takes the length. */
  function EvalUnop(op: T.TokenKind, x: Node, ctx: Context, fuel: nat): (r: Outcome<Evaluated>)
    ensures r.Ok? ==> Extends(ctx, r.value.ctx)
    ensures !IsUnaryOp(op) ==> r == Err(UnknownOperator)
    decreases UnOp(op, x), 1
  {
    if !IsUnaryOp(op) then Err(UnknownOperator)
    else
      match Eval(x, ctx, fuel)
      case Err(e) => Err(e)
      case Ok(a) =>
        if op.Minus? then Lift(BroadcastFunc1(OpUnaryMinus, a.value), a.ctx)
        else if op.Bang? then Lift(BroadcastFunc1(OpUnaryNot, a.value), a.ctx)
        else Lift(OpLength(a.value, fuel), a.ctx)
  }

  /** eval_assignment, after the right-hand side is evaluated: a name is
      bound with set_value and the assignment's value is the value assigned.
      Writing through an index is not modelled; any other target is fatal. */
  function EvalAssignment(target: Node, rvalue: Node, ctx: Context, fuel: nat): (r: Outcome<Evaluated>)
    ensures r.Ok? ==> Extends(ctx, r.value.ctx)
    ensures r.Ok? ==> target.Ident? && GetValue(r.value.ctx, target.name) == r.value.value
    decreases Assign(target, rvalue), 1
  {
    match Eval(rvalue, ctx, fuel)
    case Err(e) => Err(e)
    case Ok(a) =>
      if target.Ident? then
        GetAfterSet(a.ctx, target.name, a.value);
        Ok(Evaluated(a.value, SetValue(a.ctx, target.name, a.value)))
      else if target.Index? then Err(NotModelled("assignment through an index"))
      else Err(BadLvalue)
  }

  /** eval_case: the guarded value when the predicate is truthy, else Nil. */
  function EvalCase(e: Node, p: Node, ctx: Context, fuel: nat): (r: Outcome<Evaluated>)
    ensures r.Ok? ==> Extends(ctx, r.value.ctx)
    decreases Case(e, p), 1
  {
    match Eval(p, ctx, fuel)
    case Err(err) => Err(err)
    case Ok(a) =>
      if IsTruthy(a.value) then
        var r := Eval(e, a.ctx, fuel);
        if r.Ok? then ExtendsTrans(ctx, a.ctx, r.value.ctx); r else r
      else Ok(Evaluated(Nil, a.ctx))
  }

  /** eval_for: over a list, the body runs once per element with the loop
      name bound to it; over a range, once per value `next` yields; over
      any other value, once with the name bound to that value. The value is
      the last body value, Nil when the body never runs. */
  function EvalFor(name: string, e: Node, body: Node, ctx: Context, fuel: nat): (r: Outcome<Evaluated>)
    ensures r.Ok? ==> Extends(ctx, r.value.ctx)
    decreases ForLoop(name, e, body), 1
  {
    match Eval(e, ctx, fuel)
    case Err(err) => Err(err)
    case Ok(a) =>
      var body' := Runner(body, fuel);
      var r :=
        (match a.value
         case List(es) => ForEach(body', name, es, 0, Evaluated(Nil, a.ctx))
         case Range(st) => ForRange(body', RangeNext, name, st, Evaluated(Nil, a.ctx), fuel)
         case _ => ForOnce(body', name, a.value, a.ctx));
      if r.Ok? then ExtendsTrans(ctx, a.ctx, r.value.ctx); r else r
  }

  /** eval_range: start and stop are evaluated, then the type check, then
      the count or else the step when the node has one. */
  function EvalRange(a: Node, b: Node, c: Option<Node>, s: Option<Node>, ctx: Context, fuel: nat): (r: Outcome<Evaluated>)
    ensures r.Ok? ==> Extends(ctx, r.value.ctx) && r.value.value.Range?
    decreases RangeNode(a, b, c, s), 1
  {
    match Eval(a, ctx, fuel)
    case Err(e) => Err(e)
    case Ok(va) =>
      match Eval(b, va.ctx, fuel)
      case Err(e) => Err(e)
      case Ok(vb) =>
        ExtendsTrans(ctx, va.ctx, vb.ctx);
        if !vb.value.Inf? && !(va.value.IsNumber() && vb.value.IsNumber()) then
          Err(TypeMismatch(TypeOf(va.value), TypeOf(vb.value)))
        else if c.Some? then
          match Eval(c.value, vb.ctx, fuel)
          case Err(e) => Err(e)
          case Ok(vc) =>
            ExtendsTrans(ctx, vb.ctx, vc.ctx);
            Lift(RangeValue(va.value, vb.value, Some(vc.value), None), vc.ctx)
        else if s.Some? then
          match Eval(s.value, vb.ctx, fuel)
          case Err(e) => Err(e)
          case Ok(vs) =>
            ExtendsTrans(ctx, vb.ctx, vs.ctx);
            Lift(RangeValue(va.value, vb.value, None, Some(vs.value)), vs.ctx)
        else Lift(RangeValue(va.value, vb.value, None, None), vb.ctx)
  }
}
