/** What the evaluator does with short-circuiting operators, CASE, statement
    sequences, item lists, CASES blocks, `for` loops and the length of a
    range literal. The loop facts themselves are in LoopFacts; the lemmas
    here carry them over to the nodes. */
module EvaluatorFacts {
  import opened Wrappers
  import opened Values
  import opened Operators
  import opened Broadcast
  import opened Scope
  import opened Ranges
  import opened RangeFacts
  import opened Ast
  import opened Loops
  import opened LoopFacts
  import opened Evaluator
  import T = Tokens

  // ----- `|` and `&` -----

  /** A truthy scalar on the left of `|` gives 1 and the right operand is
      never evaluated: the result is the same whatever `rhs` is. */
  lemma OrShortCircuits(lhs: Node, rhs: Node, ctx: Context, fuel: nat, a: Evaluated)
    requires Eval(lhs, ctx, fuel) == Ok(a) && IsTruthy(a.value) && !a.value.List?
    ensures Eval(BinOp(T.Pipe, lhs, rhs), ctx, fuel) == Ok(Evaluated(Int(1), a.ctx))
  {
    assert Eval(BinOp(T.Pipe, lhs, rhs), ctx, fuel) == EvalBinop(T.Pipe, lhs, rhs, ctx, fuel) == EvalOr(lhs, rhs, ctx, fuel);
  }

  /** A falsy left operand of `|` hands the decision to the right one: 1 when
      it is truthy, 0 otherwise, unless the right one is a nonempty list. */
  lemma OrFalsyLeft(lhs: Node, rhs: Node, ctx: Context, fuel: nat, a: Evaluated, b: Evaluated)
    requires Eval(lhs, ctx, fuel) == Ok(a) && !IsTruthy(a.value)
    requires Eval(rhs, a.ctx, fuel) == Ok(b) && !NonEmptyList(b.value)
    ensures Eval(BinOp(T.Pipe, lhs, rhs), ctx, fuel) == Ok(Evaluated(FromBool(IsTruthy(b.value)), b.ctx))
  {
    assert Eval(BinOp(T.Pipe, lhs, rhs), ctx, fuel) == EvalBinop(T.Pipe, lhs, rhs, ctx, fuel) == EvalOr(lhs, rhs, ctx, fuel);
  }

  /** A nonempty list on either side of `|` broadcasts the scalar `|`. */
  lemma OrBroadcasts(lhs: Node, rhs: Node, ctx: Context, fuel: nat, a: Evaluated, b: Evaluated)
    requires Eval(lhs, ctx, fuel) == Ok(a) && Eval(rhs, a.ctx, fuel) == Ok(b)
    requires NonEmptyList(a.value) || (!IsTruthy(a.value) && NonEmptyList(b.value))
    ensures Eval(BinOp(T.Pipe, lhs, rhs), ctx, fuel) == Lift(BroadcastFunc2(OpOr, a.value, b.value), b.ctx)
  {
    assert Eval(BinOp(T.Pipe, lhs, rhs), ctx, fuel) == EvalBinop(T.Pipe, lhs, rhs, ctx, fuel) == EvalOr(lhs, rhs, ctx, fuel);
  }

  /** A falsy left operand of `&` gives 0 and the right operand is never
      evaluated. */
  lemma AndShortCircuits(lhs: Node, rhs: Node, ctx: Context, fuel: nat, a: Evaluated)
    requires Eval(lhs, ctx, fuel) == Ok(a) && !IsTruthy(a.value)
    ensures Eval(BinOp(T.Amp, lhs, rhs), ctx, fuel) == Ok(Evaluated(Int(0), a.ctx))
  {
    assert Eval(BinOp(T.Amp, lhs, rhs), ctx, fuel) == EvalBinop(T.Amp, lhs, rhs, ctx, fuel) == EvalAnd(lhs, rhs, ctx, fuel);
  }

  /** A truthy scalar on the left of `&` hands the decision to the right. */
  lemma AndTruthyLeft(lhs: Node, rhs: Node, ctx: Context, fuel: nat, a: Evaluated, b: Evaluated)
    requires Eval(lhs, ctx, fuel) == Ok(a) && IsTruthy(a.value) && !a.value.List?
    requires Eval(rhs, a.ctx, fuel) == Ok(b) && !NonEmptyList(b.value)
    ensures Eval(BinOp(T.Amp, lhs, rhs), ctx, fuel) == Ok(Evaluated(FromBool(IsTruthy(b.value)), b.ctx))
  {
    assert Eval(BinOp(T.Amp, lhs, rhs), ctx, fuel) == EvalBinop(T.Amp, lhs, rhs, ctx, fuel) == EvalAnd(lhs, rhs, ctx, fuel);
  }

  /** A nonempty list on either side of `&` broadcasts the scalar `&`. */
  lemma AndBroadcasts(lhs: Node, rhs: Node, ctx: Context, fuel: nat, a: Evaluated, b: Evaluated)
    requires Eval(lhs, ctx, fuel) == Ok(a) && Eval(rhs, a.ctx, fuel) == Ok(b)
    requires NonEmptyList(a.value) || (IsTruthy(a.value) && NonEmptyList(b.value))
    ensures Eval(BinOp(T.Amp, lhs, rhs), ctx, fuel) == Lift(BroadcastFunc2(OpAnd, a.value, b.value), b.ctx)
  {
    assert Eval(BinOp(T.Amp, lhs, rhs), ctx, fuel) == EvalBinop(T.Amp, lhs, rhs, ctx, fuel) == EvalAnd(lhs, rhs, ctx, fuel);
  }

  // ----- scalar operators, assignment -----

  /** Every binary operator other than `|` and `&` evaluates the left
      operand, then the right one in the context the left left, and
      broadcasts its scalar operator over the two values. */
  lemma ScalarBinop(op: T.TokenKind, lhs: Node, rhs: Node, ctx: Context, fuel: nat, a: Evaluated, b: Evaluated)
    requires ScalarOp(op).Some?
    requires Eval(lhs, ctx, fuel) == Ok(a) && Eval(rhs, a.ctx, fuel) == Ok(b)
    ensures Eval(BinOp(op, lhs, rhs), ctx, fuel) == Lift(BroadcastFunc2(ScalarOp(op).value, a.value, b.value), b.ctx)
  {
    assert Eval(BinOp(op, lhs, rhs), ctx, fuel) == EvalBinop(op, lhs, rhs, ctx, fuel);
  }

  /** Broadcasting goes one level deep: an element that is itself a list
      reaches the scalar operator whole, and `+` on a list is a type error. */
  lemma NestedListReachesScalar(xs: seq<Value>, y: Value)
    requires y.IsNumber()
    ensures BroadcastFunc2(OpPlus, List([List(xs)]), List([y])) == Err(TypeMismatch(VList, TypeOf(y)))
  {
    assert OpPlus(List(xs), y) == Err(TypeMismatch(VList, TypeOf(y)));
  }

  /** `x = e` binds x to e's value in the context e left, and is that value. */
  lemma AssignmentBinds(x: string, e: Node, ctx: Context, fuel: nat, a: Evaluated)
    requires Eval(e, ctx, fuel) == Ok(a)
    ensures Eval(Assign(Ident(x), e), ctx, fuel) == Ok(Evaluated(a.value, SetValue(a.ctx, x, a.value)))
  {
    assert Eval(Assign(Ident(x), e), ctx, fuel) == EvalAssignment(Ident(x), e, ctx, fuel);
  }

  /** The right-hand side is evaluated before the target is looked at; a
      target that is neither a name nor an index is then fatal. */
  lemma AssignmentToNonName(target: Node, e: Node, ctx: Context, fuel: nat, a: Evaluated)
    requires Eval(e, ctx, fuel) == Ok(a) && !target.Ident? && !target.Index?
    ensures Eval(Assign(target, e), ctx, fuel) == Err(BadLvalue)
  {
    assert Eval(Assign(target, e), ctx, fuel) == EvalAssignment(target, e, ctx, fuel);
  }

  // ----- CASE -----

  /** `e if p` is Nil when p is falsy, without evaluating e. */
  lemma CaseFalsy(e: Node, p: Node, ctx: Context, fuel: nat, a: Evaluated)
    requires Eval(p, ctx, fuel) == Ok(a) && !IsTruthy(a.value)
    ensures Eval(Case(e, p), ctx, fuel) == Ok(Evaluated(Nil, a.ctx))
  {
    assert Eval(Case(e, p), ctx, fuel) == EvalCase(e, p, ctx, fuel);
  }

  /** `e if p` is e when p is truthy. */
  lemma CaseTruthy(e: Node, p: Node, ctx: Context, fuel: nat, a: Evaluated)
    requires Eval(p, ctx, fuel) == Ok(a) && IsTruthy(a.value)
    ensures Eval(Case(e, p), ctx, fuel) == Eval(e, a.ctx, fuel)
  {
    assert Eval(Case(e, p), ctx, fuel) == EvalCase(e, p, ctx, fuel);
  }

  /** An unbound name reads as Nil, so comparing it with an Int is the
      comparison's type error. */
  lemma UnboundComparison(y: string, c: int, ctx: Context, fuel: nat)
    requires GetValue(ctx, y) == Nil
    ensures Eval(BinOp(T.Gt, Ident(y), Lit(Int(c))), ctx, fuel) == Err(TypeMismatch(VNil, VInt))
  {
    assert Eval(Ident(y), ctx, fuel) == Ok(Evaluated(Nil, ctx));
    assert Eval(Lit(Int(c)), ctx, fuel) == Ok(Evaluated(Int(c), ctx));
    ScalarBinop(T.Gt, Ident(y), Lit(Int(c)), ctx, fuel, Evaluated(Nil, ctx), Evaluated(Int(c), ctx));
    assert OpGt(Nil, Int(c)) == Err(TypeMismatch(VNil, VInt));
  }

  /** A guard whose predicate fails fails the same way. */
  lemma CaseGuardFails(e: Node, p: Node, ctx: Context, fuel: nat, err: EvalError)
    requires Eval(p, ctx, fuel) == Err(err)
    ensures Eval(Case(e, p), ctx, fuel) == Err(err)
  {
    assert Eval(Case(e, p), ctx, fuel) == EvalCase(e, p, ctx, fuel);
  }

  /** `e if y > c` with `y` unbound is a type error, not a Nil statement:
      so `y = 5 if y > 3` fails instead of leaving `y` unset. */
  lemma UnboundGuardFails(e: Node, y: string, c: int, ctx: Context, fuel: nat)
    requires GetValue(ctx, y) == Nil
    ensures Eval(Case(e, BinOp(T.Gt, Ident(y), Lit(Int(c)))), ctx, fuel) == Err(TypeMismatch(VNil, VInt))
  {
    UnboundComparison(y, c, ctx, fuel);
    CaseGuardFails(e, BinOp(T.Gt, Ident(y), Lit(Int(c))), ctx, fuel, TypeMismatch(VNil, VInt));
  }

  /** Reading `x[i]` has no case in eval's dispatch: it is an unknown node. */
  lemma IndexReadUnknown(x: string, i: Node, ctx: Context, fuel: nat)
    ensures Eval(Index(x, i), ctx, fuel) == Err(UnknownNode)
  {
  }

  // ----- statement sequences, item lists, CASES -----

  /** `vals` and `ctxs` record evaluating the first |vals| nodes of `ns`
      one after another: node j, started in ctxs[j], gives vals[j] and
      leaves ctxs[j + 1]. */
  predicate EvalTrace(ns: seq<Node>, ctxs: seq<Context>, vals: seq<Value>, fuel: nat) {
    |vals| <= |ns| && |ctxs| == |vals| + 1
    && forall j {:trigger vals[j]} :: 0 <= j < |vals| ==>
         Eval(ns[j], ctxs[j], fuel) == Ok(Evaluated(vals[j], ctxs[j + 1]))
  }

  lemma TraceOfThunks(ns: seq<Node>, ctxs: seq<Context>, vals: seq<Value>, fuel: nat)
    requires EvalTrace(ns, ctxs, vals, fuel)
    ensures Trace(Thunks(ns, fuel), ctxs, vals)
  {
    var fs := Thunks(ns, fuel);
    forall j {:trigger vals[j]} | 0 <= j < |vals|
      ensures fs[j](ctxs[j]) == Ok(Evaluated(vals[j], ctxs[j + 1]))
    {
      assert fs[j](ctxs[j]) == Eval(ns[j], ctxs[j], fuel);
    }
  }

  /** A program (or a block) whose statements all succeed is the value of
      its last statement, Nil when it has none, with every statement's
      effect on the context. */
  lemma ProgramIsLastStatement(ns: seq<Node>, ctxs: seq<Context>, vals: seq<Value>, fuel: nat)
    requires EvalTrace(ns, ctxs, vals, fuel) && |vals| == |ns|
    ensures Eval(Program(ns), ctxs[0], fuel) == Ok(Evaluated(if |ns| == 0 then Nil else vals[|ns| - 1], ctxs[|ns|]))
  {
    TraceOfThunks(ns, ctxs, vals, fuel);
    SequenceIsLast(Thunks(ns, fuel), ctxs, vals);
  }

  /** The first failing statement's error is the program's error. */
  lemma ProgramStopsAtError(ns: seq<Node>, ctxs: seq<Context>, vals: seq<Value>, fuel: nat, e: EvalError)
    requires EvalTrace(ns, ctxs, vals, fuel) && |vals| < |ns|
    requires Eval(ns[|vals|], ctxs[|vals|], fuel) == Err(e)
    ensures Eval(Program(ns), ctxs[0], fuel) == Err(e)
  {
    TraceOfThunks(ns, ctxs, vals, fuel);
    SequenceStopsAtError(Thunks(ns, fuel), ctxs, vals, e);
  }

  /** An item list whose items all succeed is the list of their values, in
      order. */
  lemma ItemsAreValues(ns: seq<Node>, ctxs: seq<Context>, vals: seq<Value>, fuel: nat)
    requires EvalTrace(ns, ctxs, vals, fuel) && |vals| == |ns|
    ensures Eval(Items(ns), ctxs[0], fuel) == Ok(Evaluated(List(vals), ctxs[|ns|]))
  {
    TraceOfThunks(ns, ctxs, vals, fuel);
    CollectIsValues(Thunks(ns, fuel), ctxs, vals);
  }

  /** A CASES block is its first non-Nil statement value: when statements
      0..k-1 give Nil and statement k gives v, the block gives v and the
      context statement k left, whatever follows statement k. */
  lemma CasesFirstNonNil(ns: seq<Node>, ctxs: seq<Context>, vals: seq<Value>, fuel: nat)
    requires EvalTrace(ns, ctxs, vals, fuel) && 0 < |vals|
    requires forall j :: 0 <= j < |vals| - 1 ==> vals[j].Nil?
    requires !vals[|vals| - 1].Nil?
    ensures Eval(Cases(ns), ctxs[0], fuel) == Ok(Evaluated(vals[|vals| - 1], ctxs[|vals|]))
  {
    TraceOfThunks(ns, ctxs, vals, fuel);
    FirstNonNilStops(Thunks(ns, fuel), ctxs, vals);
  }

  /** A CASES block whose statements all give Nil gives Nil. */
  lemma CasesAllNil(ns: seq<Node>, ctxs: seq<Context>, vals: seq<Value>, fuel: nat)
    requires EvalTrace(ns, ctxs, vals, fuel) && |vals| == |ns|
    requires forall j :: 0 <= j < |vals| ==> vals[j].Nil?
    ensures Eval(Cases(ns), ctxs[0], fuel) == Ok(Evaluated(Nil, ctxs[|ns|]))
  {
    TraceOfThunks(ns, ctxs, vals, fuel);
    FirstNonNilAllNil(Thunks(ns, fuel), ctxs, vals);
  }

  // ----- for -----

  /** The body runs once per value: turn j starts from ctxs[j] with the
      loop name bound to es[j], gives vals[j] and leaves ctxs[j + 1]. */
  predicate BodyTurns(name: string, body: Node, es: seq<Value>, ctxs: seq<Context>, vals: seq<Value>, fuel: nat) {
    |vals| == |es| && |ctxs| == |es| + 1
    && forall j {:trigger vals[j]} :: 0 <= j < |es| ==>
         Eval(body, SetValue(ctxs[j], name, es[j]), fuel) == Ok(Evaluated(vals[j], ctxs[j + 1]))
  }

  lemma TurnsOfRunner(name: string, body: Node, es: seq<Value>, ctxs: seq<Context>, vals: seq<Value>, fuel: nat)
    requires BodyTurns(name, body, es, ctxs, vals, fuel)
    ensures Turns(Runner(body, fuel), name, es, ctxs, vals)
  {
    var f := Runner(body, fuel);
    forall j {:trigger vals[j]} | 0 <= j < |es|
      ensures f(SetValue(ctxs[j], name, es[j])) == Ok(Evaluated(vals[j], ctxs[j + 1]))
    {
      assert f(SetValue(ctxs[j], name, es[j])) == Eval(body, SetValue(ctxs[j], name, es[j]), fuel);
    }
  }

  /** `for name in e: body` over a list runs the body once per element, in
      order, with the name bound to the element, and gives the last turn's
      value (Nil for an empty list). */
  lemma ForOverList(name: string, e: Node, body: Node, ctx: Context, es: seq<Value>,
                    ctxs: seq<Context>, vals: seq<Value>, fuel: nat)
    requires BodyTurns(name, body, es, ctxs, vals, fuel)
    requires Eval(e, ctx, fuel) == Ok(Evaluated(List(es), ctxs[0]))
    ensures Eval(ForLoop(name, e, body), ctx, fuel)
         == Ok(Evaluated(if |es| == 0 then Nil else vals[|es| - 1], ctxs[|es|]))
  {
    ForLoopOnList(name, e, body, ctx, fuel, es, ctxs[0]);
    TurnsOfRunner(name, body, es, ctxs, vals, fuel);
    ForEachIsLast(Runner(body, fuel), name, es, ctxs, vals);
  }

  lemma ForLoopOnList(name: string, e: Node, body: Node, ctx: Context, fuel: nat, es: seq<Value>, c: Context)
    requires Eval(e, ctx, fuel) == Ok(Evaluated(List(es), c))
    ensures Eval(ForLoop(name, e, body), ctx, fuel) == ForEach(Runner(body, fuel), name, es, 0, Evaluated(Nil, c))
  {
    assert Eval(ForLoop(name, e, body), ctx, fuel) == EvalFor(name, e, body, ctx, fuel);
  }

  lemma ForLoopOnRange(name: string, e: Node, body: Node, ctx: Context, fuel: nat, st: RangeState, c: Context)
    requires Eval(e, ctx, fuel) == Ok(Evaluated(Range(st), c))
    ensures Eval(ForLoop(name, e, body), ctx, fuel) == ForRange(Runner(body, fuel), RangeNext, name, st, Evaluated(Nil, c), fuel)
  {
    ForLoopIsEvalFor(name, e, body, ctx, fuel);
  }

  lemma ForLoopIsEvalFor(name: string, e: Node, body: Node, ctx: Context, fuel: nat)
    ensures Eval(ForLoop(name, e, body), ctx, fuel) == EvalFor(name, e, body, ctx, fuel)
  {
  }

  /** `for name in e: body` over a range runs the body once per value the
      range yields, in order, and gives the last turn's value. */
  lemma ForOverRange(name: string, e: Node, body: Node, ctx: Context, states: seq<RangeState>, outs: seq<Value>,
                     ctxs: seq<Context>, vals: seq<Value>, fuel: nat)
    requires Run(states, outs) && fuel >= |outs|
    requires BodyTurns(name, body, outs, ctxs, vals, fuel)
    requires Eval(e, ctx, fuel) == Ok(Evaluated(Range(states[0]), ctxs[0]))
    ensures Eval(ForLoop(name, e, body), ctx, fuel)
         == Ok(Evaluated(if |outs| == 0 then Nil else vals[|outs| - 1], ctxs[|outs|]))
  {
    ForLoopOnRange(name, e, body, ctx, fuel, states[0], ctxs[0]);
    TurnsOfRunner(name, body, outs, ctxs, vals, fuel);
    RunYields(states, outs);
    ForRangeIsLast(Runner(body, fuel), RangeNext, name, states, outs, ctxs, vals, fuel);
  }

  /** `for name in e: body` over any other value runs the body once, with
      the name bound to the value itself. */
  lemma ForOverScalar(name: string, e: Node, body: Node, ctx: Context, fuel: nat, a: Evaluated)
    requires Eval(e, ctx, fuel) == Ok(a) && !a.value.List? && !a.value.Range?
    ensures Eval(ForLoop(name, e, body), ctx, fuel) == Eval(body, SetValue(a.ctx, name, a.value), fuel)
  {
    assert Eval(ForLoop(name, e, body), ctx, fuel) == EvalFor(name, e, body, ctx, fuel);
  }

  // ----- `#` of a range literal -----

  /** `#x` is the length of x's value. */
  lemma LengthOfNode(x: Node, ctx: Context, fuel: nat, a: Evaluated)
    requires Eval(x, ctx, fuel) == Ok(a)
    ensures Eval(UnOp(T.Hash, x), ctx, fuel) == Lift(OpLength(a.value, fuel), a.ctx)
  {
    assert Eval(UnOp(T.Hash, x), ctx, fuel) == EvalUnop(T.Hash, x, ctx, fuel);
  }

  /** `a..b` on Int literals is the range built from a and b. */
  lemma RangeOfLiterals(a: int, b: int, ctx: Context, fuel: nat)
    ensures Eval(RangeNode(Lit(Int(a)), Lit(Int(b)), None, None), ctx, fuel)
         == Lift(RangeValue(Int(a), Int(b), None, None), ctx)
  {
    assert Eval(Lit(Int(a)), ctx, fuel) == Ok(Evaluated(Int(a), ctx));
    assert Eval(Lit(Int(b)), ctx, fuel) == Ok(Evaluated(Int(b), ctx));
    assert Eval(RangeNode(Lit(Int(a)), Lit(Int(b)), None, None), ctx, fuel)
        == EvalRange(Lit(Int(a)), Lit(Int(b)), None, None, ctx, fuel);
  }

  /** `a..b..n` on Int literals is the range built from a, b and n. */
  lemma CountedRangeOfLiterals(a: int, b: int, n: int, ctx: Context, fuel: nat)
    ensures Eval(RangeNode(Lit(Int(a)), Lit(Int(b)), Some(Lit(Int(n))), None), ctx, fuel)
         == Lift(RangeValue(Int(a), Int(b), Some(Int(n)), None), ctx)
  {
    assert Eval(Lit(Int(a)), ctx, fuel) == Ok(Evaluated(Int(a), ctx));
    assert Eval(Lit(Int(b)), ctx, fuel) == Ok(Evaluated(Int(b), ctx));
    assert Eval(Lit(Int(n)), ctx, fuel) == Ok(Evaluated(Int(n), ctx));
    assert Eval(RangeNode(Lit(Int(a)), Lit(Int(b)), Some(Lit(Int(n))), None), ctx, fuel)
        == EvalRange(Lit(Int(a)), Lit(Int(b)), Some(Lit(Int(n))), None, ctx, fuel);
  }

  /** The length of the range `a..b` counts the values from a to b
      inclusive, whichever way it runs. */
  lemma StepRangeLength(a: int, b: int, fuel: nat)
    requires InInt64(a) && InInt64(b) && fuel > Abs(b - a)
    ensures RangeValue(Int(a), Int(b), None, None).Ok?
    ensures NoOverflow(a, b, 1) ==>
      OpLength(RangeValue(Int(a), Int(b), None, None).value, fuel) == Ok(Int(Abs(b - a) + 1))
    ensures !NoOverflow(a, b, 1) ==>
      OpLength(RangeValue(Int(a), Int(b), None, None).value, fuel).Err?
      && OpLength(RangeValue(Int(a), Int(b), None, None).value, fuel).error.Undefined?
  {
    assert TermCount(Abs(b - a), 1) == Abs(b - a) + 1;
    StepRangeToList(a, b, 1, fuel);
  }

  /** The counted range `a..b..n` on Int values is the range
      make_int_range_count builds, when it builds an Int range. */
  lemma CountRangeValue(a: int, b: int, n: nat, st: RangeState)
    requires InInt64(a) && InInt64(b) && 2 <= n <= INT64_MAX
    requires MakeIntRangeCount(a, b, n) == Ok(IntRange(st))
    ensures RangeValue(Int(a), Int(b), Some(Int(n)), None) == Ok(Range(st))
  {
    assert n % SIZE_MOD == n;
    assert RangeValue(Int(a), Int(b), Some(Int(n)), None) == FromBuilt(MakeIntRangeCount(a, b, n));
  }

  /** The length of the counted range `a..b..n` is n, when it is built. */
  lemma CountRangeLength(a: int, b: int, n: nat, st: RangeState, fuel: nat)
    requires InInt64(a) && InInt64(b) && 2 <= n <= INT64_MAX && fuel >= n
    requires MakeIntRangeCount(a, b, n) == Ok(IntRange(st))
    ensures OpLength(Range(st), fuel) == Ok(Int(n))
  {
    CountRangeToList(a, b, n, st, fuel);
  }

  /** `#(a..b)` on Int literals counts the values from a to b inclusive. */
  lemma LengthOfRange(a: int, b: int, ctx: Context, fuel: nat)
    requires InInt64(a) && InInt64(b) && fuel > Abs(b - a)
    ensures NoOverflow(a, b, 1) ==>
      Eval(UnOp(T.Hash, RangeNode(Lit(Int(a)), Lit(Int(b)), None, None)), ctx, fuel)
         == Ok(Evaluated(Int(Abs(b - a) + 1), ctx))
    ensures !NoOverflow(a, b, 1) ==>
      Eval(UnOp(T.Hash, RangeNode(Lit(Int(a)), Lit(Int(b)), None, None)), ctx, fuel).Err?
      && Eval(UnOp(T.Hash, RangeNode(Lit(Int(a)), Lit(Int(b)), None, None)), ctx, fuel).error.Undefined?
  {
    StepRangeLength(a, b, fuel);
    RangeOfLiterals(a, b, ctx, fuel);
    LengthOfNode(RangeNode(Lit(Int(a)), Lit(Int(b)), None, None), ctx, fuel,
                 Evaluated(RangeValue(Int(a), Int(b), None, None).value, ctx));
  }

  /** `#(a..b..n)` on Int literals, when the range is built, is n. */
  lemma LengthOfCountedRange(a: int, b: int, n: nat, st: RangeState, ctx: Context, fuel: nat)
    requires InInt64(a) && InInt64(b) && 2 <= n <= INT64_MAX && fuel >= n
    requires MakeIntRangeCount(a, b, n) == Ok(IntRange(st))
    ensures Eval(UnOp(T.Hash, RangeNode(Lit(Int(a)), Lit(Int(b)), Some(Lit(Int(n))), None)), ctx, fuel)
         == Ok(Evaluated(Int(n), ctx))
  {
    CountRangeValue(a, b, n, st);
    CountRangeLength(a, b, n, st, fuel);
    CountedRangeOfLiterals(a, b, n, ctx, fuel);
    LengthOfNode(RangeNode(Lit(Int(a)), Lit(Int(b)), Some(Lit(Int(n))), None), ctx, fuel, Evaluated(Range(st), ctx));
  }
}
