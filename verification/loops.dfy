/** The statement loops of the evaluator (eval_stmnts, eval_items,
    eval_cases and the loops of eval_for), written over the evaluators of
    the statements or of the loop body: a function from the context before
    to the value and the context after. */
module Loops {
  import opened Wrappers
  import opened Values
  import opened Scope
  import opened Ranges

  /** The value of a node and the context after evaluating it. */
  datatype Evaluated = Evaluated(value: Value, ctx: Context)

  /** `after` is `before` with its own frame grown or rebound in place: the
      parent chain is the same and every local key keeps its position. This
      is all set_value can do, so it is all evaluation can do. */
  predicate Extends(before: Context, after: Context) {
    after.parents == before.parents
    && |before.local| <= |after.local|
    && forall k :: 0 <= k < |before.local| ==> after.local[k].key == before.local[k].key
  }

  lemma ExtendsTrans(a: Context, b: Context, c: Context)
    ensures Extends(a, b) && Extends(b, c) ==> Extends(a, c)
  {
  }

  /** set_value only grows or rebinds the local frame. */
  lemma SetValueExtends(ctx: Context, name: string, v: Value)
    ensures Extends(ctx, SetValue(ctx, name, v))
  {
  }

  /** An evaluator that, whenever it succeeds, only extends its context. */
  ghost predicate Grows(f: Context -> Outcome<Evaluated>) {
    forall c {:trigger f(c)} :: f(c).Ok? ==> Extends(c, f(c).value.ctx)
  }

  ghost predicate AllGrow(fs: seq<Context -> Outcome<Evaluated>>) {
    forall k :: 0 <= k < |fs| ==> Grows(fs[k])
  }

  /** eval_stmnts from statement `i` on: each statement runs in the context
      the previous one left and the value is the last one's; `acc` holds
      the value so far (Nil before the first statement) and the context. */
  function Sequence(fs: seq<Context -> Outcome<Evaluated>>, i: nat, acc: Evaluated): (r: Outcome<Evaluated>)
    requires i <= |fs|
    ensures i == |fs| ==> r == Ok(acc)
    ensures AllGrow(fs) && r.Ok? ==> Extends(acc.ctx, r.value.ctx)
    decreases |fs| - i
  {
    if i == |fs| then Ok(acc)
    else
      match fs[i](acc.ctx)
      case Err(e) => Err(e)
      case Ok(b) =>
        var r := Sequence(fs, i + 1, b);
        if r.Ok? then ExtendsTrans(acc.ctx, b.ctx, r.value.ctx); r else r
  }

  /** eval_items from item `i` on: the items' values, in order, appended to
      `vals` and returned as one list. */
  function Collect(fs: seq<Context -> Outcome<Evaluated>>, i: nat, vals: seq<Value>, ctx: Context): (r: Outcome<Evaluated>)
    requires i <= |fs|
    ensures r.Ok? ==> r.value.value.List? && |r.value.value.elems| == |vals| + |fs| - i
    ensures r.Ok? ==> r.value.value.elems[..|vals|] == vals
    ensures AllGrow(fs) && r.Ok? ==> Extends(ctx, r.value.ctx)
    decreases |fs| - i
  {
    if i == |fs| then Ok(Evaluated(List(vals), ctx))
    else
      match fs[i](ctx)
      case Err(e) => Err(e)
      case Ok(b) =>
        var r := Collect(fs, i + 1, vals + [b.value], b.ctx);
        if r.Ok? then
          assert r.value.value.elems[..|vals|] == (r.value.value.elems[..|vals| + 1])[..|vals|];
          ExtendsTrans(ctx, b.ctx, r.value.ctx);
          r
        else r
  }

  /** eval_cases from statement `i` on: the first non-Nil value ends the
      block; when every statement gives Nil the block gives Nil. */
  function FirstNonNil(fs: seq<Context -> Outcome<Evaluated>>, i: nat, acc: Evaluated): (r: Outcome<Evaluated>)
    requires i <= |fs|
    ensures i == |fs| ==> r == Ok(acc)
    ensures AllGrow(fs) && r.Ok? ==> Extends(acc.ctx, r.value.ctx)
    decreases |fs| - i
  {
    if i == |fs| then Ok(acc)
    else
      match fs[i](acc.ctx)
      case Err(e) => Err(e)
      case Ok(b) =>
        if !b.value.Nil? then Ok(b)
        else
          var r := FirstNonNil(fs, i + 1, b);
          if r.Ok? then ExtendsTrans(acc.ctx, b.ctx, r.value.ctx); r else r
  }

  /** The list loop of eval_for from element `i` on: the body runs with the
      loop name bound to each element in turn; the value is the last run's. */
  function ForEach(body: Context -> Outcome<Evaluated>, name: string, es: seq<Value>, i: nat, acc: Evaluated): (r: Outcome<Evaluated>)
    requires i <= |es|
    ensures i == |es| ==> r == Ok(acc)
    ensures Grows(body) && r.Ok? ==> Extends(acc.ctx, r.value.ctx)
    decreases |es| - i
  {
    if i == |es| then Ok(acc)
    else
      var bound := SetValue(acc.ctx, name, es[i]);
      match body(bound)
      case Err(e) => Err(e)
      case Ok(b) =>
        var r := ForEach(body, name, es, i + 1, b);
        if r.Ok? then
          SetValueExtends(acc.ctx, name, es[i]);
          ExtendsTrans(acc.ctx, bound, b.ctx);
          ExtendsTrans(acc.ctx, b.ctx, r.value.ctx);
          r
        else r
  }

  /** The range loop of eval_for: `next` until the range is done, running
      the body with the loop name bound to each value. The evaluator passes
      the range's own `next` (RangeNext). At most `fuel` values are taken;
      the source's loop has no bound. */
  function ForRange(body: Context -> Outcome<Evaluated>, next: RangeState -> Outcome<Step>, name: string,
                    st: RangeState, acc: Evaluated, fuel: nat): (r: Outcome<Evaluated>)
    ensures Grows(body) && r.Ok? ==> Extends(acc.ctx, r.value.ctx)
    decreases fuel
  {
    match next(st)
    case Err(e) => Err(e)
    case Ok(s) =>
      if s.state.done then Ok(acc)
      else if fuel == 0 then Err(OutOfFuel)
      else
        var bound := SetValue(acc.ctx, name, s.out);
        match body(bound)
        case Err(e) => Err(e)
        case Ok(b) =>
          var r := ForRange(body, next, name, s.state, b, fuel - 1);
          if r.Ok? then
            SetValueExtends(acc.ctx, name, s.out);
            ExtendsTrans(acc.ctx, bound, b.ctx);
            ExtendsTrans(acc.ctx, b.ctx, r.value.ctx);
            r
          else r
  }

  /** eval_for over a value that is neither a list nor a range: the body
      runs once with the loop name bound to the value itself. */
  function ForOnce(body: Context -> Outcome<Evaluated>, name: string, v: Value, ctx: Context): (r: Outcome<Evaluated>)
    ensures r == body(SetValue(ctx, name, v))
    ensures Grows(body) && r.Ok? ==> Extends(ctx, r.value.ctx)
  {
    SetValueExtends(ctx, name, v);
    var r := body(SetValue(ctx, name, v));
    if r.Ok? then ExtendsTrans(ctx, SetValue(ctx, name, v), r.value.ctx); r else r
  }
}
