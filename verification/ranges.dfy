/** The lazy range engine: an explicit state record that `RangeNext`
    returns updated, the constructors of Int ranges, and eager draining. */
module Ranges {
  import opened Wrappers
  import opened Values
  import opened Operators

  /** is_negative: only numbers have a sign. */
  function IsNegative(v: Value): (r: Outcome<bool>)
    ensures v.IsNumber() ==> r == Ok(v.AsReal() < 0.0)
    ensures !v.IsNumber() ==> r == Err(NotNumeric(TypeOf(v)))
  {
    match v
    case Int(i) => Ok(i < 0)
    case Float(f) => Ok(f < 0.0)
    case _ => Err(NotNumeric(TypeOf(v)))
  }

  function Min(a: int, b: int): int { if a <= b then a else b }
  function Max(a: int, b: int): int { if a <= b then b else a }

  /** in_range: is `value` between `begin` and `end`, whichever way round
      they are? An Inf end bounds nothing. The differences are computed with
      the value operators, so they can overflow or meet a non-number. */
  function InRange(value: Value, begin: Value, end: Value): (r: Outcome<bool>)
    ensures end.Inf? ==> r == Ok(true)
    ensures value.Int? && begin.Int? && end.Int?
            && InInt64(end.i - begin.i)
            && InInt64(value.i - Min(begin.i, end.i))
            && InInt64(Max(begin.i, end.i) - value.i) ==>
      r == Ok(Min(begin.i, end.i) <= value.i <= Max(begin.i, end.i))
    ensures value.Float? && begin.Float? && end.Float? ==>
      r == Ok((begin.f <= value.f <= end.f) || (end.f <= value.f <= begin.f))
    ensures !end.Inf? && !(begin.IsNumber() && end.IsNumber()) ==> r.Err?
  {
    if end.Inf? then Ok(true)
    else
      var diff :- OpMinus(end, begin);
      var neg := IsNegative(diff).value;
      var lo := if neg then end else begin;
      var hi := if neg then begin else end;
      var d1 :- OpMinus(value, lo);
      var d2 :- OpMinus(hi, value);
      Ok(!(IsNegative(d1).value || IsNegative(d2).value))
  }

  /** range_new: a fresh range that has produced nothing yet. */
  function RangeNew(start: Value, stop: Value, step: Value, length: Option<nat>): (r: RangeState)
    ensures !r.started && !r.done && r.count == 0 && r.value == Nil
    ensures r.start == start && r.stop == stop && r.step == step && r.length == length
  {
    RangeState(start, stop, step, Nil, 0, length, false, false)
  }

  /** What one `next` returns: the produced value and the advanced state. */
  datatype Step = Step(out: Value, state: RangeState)

  /** range_next. An exhausted range is fatal. A counted range yields
      `start` first, then adds `step`, yields exactly `stop` on the call
      whose count reaches `length`, and on the call after that yields Nil
      and becomes done. A step range yields `start` first, then adds `step`,
      and the first value outside the bounds yields Nil and ends it. */
  function RangeNext(r: RangeState): (res: Outcome<Step>)
    ensures r.done ==> res == Err(ExhaustedRange)
    ensures res.Ok? ==> var s := res.value.state;
      s.start == r.start && s.stop == r.stop && s.step == r.step && s.length == r.length
      && s.value == res.value.out && (s.done ==> res.value.out == Nil)
    ensures res.Ok? ==> (res.value.state.started <==>
      r.started || r.length.None? || (r.count != r.length.value && r.count + 1 != r.length.value))
    ensures res.Ok? && r.length.Some? ==> res.value.state.count == r.count + 1
    ensures !r.done && r.length.Some? && r.count == r.length.value ==>
      res.Ok? && res.value.out == Nil && res.value.state.done
    ensures !r.done && r.length.Some? && r.count + 1 == r.length.value ==>
      res.Ok? && res.value.out == r.stop && !res.value.state.done
    ensures res.Ok? && r.length.None? && r.stop.Inf? ==> !res.value.state.done
  {
    if r.done then Err(ExhaustedRange)
    else if r.length.Some? then
      var count := r.count + 1;
      if r.count == r.length.value then
        Ok(Step(Nil, r.(value := Nil, done := true, count := count)))
      else if count == r.length.value then
        Ok(Step(r.stop, r.(value := r.stop, count := count)))
      else if r.started then
        var v :- OpPlus(r.value, r.step);
        Ok(Step(v, r.(value := v, count := count)))
      else
        Ok(Step(r.start, r.(value := r.start, started := true, count := count)))
    else
      var v :- if r.started then OpPlus(r.value, r.step) else Ok(r.start);
      var inside :- InRange(v, r.start, r.stop);
      if inside then Ok(Step(v, r.(value := v, started := true)))
      else Ok(Step(Nil, r.(value := Nil, started := true, done := true)))
  }

  /** `n` successive calls of `next`, collecting what they return. */
  function NextN(r: RangeState, n: nat): (res: Outcome<(seq<Value>, RangeState)>)
    ensures res.Ok? ==> |res.value.0| == n
    decreases n
  {
    if n == 0 then Ok(([], r))
    else
      var s :- RangeNext(r);
      var rest :- NextN(s.state, n - 1);
      Ok(([s.out] + rest.0, rest.1))
  }

  /** The drain loop of range_to_list: calls `next` until the range is done,
      collecting every value produced before that. `fuel` bounds the number
      of values collected; the source's loop has no bound. */
  function Drain(r: RangeState, fuel: nat): (res: Outcome<seq<Value>>)
    ensures res.Ok? ==> |res.value| <= fuel
    ensures r.done ==> res == Err(ExhaustedRange)
    decreases fuel
  {
    var s :- RangeNext(r);
    if s.state.done then Ok([])
    else if fuel == 0 then Err(OutOfFuel)
    else
      var rest :- Drain(s.state, fuel - 1);
      Ok([s.out] + rest)
  }

  /** range_to_list: an unbounded range with an Inf end is fatal; any other
      range is drained. */
  function RangeToList(r: RangeState, fuel: nat): (res: Outcome<seq<Value>>)
    ensures r.length.None? && (r.start.Inf? || r.stop.Inf?) ==> res == Err(InfiniteRange)
    ensures res.Ok? ==> |res.value| <= fuel
  {
    if r.length.None? && (r.start.Inf? || r.stop.Inf?) then Err(InfiniteRange)
    else Drain(r, fuel)
  }

  /** A `long long` read back from the bits of a `size_t`. */
  function ToSigned64(x: int): (r: int)
    requires 0 <= x < SIZE_MOD
    ensures InInt64(r) && (r - x) % SIZE_MOD == 0
  {
    if x <= INT64_MAX then x else x - SIZE_MOD
  }

  /** The result of a counted-range constructor: an Int range, or the float
      range the source falls back to, which this model keeps opaque. */
  datatype Built = IntRange(state: RangeState) | FloatRange(fstart: int, fstop: int, fcount: nat)

  /** make_int_range_count. The span |stop - start| (computed in `long long`)
      is divided by `count - 1` (computed in `size_t`, then passed to `lldiv`
      as a `long long`). An exact division gives an Int range whose step
      points from start toward stop; otherwise the float fallback. */
  function MakeIntRangeCount(xstart: int, xstop: int, xcount: nat): (r: Outcome<Built>)
    requires InInt64(xstart) && InInt64(xstop) && xcount < SIZE_MOD
    ensures xcount == 1 ==> r.Err? && r.error.Undefined?
    ensures !InInt64(Abs(xstop - xstart)) ==> r.Err? && r.error.Undefined?
    ensures 2 <= xcount <= INT64_MAX + 1 && InInt64(Abs(xstop - xstart)) ==>
      var span := Abs(xstop - xstart);
      var q := span / (xcount - 1);
      (span % (xcount - 1) == 0 ==>
        r == Ok(IntRange(RangeNew(Int(xstart), Int(xstop), Int(if xstart < xstop then q else -q), Some(xcount)))))
      && (span % (xcount - 1) != 0 ==> r == Ok(FloatRange(xstart, xstop, xcount)))
    ensures xcount == 0 && InInt64(Abs(xstop - xstart)) ==>
      r.Ok? && r.value.IntRange? && r.value.state.length == Some(0)
  {
    var divs := (xcount - 1) % SIZE_MOD;
    var dist := if xstart < xstop then xstop - xstart else xstart - xstop;
    if !InInt64(dist) then Err(Undefined("signed overflow"))
    else
      var divisor := ToSigned64(divs);
      assert dist == Abs(xstop - xstart);
      assert 2 <= xcount <= INT64_MAX + 1 ==> divs == xcount - 1 && divisor == xcount - 1;
      assert xcount == 0 ==> divs == SIZE_MOD - 1 && divisor == -1;
      if divisor == 0 then Err(Undefined("integer division by zero"))
      else if TruncMod(dist, divisor) != 0 then Ok(FloatRange(xstart, xstop, xcount))
      else
        var quot := TruncDiv(dist, divisor);
        var step := if xstart < xstop then quot else -quot;
        Ok(IntRange(RangeNew(Int(xstart), Int(xstop), Int(step), Some(xcount))))
  }

  /** make_int_range_step: the user's step keeps its magnitude but takes its
      sign from the direction start -> stop (negating INT64_MIN overflows). */
  function MakeIntRangeStep(xstart: int, xstop: int, step: int): (r: Outcome<RangeState>)
    requires InInt64(xstart) && InInt64(xstop) && InInt64(step)
    ensures r.Ok? <==> step != INT64_MIN
    ensures r.Ok? ==> (r.value.start == Int(xstart) && r.value.stop == Int(xstop) && r.value.length.None?
                       && !r.value.started && !r.value.done && r.value.step.Int?
                       && Abs(r.value.step.i) == Abs(step)
                       && (xstart > xstop ==> r.value.step.i <= 0)
                       && (xstart <= xstop ==> r.value.step.i >= 0))
  {
    var magnitude := if step < 0 then -step else step;
    if !InInt64(magnitude) then Err(Undefined("signed overflow"))
    else
      var signed := if xstart > xstop then -magnitude else magnitude;
      Ok(RangeNew(Int(xstart), Int(xstop), Int(signed), None))
  }

  /** make_int_range_inf: an unbounded range upward from `xstart`. */
  function MakeIntRangeInf(xstart: int, step: int): (r: Outcome<RangeState>)
    requires InInt64(xstart) && InInt64(step)
    ensures r.Ok? <==> step != INT64_MIN
    ensures r.Ok? ==> (r.value.start == Int(xstart) && r.value.stop == Inf && r.value.length.None?
                       && !r.value.started && !r.value.done && r.value.step == Int(Abs(step)))
  {
    var magnitude := if step < 0 then -step else step;
    if !InInt64(magnitude) then Err(Undefined("signed overflow"))
    else Ok(RangeNew(Int(xstart), Inf, Int(magnitude), None))
  }
}
