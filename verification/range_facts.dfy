/** What successive `next` calls of a range produce: the trajectories of
    counted, stepped and unbounded Int ranges. */
module RangeFacts {
  import opened Wrappers
  import opened Values
  import opened Operators
  import opened Ranges

  /** `n` Int values starting at `a`, each `s` more than the previous. */
  function Progression(a: int, s: int, n: nat): (p: seq<Value>)
    ensures |p| == n
    decreases n
  {
    if n == 0 then [] else [Int(a)] + Progression(a + s, s, n - 1)
  }

  /** Every term of a progression lies between its first and its last. */
  lemma {:induction false} ProgressionBetween(a: int, s: int, n: nat, k: nat)
    requires 0 <= k < n
    ensures var last := a + (n - 1) * s;
      Progression(a, s, n)[k] == Int(a + k * s)
      && Min(a, last) <= a + k * s <= Max(a, last)
    decreases n
  {
    if k > 0 {
      ProgressionBetween(a + s, s, n - 1, k - 1);
      assert a + s + (k - 1) * s == a + k * s;
      assert a + s + (n - 2) * s == a + (n - 1) * s;
      if s >= 0 { assert (k - 1) * s >= 0; } else { assert (k - 1) * s <= 0; }
    } else {
      if s >= 0 { assert (n - 1) * s >= 0; } else { assert (n - 1) * s <= 0; }
    }
  }

  /** A step of size `s` taken `n >= 1` times from `v` passes through `v + s`. */
  lemma StepWithin(v: int, s: int, n: nat)
    requires n >= 1
    ensures Min(v, v + n * s) <= v + s <= Max(v, v + n * s)
  {
    if s >= 0 { assert (n - 1) * s >= 0; } else { assert (n - 1) * s <= 0; }
    assert n * s == (n - 1) * s + s;
  }

  /** A started counted range with `n` yields to go, the last being `stop`,
      yields the progression from `value + step` and is then spent but not done. */
  lemma {:induction false} CountedTail(r: RangeState, v: int, s: int, n: nat)
    requires r.length.Some? && r.started && !r.done && r.count + n == r.length.value && n >= 1
    requires r.value == Int(v) && r.step == Int(s) && r.stop == Int(v + n * s)
    requires InInt64(v) && InInt64(v + n * s)
    ensures NextN(r, n).Ok?
    ensures NextN(r, n).value.0 == Progression(v + s, s, n)
    ensures var st := NextN(r, n).value.1;
      !st.done && st.length == r.length && st.count == r.length.value
    decreases n
  {
    if n == 1 {
      assert v + 1 * s == v + s;
    } else {
      StepWithin(v, s, n);
      var next := RangeNext(r);
      assert next == Ok(Step(Int(v + s), r.(value := Int(v + s), count := r.count + 1)));
      assert v + n * s == (v + s) + (n - 1) * s;
      CountedTail(next.value.state, v + s, s, n - 1);
    }
  }

  /** A fresh counted range of length L >= 2 whose stop is start + (L-1)*step:
      the first L calls of `next` yield start, start + step, ..., stop; the
      call after yields Nil and makes the range done; any further call fails. */
  lemma CountedRangeNext(a: int, s: int, b: int, L: nat)
    requires L >= 2 && InInt64(a) && InInt64(b) && b == a + (L - 1) * s
    ensures var r := RangeNew(Int(a), Int(b), Int(s), Some(L));
      && NextN(r, L).Ok?
      && NextN(r, L).value.0 == Progression(a, s, L)
      && NextN(r, L).value.0[L - 1] == Int(b)
      && var st := NextN(r, L).value.1;
      && !st.done
      && RangeNext(st).Ok? && RangeNext(st).value.out == Nil && RangeNext(st).value.state.done
      && RangeNext(RangeNext(st).value.state) == Err(ExhaustedRange)
  {
    var r := RangeNew(Int(a), Int(b), Int(s), Some(L));
    var first := RangeNext(r);
    assert first == Ok(Step(Int(a), r.(value := Int(a), started := true, count := 1)));
    CountedTail(first.value.state, a, s, L - 1);
    var tail := NextN(first.value.state, L - 1).value;
    assert NextN(r, L) == Ok(([Int(a)] + tail.0, tail.1));
    ProgressionBetween(a, s, L, L - 1);
  }

  /** Draining a started counted range with `n` yields to go. */
  lemma {:induction false} CountedDrain(r: RangeState, v: int, s: int, n: nat, fuel: nat)
    requires r.length.Some? && r.started && !r.done && r.count + n == r.length.value
    requires r.value == Int(v) && r.step == Int(s) && r.stop == Int(v + n * s)
    requires InInt64(v) && InInt64(v + n * s) && fuel >= n
    ensures Drain(r, fuel) == Ok(Progression(v + s, s, n))
    decreases n
  {
    if n == 0 {
    } else if n == 1 {
      var next := RangeNext(r);
      assert next.value.out == Int(v + s);
      assert RangeNext(next.value.state).value.state.done;
    } else {
      StepWithin(v, s, n);
      var next := RangeNext(r);
      assert next == Ok(Step(Int(v + s), r.(value := Int(v + s), count := r.count + 1)));
      assert v + n * s == (v + s) + (n - 1) * s;
      CountedDrain(next.value.state, v + s, s, n - 1, fuel - 1);
    }
  }

  /** range_to_list of a fresh counted range with L >= 2 elements ending at its
      stop: exactly L values, the progression from start to stop. */
  lemma CountedRangeToList(a: int, s: int, b: int, L: nat, fuel: nat)
    requires L >= 2 && InInt64(a) && InInt64(b) && b == a + (L - 1) * s && fuel >= L
    ensures var vs := RangeToList(RangeNew(Int(a), Int(b), Int(s), Some(L)), fuel);
      vs == Ok(Progression(a, s, L)) && |vs.value| == L && vs.value[L - 1] == Int(b)
  {
    var r := RangeNew(Int(a), Int(b), Int(s), Some(L));
    var first := RangeNext(r);
    assert first == Ok(Step(Int(a), r.(value := Int(a), started := true, count := 1)));
    CountedDrain(first.value.state, a, s, L - 1, fuel - 1);
    ProgressionBetween(a, s, L, L - 1);
  }

  /** An exact counted Int range ends on its stop: start + (count-1)*step == stop. */
  lemma CountRangeReachesStop(xstart: int, xstop: int, xcount: nat, st: RangeState)
    requires InInt64(xstart) && InInt64(xstop) && 2 <= xcount <= INT64_MAX + 1
    requires MakeIntRangeCount(xstart, xstop, xcount) == Ok(IntRange(st))
    ensures st.step.Int? && xstart + (xcount - 1) * st.step.i == xstop
    ensures st == RangeNew(Int(xstart), Int(xstop), st.step, Some(xcount))
  {
    var span := Abs(xstop - xstart);
    var q := span / (xcount - 1);
    assert span % (xcount - 1) == 0;
    assert q * (xcount - 1) == span;
    if xstart < xstop {
      assert st.step.i == q;
    } else {
      assert st.step.i == -q;
      assert (xcount - 1) * -q == -span;
    }
  }

  /** make_int_range_count then range_to_list, for 2 <= count <= 2^63: when
      the span divides evenly the list has exactly `count` Int values, the
      first is start, each adds the step, and the last is exactly stop. */
  lemma CountRangeToList(xstart: int, xstop: int, xcount: nat, st: RangeState, fuel: nat)
    requires InInt64(xstart) && InInt64(xstop) && 2 <= xcount <= INT64_MAX + 1 && fuel >= xcount
    requires MakeIntRangeCount(xstart, xstop, xcount) == Ok(IntRange(st))
    ensures RangeToList(st, fuel) == Ok(Progression(xstart, st.step.i, xcount))
    ensures RangeToList(st, fuel).value[0] == Int(xstart)
    ensures RangeToList(st, fuel).value[xcount - 1] == Int(xstop)
  {
    CountRangeReachesStop(xstart, xstop, xcount, st);
    CountedRangeToList(xstart, st.step.i, xstop, xcount, fuel);
  }


  /** The step of a step range from `a` toward `b` with size S. */
  function Stride(a: int, b: int, S: int): int { if a <= b then S else -S }

  /** The value `o` past `a` in the direction of `b`. */
  function Toward(a: int, b: int, o: int): int { if a <= b then a + o else a - o }

  /** A started step range from `a` toward `b`, with steps of size S, whose
      current value is `o` past its start. */
  function StepAt(a: int, b: int, S: int, o: int): (r: RangeState)
    ensures r.value == Int(Toward(a, b, o)) && r.started && !r.done && r.length.None?
  {
    RangeNew(Int(a), Int(b), Int(Stride(a, b, S)), None).(value := Int(Toward(a, b, o)), started := true)
  }

  /** One more step of size S from offset `o` fits in the span of a..b. */
  predicate Fits(a: int, b: int, S: int, o: int) { o + S <= Abs(b - a) }

  /** One `next` of a started step range: the next value is inside exactly
      when one more step still fits in the span, and then the range moves
      on by one step. */
  lemma StepNext(a: int, b: int, S: int, o: int)
    requires InInt64(a) && InInt64(b) && InInt64(Abs(b - a)) && 0 < S
    requires 0 <= o <= Abs(b - a) && InInt64(o + S) && InInt64(Toward(a, b, o + S))
    ensures Fits(a, b, S, o) ==>
      RangeNext(StepAt(a, b, S, o)) == Ok(Step(Int(Toward(a, b, o + S)), StepAt(a, b, S, o + S)))
    ensures !Fits(a, b, S, o) ==>
      RangeNext(StepAt(a, b, S, o)).Ok? && RangeNext(StepAt(a, b, S, o)).value.state.done
  {
    var r := StepAt(a, b, S, o);
    var v := Toward(a, b, o);
    assert OpPlus(r.value, r.step) == Ok(Int(v + Stride(a, b, S)));
    assert v + Stride(a, b, S) == Toward(a, b, o + S);
    assert Fits(a, b, S, o) <==> Min(a, b) <= Toward(a, b, o + S) <= Max(a, b);
  }

  /** Draining a range whose next value ends it yields nothing. */
  lemma DrainEnds(r: RangeState, fuel: nat)
    requires RangeNext(r).Ok? && RangeNext(r).value.state.done
    ensures Drain(r, fuel) == Ok([])
  {
  }

  /** Draining a range whose next value `x` does not end it yields `x`
      followed by the drain of the new state. */
  lemma DrainCons(r: RangeState, x: Value, s: RangeState, fuel: nat, rest: seq<Value>)
    requires RangeNext(r) == Ok(Step(x, s)) && !s.done
    requires Drain(s, fuel) == Ok(rest)
    ensures Drain(r, fuel + 1) == Ok([x] + rest)
  {
  }

  /** A run of a range: from states[0], successive `next` calls return
      outs[0], outs[1], ... and leave states[1], states[2], ..., none of
      them done, and the call after the last output finishes the range. */
  predicate Run(states: seq<RangeState>, outs: seq<Value>)
  {
    Links(states, outs) && RangeNext(states[|outs|]).Ok? && RangeNext(states[|outs|]).value.state.done
  }

  /** The first |outs| calls of a run: from states[i], `next` returns
      outs[i] and leaves states[i + 1], which is not done. */
  predicate Links(states: seq<RangeState>, outs: seq<Value>)
  {
    |states| == |outs| + 1
    && forall i {:trigger outs[i]} :: 0 <= i < |outs| ==>
         RangeNext(states[i]) == Ok(Step(outs[i], states[i + 1])) && !states[i + 1].done
  }

  /** Draining state j of a run collects exactly the run's outputs from j on. */
  lemma {:induction false} DrainRun(states: seq<RangeState>, outs: seq<Value>, j: nat, fuel: nat)
    requires Run(states, outs) && j <= |outs| && fuel >= |outs| - j
    ensures Drain(states[j], fuel) == Ok(outs[j..])
    decreases |outs| - j
  {
    if j == |outs| {
      DrainEnds(states[j], fuel);
      assert outs[j..] == [];
    } else {
      DrainRun(states, outs, j + 1, fuel - 1);
      DrainCons(states[j], outs[j], states[j + 1], fuel - 1, outs[j + 1..]);
      SuffixCons(outs, j);
    }
  }

  /** Draining state j of a run whose last `next` fails fails with the same
      error: range_to_list never returns the values collected before it. */
  lemma {:induction false} DrainRunFails(states: seq<RangeState>, outs: seq<Value>, j: nat, fuel: nat)
    requires Links(states, outs) && RangeNext(states[|outs|]).Err?
    requires j <= |outs| && fuel >= |outs| - j
    ensures Drain(states[j], fuel) == Err(RangeNext(states[|outs|]).error)
    decreases |outs| - j
  {
    if j < |outs| {
      DrainRunFails(states, outs, j + 1, fuel - 1);
      assert RangeNext(states[j]) == Ok(Step(outs[j], states[j + 1]));
    }
  }

  /** A non-empty suffix is its first element followed by the next suffix. */
  lemma SuffixCons<T>(s: seq<T>, j: nat)
    requires j < |s|
    ensures s[j..] == [s[j]] + s[j + 1..]
  {
  }

  /** The k-th step of a step range from `a` toward `b` with size S, when
      step k + 1 still fits in the span: it yields a + (k+1)*stride. */
  lemma StepLink(a: int, b: int, S: int, k: nat)
    requires InInt64(a) && InInt64(b) && InInt64(Abs(b - a)) && 0 < S
    requires (k + 1) * S <= Abs(b - a)
    ensures RangeNext(StepAt(a, b, S, k * S))
      == Ok(Step(Int(a + (k + 1) * Stride(a, b, S)), StepAt(a, b, S, (k + 1) * S)))
  {
    assert (k + 1) * S == k * S + S;
    assert k * S >= 0;
    StepNext(a, b, S, k * S);
    assert Toward(a, b, k * S + S) == a + (k + 1) * Stride(a, b, S);
  }

  /** The step after the last one that fits ends a step range. */
  lemma StepEnd(a: int, b: int, S: int, k: nat)
    requires InInt64(a) && InInt64(b) && InInt64(Abs(b - a)) && 0 < S
    requires k * S <= Abs(b - a) < (k + 1) * S
    requires InInt64((k + 1) * S) && InInt64(Toward(a, b, (k + 1) * S))
    ensures RangeNext(StepAt(a, b, S, k * S)).Ok? && RangeNext(StepAt(a, b, S, k * S)).value.state.done
  {
    assert (k + 1) * S == k * S + S;
    assert k * S >= 0;
    StepNext(a, b, S, k * S);
  }

  /** How many terms spaced `stride` apart fit in a span: n with
      (n-1)*stride <= span < n*stride. */
  function TermCount(span: nat, stride: int): (n: nat)
    requires stride > 0
    ensures n >= 1 && (n - 1) * stride <= span < n * stride
  {
    assert span == (span / stride) * stride + span % stride;
    span / stride + 1
  }

  /** Draining a step range from `a` toward `b` with steps of size S stays
      inside `long long`: the bounds fit, and so do the first value past the
      stop and its distance from `a`, which `next` computes and in_range
      subtracts before the range ends. Every other value and difference lies
      between these, so this is exactly the condition under which no
      operation of the drain overflows. */
  predicate NoOverflow(a: int, b: int, S: int)
  {
    InInt64(a) && InInt64(b) && 0 < S
    && var far := TermCount(Abs(b - a), S) * S;
    InInt64(far) && InInt64(Toward(a, b, far))
  }

  /** make_int_range_step then range_to_list, for Int bounds and a nonzero
      step other than INT64_MIN (whose negation make_int_range_step cannot
      take): when nothing overflows the values are start, start + step',
      start + 2*step', ... where step' is the step turned toward stop, exactly
      as many as fit between start and stop; otherwise the drain overflows. */
  lemma StepRangeToList(a: int, b: int, s: int, fuel: nat)
    requires InInt64(a) && InInt64(b) && InInt64(s) && s != 0 && s != INT64_MIN
    requires fuel >= TermCount(Abs(b - a), Abs(s))
    ensures MakeIntRangeStep(a, b, s).Ok?
    ensures var st := MakeIntRangeStep(a, b, s).value;
      NoOverflow(a, b, Abs(s)) ==>
        RangeToList(st, fuel) == Ok(Progression(a, st.step.i, TermCount(Abs(b - a), Abs(s))))
    ensures var st := MakeIntRangeStep(a, b, s).value;
      !NoOverflow(a, b, Abs(s)) ==> RangeToList(st, fuel).Err? && RangeToList(st, fuel).error.Undefined?
  {
    var st := MakeIntRangeStep(a, b, s).value;
    assert st == RangeNew(Int(a), Int(b), Int(Stride(a, b, Abs(s))), None);
    if NoOverflow(a, b, Abs(s)) {
      StepDrainFresh(st, a, b, Abs(s), fuel);
    } else {
      StepDrainOverflow(st, a, b, Abs(s), fuel);
    }
  }

  /** The states a fresh step range `st` passes through in its first n
      `next` calls: `st` itself, then one state per step taken. */
  function StepStates(st: RangeState, a: int, b: int, S: int, n: nat): (r: seq<RangeState>)
    ensures |r| == n + 1 && r[0] == st
    ensures forall k :: 1 <= k <= n ==> r[k] == StepAt(a, b, S, (k - 1) * S)
  {
    [st] + seq(n, (k: int) => StepAt(a, b, S, k * S))
  }

  /** The first `next` of a fresh step range yields its start. */
  lemma StepFirst(st: RangeState, a: int, b: int, S: int)
    requires InInt64(a) && InInt64(b) && InInt64(Abs(b - a)) && 0 < S
    requires st == RangeNew(Int(a), Int(b), Int(Stride(a, b, S)), None)
    ensures RangeNext(st) == Ok(Step(Int(a), StepAt(a, b, S, 0)))
  {
    assert InRange(Int(a), Int(a), Int(b)) == Ok(true);
  }

  /** Call i + 1 of `next` on a fresh step range with n values: from
      StepStates[i] it yields the progression's i-th value. */
  lemma StepRunLink(st: RangeState, a: int, b: int, S: int, n: nat, i: nat)
    requires InInt64(a) && InInt64(b) && InInt64(Abs(b - a)) && 0 < S
    requires st == RangeNew(Int(a), Int(b), Int(Stride(a, b, S)), None)
    requires n == TermCount(Abs(b - a), S) && i < n
    ensures var states := StepStates(st, a, b, S, n);
      RangeNext(states[i]) == Ok(Step(Progression(a, Stride(a, b, S), n)[i], states[i + 1]))
      && !states[i + 1].done
  {
    ProgressionBetween(a, Stride(a, b, S), n, i);
    if i == 0 {
      StepFirst(st, a, b, S);
    } else {
      assert i * S <= (n - 1) * S;
      StepLink(a, b, S, i - 1);
    }
  }

  /** Draining a fresh step range: start and the steps after it that fit. */
  lemma StepDrainFresh(st: RangeState, a: int, b: int, S: int, fuel: nat)
    requires NoOverflow(a, b, S)
    requires st == RangeNew(Int(a), Int(b), Int(Stride(a, b, S)), None)
    requires fuel >= TermCount(Abs(b - a), S)
    ensures Drain(st, fuel) == Ok(Progression(a, Stride(a, b, S), TermCount(Abs(b - a), S)))
  {
    var n := TermCount(Abs(b - a), S);
    var states := StepStates(st, a, b, S, n);
    var outs := Progression(a, Stride(a, b, S), n);
    forall i {:trigger outs[i]} | 0 <= i < n
      ensures RangeNext(states[i]) == Ok(Step(outs[i], states[i + 1])) && !states[i + 1].done
    {
      StepRunLink(st, a, b, S, n, i);
    }
    StepEnd(a, b, S, n - 1);
    DrainRun(states, outs, 0, fuel);
    assert outs[0..] == outs;
  }

  /** One `next` of a started step range whose next value, or that value's
      distance from `a`, does not fit in `long long`: op_plus or in_range's
      subtraction overflows, which C leaves undefined. */
  lemma StepOverflow(a: int, b: int, S: int, o: int)
    requires InInt64(a) && InInt64(b) && InInt64(Abs(b - a)) && 0 < S
    requires 0 <= o <= Abs(b - a) && !(InInt64(o + S) && InInt64(Toward(a, b, o + S)))
    ensures RangeNext(StepAt(a, b, S, o)).Err? && RangeNext(StepAt(a, b, S, o)).error.Undefined?
  {
    assert Toward(a, b, o) + Stride(a, b, S) == Toward(a, b, o + S);
  }

  /** The first `next` of a fresh step range whose span does not fit in
      `long long`: in_range's subtraction overflows. */
  lemma StepFirstOverflow(st: RangeState, a: int, b: int, S: int)
    requires InInt64(a) && InInt64(b) && !InInt64(Abs(b - a))
    requires st == RangeNew(Int(a), Int(b), Int(Stride(a, b, S)), None)
    ensures RangeNext(st).Err? && RangeNext(st).error.Undefined?
  {
  }

  /** Draining a fresh step range that breaks NoOverflow fails with
      undefined behaviour, whatever the fuel: NoOverflow is exactly the
      condition under which StepDrainFresh holds. */
  lemma StepDrainOverflow(st: RangeState, a: int, b: int, S: int, fuel: nat)
    requires InInt64(a) && InInt64(b) && 0 < S && !NoOverflow(a, b, S)
    requires st == RangeNew(Int(a), Int(b), Int(Stride(a, b, S)), None)
    requires fuel >= TermCount(Abs(b - a), S)
    ensures Drain(st, fuel).Err? && Drain(st, fuel).error.Undefined?
  {
    if !InInt64(Abs(b - a)) {
      StepFirstOverflow(st, a, b, S);
    } else {
      var n := TermCount(Abs(b - a), S);
      var states := StepStates(st, a, b, S, n);
      var outs := Progression(a, Stride(a, b, S), n);
      forall i {:trigger outs[i]} | 0 <= i < n
        ensures RangeNext(states[i]) == Ok(Step(outs[i], states[i + 1])) && !states[i + 1].done
      {
        StepRunLink(st, a, b, S, n, i);
      }
      assert (n - 1) * S + S == n * S;
      StepOverflow(a, b, S, (n - 1) * S);
      DrainRunFails(states, outs, 0, fuel);
    }
  }

  /** A started zero-step range sits on its start forever. */
  lemma {:induction false} StuckDrain(r: RangeState, fuel: nat)
    requires r.length.None? && r.started && !r.done && r.start.Int? && r.stop.Int?
    requires r.value == r.start && r.step == Int(0)
    requires InInt64(r.start.i) && InInt64(r.stop.i) && InInt64(Abs(r.stop.i - r.start.i))
    ensures Drain(r, fuel) == Err(OutOfFuel)
    decreases fuel
  {
    var a := r.start.i;
    assert OpPlus(Int(a), Int(0)) == Ok(Int(a));
    assert InRange(Int(a), Int(a), r.stop) == Ok(true);
    assert RangeNext(r) == Ok(Step(Int(a), r));
    if fuel > 0 {
      StuckDrain(r, fuel - 1);
    }
  }

  /** A zero step never leaves the start, so range_to_list never finishes:
      whatever bound is put on the drain, it runs out. */
  lemma ZeroStepNeverEnds(a: int, b: int, fuel: nat)
    requires InInt64(a) && InInt64(b) && InInt64(Abs(b - a))
    ensures MakeIntRangeStep(a, b, 0).Ok?
    ensures RangeToList(MakeIntRangeStep(a, b, 0).value, fuel) == Err(OutOfFuel)
  {
    var st := MakeIntRangeStep(a, b, 0).value;
    assert InRange(Int(a), Int(a), Int(b)) == Ok(true);
    var first := RangeNext(st);
    assert first == Ok(Step(Int(a), st.(value := Int(a), started := true)));
    if fuel > 0 {
      StuckDrain(first.value.state, fuel - 1);
    }
  }

  /** A started unbounded range climbs by its step from its current value. */
  lemma {:induction false} UpwardTail(r: RangeState, v: int, s: int, n: nat)
    requires r.length.None? && r.stop == Inf && r.started && !r.done
    requires r.value == Int(v) && r.step == Int(s) && s >= 0 && InInt64(v) && InInt64(v + n * s)
    ensures NextN(r, n).Ok? && NextN(r, n).value.0 == Progression(v + s, s, n)
    ensures !NextN(r, n).value.1.done
    decreases n
  {
    if n > 0 {
      assert n * s >= s by { assert (n - 1) * s >= 0; }
      var next := RangeNext(r);
      assert next == Ok(Step(Int(v + s), r.(value := Int(v + s))));
      assert (v + s) + (n - 1) * s == v + n * s;
      UpwardTail(next.value.state, v + s, s, n - 1);
    }
  }

  /** make_int_range_inf: the first n values are start, start + |step|, ...,
      as long as they stay within `long long`, and the range is never done. */
  lemma InfRangeNext(a: int, s: int, n: nat)
    requires InInt64(a) && InInt64(s) && s != INT64_MIN && n >= 1 && InInt64(a + (n - 1) * Abs(s))
    ensures MakeIntRangeInf(a, s).Ok?
    ensures var r := NextN(MakeIntRangeInf(a, s).value, n);
      r.Ok? && r.value.0 == Progression(a, Abs(s), n) && !r.value.1.done
  {
    var st := MakeIntRangeInf(a, s).value;
    var first := RangeNext(st);
    assert first == Ok(Step(Int(a), st.(value := Int(a), started := true)));
    UpwardTail(first.value.state, a, Abs(s), n - 1);
  }
}
