/** What the statement loops compute over a whole run: a statement
    sequence gives its last value, an item list the list of its values, a
    CASES block its first non-Nil value, and a `for` loop the value of its
    last turn, over a list or over the values a range yields. */
module LoopFacts {
  import opened Wrappers
  import opened Values
  import opened Scope
  import opened Ranges
  import opened RangeFacts
  import opened Loops

  /** `vals` and `ctxs` record running the first |vals| evaluators of `fs`
      one after another: evaluator j, started in ctxs[j], gives vals[j] and
      leaves ctxs[j + 1]. */
  predicate Trace(fs: seq<Context -> Outcome<Evaluated>>, ctxs: seq<Context>, vals: seq<Value>) {
    |vals| <= |fs| && |ctxs| == |vals| + 1
    && forall j {:trigger vals[j]} :: 0 <= j < |vals| ==> fs[j](ctxs[j]) == Ok(Evaluated(vals[j], ctxs[j + 1]))
  }

  // ----- eval_stmnts -----

  lemma {:induction false} SequenceFrom(fs: seq<Context -> Outcome<Evaluated>>, ctxs: seq<Context>, vals: seq<Value>, i: nat, v: Value)
    requires Trace(fs, ctxs, vals) && |vals| == |fs| && i <= |fs|
    requires 0 < i ==> v == vals[i - 1]
    ensures Sequence(fs, i, Evaluated(v, ctxs[i])) == Ok(Evaluated(if i == |fs| then v else vals[|fs| - 1], ctxs[|fs|]))
    decreases |fs| - i
  {
    if i < |fs| {
      assert fs[i](ctxs[i]) == Ok(Evaluated(vals[i], ctxs[i + 1]));
      SequenceFrom(fs, ctxs, vals, i + 1, vals[i]);
    }
  }

  /** A statement sequence whose statements all succeed gives the value of
      its last statement (Nil when it has none) and the context the last
      one left. */
  lemma SequenceIsLast(fs: seq<Context -> Outcome<Evaluated>>, ctxs: seq<Context>, vals: seq<Value>)
    requires Trace(fs, ctxs, vals) && |vals| == |fs|
    ensures Sequence(fs, 0, Evaluated(Nil, ctxs[0]))
         == Ok(Evaluated(if |fs| == 0 then Nil else vals[|fs| - 1], ctxs[|fs|]))
  {
    SequenceFrom(fs, ctxs, vals, 0, Nil);
  }

  lemma {:induction false} SequenceErrFrom(fs: seq<Context -> Outcome<Evaluated>>, ctxs: seq<Context>, vals: seq<Value>, i: nat, v: Value, e: EvalError)
    requires Trace(fs, ctxs, vals) && |vals| < |fs| && i <= |vals|
    requires fs[|vals|](ctxs[|vals|]) == Err(e)
    ensures Sequence(fs, i, Evaluated(v, ctxs[i])) == Err(e)
    decreases |vals| - i
  {
    if i < |vals| {
      assert fs[i](ctxs[i]) == Ok(Evaluated(vals[i], ctxs[i + 1]));
      SequenceErrFrom(fs, ctxs, vals, i + 1, vals[i], e);
    }
  }

  /** The first failing statement's error is the sequence's error: no later
      statement runs. */
  lemma SequenceStopsAtError(fs: seq<Context -> Outcome<Evaluated>>, ctxs: seq<Context>, vals: seq<Value>, e: EvalError)
    requires Trace(fs, ctxs, vals) && |vals| < |fs|
    requires fs[|vals|](ctxs[|vals|]) == Err(e)
    ensures Sequence(fs, 0, Evaluated(Nil, ctxs[0])) == Err(e)
  {
    SequenceErrFrom(fs, ctxs, vals, 0, Nil, e);
  }

  // ----- eval_items -----

  lemma {:induction false} CollectFrom(fs: seq<Context -> Outcome<Evaluated>>, ctxs: seq<Context>, vals: seq<Value>, i: nat)
    requires Trace(fs, ctxs, vals) && |vals| == |fs| && i <= |fs|
    ensures Collect(fs, i, vals[..i], ctxs[i]) == Ok(Evaluated(List(vals), ctxs[|fs|]))
    decreases |fs| - i
  {
    if i < |fs| {
      assert fs[i](ctxs[i]) == Ok(Evaluated(vals[i], ctxs[i + 1]));
      assert vals[..i] + [vals[i]] == vals[..i + 1];
      CollectFrom(fs, ctxs, vals, i + 1);
    } else {
      assert vals[..i] == vals;
    }
  }

  /** An item list whose items all succeed is the list of their values, in
      order. */
  lemma CollectIsValues(fs: seq<Context -> Outcome<Evaluated>>, ctxs: seq<Context>, vals: seq<Value>)
    requires Trace(fs, ctxs, vals) && |vals| == |fs|
    ensures Collect(fs, 0, [], ctxs[0]) == Ok(Evaluated(List(vals), ctxs[|fs|]))
  {
    CollectFrom(fs, ctxs, vals, 0);
    assert vals[..0] == [];
  }

  // ----- eval_cases -----

  lemma {:induction false} FirstNonNilFrom(fs: seq<Context -> Outcome<Evaluated>>, ctxs: seq<Context>, vals: seq<Value>, i: nat)
    requires Trace(fs, ctxs, vals) && 0 < |vals| && i < |vals|
    requires forall j :: 0 <= j < |vals| - 1 ==> vals[j].Nil?
    requires !vals[|vals| - 1].Nil?
    ensures FirstNonNil(fs, i, Evaluated(Nil, ctxs[i])) == Ok(Evaluated(vals[|vals| - 1], ctxs[|vals|]))
    decreases |vals| - i
  {
    assert fs[i](ctxs[i]) == Ok(Evaluated(vals[i], ctxs[i + 1]));
    if i < |vals| - 1 {
      assert vals[i] == Nil;
      FirstNonNilFrom(fs, ctxs, vals, i + 1);
    }
  }

  /** A CASES block gives its first non-Nil statement value: when statements
      0..k-1 give Nil and statement k gives v, the block gives v and the
      context statement k left. Nothing after statement k is looked at. */
  lemma FirstNonNilStops(fs: seq<Context -> Outcome<Evaluated>>, ctxs: seq<Context>, vals: seq<Value>)
    requires Trace(fs, ctxs, vals) && 0 < |vals|
    requires forall j :: 0 <= j < |vals| - 1 ==> vals[j].Nil?
    requires !vals[|vals| - 1].Nil?
    ensures FirstNonNil(fs, 0, Evaluated(Nil, ctxs[0])) == Ok(Evaluated(vals[|vals| - 1], ctxs[|vals|]))
  {
    FirstNonNilFrom(fs, ctxs, vals, 0);
  }

  /** Statements after the first non-Nil one are never run: appending any
      statements to such a CASES block leaves its result as it was. */
  lemma FirstNonNilIgnoresRest(fs: seq<Context -> Outcome<Evaluated>>, rest: seq<Context -> Outcome<Evaluated>>,
                               ctxs: seq<Context>, vals: seq<Value>)
    requires Trace(fs, ctxs, vals) && |vals| == |fs| && 0 < |fs|
    requires forall j :: 0 <= j < |vals| - 1 ==> vals[j].Nil?
    requires !vals[|vals| - 1].Nil?
    ensures FirstNonNil(fs + rest, 0, Evaluated(Nil, ctxs[0])) == FirstNonNil(fs, 0, Evaluated(Nil, ctxs[0]))
  {
    FirstNonNilStops(fs, ctxs, vals);
    forall j {:trigger vals[j]} | 0 <= j < |vals|
      ensures (fs + rest)[j](ctxs[j]) == Ok(Evaluated(vals[j], ctxs[j + 1]))
    {
      assert (fs + rest)[j] == fs[j];
    }
    FirstNonNilStops(fs + rest, ctxs, vals);
  }

  lemma {:induction false} AllNilFrom(fs: seq<Context -> Outcome<Evaluated>>, ctxs: seq<Context>, vals: seq<Value>, i: nat)
    requires Trace(fs, ctxs, vals) && |vals| == |fs| && i <= |fs|
    requires forall j :: 0 <= j < |vals| ==> vals[j].Nil?
    ensures FirstNonNil(fs, i, Evaluated(Nil, ctxs[i])) == Ok(Evaluated(Nil, ctxs[|fs|]))
    decreases |fs| - i
  {
    if i < |fs| {
      assert fs[i](ctxs[i]) == Ok(Evaluated(vals[i], ctxs[i + 1]));
      assert vals[i] == Nil;
      AllNilFrom(fs, ctxs, vals, i + 1);
    }
  }

  /** A CASES block whose statements all give Nil gives Nil. */
  lemma FirstNonNilAllNil(fs: seq<Context -> Outcome<Evaluated>>, ctxs: seq<Context>, vals: seq<Value>)
    requires Trace(fs, ctxs, vals) && |vals| == |fs|
    requires forall j :: 0 <= j < |vals| ==> vals[j].Nil?
    ensures FirstNonNil(fs, 0, Evaluated(Nil, ctxs[0])) == Ok(Evaluated(Nil, ctxs[|fs|]))
  {
    AllNilFrom(fs, ctxs, vals, 0);
  }

  // ----- eval_for -----

  /** The body runs once per value: turn j starts from ctxs[j] with the loop
      name bound to es[j], gives vals[j] and leaves ctxs[j + 1]. */
  predicate Turns(body: Context -> Outcome<Evaluated>, name: string, es: seq<Value>, ctxs: seq<Context>, vals: seq<Value>) {
    |vals| == |es| && |ctxs| == |es| + 1
    && forall j {:trigger vals[j]} :: 0 <= j < |es| ==>
         body(SetValue(ctxs[j], name, es[j])) == Ok(Evaluated(vals[j], ctxs[j + 1]))
  }

  lemma {:induction false} ForEachFrom(body: Context -> Outcome<Evaluated>, name: string, es: seq<Value>,
                                       ctxs: seq<Context>, vals: seq<Value>, i: nat, v: Value)
    requires Turns(body, name, es, ctxs, vals) && i <= |es|
    requires 0 < i ==> v == vals[i - 1]
    ensures ForEach(body, name, es, i, Evaluated(v, ctxs[i]))
         == Ok(Evaluated(if i == |es| then v else vals[|es| - 1], ctxs[|es|]))
    decreases |es| - i
  {
    if i < |es| {
      assert body(SetValue(ctxs[i], name, es[i])) == Ok(Evaluated(vals[i], ctxs[i + 1]));
      ForEachFrom(body, name, es, ctxs, vals, i + 1, vals[i]);
    }
  }

  /** `for` over a list runs the body once per element, in order, with the
      loop name bound to the element, and gives the last turn's value (Nil
      for an empty list). */
  lemma ForEachIsLast(body: Context -> Outcome<Evaluated>, name: string, es: seq<Value>, ctxs: seq<Context>, vals: seq<Value>)
    requires Turns(body, name, es, ctxs, vals)
    ensures ForEach(body, name, es, 0, Evaluated(Nil, ctxs[0]))
         == Ok(Evaluated(if |es| == 0 then Nil else vals[|es| - 1], ctxs[|es|]))
  {
    ForEachFrom(body, name, es, ctxs, vals, 0, Nil);
  }

  /** `states` and `outs` record a run of `next`: each state steps to the
      next one yielding the next value, and the last state steps to done. */
  predicate Yields(next: RangeState -> Outcome<Step>, states: seq<RangeState>, outs: seq<Value>) {
    |states| == |outs| + 1
    && (forall i {:trigger outs[i]} :: 0 <= i < |outs| ==>
          next(states[i]) == Ok(Step(outs[i], states[i + 1])) && !states[i + 1].done)
    && next(states[|outs|]).Ok? && next(states[|outs|]).value.state.done
  }

  /** A run of the range's own `next` is a run the range loop can take. */
  lemma RunYields(states: seq<RangeState>, outs: seq<Value>)
    requires Run(states, outs)
    ensures Yields(RangeNext, states, outs)
  {
  }

  lemma {:induction false} ForRangeFrom(body: Context -> Outcome<Evaluated>, next: RangeState -> Outcome<Step>, name: string,
                                        states: seq<RangeState>, outs: seq<Value>,
                                        ctxs: seq<Context>, vals: seq<Value>, j: nat, v: Value, fuel: nat)
    requires Yields(next, states, outs) && Turns(body, name, outs, ctxs, vals)
    requires j <= |outs| && fuel >= |outs| - j
    requires 0 < j ==> v == vals[j - 1]
    ensures ForRange(body, next, name, states[j], Evaluated(v, ctxs[j]), fuel)
         == Ok(Evaluated(if j == |outs| then v else vals[|outs| - 1], ctxs[|outs|]))
    decreases |outs| - j
  {
    if j < |outs| {
      ForRangeTurn(body, next, name, states, outs, ctxs, vals, j, v, fuel);
      ForRangeFrom(body, next, name, states, outs, ctxs, vals, j + 1, vals[j], fuel - 1);
    }
  }

  /** Turn j of a traced range loop hands its value and context to turn
      j + 1. */
  lemma ForRangeTurn(body: Context -> Outcome<Evaluated>, next: RangeState -> Outcome<Step>, name: string,
                     states: seq<RangeState>, outs: seq<Value>,
                     ctxs: seq<Context>, vals: seq<Value>, j: nat, v: Value, fuel: nat)
    requires Yields(next, states, outs) && Turns(body, name, outs, ctxs, vals)
    requires j < |outs| && fuel > 0
    ensures ForRange(body, next, name, states[j], Evaluated(v, ctxs[j]), fuel)
         == ForRange(body, next, name, states[j + 1], Evaluated(vals[j], ctxs[j + 1]), fuel - 1)
  {
    assert next(states[j]) == Ok(Step(outs[j], states[j + 1])) && !states[j + 1].done;
    assert body(SetValue(ctxs[j], name, outs[j])) == Ok(Evaluated(vals[j], ctxs[j + 1]));
  }

  /** `for` over a range runs the body once per value the range yields
      before it is done, in order, with the loop name bound to the value,
      and gives the last turn's value. */
  lemma ForRangeIsLast(body: Context -> Outcome<Evaluated>, next: RangeState -> Outcome<Step>, name: string,
                       states: seq<RangeState>, outs: seq<Value>,
                       ctxs: seq<Context>, vals: seq<Value>, fuel: nat)
    requires Yields(next, states, outs) && Turns(body, name, outs, ctxs, vals) && fuel >= |outs|
    ensures ForRange(body, next, name, states[0], Evaluated(Nil, ctxs[0]), fuel)
         == Ok(Evaluated(if |outs| == 0 then Nil else vals[|outs| - 1], ctxs[|outs|]))
  {
    ForRangeFrom(body, next, name, states, outs, ctxs, vals, 0, Nil, fuel);
  }
}
