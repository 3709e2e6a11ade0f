/** The broadcasting layer: lifts a scalar operator over list operands,
    repeating a scalar against a list. It goes exactly one level deep: the
    elements of a list are handed to the scalar operator as they are. */
module Broadcast {
  import opened Wrappers
  import opened Values

  /** A list of `count` copies of `v` (the source's value_repeat). */
  function ValueRepeat(v: Value, count: nat): (r: Value)
    ensures r.List? && |r.elems| == count
    ensures forall i :: 0 <= i < count ==> r.elems[i] == v
  {
    List(seq(count, _ => v))
  }

  /** `rs` is the elementwise image of `xs` under a unary operator. */
  predicate Pointwise1(f: Value -> Outcome<Value>, xs: seq<Value>, rs: seq<Value>) {
    |rs| == |xs| && forall i :: 0 <= i < |xs| ==> f(xs[i]) == Ok(rs[i])
  }

  /** `rs` is the pairwise image of `xs` and `ys` under a binary operator. */
  predicate Pointwise2(f: (Value, Value) -> Outcome<Value>, xs: seq<Value>, ys: seq<Value>, rs: seq<Value>) {
    |rs| == |xs| == |ys| && forall i :: 0 <= i < |xs| ==> f(xs[i], ys[i]) == Ok(rs[i])
  }

  /** Applies `f` to the elements from first to last; the first failing
      element's error aborts the whole map. */
  function MapEach(f: Value -> Outcome<Value>, xs: seq<Value>): (r: Outcome<seq<Value>>)
    ensures r.Ok? <==> forall i :: 0 <= i < |xs| ==> f(xs[i]).Ok?
    ensures r.Ok? ==> Pointwise1(f, xs, r.value)
    ensures r.Err? ==> exists i :: 0 <= i < |xs| && f(xs[i]) == Err(r.error)
                                  && forall j :: 0 <= j < i ==> f(xs[j]).Ok?
    decreases |xs|
  {
    if |xs| == 0 then Ok([])
    else
      var y :- f(xs[0]);
      var ys :- MapEach(f, xs[1..]);
      Ok([y] + ys)
  }

  /** Applies `f` to the pairs of equal-length sequences from first to last. */
  function MapPairs(f: (Value, Value) -> Outcome<Value>, xs: seq<Value>, ys: seq<Value>): (r: Outcome<seq<Value>>)
    requires |xs| == |ys|
    ensures r.Ok? <==> forall i :: 0 <= i < |xs| ==> f(xs[i], ys[i]).Ok?
    ensures r.Ok? ==> Pointwise2(f, xs, ys, r.value)
    ensures r.Err? ==> exists i :: 0 <= i < |xs| && f(xs[i], ys[i]) == Err(r.error)
                                  && forall j :: 0 <= j < i ==> f(xs[j], ys[j]).Ok?
    decreases |xs|
  {
    if |xs| == 0 then Ok([])
    else
      var y :- f(xs[0], ys[0]);
      var ys' :- MapPairs(f, xs[1..], ys[1..]);
      Ok([y] + ys')
  }

  /** broadcast_func1: a list is mapped elementwise, anything else is
      passed to the operator directly. */
  function BroadcastFunc1(f: Value -> Outcome<Value>, v: Value): (r: Outcome<Value>)
    ensures !v.List? ==> r == f(v)
    ensures v.List? ==> (r.Ok? <==> forall i :: 0 <= i < |v.elems| ==> f(v.elems[i]).Ok?)
    ensures v.List? && r.Ok? ==> r.value.List? && Pointwise1(f, v.elems, r.value.elems)
  {
    if v.List? then
      var rs :- MapEach(f, v.elems);
      Ok(List(rs))
    else
      f(v)
  }

  /** broadcast_func2: two lists of equal length are combined pairwise, two
      lists of different lengths are fatal, a scalar facing a list is first
      repeated to the list's length, and two scalars meet `f` directly. */
  function BroadcastFunc2(f: (Value, Value) -> Outcome<Value>, lhs: Value, rhs: Value): (r: Outcome<Value>)
    ensures !lhs.List? && !rhs.List? ==> r == f(lhs, rhs)
    ensures lhs.List? && rhs.List? && |lhs.elems| != |rhs.elems| ==>
      r == Err(LengthMismatch(|lhs.elems|, |rhs.elems|))
    ensures lhs.List? && rhs.List? && |lhs.elems| == |rhs.elems| ==>
      (r.Ok? <==> forall i :: 0 <= i < |lhs.elems| ==> f(lhs.elems[i], rhs.elems[i]).Ok?)
    ensures lhs.List? && !rhs.List? ==>
      (r.Ok? <==> forall i :: 0 <= i < |lhs.elems| ==> f(lhs.elems[i], rhs).Ok?)
    ensures !lhs.List? && rhs.List? ==>
      (r.Ok? <==> forall i :: 0 <= i < |rhs.elems| ==> f(lhs, rhs.elems[i]).Ok?)
    ensures r.Ok? && (lhs.List? || rhs.List?) ==> r.value.List?
    ensures r.Ok? && lhs.List? && rhs.List? ==> Pointwise2(f, lhs.elems, rhs.elems, r.value.elems)
    ensures r.Ok? && lhs.List? && !rhs.List? ==>
      |r.value.elems| == |lhs.elems| && forall i :: 0 <= i < |lhs.elems| ==> f(lhs.elems[i], rhs) == Ok(r.value.elems[i])
    ensures r.Ok? && !lhs.List? && rhs.List? ==>
      |r.value.elems| == |rhs.elems| && forall i :: 0 <= i < |rhs.elems| ==> f(lhs, rhs.elems[i]) == Ok(r.value.elems[i])
    decreases (if lhs.List? then 0 else 1) + (if rhs.List? then 0 else 1)
  {
    if lhs.List? && rhs.List? then
      if |lhs.elems| != |rhs.elems| then Err(LengthMismatch(|lhs.elems|, |rhs.elems|))
      else
        var rs :- MapPairs(f, lhs.elems, rhs.elems);
        Ok(List(rs))
    else if lhs.List? then
      BroadcastFunc2(f, lhs, ValueRepeat(rhs, |lhs.elems|))
    else if rhs.List? then
      BroadcastFunc2(f, ValueRepeat(lhs, |rhs.elems|), rhs)
    else
      f(lhs, rhs)
  }
}
