/** The sequence builders: a growable pointer array and a string builder
    that collects pieces and concatenates them at the end. Storage is a
    sequence; the capacity is kept to state the growth policy. Pieces are
    C strings, so the model's strings stand for NUL-free text. */
module Utils {

  /** The capacity after growing `cap` by doubling until it exceeds `size`. */
  function Grow(cap: nat, size: nat): (r: nat)
    requires cap > 0
    ensures r > size && r >= cap
    ensures cap > size ==> r == cap
    ensures cap <= size ==> r <= 2 * size
    decreases size + 1 - cap
  {
    if cap > size then cap else Grow(2 * cap, size)
  }

  /** Grow only ever doubles: the result is cap * 2^k for some k. */
  lemma {:induction false} GrowIsDoubling(cap: nat, size: nat)
    requires cap > 0
    ensures exists k: nat :: Grow(cap, size) == cap * Pow2(k)
    decreases size + 1 - cap
  {
    if cap > size {
      assert Grow(cap, size) == cap * Pow2(0);
    } else {
      GrowIsDoubling(2 * cap, size);
      var k: nat :| Grow(2 * cap, size) == 2 * cap * Pow2(k);
      var p := Pow2(k);
      assert Pow2(k + 1) == 2 * p;
      assert cap * (2 * p) == (2 * cap) * p;
      assert Grow(cap, size) == cap * Pow2(k + 1);
    }
  }

  function Pow2(k: nat): (p: nat)
    ensures p >= 1
  {
    if k == 0 then 1 else 2 * Pow2(k - 1)
  }

  /** PtrArr: the stored items and the allocated capacity. */
  datatype PtrArr<T> = PtrArr(items: seq<T>, capacity: nat)
  {
    /** The representation invariant: a zeroed array is empty, and the
        items fit in the allocation. */
    predicate Valid() { |items| <= capacity && (capacity == 0 ==> |items| == 0) }
  }

  const PTRARR_FIRST_CAPACITY: nat := 32
  const SB_FIRST_CAPACITY: nat := 16

  /** ptrarr_append: the first append allocates 32 slots; the capacity then
      doubles until it exceeds the old size; the item goes at the old size. */
  method PtrArrAppend<T>(a: PtrArr<T>, x: T) returns (r: PtrArr<T>)
    requires a.Valid()
    ensures r.items == a.items + [x]
    ensures r.capacity == Grow(if a.capacity == 0 then PTRARR_FIRST_CAPACITY else a.capacity, |a.items|)
    ensures r.Valid() && r.capacity > |a.items|
    ensures a.capacity > |a.items| ==> r.capacity == a.capacity
  {
    var capacity := if a.capacity == 0 then PTRARR_FIRST_CAPACITY else a.capacity;
    var cap := capacity;
    while cap <= |a.items|
      invariant cap >= capacity && Grow(cap, |a.items|) == Grow(capacity, |a.items|)
      decreases |a.items| + 1 - cap
    {
      cap := cap * 2;
    }
    r := PtrArr(a.items + [x], cap);
  }

  /** A string builder: the pieces appended so far and the capacity. */
  datatype StringBuilder = StringBuilder(pieces: seq<string>, capacity: nat)
  {
    predicate Valid() { |pieces| <= capacity && (capacity == 0 ==> |pieces| == 0) }
  }

  const EmptyBuilder := StringBuilder([], 0)

  /** sb_append: exactly one piece added at the end (16 slots at first,
      doubling while the old size does not fit). */
  function SbAppend(sb: StringBuilder, s: string): (r: StringBuilder)
    requires sb.Valid()
    ensures r.pieces == sb.pieces + [s]
    ensures r.Valid() && r.capacity > |sb.pieces|
  {
    var capacity := if sb.capacity == 0 then SB_FIRST_CAPACITY else sb.capacity;
    StringBuilder(sb.pieces + [s], Grow(capacity, |sb.pieces|))
  }

  /** The pieces sb_join produces: the strings with `sep` between each
      neighbouring pair. */
  function Interleave(sep: string, strs: seq<string>): (p: seq<string>)
    ensures |p| == if |strs| == 0 then 0 else 2 * |strs| - 1
    ensures forall k :: 0 <= k < |strs| ==> p[2 * k] == strs[k]
    ensures forall k :: 0 <= k < |strs| - 1 ==> p[2 * k + 1] == sep
    decreases |strs|
  {
    if |strs| == 0 then []
    else if |strs| == 1 then [strs[0]]
    else Interleave(sep, strs[..|strs| - 1]) + [sep, strs[|strs| - 1]]
  }

  /** sb_join: a fresh builder holding s0, sep, s1, ..., sep, s(n-1). */
  method SbJoin(sep: string, strs: seq<string>) returns (sb: StringBuilder)
    ensures sb.Valid()
    ensures |sb.pieces| == if |strs| == 0 then 0 else 2 * |strs| - 1
    ensures forall k :: 0 <= k < |strs| ==> sb.pieces[2 * k] == strs[k]
    ensures forall k :: 0 <= k < |strs| - 1 ==> sb.pieces[2 * k + 1] == sep
  {
    sb := EmptyBuilder;
    var i := 0;
    while i < |strs|
      invariant 0 <= i <= |strs| && sb.Valid()
      invariant sb.pieces == Interleave(sep, strs[..i])
    {
      if i > 0 {
        sb := SbAppend(sb, sep);
      }
      sb := SbAppend(sb, strs[i]);
      assert strs[..i + 1][..i] == strs[..i];
      i := i + 1;
    }
    assert strs[..|strs|] == strs;
  }

  /** sb_append_v: the strings appended in order. */
  method SbAppendV(sb: StringBuilder, strs: seq<string>) returns (r: StringBuilder)
    requires sb.Valid()
    ensures r.Valid() && r.pieces == sb.pieces + strs
  {
    r := sb;
    var i := 0;
    while i < |strs|
      invariant 0 <= i <= |strs| && r.Valid()
      invariant r.pieces == sb.pieces + strs[..i]
    {
      r := SbAppend(r, strs[i]);
      assert strs[..i + 1] == strs[..i] + [strs[i]];
      i := i + 1;
    }
    assert strs[..|strs|] == strs;
  }

  /** The in-order concatenation of pieces. */
  function Concat(pieces: seq<string>): string
    decreases |pieces|
  {
    if |pieces| == 0 then "" else Concat(pieces[..|pieces| - 1]) + pieces[|pieces| - 1]
  }

  /** The sum of the piece lengths. */
  function TotalLength(pieces: seq<string>): nat
    decreases |pieces|
  {
    if |pieces| == 0 then 0 else TotalLength(pieces[..|pieces| - 1]) + |pieces[|pieces| - 1]|
  }

  lemma {:induction false} ConcatLength(pieces: seq<string>)
    ensures |Concat(pieces)| == TotalLength(pieces)
    decreases |pieces|
  {
    if |pieces| > 0 {
      ConcatLength(pieces[..|pieces| - 1]);
    }
  }

  /** sb_string: the total length is summed first, then every piece is
      copied in order. */
  method SbString(sb: StringBuilder) returns (s: string)
    ensures s == Concat(sb.pieces)
    ensures |s| == TotalLength(sb.pieces)
  {
    var total := 0;
    var i := 0;
    while i < |sb.pieces|
      invariant 0 <= i <= |sb.pieces|
      invariant total == TotalLength(sb.pieces[..i])
    {
      assert sb.pieces[..i + 1][..i] == sb.pieces[..i];
      total := total + |sb.pieces[i]|;
      i := i + 1;
    }
    s := "";
    i := 0;
    while i < |sb.pieces|
      invariant 0 <= i <= |sb.pieces|
      invariant s == Concat(sb.pieces[..i])
    {
      assert sb.pieces[..i + 1][..i] == sb.pieces[..i];
      s := s + sb.pieces[i];
      i := i + 1;
    }
    assert sb.pieces[..|sb.pieces|] == sb.pieces;
    ConcatLength(sb.pieces);
    assert total == |s|;
  }

  /** The joined text, defined from the front: s0 + sep + s1 + ... */
  function Join(sep: string, strs: seq<string>): string
    decreases |strs|
  {
    if |strs| == 0 then ""
    else if |strs| == 1 then strs[0]
    else strs[0] + sep + Join(sep, strs[1..])
  }

  lemma {:induction false} ConcatAppend(a: seq<string>, b: seq<string>)
    ensures Concat(a + b) == Concat(a) + Concat(b)
    decreases |b|
  {
    if |b| == 0 {
      assert a + b == a;
    } else {
      var b' := b[..|b| - 1];
      assert (a + b)[..|a + b| - 1] == a + b';
      ConcatAppend(a, b');
    }
  }

  lemma {:induction false} InterleaveFront(sep: string, strs: seq<string>)
    requires |strs| >= 2
    ensures Interleave(sep, strs) == [strs[0], sep] + Interleave(sep, strs[1..])
    decreases |strs|
  {
    var init := strs[..|strs| - 1];
    if |strs| == 2 {
      assert init == [strs[0]];
      assert strs[1..] == [strs[1]];
    } else {
      InterleaveFront(sep, init);
      assert init[1..] == strs[1..][..|strs[1..]| - 1];
    }
  }

  /** Concatenating the pieces of sb_join gives the joined text. */
  lemma {:induction false} JoinConcat(sep: string, strs: seq<string>)
    ensures Concat(Interleave(sep, strs)) == Join(sep, strs)
    decreases |strs|
  {
    if |strs| == 1 {
      assert Concat([strs[0]]) == Concat([]) + strs[0];
    } else if |strs| >= 2 {
      InterleaveFront(sep, strs);
      JoinConcat(sep, strs[1..]);
      ConcatAppend([strs[0], sep], Interleave(sep, strs[1..]));
      assert [strs[0], sep][..1] == [strs[0]];
      assert Concat([strs[0]]) == Concat([]) + strs[0];
    }
  }
}
