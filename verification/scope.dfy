/** The scope chain of the evaluator: a context holds its own bindings, in
    insertion order, and a chain of enclosing contexts. Reads search
    outward; writes touch only the innermost context. */
module Scope {
  import opened Wrappers
  import opened Values

  datatype Item = Item(key: string, value: Value)

  /** `local` is the context itself; `parents[0]` is its parent,
      `parents[1]` the grandparent, and so on up to the root. */
  datatype Context = Context(local: seq<Item>, parents: seq<seq<Item>>)

  /** The context chain from innermost to outermost. */
  function Chain(ctx: Context): seq<seq<Item>> {
    [ctx.local] + ctx.parents
  }

  predicate Binds(items: seq<Item>, name: string) {
    exists i :: 0 <= i < |items| && items[i].key == name
  }

  /** The index of the first item with key `name`, scanning from index `from`. */
  function FindFrom(items: seq<Item>, name: string, from: nat): (r: Option<nat>)
    requires from <= |items|
    ensures r.Some? ==> from <= r.value < |items| && items[r.value].key == name
                        && forall j :: from <= j < r.value ==> items[j].key != name
    ensures r.None? ==> forall j :: from <= j < |items| ==> items[j].key != name
    decreases |items| - from
  {
    if from == |items| then None
    else if items[from].key == name then Some(from)
    else FindFrom(items, name, from + 1)
  }

  function Find(items: seq<Item>, name: string): (r: Option<nat>)
    ensures r.Some? ==> r.value < |items| && items[r.value].key == name
                        && forall j :: 0 <= j < r.value ==> items[j].key != name
    ensures r.None? <==> !Binds(items, name)
  {
    FindFrom(items, name, 0)
  }

  /** Searches the frames from the first to the last; Nil when none binds it. */
  function ChainLookup(frames: seq<seq<Item>>, name: string): Value
    decreases |frames|
  {
    if |frames| == 0 then Nil
    else match Find(frames[0], name)
      case Some(i) => frames[0][i].value
      case None => ChainLookup(frames[1..], name)
  }

  /** get_value: the innermost binding of `name`, searching the context's own
      items before its parent chain; an unbound name reads as Nil, never an
      error. */
  function GetValue(ctx: Context, name: string): (r: Value)
    ensures Find(ctx.local, name).Some? ==> r == ctx.local[Find(ctx.local, name).value].value
    ensures Find(ctx.local, name).None? ==> r == ChainLookup(ctx.parents, name)
  {
    ChainLookup(Chain(ctx), name)
  }

  /** set_value: overwrites the first local item with key `name` in place, or
      appends one new local item; the parent chain is never touched. */
  function SetValue(ctx: Context, name: string, v: Value): (r: Context)
    ensures r.parents == ctx.parents
    ensures Binds(ctx.local, name) ==> |r.local| == |ctx.local|
    ensures !Binds(ctx.local, name) ==> r.local == ctx.local + [Item(name, v)]
    ensures forall j :: 0 <= j < |ctx.local| && ctx.local[j].key != name ==> r.local[j] == ctx.local[j]
    ensures forall j :: 0 <= j < |ctx.local| ==> r.local[j].key == ctx.local[j].key
    ensures Binds(r.local, name)
  {
    match Find(ctx.local, name)
    case Some(i) =>
      var l := ctx.local[i := Item(name, v)];
      assert l[i].key == name;
      ctx.(local := l)
    case None =>
      var l := ctx.local + [Item(name, v)];
      assert l[|ctx.local|].key == name;
      ctx.(local := l)
  }

  /** The value of the first item with key `name`, Nil if there is none. */
  function AssocLookup(items: seq<Item>, name: string): Value {
    match Find(items, name)
    case Some(i) => items[i].value
    case None => Nil
  }

  /** All frames of a chain laid end to end, innermost first. */
  function Flatten(frames: seq<seq<Item>>): seq<Item>
    decreases |frames|
  {
    if |frames| == 0 then [] else frames[0] + Flatten(frames[1..])
  }

  /** Reading a name after writing it yields the written value. */
  lemma GetAfterSet(ctx: Context, name: string, v: Value)
    ensures GetValue(SetValue(ctx, name, v), name) == v
  {
    var r := SetValue(ctx, name, v);
    match Find(ctx.local, name)
    case Some(i) =>
      assert r.local[i].key == name;
      assert forall j :: 0 <= j < i ==> r.local[j].key != name;
      FindIsFirst(r.local, name, i);
    case None =>
      var k := |ctx.local|;
      assert r.local[k] == Item(name, v);
      assert forall j :: 0 <= j < k ==> r.local[j].key != name;
      FindIsFirst(r.local, name, k);
  }

  /** Writing one name leaves the value read for every other name unchanged,
      whether that name is bound locally, in a parent, or nowhere. */
  lemma GetOtherAfterSet(ctx: Context, name: string, other: string, v: Value)
    requires other != name
    ensures GetValue(SetValue(ctx, name, v), other) == GetValue(ctx, other)
  {
    var r := SetValue(ctx, name, v);
    assert forall j :: 0 <= j < |r.local| ==> (r.local[j].key == other <==> j < |ctx.local| && ctx.local[j].key == other);
    match Find(ctx.local, other)
    case Some(i) =>
      assert r.local[i] == ctx.local[i];
      FindIsFirst(r.local, other, i);
    case None =>
      assert !Binds(r.local, other);
  }

  /** Assignment shadows instead of climbing the chain: writing a name bound
      only in a parent creates a local binding and leaves the parent's. */
  lemma SetShadowsParent(ctx: Context, name: string, v: Value)
    requires !Binds(ctx.local, name)
    ensures SetValue(ctx, name, v).local == ctx.local + [Item(name, v)]
    ensures ChainLookup(SetValue(ctx, name, v).parents, name) == ChainLookup(ctx.parents, name)
  {
  }

  /** Any index holding `name` with no earlier occurrence is what Find reports. */
  lemma FindIsFirst(items: seq<Item>, name: string, i: nat)
    requires i < |items| && items[i].key == name
    requires forall j :: 0 <= j < i ==> items[j].key != name
    ensures Find(items, name) == Some(i)
  {
    assert Binds(items, name);
  }

  /** Searching a concatenation searches the first part, then the second. */
  lemma FindAppend(a: seq<Item>, b: seq<Item>, name: string)
    ensures Find(a, name).Some? ==> Find(a + b, name) == Find(a, name)
    ensures Find(a, name).None? && Find(b, name).Some? ==> Find(a + b, name) == Some(|a| + Find(b, name).value)
    ensures Find(a, name).None? && Find(b, name).None? ==> Find(a + b, name).None?
  {
    var ab := a + b;
    match Find(a, name)
    case Some(i) =>
      FindIsFirst(ab, name, i);
    case None =>
      match Find(b, name)
      case Some(k) =>
        assert ab[|a| + k] == b[k];
        assert forall j :: 0 <= j < |a| + k ==> ab[j].key != name by {
          forall j | 0 <= j < |a| + k ensures ab[j].key != name {
            if j < |a| { assert ab[j] == a[j]; } else { assert ab[j] == b[j - |a|]; }
          }
        }
        FindIsFirst(ab, name, |a| + k);
      case None =>
  }

  /** Searching the chain frame by frame is the same as searching one
      association list made of all frames, innermost first. */
  lemma {:induction false} ChainLookupFlat(frames: seq<seq<Item>>, name: string)
    ensures ChainLookup(frames, name) == AssocLookup(Flatten(frames), name)
    decreases |frames|
  {
    if |frames| > 0 {
      ChainLookupFlat(frames[1..], name);
      FindAppend(frames[0], Flatten(frames[1..]), name);
      var flat := frames[0] + Flatten(frames[1..]);
      match Find(frames[0], name)
      case Some(i) =>
        assert flat[i] == frames[0][i];
      case None =>
        match Find(Flatten(frames[1..]), name)
        case Some(k) =>
          assert flat[|frames[0]| + k] == Flatten(frames[1..])[k];
        case None =>
    }
  }

  /** get_value is the first binding in the flattened chain, or Nil. */
  lemma GetValueFlat(ctx: Context, name: string)
    ensures GetValue(ctx, name) == AssocLookup(Flatten(Chain(ctx)), name)
    ensures GetValue(ctx, name) != Nil ==> exists k :: 0 <= k < |Chain(ctx)| && Binds(Chain(ctx)[k], name)
  {
    ChainLookupFlat(Chain(ctx), name);
    if GetValue(ctx, name) != Nil {
      BoundSomewhere(Chain(ctx), name);
    }
  }

  /** A non-Nil read comes from some frame of the chain that binds the name. */
  lemma {:induction false} BoundSomewhere(frames: seq<seq<Item>>, name: string)
    requires ChainLookup(frames, name) != Nil
    ensures exists k :: 0 <= k < |frames| && Binds(frames[k], name)
    decreases |frames|
  {
    if Find(frames[0], name).Some? {
      assert Binds(frames[0], name);
    } else {
      BoundSomewhere(frames[1..], name);
      var k :| 0 <= k < |frames[1..]| && Binds(frames[1..][k], name);
      assert frames[k + 1] == frames[1..][k];
    }
  }
}
