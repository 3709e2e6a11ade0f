/** The value serialiser ast_value_to_str: the text of a value, built as
    pieces in a string builder and concatenated at the end. */
module Printer {
  import opened Wrappers
  import opened Values
  import opened Numerals
  import opened Utils

  /** The values this model of ast_value_to_str prints: nil, Ints, strings,
      and lists and ranges made of printable values. Doubles are left out
      (their `%f` text is not modelled); every other type is a fatal error. */
  predicate Printable(v: Value)
    decreases v
  {
    match v
    case Nil => true
    case Int(_) => true
    case Str(_) => true
    case List(es) => forall k :: 0 <= k < |es| ==> Printable(es[k])
    case Range(st) => Printable(st.start) && Printable(st.stop)
    case _ => false
  }

  /** ast_value_to_str. An Int is written by `%lld`, a string verbatim, a
      list as "[" then the elements separated by ", " then "]", a range as
      its start, "..", its stop. A double goes through `%f`, which is not
      modelled; any other type is the fatal "unknown value type". The
      first element that cannot be printed decides the error. */
  function ValueToStr(v: Value): (r: Outcome<string>)
    ensures r.Ok? <==> Printable(v)
    ensures v.Nil? ==> r == Ok("nil")
    ensures v.Str? ==> r == Ok(v.s)
    decreases v, 1, 0
  {
    match v
    case Nil => Ok("nil")
    case Int(i) => Ok(IntToString(i))
    case Str(s) => Ok(s)
    case Float(_) => Err(NotModelled("%f formatting of a double"))
    case List(es) =>
      (match ItemTexts(es, 0)
       case Err(e) => Err(e)
       case Ok(ts) => Ok(Concat(ListPieces(ts))))
    case Range(st) =>
      (match ValueToStr(st.start)
       case Err(e) => Err(e)
       case Ok(a) =>
         match ValueToStr(st.stop)
         case Err(e) => Err(e)
         case Ok(b) => Ok(Concat([a, "..", b])))
    case _ => Err(UnknownValueType(TypeOf(v)))
  }

  /** The builder pieces of a list's text: "[", the element texts with ", "
      between neighbours, "]". */
  function ListPieces(ts: seq<string>): (p: seq<string>)
    ensures |p| >= 2 && p[0] == "[" && p[|p| - 1] == "]"
  {
    ["["] + Interleave(", ", ts) + ["]"]
  }

  /** The texts of the elements from `i` on, in order, or the error of the
      first of them that fails. */
  function ItemTexts(es: seq<Value>, i: nat): (r: Outcome<seq<string>>)
    requires i <= |es|
    ensures r.Ok? <==> forall k :: i <= k < |es| ==> ValueToStr(es[k]).Ok?
    ensures r.Ok? ==> |r.value| == |es| - i
    ensures r.Ok? ==> forall k :: i <= k < |es| ==> ValueToStr(es[k]) == Ok(r.value[k - i])
    decreases List(es), 0, |es| - i
  {
    if i == |es| then Ok([])
    else
      match ValueToStr(es[i])
      case Err(e) => Err(e)
      case Ok(t) =>
        match ItemTexts(es, i + 1)
        case Err(e) => Err(e)
        case Ok(ts) =>
          var r := [t] + ts;
          assert r[1..] == ts;
          assert forall k :: i < k < |es| ==> ValueToStr(es[k]) == Ok(r[k - i]);
          Ok(r)
  }

  /** When some element fails, the error is that of the first one that does. */
  lemma {:induction false} ItemsFirstError(es: seq<Value>, i: nat)
    requires i <= |es| && ItemTexts(es, i).Err?
    ensures exists k :: (i <= k < |es| && ValueToStr(es[k]) == Err(ItemTexts(es, i).error)
                         && forall j :: i <= j < k ==> ValueToStr(es[j]).Ok?)
    decreases |es| - i
  {
    if ValueToStr(es[i]).Ok? {
      ItemsFirstError(es, i + 1);
      var k :| i + 1 <= k < |es| && ValueToStr(es[k]) == Err(ItemTexts(es, i + 1).error)
               && forall j :: i + 1 <= j < k ==> ValueToStr(es[j]).Ok?;
      assert ItemTexts(es, i).error == ItemTexts(es, i + 1).error;
      assert forall j :: i <= j < k ==> ValueToStr(es[j]).Ok?;
    } else {
      assert ValueToStr(es[i]) == Err(ItemTexts(es, i).error);
    }
  }

  /** A list whose elements print as `ts` prints as "[" + ts joined by ", "
      + "]". */
  lemma ListText(es: seq<Value>, ts: seq<string>)
    requires |ts| == |es| && forall k :: 0 <= k < |es| ==> ValueToStr(es[k]) == Ok(ts[k])
    ensures ValueToStr(List(es)) == Ok("[" + Join(", ", ts) + "]")
  {
    assert ItemTexts(es, 0).value == ts;
    PiecesText(ts);
  }

  /** The builder pieces of a list concatenate to "[" + the texts joined by
      ", " + "]". */
  lemma PiecesText(ts: seq<string>)
    ensures Concat(ListPieces(ts)) == "[" + Join(", ", ts) + "]"
  {
    var mid := Interleave(", ", ts);
    ConcatAppend(["["] + mid, ["]"]);
    ConcatAppend(["["], mid);
    JoinConcat(", ", ts);
    assert Concat(["["]) == "[" by { assert ["["][..0] == []; }
    assert Concat(["]"]) == "]" by { assert ["]"][..0] == []; }
  }

  /** An Int prints in decimal: the C library's atoll reads the text back
      as the same number. */
  lemma IntText(i: int)
    requires InInt64(i)
    ensures ValueToStr(Int(i)).Ok? && AtoLL(ValueToStr(Int(i)).value) == Some(i)
  {
    AtoLLRoundTrip(i);
  }

  /** A range prints as its start, "..", its stop. */
  lemma RangeText(st: RangeState, a: string, b: string)
    requires ValueToStr(st.start) == Ok(a) && ValueToStr(st.stop) == Ok(b)
    ensures ValueToStr(Range(st)) == Ok(a + ".." + b)
  {
    assert [a, "..", b][..2] == [a, ".."];
    assert [a, ".."][..1] == [a];
    assert [a][..0] == [];
    assert Concat([a]) == a;
    assert Concat([a, ".."]) == a + "..";
  }

  /** A list fails to print with the error of its first unprintable element. */
  lemma ListFirstError(es: seq<Value>)
    requires ValueToStr(List(es)).Err?
    ensures exists k :: (0 <= k < |es| && ValueToStr(es[k]) == Err(ValueToStr(List(es)).error)
                         && forall j :: 0 <= j < k ==> ValueToStr(es[j]).Ok?)
  {
    ItemsFirstError(es, 0);
  }
}
