/** What the parser builds from a token sequence: one lemma per grammar
    rule, and the grouping, tagging and program-structure rules that
    follow from them, each stated for all token sequences. */
module ParserFacts {
  import opened Wrappers
  import opened Values
  import opened Tokens
  import opened Ast
  import opened Parser
  import Numerals

  /** Tokens that end an operand at every level of the grammar. */
  predicate Closer(k: TokenKind)
  {
    !IsBinaryOp(k) && k != DotDot
  }

  /** A successful atom starts with a token that begins an atom, never
      with a prefix operator. */
  lemma AtomStarts(toks: seq<Token>, p: nat)
    requires Atom(toks, p).Ok?
    ensures StartsAtom(Kind(toks, p)) && !IsUnaryOp(Kind(toks, p))
  {
  }

  /** The lift lemmas: an operand followed by a token that does not
      continue the current level is a whole phrase of that level. */
  lemma FactorOfAtom(toks: seq<Token>, p: nat, n: Node, q: nat)
    requires Atom(toks, p) == Ok(Parsed(n, q)) && Kind(toks, q) != Power
    ensures Factor(toks, p) == Ok(Parsed(n, q))
  {
    FactorOfBase(toks, p, n, q);
  }

  lemma TermOfFactor(toks: seq<Token>, p: nat, n: Node, q: nat)
    requires Factor(toks, p) == Ok(Parsed(n, q)) && !IsProductOp(Kind(toks, q))
    ensures Term(toks, p) == Ok(Parsed(n, q))
  {
  }

  lemma SumOfTerm(toks: seq<Token>, p: nat, n: Node, q: nat)
    requires Term(toks, p) == Ok(Parsed(n, q)) && !IsAdditiveOp(Kind(toks, q))
    ensures SumExpr(toks, p) == Ok(Parsed(n, q))
  {
  }

  lemma RangeOfSum(toks: seq<Token>, p: nat, n: Node, q: nat)
    requires SumExpr(toks, p) == Ok(Parsed(n, q)) && Kind(toks, q) != DotDot
    ensures RangeExpr(toks, p) == Ok(Parsed(n, q))
  {
  }

  lemma CompOfRange(toks: seq<Token>, p: nat, n: Node, q: nat)
    requires RangeExpr(toks, p) == Ok(Parsed(n, q)) && !IsComparisonOp(Kind(toks, q))
    ensures Comp(toks, p) == Ok(Parsed(n, q))
  {
  }

  lemma ConjOfComp(toks: seq<Token>, p: nat, n: Node, q: nat)
    requires Comp(toks, p) == Ok(Parsed(n, q)) && Kind(toks, q) != Amp
    ensures Conj(toks, p) == Ok(Parsed(n, q))
  {
  }

  lemma ExprOfConj(toks: seq<Token>, p: nat, n: Node, q: nat)
    requires Conj(toks, p) == Ok(Parsed(n, q)) && Kind(toks, q) != Pipe
    ensures Expr(toks, p) == Ok(Parsed(n, q))
  {
  }

  /** Tokens that end an operand below the comparison level. */
  predicate EndsSum(k: TokenKind)
  {
    !IsAdditiveOp(k) && k != DotDot
  }

  lemma RangeOfTerm(toks: seq<Token>, p: nat, n: Node, q: nat)
    requires Term(toks, p) == Ok(Parsed(n, q)) && EndsSum(Kind(toks, q))
    ensures RangeExpr(toks, p) == Ok(Parsed(n, q))
  {
    SumOfTerm(toks, p, n, q);
    RangeOfSum(toks, p, n, q);
  }

  lemma ConjOfRange(toks: seq<Token>, p: nat, n: Node, q: nat)
    requires RangeExpr(toks, p) == Ok(Parsed(n, q))
    requires !IsComparisonOp(Kind(toks, q)) && Kind(toks, q) != Amp
    ensures Conj(toks, p) == Ok(Parsed(n, q))
  {
    CompOfRange(toks, p, n, q);
    ConjOfComp(toks, p, n, q);
  }

  /** A range-level phrase followed by a closer is a whole expression. */
  lemma ExprOfRange(toks: seq<Token>, p: nat, n: Node, q: nat)
    requires RangeExpr(toks, p) == Ok(Parsed(n, q)) && Closer(Kind(toks, q))
    ensures Expr(toks, p) == Ok(Parsed(n, q))
  {
    ConjOfRange(toks, p, n, q);
    ExprOfConj(toks, p, n, q);
  }

  /** A term followed by a closer is a whole expression. */
  lemma ExprOfTerm(toks: seq<Token>, p: nat, n: Node, q: nat)
    requires Term(toks, p) == Ok(Parsed(n, q)) && Closer(Kind(toks, q))
    ensures Expr(toks, p) == Ok(Parsed(n, q))
  {
    RangeOfTerm(toks, p, n, q);
    ExprOfRange(toks, p, n, q);
  }

  lemma TermOfAtom(toks: seq<Token>, p: nat, n: Node, q: nat)
    requires Atom(toks, p) == Ok(Parsed(n, q))
    requires Kind(toks, q) != Power && !IsProductOp(Kind(toks, q))
    ensures Term(toks, p) == Ok(Parsed(n, q))
  {
    FactorOfAtom(toks, p, n, q);
    TermOfFactor(toks, p, n, q);
  }

  lemma RangeOfAtom(toks: seq<Token>, p: nat, n: Node, q: nat)
    requires Atom(toks, p) == Ok(Parsed(n, q))
    requires Kind(toks, q) != Power && !IsProductOp(Kind(toks, q)) && EndsSum(Kind(toks, q))
    ensures RangeExpr(toks, p) == Ok(Parsed(n, q))
  {
    TermOfAtom(toks, p, n, q);
    RangeOfTerm(toks, p, n, q);
  }

  lemma ConjOfAtom(toks: seq<Token>, p: nat, n: Node, q: nat)
    requires Atom(toks, p) == Ok(Parsed(n, q))
    requires Closer(Kind(toks, q)) || Kind(toks, q) == Pipe
    ensures Conj(toks, p) == Ok(Parsed(n, q))
  {
    RangeOfAtom(toks, p, n, q);
    ConjOfRange(toks, p, n, q);
  }

  /** An operand followed by a closer is a whole expression. */
  lemma ExprOfAtom(toks: seq<Token>, p: nat, n: Node, q: nat)
    requires Atom(toks, p) == Ok(Parsed(n, q)) && Closer(Kind(toks, q))
    ensures Expr(toks, p) == Ok(Parsed(n, q))
  {
    ConjOfAtom(toks, p, n, q);
    ExprOfConj(toks, p, n, q);
  }

  /** The single-step lemmas: one grammar rule applied to operands already
      parsed at the level below it. */
  /** An atom not preceded by a prefix operator is the base of a power. */
  lemma FactorOfBase(toks: seq<Token>, p: nat, l: Node, q1: nat)
    requires Atom(toks, p) == Ok(Parsed(l, q1))
    ensures Factor(toks, p) == PowerTail(toks, l, q1)
  {
    AtomStarts(toks, p);
  }

  lemma PowerTailStep(toks: seq<Token>, l: Node, q1: nat, r: Node, q2: nat)
    requires Kind(toks, q1) == Power && Factor(toks, q1 + 1) == Ok(Parsed(r, q2))
    ensures PowerTail(toks, l, q1) == Ok(Parsed(BinOp(Power, l, r), q2))
  {
  }

  lemma PowerStep(toks: seq<Token>, p: nat, l: Node, q1: nat, r: Node, q2: nat)
    requires Atom(toks, p) == Ok(Parsed(l, q1))
    requires Kind(toks, q1) == Power && Factor(toks, q1 + 1) == Ok(Parsed(r, q2))
    ensures Factor(toks, p) == Ok(Parsed(BinOp(Power, l, r), q2))
  {
    FactorOfBase(toks, p, l, q1);
    PowerTailStep(toks, l, q1, r, q2);
  }

  lemma ProductRestStep(toks: seq<Token>, l: Node, q1: nat, r: Node, q2: nat)
    requires IsProductOp(Kind(toks, q1))
    requires Factor(toks, q1 + 1) == Ok(Parsed(r, q2)) && !IsProductOp(Kind(toks, q2))
    ensures TermRest(toks, l, q1) == Ok(Parsed(BinOp(Kind(toks, q1), l, r), q2))
  {
    assert TermRest(toks, BinOp(Kind(toks, q1), l, r), q2) == Ok(Parsed(BinOp(Kind(toks, q1), l, r), q2));
  }

  lemma ProductStep(toks: seq<Token>, p: nat, l: Node, q1: nat, r: Node, q2: nat)
    requires Factor(toks, p) == Ok(Parsed(l, q1)) && IsProductOp(Kind(toks, q1))
    requires Factor(toks, q1 + 1) == Ok(Parsed(r, q2)) && !IsProductOp(Kind(toks, q2))
    ensures Term(toks, p) == Ok(Parsed(BinOp(Kind(toks, q1), l, r), q2))
  {
    ProductRestStep(toks, l, q1, r, q2);
  }

  lemma AdditionRestStep(toks: seq<Token>, l: Node, q1: nat, r: Node, q2: nat)
    requires IsAdditiveOp(Kind(toks, q1))
    requires Term(toks, q1 + 1) == Ok(Parsed(r, q2)) && !IsAdditiveOp(Kind(toks, q2))
    ensures SumRest(toks, l, q1) == Ok(Parsed(BinOp(Kind(toks, q1), l, r), q2))
  {
    assert SumRest(toks, BinOp(Kind(toks, q1), l, r), q2) == Ok(Parsed(BinOp(Kind(toks, q1), l, r), q2));
  }

  lemma AdditionStep(toks: seq<Token>, p: nat, l: Node, q1: nat, r: Node, q2: nat)
    requires Term(toks, p) == Ok(Parsed(l, q1)) && IsAdditiveOp(Kind(toks, q1))
    requires Term(toks, q1 + 1) == Ok(Parsed(r, q2)) && !IsAdditiveOp(Kind(toks, q2))
    ensures SumExpr(toks, p) == Ok(Parsed(BinOp(Kind(toks, q1), l, r), q2))
  {
    AdditionRestStep(toks, l, q1, r, q2);
  }

  lemma ComparisonStep(toks: seq<Token>, p: nat, l: Node, q1: nat, r: Node, q2: nat)
    requires RangeExpr(toks, p) == Ok(Parsed(l, q1)) && IsComparisonOp(Kind(toks, q1))
    requires RangeExpr(toks, q1 + 1) == Ok(Parsed(r, q2))
    ensures Comp(toks, p) == Ok(Parsed(BinOp(Kind(toks, q1), l, r), q2))
  {
  }

  lemma ConjunctionStep(toks: seq<Token>, p: nat, l: Node, q1: nat, r: Node, q2: nat)
    requires Comp(toks, p) == Ok(Parsed(l, q1)) && Kind(toks, q1) == Amp
    requires Comp(toks, q1 + 1) == Ok(Parsed(r, q2))
    ensures Conj(toks, p) == Ok(Parsed(BinOp(Amp, l, r), q2))
  {
  }

  lemma DisjunctionStep(toks: seq<Token>, p: nat, l: Node, q1: nat, r: Node, q2: nat)
    requires Conj(toks, p) == Ok(Parsed(l, q1)) && Kind(toks, q1) == Pipe
    requires Conj(toks, q1 + 1) == Ok(Parsed(r, q2))
    ensures Expr(toks, p) == Ok(Parsed(BinOp(Pipe, l, r), q2))
  {
  }

  lemma UnaryStep(toks: seq<Token>, p: nat, x: Node, q: nat)
    requires IsUnaryOp(Kind(toks, p)) && Factor(toks, p + 1) == Ok(Parsed(x, q))
    ensures Factor(toks, p) == Ok(Parsed(UnOp(Kind(toks, p), x), q))
  {
  }

  lemma ParenStep(toks: seq<Token>, p: nat, n: Node, q: nat)
    requires Kind(toks, p) == LParen
    requires Expr(toks, p + 1) == Ok(Parsed(n, q)) && Kind(toks, q) == RParen
    ensures Atom(toks, p) == Ok(Parsed(n, q + 1))
  {
  }

  lemma EmptyListStep(toks: seq<Token>, p: nat)
    requires Kind(toks, p) == LBracket && Kind(toks, p + 1) == RBracket
    ensures Atom(toks, p) == Ok(Parsed(Items([]), p + 2))
  {
    assert ListAtom(toks, p + 1) == Ok(Parsed(Items([]), p + 2));
  }

  lemma ItemListStep(toks: seq<Token>, p: nat, x: Node, q0: nat, xs: seq<Node>, q: nat)
    requires Expr(toks, p) == Ok(Parsed(x, q0)) && ItemsRest(toks, [x], q0) == Ok((xs, q))
    ensures ItemList(toks, p) == Ok((xs, q))
  {
  }

  lemma ListStep(toks: seq<Token>, p: nat, x: Node, q0: nat, xs: seq<Node>, q: nat)
    requires Kind(toks, p) == LBracket && Kind(toks, p + 1) != RBracket
    requires Expr(toks, p + 1) == Ok(Parsed(x, q0)) && ItemsRest(toks, [x], q0) == Ok((xs, q))
    requires Kind(toks, q) == RBracket
    ensures Atom(toks, p) == Ok(Parsed(Items(xs), q + 1))
  {
    ListAtomStep(toks, p + 1, x, q0, xs, q);
  }

  lemma ListAtomStep(toks: seq<Token>, p: nat, x: Node, q0: nat, xs: seq<Node>, q: nat)
    requires Kind(toks, p) != RBracket
    requires Expr(toks, p) == Ok(Parsed(x, q0)) && ItemsRest(toks, [x], q0) == Ok((xs, q))
    requires Kind(toks, q) == RBracket
    ensures ListAtom(toks, p) == Ok(Parsed(Items(xs), q + 1))
  {
    ItemListStep(toks, p, x, q0, xs, q);
  }

  lemma ItemStep(toks: seq<Token>, p: nat, acc: seq<Node>, x: Node, q1: nat, xs: seq<Node>, q: nat)
    requires Kind(toks, p) == Comma
    requires Expr(toks, p + 1) == Ok(Parsed(x, q1)) && ItemsRest(toks, acc + [x], q1) == Ok((xs, q))
    ensures ItemsRest(toks, acc, p) == Ok((xs, q))
  {
  }

  /** A name token not followed by `=`, `(` or `[` is the atom IDENT. */
  lemma IdentStep(toks: seq<Token>, pos: nat, x: string)
    requires pos < |toks| && toks[pos] == Token(Identifier, Some(x))
    requires !ContinuesName(Kind(toks, pos + 1))
    ensures Atom(toks, pos) == Ok(Parsed(Ident(x), pos + 1))
  {
  }

  /** An integer token is the atom of the number it spells. */
  lemma IntStep(toks: seq<Token>, pos: nat, i: int)
    requires InInt64(i) && pos < |toks|
    requires toks[pos] == Token(IntegerLit, Some(Numerals.IntToString(i)))
    ensures Atom(toks, pos) == Ok(Parsed(Lit(Int(i)), pos + 1))
  {
    Numerals.AtoLLRoundTrip(i);
  }

  lemma StrStep(toks: seq<Token>, pos: nat, s: string)
    requires pos < |toks| && toks[pos] == Token(StringLit, Some(s))
    ensures Atom(toks, pos) == Ok(Parsed(Lit(Str(s)), pos + 1))
  {
  }

  lemma InfStep(toks: seq<Token>, pos: nat)
    requires Kind(toks, pos) == Kw(InfKw)
    ensures Atom(toks, pos) == Ok(Parsed(Lit(Inf), pos + 1))
  {
  }

  /** The printed form of a name, an integer, a string or `inf`. */

  /** An expression starts with a token that begins an atom or with a
      prefix operator. */
  lemma FactorStart(toks: seq<Token>, p: nat)
    requires Factor(toks, p).Ok?
    ensures StartsAtom(Kind(toks, p)) || IsUnaryOp(Kind(toks, p))
  {
    if !IsUnaryOp(Kind(toks, p)) {
      AtomStarts(toks, p);
    }
  }

  lemma ExprStart(toks: seq<Token>, p: nat)
    requires Expr(toks, p).Ok?
    ensures StartsAtom(Kind(toks, p)) || IsUnaryOp(Kind(toks, p))
  {
    assert Conj(toks, p).Ok? && Comp(toks, p).Ok? && RangeExpr(toks, p).Ok?;
    assert SumExpr(toks, p).Ok? && Term(toks, p).Ok?;
    FactorStart(toks, p);
  }

  // ----- Associativity and precedence -----

  /** `a - b - c` groups as `(a - b) - c`: the additive operators fold to
      the left. */
  lemma SumLeftAssoc(toks: seq<Token>, p: nat, a: Node, q1: nat, b: Node, q2: nat, c: Node, q3: nat)
    requires Term(toks, p) == Ok(Parsed(a, q1)) && IsAdditiveOp(Kind(toks, q1))
    requires Term(toks, q1 + 1) == Ok(Parsed(b, q2)) && IsAdditiveOp(Kind(toks, q2))
    requires Term(toks, q2 + 1) == Ok(Parsed(c, q3)) && !IsAdditiveOp(Kind(toks, q3))
    ensures SumExpr(toks, p) == Ok(Parsed(BinOp(Kind(toks, q2), BinOp(Kind(toks, q1), a, b), c), q3))
  {
    var ab := BinOp(Kind(toks, q1), a, b);
    AdditionRestStep(toks, ab, q2, c, q3);
    assert SumRest(toks, a, q1) == SumRest(toks, ab, q2);
  }

  /** `a / b * c` groups as `(a / b) * c`: the product operators fold to
      the left. */
  lemma TermLeftAssoc(toks: seq<Token>, p: nat, a: Node, q1: nat, b: Node, q2: nat, c: Node, q3: nat)
    requires Factor(toks, p) == Ok(Parsed(a, q1)) && IsProductOp(Kind(toks, q1))
    requires Factor(toks, q1 + 1) == Ok(Parsed(b, q2)) && IsProductOp(Kind(toks, q2))
    requires Factor(toks, q2 + 1) == Ok(Parsed(c, q3)) && !IsProductOp(Kind(toks, q3))
    ensures Term(toks, p) == Ok(Parsed(BinOp(Kind(toks, q2), BinOp(Kind(toks, q1), a, b), c), q3))
  {
    var ab := BinOp(Kind(toks, q1), a, b);
    ProductRestStep(toks, ab, q2, c, q3);
    assert TermRest(toks, a, q1) == TermRest(toks, ab, q2);
  }

  /** `a + b * c` groups as `a + (b * c)`. */
  lemma ProductBindsTighterRight(toks: seq<Token>, p: nat, a: Node, q1: nat, b: Node, q2: nat, c: Node, q3: nat)
    requires Factor(toks, p) == Ok(Parsed(a, q1)) && IsAdditiveOp(Kind(toks, q1))
    requires Factor(toks, q1 + 1) == Ok(Parsed(b, q2)) && IsProductOp(Kind(toks, q2))
    requires Factor(toks, q2 + 1) == Ok(Parsed(c, q3))
    requires !IsProductOp(Kind(toks, q3)) && !IsAdditiveOp(Kind(toks, q3))
    ensures SumExpr(toks, p) == Ok(Parsed(BinOp(Kind(toks, q1), a, BinOp(Kind(toks, q2), b, c)), q3))
  {
    TermOfFactor(toks, p, a, q1);
    ProductStep(toks, q1 + 1, b, q2, c, q3);
    AdditionStep(toks, p, a, q1, BinOp(Kind(toks, q2), b, c), q3);
  }

  /** `a * b + c` groups as `(a * b) + c`. */
  lemma ProductBindsTighterLeft(toks: seq<Token>, p: nat, a: Node, q1: nat, b: Node, q2: nat, c: Node, q3: nat)
    requires Factor(toks, p) == Ok(Parsed(a, q1)) && IsProductOp(Kind(toks, q1))
    requires Factor(toks, q1 + 1) == Ok(Parsed(b, q2)) && IsAdditiveOp(Kind(toks, q2))
    requires Factor(toks, q2 + 1) == Ok(Parsed(c, q3))
    requires !IsProductOp(Kind(toks, q3)) && !IsAdditiveOp(Kind(toks, q3))
    ensures SumExpr(toks, p) == Ok(Parsed(BinOp(Kind(toks, q2), BinOp(Kind(toks, q1), a, b), c), q3))
  {
    ProductStep(toks, p, a, q1, b, q2);
    TermOfFactor(toks, q2 + 1, c, q3);
    AdditionStep(toks, p, BinOp(Kind(toks, q1), a, b), q2, c, q3);
  }

  /** `a ^ b ^ c` groups as `a ^ (b ^ c)`. */
  lemma PowerRightAssoc(toks: seq<Token>, p: nat, a: Node, q1: nat, b: Node, q2: nat, c: Node, q3: nat)
    requires Atom(toks, p) == Ok(Parsed(a, q1)) && Kind(toks, q1) == Power
    requires Atom(toks, q1 + 1) == Ok(Parsed(b, q2)) && Kind(toks, q2) == Power
    requires Factor(toks, q2 + 1) == Ok(Parsed(c, q3))
    ensures Factor(toks, p) == Ok(Parsed(BinOp(Power, a, BinOp(Power, b, c)), q3))
  {
    PowerStep(toks, q1 + 1, b, q2, c, q3);
    PowerStep(toks, p, a, q1, BinOp(Power, b, c), q3);
  }

  /** `-a ^ b` groups as `-(a ^ b)`: a prefix operator applies to the
      whole factor after it, power included. */
  lemma PrefixOverPower(toks: seq<Token>, p: nat, a: Node, q1: nat, b: Node, q2: nat)
    requires IsUnaryOp(Kind(toks, p))
    requires Atom(toks, p + 1) == Ok(Parsed(a, q1)) && Kind(toks, q1) == Power
    requires Factor(toks, q1 + 1) == Ok(Parsed(b, q2))
    ensures Factor(toks, p) == Ok(Parsed(UnOp(Kind(toks, p), BinOp(Power, a, b)), q2))
  {
    PowerStep(toks, p + 1, a, q1, b, q2);
    UnaryStep(toks, p, BinOp(Power, a, b), q2);
  }

  /** `-a * b` groups as `(-a) * b`: a prefix operator does not reach past
      its factor. */
  lemma PrefixBeforeProduct(toks: seq<Token>, p: nat, a: Node, q1: nat, b: Node, q2: nat)
    requires IsUnaryOp(Kind(toks, p))
    requires Factor(toks, p + 1) == Ok(Parsed(a, q1)) && IsProductOp(Kind(toks, q1))
    requires Factor(toks, q1 + 1) == Ok(Parsed(b, q2)) && !IsProductOp(Kind(toks, q2))
    ensures Term(toks, p) == Ok(Parsed(BinOp(Kind(toks, q1), UnOp(Kind(toks, p), a), b), q2))
  {
    UnaryStep(toks, p, a, q1);
    ProductStep(toks, p, UnOp(Kind(toks, p), a), q1, b, q2);
  }

  // ----- At most one operator at the loose levels -----

  /** `a < b < c`: the comparison level takes one operator, and the
      expression ends before the second comparison. */
  lemma ChainedComparisonStops(toks: seq<Token>, p: nat, a: Node, q1: nat, b: Node, q2: nat)
    requires RangeExpr(toks, p) == Ok(Parsed(a, q1)) && IsComparisonOp(Kind(toks, q1))
    requires RangeExpr(toks, q1 + 1) == Ok(Parsed(b, q2)) && IsComparisonOp(Kind(toks, q2))
    ensures Expr(toks, p) == Ok(Parsed(BinOp(Kind(toks, q1), a, b), q2))
  {
    ComparisonStep(toks, p, a, q1, b, q2);
    ConjOfComp(toks, p, BinOp(Kind(toks, q1), a, b), q2);
    ExprOfConj(toks, p, BinOp(Kind(toks, q1), a, b), q2);
  }

  /** `a & b & c`: the conjunction level takes one `&`. */
  lemma ChainedConjunctionStops(toks: seq<Token>, p: nat, a: Node, q1: nat, b: Node, q2: nat)
    requires Comp(toks, p) == Ok(Parsed(a, q1)) && Kind(toks, q1) == Amp
    requires Comp(toks, q1 + 1) == Ok(Parsed(b, q2)) && Kind(toks, q2) == Amp
    ensures Expr(toks, p) == Ok(Parsed(BinOp(Amp, a, b), q2))
  {
    ConjunctionStep(toks, p, a, q1, b, q2);
    ExprOfConj(toks, p, BinOp(Amp, a, b), q2);
  }

  /** `a | b | c`: the disjunction level takes one `|`. */
  lemma ChainedDisjunctionStops(toks: seq<Token>, p: nat, a: Node, q1: nat, b: Node, q2: nat)
    requires Conj(toks, p) == Ok(Parsed(a, q1)) && Kind(toks, q1) == Pipe
    requires Conj(toks, q1 + 1) == Ok(Parsed(b, q2)) && Kind(toks, q2) == Pipe
    ensures Expr(toks, p) == Ok(Parsed(BinOp(Pipe, a, b), q2))
  {
    DisjunctionStep(toks, p, a, q1, b, q2);
  }

  /** As a statement, `a < b < c` is a syntax error at the second
      comparison: it is neither a separator nor the end of input. */
  lemma ChainedComparisonRejected(toks: seq<Token>, p: nat, a: Node, q1: nat, b: Node, q2: nat)
    requires RangeExpr(toks, p) == Ok(Parsed(a, q1)) && IsComparisonOp(Kind(toks, q1))
    requires RangeExpr(toks, q1 + 1) == Ok(Parsed(b, q2)) && IsComparisonOp(Kind(toks, q2))
    ensures ProgramStmnts(toks, p) == Err(Expected([Semicolon, Eol], Kind(toks, q2)))
  {
    ChainedComparisonStops(toks, p, a, q1, b, q2);
    var n := BinOp(Kind(toks, q1), a, b);
    StmntOfExpr(toks, p);
    PlainStmnt(toks, p, n, q2);
    MissingSeparator(toks, p, n, q2);
  }

  // ----- Ranges -----

  /** `a..b` is a range with neither a count nor a step. */
  lemma PlainRange(toks: seq<Token>, p: nat, a: Node, q1: nat, b: Node, q2: nat)
    requires SumExpr(toks, p) == Ok(Parsed(a, q1)) && Kind(toks, q1) == DotDot
    requires SumExpr(toks, q1 + 1) == Ok(Parsed(b, q2)) && Kind(toks, q2) != DotDot
    ensures RangeExpr(toks, p) == Ok(Parsed(RangeNode(a, b, None, None), q2))
  {
  }

  /** `a..b..` continues with a step or a count. */
  lemma RangeWithTail(toks: seq<Token>, p: nat, a: Node, q1: nat, b: Node, q2: nat)
    requires SumExpr(toks, p) == Ok(Parsed(a, q1)) && Kind(toks, q1) == DotDot
    requires SumExpr(toks, q1 + 1) == Ok(Parsed(b, q2)) && Kind(toks, q2) == DotDot
    ensures RangeExpr(toks, p) == RangeTail(toks, a, b, q2 + 1)
  {
  }

  /** `a..b..+s` is a range with the step `s` and no count. */
  lemma SteppedRange(toks: seq<Token>, a: Node, b: Node, p: nat, s: Node, q: nat)
    requires Kind(toks, p) == Plus && SumExpr(toks, p + 1) == Ok(Parsed(s, q))
    ensures RangeTail(toks, a, b, p) == Ok(Parsed(RangeNode(a, b, None, Some(s)), q))
  {
  }

  /** `a..b..c` is a range with the count `c` and no step. */
  lemma CountedRange(toks: seq<Token>, a: Node, b: Node, p: nat, c: Node, q: nat)
    requires Kind(toks, p) != Plus && SumExpr(toks, p) == Ok(Parsed(c, q))
    ensures RangeTail(toks, a, b, p) == Ok(Parsed(RangeNode(a, b, Some(c), None), q))
  {
  }

  // ----- Guarded statements and blocks -----

  /** A statement that starts like an expression is an expression
      statement. */
  lemma StmntOfExpr(toks: seq<Token>, p: nat)
    requires Expr(toks, p).Ok?
    ensures Stmnt(toks, p) == ExprStmnt(toks, p) && Kind(toks, p) != Eof
  {
    ExprStart(toks, p);
  }

  /** `e if p` is the statement CASE(e, p). */
  lemma GuardedStmnt(toks: seq<Token>, p: nat, e: Node, q1: nat, c: Node, q2: nat)
    requires Expr(toks, p) == Ok(Parsed(e, q1)) && Kind(toks, q1) == Kw(If)
    requires Expr(toks, q1 + 1) == Ok(Parsed(c, q2))
    ensures ExprStmnt(toks, p) == Ok(Parsed(Case(e, c), q2))
  {
  }

  /** Without `if` the expression is the statement itself. */
  lemma PlainStmnt(toks: seq<Token>, p: nat, e: Node, q: nat)
    requires Expr(toks, p) == Ok(Parsed(e, q)) && Kind(toks, q) != Kw(If)
    ensures ExprStmnt(toks, p) == Ok(Parsed(e, q))
  {
  }

  /** A statement never starts with `}`. */
  lemma StmntStart(toks: seq<Token>, p: nat)
    requires Stmnt(toks, p).Ok?
    ensures Kind(toks, p) != RBrace
  {
    if Kind(toks, p) != Kw(For) && Kind(toks, p) != CmdName {
      assert Expr(toks, p).Ok?;
      ExprStart(toks, p);
    }
  }

  /** A block body of one statement closed by `}`. */
  lemma SingleStmntBody(toks: seq<Token>, p: nat, s: Node, q: nat)
    requires Stmnt(toks, p) == Ok(Parsed(s, q)) && Kind(toks, q) == RBrace
    ensures BlockStmnts(toks, p) == Ok(([s], q))
  {
    StmntStart(toks, p);
    assert SkipSeparators(toks, q) == q;
    assert [s] + [] == [s];
  }

  /** A block opened by `{` closes after its statements and any EOLs. */
  lemma BlockBody(toks: seq<Token>, p: nat, ss: seq<Node>, q: nat)
    requires Kind(toks, p) == LBrace && BlockStmnts(toks, SkipEols(toks, p + 1)) == Ok((ss, q))
    ensures BlockExpr(toks, p) == BlockClose(toks, ss, SkipEols(toks, q))
  {
  }

  // ----- Names followed by `=`, `(` or `[` -----

  /** A name token starts the atom read by the identifier tail. */
  lemma NameTail(toks: seq<Token>, p: nat, x: string)
    requires p < |toks| && toks[p] == Token(Identifier, Some(x))
    ensures Atom(toks, p) == IdentTail(toks, x, p + 1)
  {
    assert Atom(toks, p) == AtomOf(toks, p, Identifier);
  }

  /** After a name, `(` starts a call or definition and `[` an index. */
  lemma TailDispatch(toks: seq<Token>, x: string, p: nat)
    ensures Kind(toks, p) == LParen ==> IdentTail(toks, x, p) == CallTail(toks, x, p + 1)
    ensures Kind(toks, p) == LBracket ==> IdentTail(toks, x, p) == IndexTail(toks, x, p + 1)
  {
  }

  /** `x = e` is ASSIGNMENT(IDENT x, e). */
  lemma AssignStep(toks: seq<Token>, x: string, p: nat, v: Node, q: nat)
    requires Kind(toks, p) == Eq && Expr(toks, p + 1) == Ok(Parsed(v, q))
    ensures IdentTail(toks, x, p) == Ok(Parsed(Assign(Ident(x), v), q))
  {
  }

  /** `f(args)`: the arguments are read as items, then closed. */
  lemma CallArgs(toks: seq<Token>, f: string, p: nat, args: seq<Node>, q: nat)
    requires Kind(toks, p) != RParen && ItemList(toks, p) == Ok((args, q))
    ensures CallTail(toks, f, p) == CallClose(toks, f, args, q)
  {
  }

  /** `f(args)` not followed by `=` is the call FCALL(f, args). */
  lemma CallStep(toks: seq<Token>, f: string, args: seq<Node>, q: nat)
    requires Kind(toks, q) == RParen && Kind(toks, q + 1) != Eq
    ensures CallClose(toks, f, args, q) == Ok(Parsed(Call(f, args), q + 1))
  {
  }

  /** `f(params) = body` with only names as parameters is the definition
      FDEF(f, params, body). */
  lemma DefStep(toks: seq<Token>, f: string, params: seq<Node>, q: nat, body: Node, q2: nat)
    requires Kind(toks, q) == RParen && Kind(toks, q + 1) == Eq && AllNames(params)
    requires Expr(toks, q + 2) == Ok(Parsed(body, q2))
    ensures CallClose(toks, f, params, q) == Ok(Parsed(FunDef(f, params, body), q2))
  {
  }

  /** A definition with a parameter that is not a name is a syntax error,
      before its body is read. */
  lemma DefRejected(toks: seq<Token>, f: string, params: seq<Node>, q: nat, k: nat)
    requires Kind(toks, q) == RParen && Kind(toks, q + 1) == Eq
    requires k < |params| && !params[k].Ident?
    ensures CallClose(toks, f, params, q) == Err(ParamNotIdentifier)
  {
  }

  /** `f()` not followed by `=` is the call FCALL(f) with no arguments. */
  lemma EmptyCall(toks: seq<Token>, f: string, p: nat)
    requires Kind(toks, p) == RParen && Kind(toks, p + 1) != Eq
    ensures CallTail(toks, f, p) == Ok(Parsed(Call(f, []), p + 1))
  {
  }

  /** `f() = …`: the definition's parameter check reads the parameter
      count that `f()` never set. */
  lemma EmptyCallUndefined(toks: seq<Token>, f: string, p: nat)
    requires Kind(toks, p) == RParen && Kind(toks, p + 1) == Eq
    ensures CallTail(toks, f, p).Err? && CallTail(toks, f, p).error.Undefined?
  {
  }

  /** `x[i`: the index expression is read, then closed. */
  lemma IndexExpr(toks: seq<Token>, x: string, p: nat, i: Node, q: nat)
    requires Expr(toks, p) == Ok(Parsed(i, q))
    ensures IndexTail(toks, x, p) == IndexClose(toks, x, i, q)
  {
  }

  /** `x[i]` not followed by `=` is IDX(x, i). */
  lemma IndexStep(toks: seq<Token>, x: string, i: Node, q: nat)
    requires Kind(toks, q) == RBracket && Kind(toks, q + 1) != Eq
    ensures IndexClose(toks, x, i, q) == Ok(Parsed(Index(x, i), q + 1))
  {
  }

  /** `x[i] = e` is an ASSIGNMENT whose target is IDX(x, i). */
  lemma IndexAssignStep(toks: seq<Token>, x: string, i: Node, q: nat, v: Node, q2: nat)
    requires Kind(toks, q) == RBracket && Kind(toks, q + 1) == Eq && Expr(toks, q + 2) == Ok(Parsed(v, q2))
    ensures IndexClose(toks, x, i, q) == Ok(Parsed(Assign(Index(x, i), v), q2))
  {
  }

  // ----- Programs -----

  /** Leading EOL tokens are skipped: the statements start at the first
      other token. */
  lemma {:induction false} SkipEolsTo(toks: seq<Token>, p: nat, q: nat)
    requires p <= q && Kind(toks, q) != Eol
    requires forall k :: p <= k < q ==> Kind(toks, k) == Eol
    ensures SkipEols(toks, p) == q
    decreases q - p
  {
    if p < q {
      SkipEolsTo(toks, p + 1, q);
    }
  }

  /** A statement followed by a run of separators, then the rest of the
      program. */
  lemma ProgramStep(toks: seq<Token>, p: nat, s: Node, q: nat, rest: seq<Node>, e: nat)
    requires Kind(toks, p) != Eof && Stmnt(toks, p) == Ok(Parsed(s, q)) && IsSeparator(Kind(toks, q))
    requires ProgramStmnts(toks, SkipSeparators(toks, q)) == Ok((rest, e))
    ensures ProgramStmnts(toks, p) == Ok(([s] + rest, e))
  {
  }

  /** The final statement may end at EOF without a separator. */
  lemma LastStmnt(toks: seq<Token>, p: nat, s: Node, q: nat)
    requires Kind(toks, p) != Eof && Stmnt(toks, p) == Ok(Parsed(s, q)) && Kind(toks, q) == Eof
    ensures ProgramStmnts(toks, p) == Ok(([s], q))
  {
    assert SkipSeparators(toks, q) == q;
    assert [s] + [] == [s];
  }

  /** A statement followed by anything but a separator or EOF is a syntax
      error. */
  lemma MissingSeparator(toks: seq<Token>, p: nat, s: Node, q: nat)
    requires Kind(toks, p) != Eof && Stmnt(toks, p) == Ok(Parsed(s, q))
    requires Kind(toks, q) != Eof && !IsSeparator(Kind(toks, q))
    ensures ProgramStmnts(toks, p) == Err(Expected([Semicolon, Eol], Kind(toks, q)))
  {
  }

  /** A program whose first `n` tokens are EOLs parses as its statements
      from position `n`. */
  lemma LeadingEols(toks: seq<Token>, n: nat, ss: seq<Node>, e: nat)
    requires Kind(toks, n) != Eol && forall k :: 0 <= k < n ==> Kind(toks, k) == Eol
    requires ProgramStmnts(toks, n) == Ok((ss, e))
    ensures ParseProgram(toks) == Ok(Program(ss))
  {
    SkipEolsTo(toks, 0, n);
  }
}
