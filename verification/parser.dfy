/** The recursive-descent parser from a token sequence to a syntax tree,
    one function per grammar rule. A parse function takes the position of
    the current token and returns the node and the position after it.
    Positions past the end of the sequence read as EOF, which the lexer's
    terminating token provides in the source. */
module Parser {
  import opened Wrappers
  import opened Values
  import opened Tokens
  import opened Ast
  import Numerals

  /** Why parsing stops: each syntax error exits the program in the source. */
  datatype ParseError =
    | Expected(want: seq<TokenKind>, got: TokenKind)
    | Unexpected(got: TokenKind)
    | ParamNotIdentifier
    | MissingText(kind: TokenKind)       // a null token text stored into the tree
    | Undefined(what: string)            // behaviour C leaves undefined
    | NotModelled(what: string)

  /** A parsed node and the position of the first token after it. */
  datatype Parsed = Parsed(node: Node, pos: nat)

  type PResult = Result<Parsed, ParseError>
  type NodesResult = Result<(seq<Node>, nat), ParseError>

  function Peek(toks: seq<Token>, pos: nat): Token
  {
    if pos < |toks| then toks[pos] else Token(Eof, None)
  }

  function Kind(toks: seq<Token>, pos: nat): (k: TokenKind)
  {
    Peek(toks, pos).kind
  }

  /** The error of the `expect` macro when the current token is not of
      kind `k`. */
  function Mismatch(toks: seq<Token>, pos: nat, k: TokenKind): ParseError
  {
    Expected([k], Kind(toks, pos))
  }

  /** Skipping a run of EOL tokens. */
  function SkipEols(toks: seq<Token>, pos: nat): (q: nat)
    ensures pos <= q && (pos <= |toks| ==> q <= |toks|) && Kind(toks, q) != Eol
    ensures forall k :: pos <= k < q ==> Kind(toks, k) == Eol
    decreases |toks| - pos
  {
    if Kind(toks, pos) == Eol then SkipEols(toks, pos + 1) else pos
  }

  predicate IsSeparator(k: TokenKind) { k == Semicolon || k == Eol }

  /** Skipping a run of statement separators, `;` or EOL. */
  function SkipSeparators(toks: seq<Token>, pos: nat): (q: nat)
    ensures pos <= q && (pos <= |toks| ==> q <= |toks|) && !IsSeparator(Kind(toks, q))
    ensures forall k :: pos <= k < q ==> IsSeparator(Kind(toks, k))
    decreases |toks| - pos
  {
    if IsSeparator(Kind(toks, pos)) then SkipSeparators(toks, pos + 1) else pos
  }

  /** parse_program: leading EOLs, then statements each followed by a run
      of separators (the last may instead be followed by EOF). */
  function ParseProgram(toks: seq<Token>): (r: Result<Node, ParseError>)
    ensures r.Ok? ==> r.value.Program?
    ensures Kind(toks, SkipEols(toks, 0)) == Eof ==> r == Ok(Program([]))
  {
    match ProgramStmnts(toks, SkipEols(toks, 0))
    case Err(e) => Err(e)
    case Ok(res) => Ok(Program(res.0))
  }

  /** The statement loop of parse_program, up to EOF. */
  function ProgramStmnts(toks: seq<Token>, pos: nat): (r: NodesResult)
    ensures r.Ok? ==> pos <= r.value.1 && (pos <= |toks| ==> r.value.1 <= |toks|)
    ensures r.Ok? ==> Kind(toks, r.value.1) == Eof
    ensures Kind(toks, pos) == Eof ==> r == Ok(([], pos))
    decreases |toks| - pos, 19
  {
    if Kind(toks, pos) == Eof then Ok(([], pos))
    else
      match Stmnt(toks, pos)
      case Err(e) => Err(e)
      case Ok(s) =>
        var after := Kind(toks, s.pos);
        if after != Eof && !IsSeparator(after) then Err(Expected([Semicolon, Eol], after))
        else
          match ProgramStmnts(toks, SkipSeparators(toks, s.pos))
          case Err(e) => Err(e)
          case Ok(rest) => Ok(([s.node] + rest.0, rest.1))
  }

  /** parse_stmnt: a `for` loop, a command with its arguments, or an
      expression optionally guarded by `if`. */
  function Stmnt(toks: seq<Token>, pos: nat): (r: PResult)
    ensures r.Ok? ==> pos < r.value.pos <= |toks|
    decreases |toks| - pos, 15
  {
    if Kind(toks, pos) == Kw(For) then ForStmnt(toks, pos + 1)
    else if Kind(toks, pos) == CmdName then
      match CmdArgs(toks, pos + 1)
      case Err(e) => Err(e)
      case Ok(args) => Ok(Parsed(CmdStmt(Peek(toks, pos).text, args.0), args.1))
    else ExprStmnt(toks, pos)
  }

  /** An expression statement, optionally guarded by `if`. */
  function ExprStmnt(toks: seq<Token>, pos: nat): (r: PResult)
    ensures r.Ok? ==> pos < r.value.pos <= |toks|
    decreases |toks| - pos, 14
  {
    match Expr(toks, pos)
    case Err(e) => Err(e)
    case Ok(e) =>
      if Kind(toks, e.pos) != Kw(If) then Ok(e)
      else
        match Expr(toks, e.pos + 1)
        case Err(err) => Err(err)
        case Ok(p) => Ok(Parsed(Case(e.node, p.node), p.pos))
  }

  /** The `for` statement after its keyword: a name, `in`, an expression,
      an optional EOL and the body statement. */
  function ForStmnt(toks: seq<Token>, pos: nat): (r: PResult)
    ensures r.Ok? ==> pos < r.value.pos <= |toks| && r.value.node.ForLoop?
    ensures Kind(toks, pos) != Identifier ==> r == Err(Mismatch(toks, pos, Identifier))
    decreases |toks| - pos, 16
  {
    if Kind(toks, pos) != Identifier then Err(Mismatch(toks, pos, Identifier))
    else if Peek(toks, pos).text.None? then Err(MissingText(Identifier))
    else if Kind(toks, pos + 1) != Kw(In) then Err(Mismatch(toks, pos + 1, Kw(In)))
    else
      match Expr(toks, pos + 2)
      case Err(err) => Err(err)
      case Ok(e) =>
        var p := if Kind(toks, e.pos) == Eol then e.pos + 1 else e.pos;
        match Stmnt(toks, p)
        case Err(err) => Err(err)
        case Ok(body) => Ok(Parsed(ForLoop(Peek(toks, pos).text.value, e.node, body.node), body.pos))
  }

  /** The arguments of a command: expressions up to EOL or EOF. */
  function CmdArgs(toks: seq<Token>, pos: nat): (r: NodesResult)
    ensures r.Ok? ==> pos <= r.value.1 && (pos <= |toks| ==> r.value.1 <= |toks|)
    ensures r.Ok? ==> (Kind(toks, r.value.1) == Eol || Kind(toks, r.value.1) == Eof)
    decreases |toks| - pos, 14
  {
    if Kind(toks, pos) == Eol || Kind(toks, pos) == Eof then Ok(([], pos))
    else
      match Expr(toks, pos)
      case Err(err) => Err(err)
      case Ok(e) =>
        match CmdArgs(toks, e.pos)
        case Err(err) => Err(err)
        case Ok(rest) => Ok(([e.node] + rest.0, rest.1))
  }

  /** parse_expr / parse_disj: at most one `|`. */
  function Expr(toks: seq<Token>, pos: nat): (r: PResult)
    ensures r.Ok? ==> pos < r.value.pos <= |toks|
    decreases |toks| - pos, 13
  {
    match Conj(toks, pos)
    case Err(err) => Err(err)
    case Ok(l) =>
      if Kind(toks, l.pos) != Pipe then Ok(l)
      else
        match Conj(toks, l.pos + 1)
        case Err(err) => Err(err)
        case Ok(r) => Ok(Parsed(BinOp(Pipe, l.node, r.node), r.pos))
  }

  /** parse_conj: at most one `&`. */
  function Conj(toks: seq<Token>, pos: nat): (r: PResult)
    ensures r.Ok? ==> pos < r.value.pos <= |toks|
    decreases |toks| - pos, 12
  {
    match Comp(toks, pos)
    case Err(err) => Err(err)
    case Ok(l) =>
      if Kind(toks, l.pos) != Amp then Ok(l)
      else
        match Comp(toks, l.pos + 1)
        case Err(err) => Err(err)
        case Ok(r) => Ok(Parsed(BinOp(Amp, l.node, r.node), r.pos))
  }

  /** parse_comp: at most one comparison operator. */
  function Comp(toks: seq<Token>, pos: nat): (r: PResult)
    ensures r.Ok? ==> pos < r.value.pos <= |toks|
    decreases |toks| - pos, 11
  {
    match RangeExpr(toks, pos)
    case Err(err) => Err(err)
    case Ok(l) =>
      var op := Kind(toks, l.pos);
      if !IsComparisonOp(op) then Ok(l)
      else
        match RangeExpr(toks, l.pos + 1)
        case Err(err) => Err(err)
        case Ok(r) => Ok(Parsed(BinOp(op, l.node, r.node), r.pos))
  }

  /** parse_range: `a..b`, then optionally `..+s` (a step) or `..c` (a
      count). */
  function RangeExpr(toks: seq<Token>, pos: nat): (r: PResult)
    ensures r.Ok? ==> pos < r.value.pos <= |toks|
    decreases |toks| - pos, 10
  {
    match SumExpr(toks, pos)
    case Err(err) => Err(err)
    case Ok(a) =>
      if Kind(toks, a.pos) != DotDot then Ok(a)
      else
        match SumExpr(toks, a.pos + 1)
        case Err(err) => Err(err)
        case Ok(b) =>
          if Kind(toks, b.pos) != DotDot then Ok(Parsed(RangeNode(a.node, b.node, None, None), b.pos))
          else RangeTail(toks, a.node, b.node, b.pos + 1)
  }

  /** After `a..b..`: a `+` and a step, or a count. */
  function RangeTail(toks: seq<Token>, a: Node, b: Node, pos: nat): (r: PResult)
    ensures r.Ok? ==> pos < r.value.pos <= |toks|
    ensures r.Ok? ==> r.value.node.RangeNode? && r.value.node.rstart == a && r.value.node.rstop == b
    ensures r.Ok? ==> (Kind(toks, pos) == Plus <==> r.value.node.rstep.Some?)
    decreases |toks| - pos, 10
  {
    if Kind(toks, pos) == Plus then
      match SumExpr(toks, pos + 1)
      case Err(err) => Err(err)
      case Ok(s) => Ok(Parsed(RangeNode(a, b, None, Some(s.node)), s.pos))
    else
      match SumExpr(toks, pos)
      case Err(err) => Err(err)
      case Ok(c) => Ok(Parsed(RangeNode(a, b, Some(c.node), None), c.pos))
  }

  /** parse_sum: terms joined by `+` and `-`, folded to the left. */
  function SumExpr(toks: seq<Token>, pos: nat): (r: PResult)
    ensures r.Ok? ==> pos < r.value.pos <= |toks|
    decreases |toks| - pos, 9
  {
    match Term(toks, pos)
    case Err(err) => Err(err)
    case Ok(t) => SumRest(toks, t.node, t.pos)
  }

  function SumRest(toks: seq<Token>, lhs: Node, pos: nat): (r: PResult)
    ensures r.Ok? ==> pos <= r.value.pos && (pos <= |toks| ==> r.value.pos <= |toks|)
    ensures r.Ok? ==> !IsAdditiveOp(Kind(toks, r.value.pos))
    ensures !IsAdditiveOp(Kind(toks, pos)) ==> r == Ok(Parsed(lhs, pos))
    decreases |toks| - pos, 8
  {
    var op := Kind(toks, pos);
    if !IsAdditiveOp(op) then Ok(Parsed(lhs, pos))
    else
      match Term(toks, pos + 1)
      case Err(err) => Err(err)
      case Ok(t) => SumRest(toks, BinOp(op, lhs, t.node), t.pos)
  }

  /** parse_term: factors joined by `*`, `/` and `%`, folded to the left. */
  function Term(toks: seq<Token>, pos: nat): (r: PResult)
    ensures r.Ok? ==> pos < r.value.pos <= |toks|
    decreases |toks| - pos, 7
  {
    match Factor(toks, pos)
    case Err(err) => Err(err)
    case Ok(f) => TermRest(toks, f.node, f.pos)
  }

  function TermRest(toks: seq<Token>, lhs: Node, pos: nat): (r: PResult)
    ensures r.Ok? ==> pos <= r.value.pos && (pos <= |toks| ==> r.value.pos <= |toks|)
    ensures r.Ok? ==> !IsProductOp(Kind(toks, r.value.pos))
    ensures !IsProductOp(Kind(toks, pos)) ==> r == Ok(Parsed(lhs, pos))
    decreases |toks| - pos, 6
  {
    var op := Kind(toks, pos);
    if !IsProductOp(op) then Ok(Parsed(lhs, pos))
    else
      match Factor(toks, pos + 1)
      case Err(err) => Err(err)
      case Ok(f) => TermRest(toks, BinOp(op, lhs, f.node), f.pos)
  }

  /** parse_factor: a prefix `-`, `#` or `!` applies to a whole factor;
      otherwise an atom, raised by `^` to a factor (right-associative). */
  function Factor(toks: seq<Token>, pos: nat): (r: PResult)
    ensures r.Ok? ==> pos < r.value.pos <= |toks|
    decreases |toks| - pos, 6
  {
    var op := Kind(toks, pos);
    if IsUnaryOp(op) then
      match Factor(toks, pos + 1)
      case Err(err) => Err(err)
      case Ok(x) => Ok(Parsed(UnOp(op, x.node), x.pos))
    else
      match Atom(toks, pos)
      case Err(err) => Err(err)
      case Ok(a) => PowerTail(toks, a.node, a.pos)
  }

  /** After an atom `base`: `^` and a factor, or nothing. */
  function PowerTail(toks: seq<Token>, base: Node, pos: nat): (r: PResult)
    ensures r.Ok? ==> pos <= r.value.pos && (pos <= |toks| ==> r.value.pos <= |toks|)
    ensures Kind(toks, pos) != Power ==> r == Ok(Parsed(base, pos))
    decreases |toks| - pos, 6
  {
    if Kind(toks, pos) != Power then Ok(Parsed(base, pos))
    else
      match Factor(toks, pos + 1)
      case Err(err) => Err(err)
      case Ok(e) => Ok(Parsed(BinOp(Power, base, e.node), e.pos))
  }

  /** The tokens an atom can start with. */
  predicate StartsAtom(k: TokenKind)
  {
    k.Identifier? || k.LParen? || k.LBracket? || k.IntegerLit? || k.FloatLit? || k.StringLit?
    || k == Kw(InfKw) || k.LBrace?
  }

  /** The tokens that continue a name into an assignment, call or index. */
  predicate ContinuesName(k: TokenKind) { k.Eq? || k.LParen? || k.LBracket? }

  /** parse_atom. */
  function Atom(toks: seq<Token>, pos: nat): (r: PResult)
    ensures r.Ok? ==> pos < r.value.pos <= |toks|
    ensures !StartsAtom(Kind(toks, pos)) ==> r == Err(Unexpected(Kind(toks, pos)))
    decreases |toks| - pos, 5
  {
    AtomOf(toks, pos, Kind(toks, pos))
  }

  /** An atom, by the kind `k` of its first token. */
  function AtomOf(toks: seq<Token>, pos: nat, k: TokenKind): (r: PResult)
    requires k == Kind(toks, pos)
    ensures r.Ok? ==> pos < r.value.pos <= |toks|
    ensures !StartsAtom(k) ==> r == Err(Unexpected(k))
    decreases |toks| - pos, 4
  {
    if k == LParen then
      match Expr(toks, pos + 1)
      case Err(err) => Err(err)
      case Ok(e) =>
        if Kind(toks, e.pos) != RParen then Err(Mismatch(toks, e.pos, RParen))
        else Ok(Parsed(e.node, e.pos + 1))
    else if k == LBracket then ListAtom(toks, pos + 1)
    else if k == LBrace then BlockExpr(toks, pos)
    else if k == Kw(InfKw) then Ok(Parsed(Lit(Inf), pos + 1))
    else if !(k.Identifier? || k.IntegerLit? || k.FloatLit? || k.StringLit?) then Err(Unexpected(k))
    else
      match Peek(toks, pos).text
      case None => Err(MissingText(k))
      case Some(text) =>
        if k == Identifier then IdentTail(toks, text, pos + 1)
        else LiteralAtom(k, text, pos)
  }

  /** The value of a literal token, read as the source does: integers with
      atoll, floats with atof, strings as written. */
  function LiteralAtom(k: TokenKind, text: string, pos: nat): (r: PResult)
    requires k == IntegerLit || k == FloatLit || k == StringLit
    ensures r.Ok? ==> r.value.pos == pos + 1 && r.value.node.Lit?
    ensures k == StringLit ==> r == Ok(Parsed(Lit(Str(text)), pos + 1))
    ensures k == IntegerLit ==>
      (r.Ok? <==> Numerals.AtoLL(text).Some?) &&
      (r.Ok? ==> r.value.node == Lit(Int(Numerals.AtoLL(text).value)))
  {
    if k == StringLit then Ok(Parsed(Lit(Str(text)), pos + 1))
    else if k == IntegerLit then
      match Numerals.AtoLL(text)
      case None => Err(ParseError.Undefined("atoll result out of range"))
      case Some(v) => Ok(Parsed(Lit(Int(v)), pos + 1))
    else
      match Numerals.AtoF(text)
      case None => Err(ParseError.NotModelled("atof of a non-decimal form"))
      case Some(v) => Ok(Parsed(Lit(Float(v)), pos + 1))
  }

  /** After `[`: the empty list `]`, or items and `]`. */
  function ListAtom(toks: seq<Token>, pos: nat): (r: PResult)
    ensures r.Ok? ==> pos < r.value.pos <= |toks| && r.value.node.Items?
    ensures Kind(toks, pos) == RBracket ==> r == Ok(Parsed(Items([]), pos + 1))
    decreases |toks| - pos, 15
  {
    if Kind(toks, pos) == RBracket then Ok(Parsed(Items([]), pos + 1))
    else
      match ItemList(toks, pos)
      case Err(err) => Err(err)
      case Ok(items) =>
        if Kind(toks, items.1) != RBracket then Err(Mismatch(toks, items.1, RBracket))
        else Ok(Parsed(Items(items.0), items.1 + 1))
  }

  /** parse_atom_ident_tail, after the identifier `name`: an assignment, a
      call or definition, an index or indexed assignment, or nothing. */
  function IdentTail(toks: seq<Token>, name: string, pos: nat): (r: PResult)
    ensures r.Ok? ==> pos <= r.value.pos && (pos <= |toks| ==> r.value.pos <= |toks|)
    ensures !ContinuesName(Kind(toks, pos)) ==> r == Ok(Parsed(Ident(name), pos))
    ensures r.Ok? && Kind(toks, pos) == Eq ==> r.value.node.Assign? && r.value.node.target == Ident(name)
    decreases |toks| - pos, 3
  {
    var k := Kind(toks, pos);
    if k == Eq then
      match Expr(toks, pos + 1)
      case Err(err) => Err(err)
      case Ok(v) => Ok(Parsed(Assign(Ident(name), v.node), v.pos))
    else if k == LParen then CallTail(toks, name, pos + 1)
    else if k == LBracket then IndexTail(toks, name, pos + 1)
    else Ok(Parsed(Ident(name), pos))
  }

  /** Every parameter of a definition is a plain name. */
  predicate AllNames(ns: seq<Node>)
  {
    forall k :: 0 <= k < |ns| ==> ns[k].Ident?
  }

  /** After `name(`: a call, or with a following `=` a definition whose
      parameters must all be names. `name()` skips the argument list and
      leaves the node's parameter count unset; a call carries no arguments,
      while a definition's parameter check reads the unset count. */
  function CallTail(toks: seq<Token>, name: string, pos: nat): (r: PResult)
    ensures r.Ok? ==> pos < r.value.pos <= |toks|
    ensures r.Ok? ==> (r.value.node.Call? || r.value.node.FunDef?) && r.value.node.fname == name
    ensures Kind(toks, pos) == RParen ==> (r.Ok? <==> Kind(toks, pos + 1) != Eq)
    decreases |toks| - pos, 15
  {
    if Kind(toks, pos) == RParen then
      if Kind(toks, pos + 1) == Eq then Err(ParseError.Undefined("parameter count read uninitialised"))
      else CallClose(toks, name, [], pos)
    else
      match ItemList(toks, pos)
      case Err(err) => Err(err)
      case Ok(items) => CallClose(toks, name, items.0, items.1)
  }

  /** After the arguments of `name(`: `)`, then optionally `=` and the
      body of a definition. */
  function CallClose(toks: seq<Token>, name: string, params: seq<Node>, pos: nat): (r: PResult)
    ensures r.Ok? ==> pos < r.value.pos <= |toks|
    ensures r.Ok? ==> (r.value.node.Call? || r.value.node.FunDef?) && r.value.node.fname == name
    decreases |toks| - pos, 14
  {
    if Kind(toks, pos) != RParen then Err(Mismatch(toks, pos, RParen))
    else if Kind(toks, pos + 1) != Eq then Ok(Parsed(Call(name, params), pos + 1))
    else if !AllNames(params) then Err(ParamNotIdentifier)
    else
      match Expr(toks, pos + 2)
      case Err(err) => Err(err)
      case Ok(b) => Ok(Parsed(FunDef(name, params, b.node), b.pos))
  }

  /** After `name[`: an index, or with a following `=` an indexed
      assignment. */
  function IndexTail(toks: seq<Token>, name: string, pos: nat): (r: PResult)
    ensures r.Ok? ==> pos < r.value.pos <= |toks|
    ensures r.Ok? ==>
      ((r.value.node.Index? && r.value.node.lname == name) ||
       (r.value.node.Assign? && r.value.node.target.Index? && r.value.node.target.lname == name))
    decreases |toks| - pos, 15
  {
    match Expr(toks, pos)
    case Err(err) => Err(err)
    case Ok(i) => IndexClose(toks, name, i.node, i.pos)
  }

  /** After the index expression of `name[`: `]`, then optionally `=` and
      the assigned value. */
  function IndexClose(toks: seq<Token>, name: string, index: Node, pos: nat): (r: PResult)
    ensures r.Ok? ==> pos < r.value.pos <= |toks|
    ensures r.Ok? ==>
      ((r.value.node.Index? && r.value.node.lname == name) ||
       (r.value.node.Assign? && r.value.node.target.Index? && r.value.node.target.lname == name))
    decreases |toks| - pos, 14
  {
    if Kind(toks, pos) != RBracket then Err(Mismatch(toks, pos, RBracket))
    else if Kind(toks, pos + 1) != Eq then Ok(Parsed(Index(name, index), pos + 1))
    else
      match Expr(toks, pos + 2)
      case Err(err) => Err(err)
      case Ok(v) => Ok(Parsed(Assign(Index(name, index), v.node), v.pos))
  }

  /** parse_items: one or more expressions separated by commas. */
  function ItemList(toks: seq<Token>, pos: nat): (r: NodesResult)
    ensures r.Ok? ==> pos < r.value.1 <= |toks| && |r.value.0| >= 1
    ensures r.Ok? ==> Kind(toks, r.value.1) != Comma
    decreases |toks| - pos, 14
  {
    match Expr(toks, pos)
    case Err(err) => Err(err)
    case Ok(e) => ItemsRest(toks, [e.node], e.pos)
  }

  function ItemsRest(toks: seq<Token>, acc: seq<Node>, pos: nat): (r: NodesResult)
    ensures r.Ok? ==> pos <= r.value.1 && (pos <= |toks| ==> r.value.1 <= |toks|)
    ensures r.Ok? ==> |r.value.0| >= |acc| && r.value.0[..|acc|] == acc
    ensures r.Ok? ==> Kind(toks, r.value.1) != Comma
    decreases |toks| - pos, 2
  {
    if Kind(toks, pos) != Comma then Ok((acc, pos))
    else
      match Expr(toks, pos + 1)
      case Err(err) => Err(err)
      case Ok(e) => ItemsRest(toks, acc + [e.node], e.pos)
  }

  /** parse_block: `{`, EOLs, statements each followed by `}` or a run of
      separators, EOLs, `}`. */
  function BlockExpr(toks: seq<Token>, pos: nat): (r: PResult)
    ensures r.Ok? ==> pos < r.value.pos <= |toks|
    ensures r.Ok? ==> r.value.node.Block? || r.value.node.Cases?
    decreases |toks| - pos, 3
  {
    if Kind(toks, pos) != LBrace then Err(Mismatch(toks, pos, LBrace))
    else
      match BlockStmnts(toks, SkipEols(toks, pos + 1))
      case Err(err) => Err(err)
      case Ok(res) => BlockClose(toks, res.0, SkipEols(toks, res.1))
  }

  /** The closing `}` of a block: a block whose first statement is a CASE
      is a CASES node, any other block a BLOCK node. */
  function BlockClose(toks: seq<Token>, stmnts: seq<Node>, pos: nat): (r: PResult)
    ensures r.Ok? <==> Kind(toks, pos) == RBrace
    ensures r.Ok? ==> r.value.pos == pos + 1 && pos < |toks|
    ensures r.Ok? ==> r.value.node == Cases(stmnts) || r.value.node == Block(stmnts)
    ensures r.Ok? ==> (r.value.node.Cases? <==> |stmnts| >= 1 && stmnts[0].Case?)
  {
    if Kind(toks, pos) != RBrace then Err(Mismatch(toks, pos, RBrace))
    else if |stmnts| >= 1 && stmnts[0].Case? then Ok(Parsed(Cases(stmnts), pos + 1))
    else Ok(Parsed(Block(stmnts), pos + 1))
  }

  function BlockStmnts(toks: seq<Token>, pos: nat): (r: NodesResult)
    ensures r.Ok? ==> pos <= r.value.1 && (pos <= |toks| ==> r.value.1 <= |toks|)
    ensures r.Ok? ==> Kind(toks, r.value.1) == RBrace
    decreases |toks| - pos, 16
  {
    if Kind(toks, pos) == RBrace then Ok(([], pos))
    else
      match Stmnt(toks, pos)
      case Err(err) => Err(err)
      case Ok(s) =>
        var after := Kind(toks, s.pos);
        if after != RBrace && !IsSeparator(after) then Err(Expected([RBrace, Semicolon, Eol], after))
        else
          match BlockStmnts(toks, SkipSeparators(toks, s.pos))
          case Err(err) => Err(err)
          case Ok(rest) => Ok(([s.node] + rest.0, rest.1))
  }
}
