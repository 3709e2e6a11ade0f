/** The syntax tree, with the node kinds the parser and the evaluator
    build and inspect. */
module Ast {
  import opened Wrappers
  import opened Values
  import T = Tokens

  datatype Node =
    | Lit(value: Value)
    | BinOp(op: T.TokenKind, lhs: Node, rhs: Node)
    | UnOp(uop: T.TokenKind, operand: Node)
    | Ident(name: string)
    | Assign(target: Node, rvalue: Node)
    | Program(stmnts: seq<Node>)
    | Items(items: seq<Node>)
    | Call(fname: string, args: seq<Node>)
    | FunDef(fname: string, params: seq<Node>, body: Node)
    | Block(stmnts: seq<Node>)
    | ForLoop(lvar: string, lexpr: Node, lbody: Node)
    | RangeNode(rstart: Node, rstop: Node, rcount: Option<Node>, rstep: Option<Node>)
    | CmdStmt(cmd: Option<string>, cargs: seq<Node>)
    | Case(cexpr: Node, pred: Node)
    | Cases(cases: seq<Node>)
    | Index(lname: string, iexpr: Node)

  /** The operators of each precedence level, loosest last. */
  predicate IsComparisonOp(k: T.TokenKind) { k.Lt? || k.Gt? || k.Leq? || k.Geq? || k.Eeq? || k.Neq? }
  predicate IsAdditiveOp(k: T.TokenKind) { k.Plus? || k.Minus? }
  predicate IsProductOp(k: T.TokenKind) { k.Star? || k.Slash? || k.Percent? }

  /** The operators a BINOP node can carry. */
  predicate IsBinaryOp(k: T.TokenKind)
  {
    k.Pipe? || k.Amp? || IsComparisonOp(k) || IsAdditiveOp(k) || IsProductOp(k) || k.Power?
  }

  /** The operators a UNOP node can carry. */
  predicate IsUnaryOp(k: T.TokenKind) { k.Minus? || k.Hash? || k.Bang? }

  /** The shape every parsed tree has: binary and unary nodes carry
      operators of their level, assignments target a name or an indexed
      name, definitions take only names as parameters, a range has a count
      or a step but never both, a CASES block starts with a CASE and a plain
      block does not. */
  predicate WellFormed(n: Node)
  {
    match n
    case Lit(_) => true
    case BinOp(op, l, r) => IsBinaryOp(op) && WellFormed(l) && WellFormed(r)
    case UnOp(op, x) => IsUnaryOp(op) && WellFormed(x)
    case Ident(_) => true
    case Assign(t, v) => (t.Ident? || (t.Index? && WellFormed(t))) && WellFormed(v)
    case Program(ss) => forall k :: 0 <= k < |ss| ==> WellFormed(ss[k])
    case Items(xs) => forall k :: 0 <= k < |xs| ==> WellFormed(xs[k])
    case Call(_, xs) => forall k :: 0 <= k < |xs| ==> WellFormed(xs[k])
    case FunDef(_, ps, b) => (forall k :: 0 <= k < |ps| ==> ps[k].Ident?) && WellFormed(b)
    case Block(ss) => (|ss| == 0 || !ss[0].Case?) && forall k :: 0 <= k < |ss| ==> WellFormed(ss[k])
    case ForLoop(_, e, b) => WellFormed(e) && WellFormed(b)
    case RangeNode(a, b, c, s) =>
      !(c.Some? && s.Some?) && WellFormed(a) && WellFormed(b)
      && (c.Some? ==> WellFormed(c.value)) && (s.Some? ==> WellFormed(s.value))
    case CmdStmt(_, xs) => forall k :: 0 <= k < |xs| ==> WellFormed(xs[k])
    case Case(e, p) => WellFormed(e) && WellFormed(p)
    case Cases(ss) => |ss| >= 1 && ss[0].Case? && forall k :: 0 <= k < |ss| ==> WellFormed(ss[k])
    case Index(_, i) => WellFormed(i)
  }

  predicate AllWellFormed(ns: seq<Node>)
  {
    forall k :: 0 <= k < |ns| ==> WellFormed(ns[k])
  }
}
