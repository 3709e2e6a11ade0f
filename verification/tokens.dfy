/** The token vocabulary: every kind the lexer emits, plus the four kinds
    only the parser mentions (`..`, `|`, `&` and a command carrying its
    name), which no lexer path produces. */
module Tokens {
  import opened Wrappers

  datatype Keyword = If | And | Or | Not | For | In | InfKw

  datatype Command = Print | Write | Table | Sum | Prod | Dump

  datatype TokenKind =
    | Ws | Eol | Comment
    | Leq | Geq | Eeq | Neq
    | Plus | Minus | Star | Slash | Power | Percent
    | Comma | LParen | RParen | Colon | Semicolon
    | LBracket | RBracket | LBrace | RBrace
    | Lt | Gt | Eq | Hash | Bang
    | IntegerLit | FloatLit | StringLit | Identifier
    | Eof
    | Kw(kw: Keyword)
    | Cmd(cmd: Command)
    | DotDot | CmdName | Pipe | Amp

  /** A token: its kind and, for literals, identifiers and command names,
      the text it carries (a null pointer in the source is None). */
  datatype Token = Token(kind: TokenKind, text: Option<string>)

  /** The spelling of each keyword in the source language. */
  function KeywordText(k: Keyword): (w: string)
    ensures |w| >= 2
  {
    match k
    case If => "if"
    case And => "and"
    case Or => "or"
    case Not => "not"
    case For => "for"
    case In => "in"
    case InfKw => "Inf"
  }

  /** The spelling of each command. */
  function CommandText(c: Command): (w: string)
    ensures |w| >= 3
  {
    match c
    case Print => "print"
    case Write => "write"
    case Table => "table"
    case Sum => "sum"
    case Prod => "prod"
    case Dump => "dump"
  }

  /** tok_is_keyword / tok_kw_to_tt: the keyword spelled `w`, if any. */
  function AsKeyword(w: string): (r: Option<Keyword>)
    ensures r.None? ==> forall k: Keyword :: KeywordText(k) != w
    ensures r.Some? ==> KeywordText(r.value) == w
  {
    if w == "if" then Some(If)
    else if w == "and" then Some(And)
    else if w == "or" then Some(Or)
    else if w == "not" then Some(Not)
    else if w == "for" then Some(For)
    else if w == "in" then Some(In)
    else if w == "Inf" then Some(InfKw)
    else
      NoOtherKeyword(w);
      None
  }

  lemma NoOtherKeyword(w: string)
    requires w !in ["if", "and", "or", "not", "for", "in", "Inf"]
    ensures forall k: Keyword :: KeywordText(k) != w
  {
    forall k: Keyword ensures KeywordText(k) != w {
      match k case _ =>
    }
  }

  /** tok_is_command / tok_cmd_to_tt: the command spelled `w`, if any. */
  function AsCommand(w: string): (r: Option<Command>)
    ensures r.None? ==> forall c: Command :: CommandText(c) != w
    ensures r.Some? ==> CommandText(r.value) == w
  {
    if w == "print" then Some(Print)
    else if w == "write" then Some(Write)
    else if w == "table" then Some(Table)
    else if w == "sum" then Some(Sum)
    else if w == "prod" then Some(Prod)
    else if w == "dump" then Some(Dump)
    else
      NoOtherCommand(w);
      None
  }

  lemma NoOtherCommand(w: string)
    requires w !in ["print", "write", "table", "sum", "prod", "dump"]
    ensures forall c: Command :: CommandText(c) != w
  {
    forall c: Command ensures CommandText(c) != w {
      match c case _ =>
    }
  }

  /** Spelling a keyword and reading it back gives the keyword. */
  lemma KeywordRoundTrip(k: Keyword)
    ensures AsKeyword(KeywordText(k)) == Some(k)
  {
  }

  /** No word is both a keyword and a command. */
  lemma KeywordsAreNotCommands(w: string)
    ensures !(AsKeyword(w).Some? && AsCommand(w).Some?)
  {
  }
}
