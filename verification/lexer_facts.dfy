/** The lexer against a printer: every token the scanner emits is spelled
    by exactly the characters it consumed. */
module LexerFacts {
  import opened Wrappers
  import opened Tokens
  import opened Chars
  import opened Lexer

  /** How a token is written in source text. */
  function Spell(t: Token): string
  {
    match t.kind
    case Eol => "\n"
    case Leq => "<="
    case Geq => ">="
    case Eeq => "=="
    case Neq => "!="
    case Lt => "<"
    case Gt => ">"
    case Eq => "="
    case Hash => "#"
    case Minus => "-"
    case Plus => "+"
    case Star => "*"
    case Slash => "/"
    case Power => "^"
    case Percent => "%"
    case Comma => ","
    case LParen => "("
    case RParen => ")"
    case Colon => ":"
    case Semicolon => ";"
    case LBracket => "["
    case RBracket => "]"
    case LBrace => "{"
    case RBrace => "}"
    case IntegerLit => if t.text.Some? then t.text.value else ""
    case FloatLit => if t.text.Some? then t.text.value else ""
    case Identifier => if t.text.Some? then t.text.value else ""
    case StringLit => "\"" + (if t.text.Some? then t.text.value else "") + "\""
    case Kw(k) => KeywordText(k)
    case Cmd(c) => CommandText(c)
    case DotDot => ".."
    case Pipe => "|"
    case Amp => "&"
    case Bang => "!"
    case Ws => ""
    case Comment => ""
    case CmdName => ""
    case Eof => ""
  }

  /** The concatenated spellings of a token sequence. */
  function Render(ts: seq<Token>): (w: string)
    ensures |ts| == 0 ==> w == ""
    decreases |ts|
  {
    if |ts| == 0 then "" else Spell(ts[0]) + Render(ts[1..])
  }

  lemma RenderOne(t: Token)
    ensures Render([t]) == Spell(t)
  {
    assert [t][1..] == [];
  }

  lemma {:induction false} RenderAppend(ts: seq<Token>, us: seq<Token>)
    ensures Render(ts + us) == Render(ts) + Render(us)
    decreases |ts|
  {
    if |ts| == 0 {
      assert ts + us == us;
    } else {
      assert (ts + us)[0] == ts[0];
      assert (ts + us)[1..] == ts[1..] + us;
      RenderAppend(ts[1..], us);
    }
  }

  /** Text in which nothing is dropped or respelled by the scanner: no
      `# ` comment and no '!' outside `!=`. */
  predicate Plain(src: string)
  {
    forall k :: 0 <= k < |src| ==> PlainAt(src, k)
  }

  /** The character at `k` is neither a '!' outside `!=` nor the start of a
      `# ` comment. */
  predicate PlainAt(src: string, k: nat)
    requires k < |src|
  {
    (src[k] == '!' ==> At(src, k + 1) == '=') && (src[k] == '#' ==> At(src, k + 1) != ' ')
  }

  lemma EolSpells(src: string, i: nat)
    requires NulFree(src) && i < |src| && src[i] == '\n'
    ensures var r := PunctStep(src, i).value; Render(r.0) == src[i..r.1]
  {
    RenderOne(Token(Eol, None));
    assert src[i..i + 1] == [src[i]];
  }

  lemma HashSpells(src: string, i: nat)
    requires NulFree(src) && i < |src| && src[i] == '#' && PlainAt(src, i)
    ensures var r := PunctStep(src, i).value; Render(r.0) == src[i..r.1]
  {
    RenderOne(Token(Hash, None));
    assert src[i..i + 1] == [src[i]];
  }

  lemma OperatorSpells(src: string, i: nat)
    requires NulFree(src) && i < |src| && PlainAt(src, i) && src[i] in "<>=!"
    ensures var r := PunctStep(src, i).value; Render(r.0) == src[i..r.1]
  {
    var r := OperatorStep(src, i).value;
    RenderOne(r.0[0]);
    if At(src, i + 1) == '=' { assert src[i..r.1] == [src[i], '=']; }
    else { assert src[i..r.1] == [src[i]]; }
  }

  lemma SingleSpells(src: string, i: nat)
    requires NulFree(src) && i < |src| && src[i] != ' ' && !StartsLiteral(src[i]) && SingleKind(src[i]).Some?
    requires src[i] !in "\n#<>=!"
    ensures var r := PunctStep(src, i).value; Render(r.0) == src[i..r.1]
  {
    RenderOne(Token(SingleKind(src[i]).value, None));
    assert src[i..i + 1] == [src[i]];
  }

  lemma NumberSpells(src: string, i: nat)
    requires NulFree(src) && i < |src| && (IsDigit(src[i]) || src[i] == '.') && NumberStep(src, i).Ok?
    ensures var r := NumberStep(src, i).value; Render(r.0) == src[i..r.1]
  {
    RenderOne(NumberStep(src, i).value.0[0]);
  }

  lemma WordSpells(src: string, i: nat)
    requires NulFree(src) && i < |src| && (IsAlpha(src[i]) || src[i] == '_') && WordStep(src, i).Ok?
    ensures var r := WordStep(src, i).value; Render(r.0) == src[i..r.1]
  {
    var j := WordEnd(src, i);
    RenderOne(WordToken(src[i..j]));
    WordTokenSpells(src[i..j]);
  }

  lemma WordTokenSpells(w: string)
    ensures Spell(WordToken(w)) == w
  {
    if AsKeyword(w).Some? {
      assert KeywordText(AsKeyword(w).value) == w;
    } else if AsCommand(w).Some? {
      assert CommandText(AsCommand(w).value) == w;
    }
  }

  lemma StringSpells(src: string, i: nat)
    requires NulFree(src) && i < |src| && src[i] == '"' && StringStep(src, i).Ok?
    ensures var r := StringStep(src, i).value; Render(r.0) == src[i..r.1]
  {
    var r := StringStep(src, i).value;
    RenderOne(r.0[0]);
    var close := FindChar(src, i + 1, '"').value;
    assert src[i..r.1] == ['"'] + src[i + 1..close] + ['"'];
  }

  /** One scanner step emits tokens spelled exactly by the characters it
      consumed. */
  lemma NextSpells(src: string, i: nat)
    requires NulFree(src) && i < |src| && PlainAt(src, i) && Next(src, i).Ok?
    ensures Render(Next(src, i).value.0) == src[i..Next(src, i).value.1]
  {
    if StartsLiteral(src[i]) {
      LiteralSpells(src, i);
    } else {
      PunctSpells(src, i);
    }
  }

  lemma LiteralSpells(src: string, i: nat)
    requires NulFree(src) && i < |src| && StartsLiteral(src[i]) && LiteralStep(src, i).Ok?
    ensures Render(LiteralStep(src, i).value.0) == src[i..LiteralStep(src, i).value.1]
  {
    var c := src[i];
    if IsDigit(c) || c == '.' {
      NumberSpells(src, i);
    } else if IsAlpha(c) || c == '_' {
      WordSpells(src, i);
    } else {
      StringSpells(src, i);
    }
  }

  lemma PunctSpells(src: string, i: nat)
    requires NulFree(src) && i < |src| && PlainAt(src, i) && src[i] != ' ' && !StartsLiteral(src[i])
    requires PunctStep(src, i).Ok?
    ensures Render(PunctStep(src, i).value.0) == src[i..PunctStep(src, i).value.1]
  {
    var c := src[i];
    if c == '\n' {
      EolSpells(src, i);
    } else if c == '#' {
      HashSpells(src, i);
    } else if c in "<>=!" {
      OperatorSpells(src, i);
    } else {
      SingleSpells(src, i);
    }
  }

  /** Lexing then rendering gives back the remaining text. */
  lemma {:induction false} LexSpells(src: string, i: nat)
    requires NulFree(src) && i <= |src| && Plain(src) && Lex(src, i).Ok?
    ensures Render(Lex(src, i).value) == src[i..]
    decreases |src| - i
  {
    if i < |src| {
      LexCons(src, i);
      var step := Next(src, i).value;
      var rest := Lex(src, step.1).value;
      assert PlainAt(src, i);
      NextSpells(src, i);
      LexSpells(src, step.1);
      RenderAppend(step.0, rest);
      SliceJoin(src, i, step.1, |src|);
      assert Lex(src, i).value == step.0 + rest;
    }
  }

  /** Lexing from i is the step at i followed by lexing from where it stops. */
  lemma LexCons(src: string, i: nat)
    requires NulFree(src) && i < |src| && Lex(src, i).Ok?
    ensures Next(src, i).Ok? && Lex(src, Next(src, i).value.1).Ok?
    ensures Lex(src, i).value == Next(src, i).value.0 + Lex(src, Next(src, i).value.1).value
  {
  }

  /** tokenize then rendering gives back the whole text, for plain text. */
  lemma TokenizeSpells(src: string)
    requires NulFree(src) && Bytes(src) && Plain(src) && Tokenize(src).Ok?
    ensures Render(Tokenize(src).value) == src
  {
    LexSpells(src, 0);
    RenderEof(Lex(src, 0).value);
  }

  /** EOF is spelled by nothing. */
  lemma RenderEof(ts: seq<Token>)
    ensures Render(ts + [Token(Eof, None)]) == Render(ts)
  {
    RenderAppend(ts, [Token(Eof, None)]);
    RenderOne(Token(Eof, None));
  }

  /** A byte from 0x80 up has no C-locale class and is none of the
      punctuators, so the scanner stops on it as an unknown character. */
  lemma HighByteUnknown(src: string, i: nat)
    requires NulFree(src) && i < |src| && src[i] >= '\U{80}'
    ensures Next(src, i).Err? && Next(src, i).error.UnknownChar?
  {
  }
}
