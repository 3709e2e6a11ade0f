/** The single-pass scanner from source text to tokens. The input is the
    text of a C string: it holds no NUL, and reading at its length reads
    the terminating NUL. */
module Lexer {
  import opened Wrappers
  import opened Chars
  import opened Tokens

  /** Why scanning stops. Each is fatal or undefined in the source. */
  datatype LexError =
    | Hangs(at: nat)            // a space: the loop `continue`s without advancing
    | UnknownChar(c: char, at: nat)
    | ReadPastEnd(at: nat)      // an unterminated comment or string walks past the NUL
    | BufferOverflow(at: nat)   // a token text that does not fit the 512-byte buffer

  /** Token texts are copied into 512-byte buffers, NUL included. */
  const TEXT_BUFFER: nat := 512

  /** The end of the run of word characters starting at `i`. */
  function WordEnd(src: string, i: nat): (j: nat)
    requires i <= |src|
    ensures i <= j <= |src|
    ensures forall k :: i <= k < j ==> IsWordChar(src[k])
    ensures j == |src| || !IsWordChar(src[j])
    decreases |src| - i
  {
    if i < |src| && IsWordChar(src[i]) then WordEnd(src, i + 1) else i
  }

  /** The first index at or after `i` holding `c`, if any. */
  function FindChar(src: string, i: nat, c: char): (r: Option<nat>)
    requires i <= |src|
    ensures r.Some? ==> i <= r.value < |src| && src[r.value] == c
    ensures forall k :: i <= k < (if r.Some? then r.value else |src|) ==> src[k] != c
    decreases |src| - i
  {
    if i == |src| then None
    else if src[i] == c then Some(i)
    else FindChar(src, i + 1, c)
  }

  /** The pieces of a numeral as tok_number consumes them: digits, an
      optional '.', digits, an optional exponent marker ('e' or 'E', with
      an optional '-') and digits. */
  datatype Numeral = Numeral(whole: string, dot: bool, frac: string, marker: string, expDigits: string)
  {
    predicate Valid() {
      && AllDigits(whole) && AllDigits(frac) && AllDigits(expDigits)
      && |marker| <= 2
      && (|marker| >= 1 ==> marker[0] == 'e' || marker[0] == 'E')
      && (|marker| == 2 ==> marker[1] == '-')
      && (marker == "" ==> expDigits == [])
    }
    function Spelling(): string {
      whole + (if dot then "." else "") + frac + marker + expDigits
    }
    predicate IsFloat() { dot || marker != "" }
  }

  /** tok_number: the numeral starting at `i` and where it ends. */
  function ScanNumber(src: string, i: nat): (r: (Numeral, nat))
    requires i <= |src|
    ensures i <= r.1 <= |src| && r.0.Valid() && src[i..r.1] == r.0.Spelling()
    ensures r.1 == |src| || !IsDigit(src[r.1])
    ensures !r.0.dot && r.0.frac == [] && r.0.marker == "" ==> At(src, r.1) != '.'
    ensures r.0.marker == "" ==> At(src, r.1) != 'e' && At(src, r.1) != 'E'
    ensures |r.0.marker| == 1 && r.0.expDigits == [] ==> At(src, r.1) != '-'
  {
    var a := DigitsEnd(src, i);
    var b := if At(src, a) == '.' then a + 1 else a;
    var c := DigitsEnd(src, b);
    var d := MarkerEnd(src, c);
    var e := if d > c then DigitsEnd(src, d) else d;
    NumeralParts(src, i, a, b, c, d, e);
    (Numeral(src[i..a], b == a + 1, src[b..c], src[c..d], src[d..e]), e)
  }

  /** The end of the exponent marker at `c`: an 'e' or 'E' and then an
      optional '-'; `c` itself when there is none. */
  function MarkerEnd(src: string, c: nat): (d: nat)
    requires c <= |src|
    ensures c <= d <= |src| && d <= c + 2
    ensures d == c <==> At(src, c) != 'e' && At(src, c) != 'E'
    ensures d > c ==> src[c] == 'e' || src[c] == 'E'
    ensures d == c + 1 ==> At(src, c + 1) != '-'
    ensures d == c + 2 ==> src[c + 1] == '-'
  {
    if At(src, c) != 'e' && At(src, c) != 'E' then c
    else if At(src, c + 1) == '-' then c + 2
    else c + 1
  }

  /** The five consecutive slices of a numeral form a valid numeral that
      spells the whole slice. */
  lemma NumeralParts(src: string, i: nat, a: nat, b: nat, c: nat, d: nat, e: nat)
    requires i <= a <= b <= c <= d <= e <= |src|
    requires forall k :: i <= k < a ==> IsDigit(src[k])
    requires forall k :: b <= k < c ==> IsDigit(src[k])
    requires forall k :: d <= k < e ==> IsDigit(src[k])
    requires b == a || (b == a + 1 && src[a] == '.')
    requires d <= c + 2 && (d > c ==> src[c] == 'e' || src[c] == 'E') && (d == c + 2 ==> src[c + 1] == '-')
    requires d == c ==> e == d
    ensures var n := Numeral(src[i..a], b == a + 1, src[b..c], src[c..d], src[d..e]);
      n.Valid() && src[i..e] == n.Spelling()
  {
    DigitSlice(src, i, a);
    DigitSlice(src, b, c);
    DigitSlice(src, d, e);
    assert src[a..b] == (if b == a + 1 then "." else "");
    SliceJoin(src, i, a, b);
    SliceJoin(src, i, b, c);
    SliceJoin(src, i, c, d);
    SliceJoin(src, i, d, e);
  }

  /** The step at a '#': a comment when a space follows, else a HASH token. */
  function HashStep(src: string, i: nat): (r: Result<(seq<Token>, nat), LexError>)
    requires NulFree(src) && i < |src| && src[i] == '#'
    ensures At(src, i + 1) != ' ' ==> r == Ok(([Token(Hash, None)], i + 1))
    ensures At(src, i + 1) == ' ' ==>
      var nl := FindChar(src, i + 1, '\n');
      && (nl.Some? ==> r == Ok(([], nl.value)) && src[nl.value] == '\n')
      && (nl.None? ==> r == Err(ReadPastEnd(|src|)))
  {
    if At(src, i + 1) == ' ' then
      match FindChar(src, i + 1, '\n')
      case Some(nl) => Ok(([], nl))
      case None => Err(ReadPastEnd(|src|))
    else Ok(([Token(Hash, None)], i + 1))
  }

  /** The step at one of '<', '>', '=', '!': a two-character operator when
      '=' follows, otherwise the one-character token; a lone '!' falls
      through into the '-' case and yields MINUS. */
  function OperatorStep(src: string, i: nat): (r: Result<(seq<Token>, nat), LexError>)
    requires NulFree(src) && i < |src| && src[i] in "<>=!"
    ensures At(src, i + 1) == '=' ==> r.Ok? && r.value.1 == i + 2 && i + 2 <= |src|
    ensures At(src, i + 1) != '=' ==> r.Ok? && r.value.1 == i + 1
    ensures r.Ok? && |r.value.0| == 1
    ensures src[i] == '<' ==> r.value.0[0] == Token(if At(src, i + 1) == '=' then Leq else Lt, None)
    ensures src[i] == '>' ==> r.value.0[0] == Token(if At(src, i + 1) == '=' then Geq else Gt, None)
    ensures src[i] == '=' ==> r.value.0[0] == Token(if At(src, i + 1) == '=' then Eeq else Eq, None)
    ensures src[i] == '!' ==> r.value.0[0] == Token(if At(src, i + 1) == '=' then Neq else Minus, None)
  {
    var two := At(src, i + 1) == '=';
    var kind :=
      match src[i]
      case '<' => if two then Leq else Lt
      case '>' => if two then Geq else Gt
      case '=' => if two then Eeq else Eq
      case _ => if two then Neq else Minus;
    Ok(([Token(kind, None)], if two then i + 2 else i + 1))
  }

  /** The step at a digit or '.': an INTEGER or FLOAT token whose text is
      exactly the characters consumed. */
  function NumberStep(src: string, i: nat): (r: Result<(seq<Token>, nat), LexError>)
    requires NulFree(src) && i < |src| && (IsDigit(src[i]) || src[i] == '.')
    ensures var (n, j) := ScanNumber(src, i);
      && (r.Ok? <==> j - i < TEXT_BUFFER)
      && (r.Ok? ==>
            r.value.1 == j && i < j
            && r.value.0 == [Token(if n.IsFloat() then FloatLit else IntegerLit, Some(src[i..j]))])
  {
    var (n, j) := ScanNumber(src, i);
    assert j > i by {
      if IsDigit(src[i]) { assert DigitsEnd(src, i) > i; }
      else { assert At(src, DigitsEnd(src, i)) == '.'; }
    }
    if j - i >= TEXT_BUFFER then Err(BufferOverflow(i))
    else Ok(([Token(if n.IsFloat() then FloatLit else IntegerLit, Some(src[i..j]))], j))
  }

  /** tok_ident_or_keyword: the word starting at `i` is a keyword (no
      text), else a command (no text), else an IDENTIFIER carrying it. */
  function WordToken(w: string): (t: Token)
    ensures AsKeyword(w).Some? ==> t == Token(Kw(AsKeyword(w).value), None)
    ensures AsKeyword(w).None? && AsCommand(w).Some? ==> t == Token(Cmd(AsCommand(w).value), None)
    ensures AsKeyword(w).None? && AsCommand(w).None? ==> t == Token(Identifier, Some(w))
  {
    if AsKeyword(w).Some? then Token(Kw(AsKeyword(w).value), None)
    else if AsCommand(w).Some? then Token(Cmd(AsCommand(w).value), None)
    else Token(Identifier, Some(w))
  }

  function WordStep(src: string, i: nat): (r: Result<(seq<Token>, nat), LexError>)
    requires NulFree(src) && i < |src| && (IsAlpha(src[i]) || src[i] == '_')
    ensures var j := WordEnd(src, i);
      && (r.Ok? <==> j - i < TEXT_BUFFER)
      && (r.Ok? ==> r.value.1 == j && i < j && r.value.0 == [WordToken(src[i..j])])
  {
    var j := WordEnd(src, i);
    if j - i >= TEXT_BUFFER then Err(BufferOverflow(i))
    else Ok(([WordToken(src[i..j])], j))
  }

  /** tok_string: the text strictly between the quotes; both are consumed.
      Without a closing quote the scanner steps past the NUL. */
  function StringStep(src: string, i: nat): (r: Result<(seq<Token>, nat), LexError>)
    requires NulFree(src) && i < |src| && src[i] == '"'
    ensures var close := FindChar(src, i + 1, '"');
      && (close.None? ==> r == Err(ReadPastEnd(|src| + 1)))
      && (close.Some? ==> (r.Ok? <==> close.value - (i + 1) < TEXT_BUFFER))
      && (r.Ok? ==> close.Some? && r.value == ([Token(StringLit, Some(src[i + 1..close.value]))], close.value + 1))
  {
    match FindChar(src, i + 1, '"')
    case None => Err(ReadPastEnd(|src| + 1))
    case Some(close) =>
      if close - (i + 1) >= TEXT_BUFFER then Err(BufferOverflow(i))
      else Ok(([Token(StringLit, Some(src[i + 1..close]))], close + 1))
  }

  /** One step of `tokenize` at position `i`: the tokens it appends (none
      or one) and the position it moves to. */
  function Next(src: string, i: nat): (r: Result<(seq<Token>, nat), LexError>)
    requires NulFree(src) && i < |src|
    ensures r.Ok? ==> i < r.value.1 <= |src| && |r.value.0| <= 1
    ensures r.Ok? ==> forall t :: t in r.value.0 ==> Lexed(t.kind)
    ensures r == Err(Hangs(i)) <==> src[i] == ' '
    ensures (r.Err? && r.error.UnknownChar?) <==> !Recognised(src[i])
  {
    var c := src[i];
    if c == ' ' then Err(Hangs(i))
    else if StartsLiteral(c) then LiteralStep(src, i)
    else PunctStep(src, i)
  }

  /** The characters that start a number, a word or a string. */
  predicate StartsLiteral(c: char) { IsDigit(c) || c == '.' || IsAlpha(c) || c == '_' || c == '"' }

  /** The step at the start of a number, a word or a string: one token, or
      a token too long for its buffer, or a string that is not closed. */
  function LiteralStep(src: string, i: nat): (r: Result<(seq<Token>, nat), LexError>)
    requires NulFree(src) && i < |src| && StartsLiteral(src[i])
    ensures r.Ok? ==> i < r.value.1 <= |src| && |r.value.0| == 1 && Lexed(r.value.0[0].kind)
    ensures r.Err? ==> r.error.BufferOverflow? || r.error.ReadPastEnd?
  {
    var c := src[i];
    if IsDigit(c) || c == '.' then NumberStep(src, i)
    else if IsAlpha(c) || c == '_' then WordStep(src, i)
    else StringStep(src, i)
  }

  /** The step at any other character: a newline, a comment or '#', an
      operator, a punctuation token, or an unknown character. */
  function PunctStep(src: string, i: nat): (r: Result<(seq<Token>, nat), LexError>)
    requires NulFree(src) && i < |src| && src[i] != ' ' && !StartsLiteral(src[i])
    ensures r.Ok? ==> i < r.value.1 <= |src| && |r.value.0| <= 1
    ensures r.Ok? ==> forall t :: t in r.value.0 ==> Lexed(t.kind)
    ensures r.Err? ==> r.error.UnknownChar? || r.error.ReadPastEnd?
    ensures (r.Err? && r.error.UnknownChar?) <==> !Recognised(src[i])
  {
    var c := src[i];
    if c == '\n' then Ok(([Token(Eol, None)], i + 1))
    else if c == '#' then HashStep(src, i)
    else if c in "<>=!" then OperatorStep(src, i)
    else if SingleKind(c).Some? then Ok(([Token(SingleKind(c).value, None)], i + 1))
    else Err(UnknownChar(c, i))
  }

  /** The kinds the scanner can emit: never WS, COMMENT, BANG or EOF, and
      none of the parser-only kinds. */
  predicate Lexed(k: TokenKind)
  {
    match k
    case Ws | Comment | Bang | Eof | DotDot | CmdName | Pipe | Amp => false
    case _ => true
  }

  /** The punctuation that maps to a token of its own and advances by one. */
  function SingleKind(c: char): (r: Option<TokenKind>)
    ensures r.Some? ==> r.value !in {Eof, Eol, Hash, Lt, Gt, Eq, IntegerLit, FloatLit, StringLit, Identifier}
  {
    match c
    case '-' => Some(Minus)
    case '+' => Some(Plus)
    case '*' => Some(Star)
    case '/' => Some(Slash)
    case '^' => Some(Power)
    case '%' => Some(Percent)
    case ',' => Some(Comma)
    case '(' => Some(LParen)
    case ')' => Some(RParen)
    case ':' => Some(Colon)
    case ';' => Some(Semicolon)
    case '[' => Some(LBracket)
    case ']' => Some(RBracket)
    case '{' => Some(LBrace)
    case '}' => Some(RBrace)
    case _ => None
  }

  /** The characters some case of the scanner handles. */
  predicate Recognised(c: char)
  {
    c in " \n#<>=!.\"_" || SingleKind(c).Some? || IsDigit(c) || IsAlpha(c)
  }

  /** The tokens `tokenize` appends from position `i` on, before EOF. */
  function Lex(src: string, i: nat): (r: Result<seq<Token>, LexError>)
    requires NulFree(src) && i <= |src|
    ensures r.Ok? ==> forall k :: 0 <= k < |r.value| ==> Lexed(r.value[k].kind)
    decreases |src| - i
  {
    if i == |src| then Ok([])
    else
      match Next(src, i)
      case Err(e) => Err(e)
      case Ok(step) =>
        match Lex(src, step.1)
        case Err(e) => Err(e)
        case Ok(rest) => Ok(step.0 + rest)
  }

  /** tokenize: the tokens of the whole text, then exactly one EOF. */
  function Tokenize(src: string): (r: Result<seq<Token>, LexError>)
    requires NulFree(src) && Bytes(src)
    ensures r.Ok? ==> |r.value| >= 1 && r.value[|r.value| - 1] == Token(Eof, None)
    ensures r.Ok? ==> forall k :: 0 <= k < |r.value| - 1 ==> r.value[k].kind != Eof
    ensures r.Ok? <==> Lex(src, 0).Ok?
  {
    var ts :- Lex(src, 0);
    Ok(ts + [Token(Eof, None)])
  }
}
