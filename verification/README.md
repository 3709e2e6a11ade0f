# nanocalc in Dafny

A model of the core of nanocalc, a small interpreter for a calculator
language written in C. The language has Int, Float, string, list and lazy
range values, broadcasting arithmetic, `|`/`&` with short-circuiting, `e if
p` guards, `{ … }` blocks, `for x in e` loops and `a..b` ranges. The model
covers four source files:

- **evaler.c**: the value operators on their Int side, broadcasting over
  lists, the scope chain, the range state machine, and the non-call
  evaluators (`or`/`and`, statements, list items, `for`, `if`-cases,
  assignment to a name, ranges, `#` length).
- **lexer.c**: the single-pass scanner from characters to tokens.
- **parser.c**: the recursive-descent parser from tokens to a syntax tree,
  and the value printer `ast_value_to_str`.
- **utils.c**: the pointer array and the string-piece builder.

Every operation is a pure function over immutable datatypes. A range is a
state record that `next` returns updated. The context chain is a local
association sequence plus the parents' sequences, innermost first.

The C program aborts through `eval_error`, `error` or `exit`. Here each such
abort becomes an `Err` result naming the cause. Behaviour that C leaves
undefined also becomes an `Err`:

- signed overflow;
- division by zero;
- `op_unary_minus` on a non-number;
- reading past a string's terminator.

Two loops of the source have no bound. Draining a range is one; a `for` over
a range is the other. Both carry a `fuel` bound and fail with `OutOfFuel`
when it runs out. `Eval` recurses on the tree itself and needs no fuel of
its own; it passes its `fuel` on to those two loops only, the drain behind
`#` of a range and `for` over a range.

Modules, one per file:

| module | file | models |
|---|---|---|
| `Wrappers` | wrappers.dfy | `Option` and `Result` |
| `Chars` | chars.dfy | character classes, reading at or past the terminator |
| `Tokens` | tokens.dfy | token kinds, keyword and command tables |
| `Numerals` | numerals.dfy | `%lld`, `atoll` and `atof` |
| `Lexer` | lexer.dfy | `tokenize`, `tok_number`, `tok_ident_or_keyword`, `tok_string` |
| `LexerFacts` | lexer_facts.dfy | the tokens spell the input back |
| `Values` | values.dfy | value, range and error types |
| `Ast` | ast.dfy | syntax tree nodes |
| `Parser` | parser.dfy | `parse_program` … `parse_atom` |
| `ParserFacts` | parser_facts.dfy | associativity, precedence, statement and tail shapes |
| `Utils` | utils.dfy | `ptrarr_append` and the `sb_*` builder |
| `Printer` | printer.dfy | `ast_value_to_str` |
| `Scope` | scope.dfy | `get_value` and `set_value` |
| `Operators` | operators.dfy | `binop_impl`, `comp_impl`, the `op_*` functions |
| `Broadcast` | broadcast.dfy | `value_repeat` and `broadcast_func1/2` |
| `Ranges` | ranges.dfy | `in_range`, `range_new/next/to_list`, `make_int_range_*` |
| `RangeFacts` | range_facts.dfy | the values a range yields |
| `Loops` | loops.dfy | the statement and `for` loops over abstract evaluators |
| `LoopFacts` | loop_facts.dfy | what those loops return |
| `Evaluator` | evaluator.dfy | `eval` and its helpers |
| `EvaluatorFacts` | evaluator_facts.dfy | the evaluator's promises |

Three behaviours of the code are easy to misread and are stated as lemmas:

- **A guard on an unbound name is a type error.** `get_value`
  (evaler.c:296-308) gives Nil for a name no frame binds, and `comp_impl`
  (evaler.c:370-381) rejects a non-number. So `y = 5 if y > 3` with `y`
  unbound fails (`EvaluatorFacts.UnboundGuardFails`).
- **Broadcasting is one level deep.** `broadcast_func2` (evaler.c:164-188)
  hands each element to the scalar operator as it is, so a nested list
  reaches `+` and is a type error (`EvaluatorFacts.NestedListReachesScalar`).
- **Reading `x[i]` is an unknown node.** The dispatch in `eval`
  (evaler.c:1044-1080) has no case for an index node and falls into its
  "unknown AST node type" error (`EvaluatorFacts.IndexReadUnknown`).

Text is modelled as bytes: `Tokenize` takes a NUL-free string whose every
character is at most U+00FF, standing for one byte. Lengths in characters
are then the byte counts that `strlen` and the 512-byte token buffers use.
A byte from 0x80 to 0xFF reaches `isalpha`/`isalnum` (lexer.c:153, 306) as
a plain `char`, which is undefined where `char` is signed; the model gives
it what glibc's C locale gives, no letter class, so it is an unknown
character (`LexerFacts.HighByteUnknown`).

## Model

| member | source | states |
|---|---|---|
| Scope.FindFrom | evaler.c:297-301 | the index found is the first at or after `from` whose key is the name; None means no key from there on is the name |
| Scope.Find | evaler.c:297-301 | the local search finds the first item with the name; it finds nothing exactly when no local item binds the name |
| Scope.GetValue | evaler.c:296-308 | a local binding wins; without one the lookup goes on in the parent chain |
| Scope.GetValueFlat | evaler.c:296-308 | a lookup is the first binding in all frames laid end to end, innermost first, or Nil; a non-Nil result is bound in some frame |
| Scope.ChainLookupFlat | evaler.c:303-307 | searching the parents recursively equals searching their frames laid end to end |
| Scope.BoundSomewhere | evaler.c:296-308 | a non-Nil lookup result comes from a frame that binds the name; an unbound name gives Nil and is no error |
| Scope.SetValue | evaler.c:310-325 | only the local frame changes: an existing key is rebound in place and the length stays, otherwise exactly one item is appended; parents and every other item are unchanged |
| Scope.GetAfterSet | evaler.c:310-325 | reading a name right after setting it gives the value set |
| Scope.GetOtherAfterSet | evaler.c:296-325 | setting one name leaves the lookup of every other name unchanged |
| Scope.SetShadowsParent | evaler.c:318-324 | setting a name the local frame lacks appends it locally and leaves the parents' binding untouched, so it shadows it |
| Scope.FindIsFirst | evaler.c:297-301 | the first index holding the name is exactly what the search returns |
| Operators.FromBool | evaler.c:370-381 | a truth value is Int 1 or Int 0 |
| Operators.TruncDiv | evaler.c:401-405 | C's integer quotient truncates toward zero: the remainder has the dividend's sign and is smaller than the divisor |
| Operators.TruncMod | evaler.c:407-426 | C's `%`: dividend = quotient × divisor + remainder, the remainder with the dividend's sign and below the divisor in size |
| Operators.BinopImpl | evaler.c:353-368 | Int op Int stays Int unless it overflows; a Float operand makes the result Float; a non-number is a type error naming both types; every success is a number |
| Operators.OpDivide | evaler.c:401-405 | Int / Int is the truncated quotient; dividing by Int 0 is undefined; a non-number is a type error |
| Operators.OpMod | evaler.c:407-426 | Int % Int satisfies C's division identity with the dividend's sign; by 0 is undefined; a non-number is a type error |
| Operators.OpPower | evaler.c:428-449 | `^` never succeeds in this model; a non-number is still the type error |
| Operators.CompImpl | evaler.c:370-381 | a comparison succeeds exactly on two numbers, is always Int 1 or Int 0, and is 1 exactly when the comparison holds; otherwise a type error |
| Operators.OpOr | evaler.c:451-457 | the scalar `\|` is Int 1 exactly when either side is truthy, else Int 0 |
| Operators.OpAnd | evaler.c:459-465 | the scalar `&` is Int 1 exactly when both sides are truthy, else Int 0 |
| Operators.OpUnaryMinus | evaler.c:503-513 | negates an Int (when the negation fits) or a Float; anything else is undefined |
| Operators.OpUnaryNot | evaler.c:515-521 | `!v` is Int 0 exactly when v is truthy and Int 1 exactly when it is falsy |
| Broadcast.ValueRepeat | evaler.c:136-145 | a list of exactly `count` copies of the value |
| Broadcast.MapEach | evaler.c:147-162 | succeeds exactly when the operator succeeds on every element, giving the elementwise images; else the first failing element's error |
| Broadcast.MapPairs | evaler.c:177-186 | succeeds exactly when the operator succeeds on every pair, giving the pairwise images; else the first failing pair's error |
| Broadcast.BroadcastFunc1 | evaler.c:147-162 | a non-list goes straight to the operator; a list is mapped element by element, keeping its length |
| Broadcast.BroadcastFunc2 | evaler.c:164-188 | two scalars go straight to the operator; lists of unequal length are an error; equal lists combine pairwise; a scalar is repeated to the list's length first |
| Ranges.IsNegative | evaler.c:327-336 | a number's sign; any other value is an error |
| Ranges.InRange | evaler.c:523-542 | an Inf end bounds nothing; otherwise the value must lie between begin and end, whichever way round they are; non-numbers are errors |
| Ranges.RangeNew | evaler.c:544-555 | a fresh range: not started, not done, count 0, current value Nil, with the given bounds, step and length |
| Ranges.RangeNext | evaler.c:557-590 | `next` on a done range is fatal. Bounds, step and length never change. A counted range counts its calls, yields its stop on the L-th and Nil with done on the next, and those two calls leave `started` as it was. A range with an Inf stop never ends |
| Ranges.NextN | evaler.c:557-590 | n successive `next` calls give exactly n values |
| Ranges.Drain | evaler.c:606-613 | draining gives at most `fuel` values; draining a done range is fatal |
| Ranges.RangeToList | evaler.c:592-622 | turning an unbounded range with an Inf end into a list is fatal; otherwise the drained values |
| Ranges.ToSigned64 | evaler.c:866-868 | the two's-complement reading of an unsigned 64-bit quantity, equal to it modulo 2^64 |
| Ranges.MakeIntRangeCount | evaler.c:863-884 | count 1 divides by zero; for count ≥ 2 an exact division gives an Int range with step ±span/(count-1) signed toward stop, otherwise a float range; count 0 gives an empty Int range |
| Ranges.MakeIntRangeStep | evaler.c:886-900 | keeps the step's size and takes its sign from the direction start→stop; INT64_MIN has no absolute value and is undefined |
| Ranges.MakeIntRangeInf | evaler.c:902-912 | an unbounded range from start with step \|step\|; INT64_MIN is undefined |
| RangeFacts.ProgressionBetween | evaler.c:523-542 | the k-th value of an arithmetic progression is start + k·step and lies between its first and last values |
| RangeFacts.CountedRangeNext | evaler.c:557-575 | a counted range of length L ≥ 2 yields start, start+step, … and exactly its stop on the L-th call, then Nil with done, then the next call is fatal |
| RangeFacts.CountedRangeToList | evaler.c:592-622 | the list of a counted range is its L-term progression, ending in its stop |
| RangeFacts.CountRangeReachesStop | evaler.c:863-884 | an Int range made from a count lands exactly on its stop after count-1 steps |
| RangeFacts.CountRangeToList | evaler.c:863-884 | the list of an Int range made from a count has count values, from start to exactly stop |
| RangeFacts.StepNext | evaler.c:576-587 | one `next` of a step range gives the next value exactly when it still lies within the bounds, and ends the range otherwise, whenever that next value and its distance from start fit in `long long` |
| RangeFacts.StepFirst | evaler.c:576-587 | the first `next` of a fresh step range yields its start, whenever the span fits in `long long` |
| RangeFacts.StepRangeToList | evaler.c:886-900 | the list of a step range is start, start±s, … up to the last value within the bounds exactly when the first value past the stop and its distance from start fit in `long long`; otherwise listing it overflows |
| RangeFacts.StepDrainFresh | evaler.c:606-613 | draining a fresh step range gives the whole progression within the bounds when no step of it overflows |
| RangeFacts.StepOverflow | evaler.c:576-587 | a `next` whose value, or its distance from start, leaves `long long` is undefined |
| RangeFacts.StepFirstOverflow | evaler.c:523-542 | a fresh step range whose span leaves `long long` overflows in `in_range` on its first `next` |
| RangeFacts.StepDrainOverflow | evaler.c:576-613 | draining a step range that breaks the no-overflow condition is undefined, so that condition is exact |
| RangeFacts.DrainRunFails | evaler.c:606-613 | a drain whose run ends in a failing `next` fails with that error |
| RangeFacts.DrainRun | evaler.c:606-613 | draining from a state of a known run gives that run's remaining values |
| RangeFacts.ZeroStepNeverEnds | evaler.c:576-613 | a step range with step 0 never leaves its bounds, so listing it never ends |
| RangeFacts.InfRangeNext | evaler.c:902-912 | an Inf range yields start, start+\|s\|, … and is never done |
| Numerals.NatToString | parser.c:228-232 | the decimal digits of a natural number, without leading zeros |
| Numerals.IntToString | parser.c:228-232 | `%lld`: a minus sign for negatives, then the digits of the magnitude |
| Numerals.AtoLL | parser.c:703 | `atoll` gives a 64-bit value when it gives one |
| Numerals.AtoLLRoundTrip | parser.c:703 | `atoll` reads back every 64-bit Int that `%lld` wrote |
| Numerals.AtoLLDigits | parser.c:703 | `atoll` of a digit string within range is its decimal value |
| Numerals.AtoFDigits | parser.c:709 | `atof` of any digit string, leading zeros included, is its decimal value |
| Numerals.AtoFPlain | parser.c:709 | `atof` of text with leading digits and no space, sign, special word, hexadecimal prefix, `.` or exponent is the value of those digits |
| Tokens.AsKeyword | lexer.c:8-17 | a word is a keyword exactly when it spells one, and then it is that keyword |
| Tokens.AsCommand | lexer.c:19-28 | a word is a command exactly when it spells one, and then it is that command |
| Tokens.NoOtherKeyword | lexer.c:8-17 | only `if and or not for in Inf` are keywords |
| Tokens.NoOtherCommand | lexer.c:19-28 | only `print write table sum prod dump` are commands |
| Tokens.KeywordRoundTrip | lexer.c:30-40 | a keyword's spelling reads back as that keyword |
| Tokens.KeywordsAreNotCommands | lexer.c:8-28 | no word is both a keyword and a command |
| Lexer.ScanNumber | lexer.c:113-147 | the numeral is the maximal digits, `.`, digits, `e`/`E` with optional `-`, digits, and its spelling is exactly the consumed text |
| Lexer.MarkerEnd | lexer.c:132-138 | an exponent marker is `e` or `E`, optionally followed by `-` |
| Lexer.NumberStep | lexer.c:113-147 | one number token carrying exactly the scanned text, Float exactly when a `.` or exponent was consumed; an overlong numeral overflows the buffer |
| Lexer.WordToken | lexer.c:158-164 | a keyword becomes its keyword token with no text, else a command its command token, else an identifier carrying the word |
| Lexer.WordStep | lexer.c:149-165 | the word is the maximal run of letters, digits and `_`, and becomes one token |
| Lexer.StringStep | lexer.c:167-179 | the token text is what lies strictly between the quotes, both quotes are consumed; a text of 512 bytes or more overflows the buffer; an unterminated string reads past the end |
| Lexer.HashStep | lexer.c:198-206 | `#` then a space skips up to but not past the next newline; any other `#` is a hash token; an unterminated comment reads past the end |
| Lexer.OperatorStep | lexer.c:207-243 | `<= >= == !=` are one token over two characters; a lone `< > =` is one token over one; a lone `!` becomes a minus |
| Lexer.SingleKind | lexer.c:244-299 | each single-character punctuator has its own kind, distinct from the multi-character and literal kinds |
| Lexer.PunctStep | lexer.c:194-313 | a punctuator gives at most one token and advances; a character outside the recognised set is fatal |
| Lexer.LiteralStep | lexer.c:300-309 | a number, word or string start gives one token, or a buffer overflow once its text reaches 512 bytes, or a read past the end |
| Lexer.Next | lexer.c:187-316 | one scanner step advances and emits at most one token; a space hangs the scanner; an unrecognised character is fatal |
| Lexer.Lex | lexer.c:187-316 | the tokens of the rest of the input, all of kinds the scanner emits |
| Lexer.Tokenize | lexer.c:181-322 | on NUL-free byte text, the sequence ends with exactly one EOF, after every other token; it succeeds exactly when scanning does |
| LexerFacts.LexSpells | lexer.c:187-316 | on input with no `# ` comment and no `!` outside `!=` (a lone `!` lexes as a minus, lexer.c:234-243) that scans without error, the tokens' spellings put together give back the input; a space cannot occur, since it makes the scanner hang |
| LexerFacts.TokenizeSpells | lexer.c:181-322 | on byte text with no `# ` comment and no lone `!` that tokenizes without error, the whole token sequence spells the input back; the EOF adds nothing |
| LexerFacts.LexCons | lexer.c:187-316 | the tokens of the input are those of the first step followed by those of the rest |
| LexerFacts.NumberSpells | lexer.c:113-147 | a number token's text is exactly the characters consumed |
| LexerFacts.WordSpells | lexer.c:149-165 | a word token spells exactly the characters consumed |
| LexerFacts.StringSpells | lexer.c:167-179 | a string token with its quotes spells exactly the characters consumed |
| LexerFacts.OperatorSpells | lexer.c:207-243 | a comparison token spells exactly the one or two characters consumed |
| LexerFacts.HashSpells | lexer.c:198-206 | a hash token spells the `#` consumed |
| LexerFacts.RenderAppend | lexer.c:187-316 | spelling tokens distributes over concatenation |
| LexerFacts.HighByteUnknown | lexer.c:303-312 | a byte from 0x80 up is no digit, letter, `_`, quote or punctuator, so scanning stops on it as an unknown character |
| Parser.SkipEols | parser.c:323-325 | skips exactly a run of EOLs, stopping at the first other token |
| Parser.SkipSeparators | parser.c:340-342 | skips exactly a run of `;` and EOLs |
| Parser.ParseProgram | parser.c:322-351 | a program is a PROGRAM node; input that is only EOLs gives zero statements |
| Parser.ProgramStmnts | parser.c:331-343 | the statement list stops at EOF; at EOF it is empty |
| Parser.ForStmnt | parser.c:353-403 | a `for` statement gives a FOR node; a missing loop name is a syntax error |
| Parser.CmdArgs | parser.c:353-403 | a command's arguments run up to the end of the line |
| Parser.RangeTail | parser.c:455-483 | the tail after a second `..` sets the step exactly when it starts with `+`, and keeps the start and stop |
| Parser.SumRest | parser.c:485-503 | the sum loop stops only at a token that is not `+`/`-` |
| Parser.TermRest | parser.c:505-523 | the product loop stops only at a token that is not `*`, `/` or `%` |
| Parser.PowerTail | parser.c:525-546 | without `^` the atom is the factor |
| Parser.Atom | parser.c:675-730 | a token that cannot start an atom is a syntax error |
| Parser.LiteralAtom | parser.c:700-717 | a string literal is its text; an integer literal is its `atoll` value |
| Parser.ListAtom | parser.c:689-699 | `[]` is an empty ITEMS node; otherwise a list gives ITEMS |
| Parser.IdentTail | parser.c:548-614 | a name not followed by `=`, `(` or `[` is an identifier; `=` makes an assignment to the name |
| Parser.CallTail | parser.c:548-587 | `f(…)` gives a call or a definition of `f`; `f()` succeeds exactly when no `=` follows, since a definition's parameter check then reads the count `f()` never set |
| Parser.IndexTail | parser.c:548-614 | `x[…]` gives an index of `x` or an assignment to one |
| Parser.ItemList | parser.c:616-633 | at least one item, stopping where no comma follows |
| Parser.ItemsRest | parser.c:616-633 | later items are appended after the ones already read |
| Parser.BlockClose | parser.c:635-673 | the block must end at `}`; it is tagged CASES exactly when its first statement is a CASE |
| Parser.BlockStmnts | parser.c:635-673 | the statements of a block run up to its `}` |
| ParserFacts.SumLeftAssoc | parser.c:485-503 | `a-b-c` parses as `(a-b)-c` |
| ParserFacts.TermLeftAssoc | parser.c:505-523 | `a*b/c` parses as `(a*b)/c` |
| ParserFacts.ProductBindsTighterRight | parser.c:485-523 | `a+b*c` parses as `a+(b*c)` |
| ParserFacts.ProductBindsTighterLeft | parser.c:485-523 | `a*b+c` parses as `(a*b)+c` |
| ParserFacts.PowerRightAssoc | parser.c:525-546 | `a^b^c` parses as `a^(b^c)` |
| ParserFacts.PrefixOverPower | parser.c:525-546 | `-a^b` parses as `-(a^b)` |
| ParserFacts.PrefixBeforeProduct | parser.c:505-546 | `-a*b` parses as `(-a)*b` |
| ParserFacts.ChainedComparisonStops | parser.c:439-453 | in `a<b<c` the comparison level takes one operator and leaves the second unconsumed |
| ParserFacts.ChainedConjunctionStops | parser.c:424-437 | the `&` level consumes at most one operator |
| ParserFacts.ChainedDisjunctionStops | parser.c:409-422 | the `\|` level consumes at most one operator |
| ParserFacts.ChainedComparisonRejected | parser.c:331-340 | a program statement `a<b<c` is a syntax error at the second comparison |
| ParserFacts.PlainRange | parser.c:455-483 | `a..b` is a RANGE with neither count nor step |
| ParserFacts.SteppedRange | parser.c:455-483 | `a..b..+s` sets only the step |
| ParserFacts.CountedRange | parser.c:455-483 | `a..b..c` sets only the count |
| ParserFacts.RangeWithTail | parser.c:455-483 | a second `..` hands over to the count-or-step tail |
| ParserFacts.GuardedStmnt | parser.c:390-401 | `e if p` is CASE(e, p) |
| ParserFacts.PlainStmnt | parser.c:390-401 | an expression without `if` is its own statement |
| ParserFacts.BlockBody | parser.c:635-673 | a block skips EOLs after `{`, reads its statements and skips EOLs before `}` |
| ParserFacts.SingleStmntBody | parser.c:635-673 | a block holding one statement has exactly that statement |
| ParserFacts.AssignStep | parser.c:548-614 | `x = e` is an assignment to the identifier x |
| ParserFacts.CallStep | parser.c:548-614 | `f(args)` not followed by `=` is a call |
| ParserFacts.EmptyCall | parser.c:565-575 | `f()` not followed by `=` is a call of f with no arguments |
| ParserFacts.DefStep | parser.c:548-614 | `f(params) = body` with name parameters is a definition |
| ParserFacts.DefRejected | parser.c:548-614 | a definition with a non-name parameter is a syntax error |
| ParserFacts.EmptyCallUndefined | parser.c:565-587 | `f() = …` reads the unset parameter count in the definition check, which is undefined |
| ParserFacts.IndexStep | parser.c:548-614 | `x[i]` not followed by `=` is an index |
| ParserFacts.IndexAssignStep | parser.c:548-614 | `x[i] = e` is an assignment whose target is the index |
| ParserFacts.ProgramStep | parser.c:331-343 | a statement followed by separators is followed by the statements after them |
| ParserFacts.LastStmnt | parser.c:331-343 | a statement ending at EOF is the last one |
| ParserFacts.MissingSeparator | parser.c:336-338 | a non-final statement without `;` or EOL after it is a syntax error |
| ParserFacts.LeadingEols | parser.c:322-351 | leading EOLs are skipped before the statements |
| ParserFacts.FactorStart | parser.c:525-546 | a factor starts with a prefix operator or an atom's first token |
| Printer.ValueToStr | parser.c:221-261 | printing succeeds exactly on printable values; nil is `nil`, a string is itself |
| Printer.ItemTexts | parser.c:241-248 | the element texts in order, succeeding exactly when every element prints |
| Printer.ListText | parser.c:241-248 | a list prints as `[`, the element texts joined by `, `, `]` |
| Printer.IntText | parser.c:228-232 | an Int's text reads back through `atoll` as the same Int |
| Printer.RangeText | parser.c:250-254 | a range prints as its start, `..`, its stop |
| Printer.ListFirstError | parser.c:241-248 | a list that fails to print fails with the error of its first unprintable element |
| Printer.ItemsFirstError | parser.c:241-248 | the items fail with the first failing element's error |
| Utils.Grow | utils.c:60-73 | the capacity doubles until it exceeds the size, and is unchanged when it already did |
| Utils.GrowIsDoubling | utils.c:60-73 | the grown capacity is the old one times a power of two |
| Utils.PtrArrAppend | utils.c:59-76 | the item goes at the old size, earlier items unchanged; capacity 32 at first use, then doubled until it exceeds the old size |
| Utils.SbAppend | utils.c:4-21 | exactly one piece is added at the end |
| Utils.Interleave | utils.c:23-34 | n strings give 2n-1 pieces, the strings at even places and the separator between them |
| Utils.SbJoin | utils.c:23-34 | joining n strings gives s0, sep, s1, …, sep, s(n-1), and nothing for n = 0 |
| Utils.SbAppendV | utils.c:36-40 | the strings are appended in order |
| Utils.SbString | utils.c:42-57 | the text is the pieces concatenated in order, its length the sum of theirs |
| Utils.ConcatLength | utils.c:42-57 | the concatenation's length is the sum of the piece lengths |
| Utils.JoinConcat | utils.c:23-57 | concatenating the joined pieces gives the strings separated by the separator |
| Loops.Sequence | evaler.c:763-771 | with no statements left the value so far stands; statements only grow the context |
| Loops.Collect | evaler.c:773-785 | the result is a list with one value per item, after the values already collected |
| Loops.FirstNonNil | evaler.c:1031-1042 | with no statements left the value so far stands; statements only grow the context |
| Loops.ForEach | evaler.c:834-839 | with no elements left the value so far stands; the body only grows the context |
| Loops.ForRange | evaler.c:840-845 | the body runs once per value the range yields; the context only grows |
| Loops.ForOnce | evaler.c:846-849 | the body runs once with the loop name bound to the value |
| LoopFacts.SequenceIsLast | evaler.c:763-771 | statements run in turn, each in the context the previous one left; the value is the last one's, Nil if there are none |
| LoopFacts.SequenceStopsAtError | evaler.c:763-771 | the first failing statement's error is the result |
| LoopFacts.CollectIsValues | evaler.c:773-785 | a list of the items' values in order, in the context the last item left |
| LoopFacts.FirstNonNilStops | evaler.c:1031-1042 | the first non-Nil statement's value ends the block |
| LoopFacts.FirstNonNilIgnoresRest | evaler.c:1031-1042 | statements after the first non-Nil one are never run |
| LoopFacts.FirstNonNilAllNil | evaler.c:1031-1042 | when every statement gives Nil the block gives Nil |
| LoopFacts.ForEachIsLast | evaler.c:834-839 | the body runs once per element with the name bound to it; the value is the last run's, Nil for an empty list |
| LoopFacts.ForRangeIsLast | evaler.c:840-845 | the body runs once per value the range yields; the value is the last run's, Nil for an empty range |
| Evaluator.Lift | evaler.c:1044-1080 | an operator's value becomes the node's value in the given context; its error passes through |
| Evaluator.ScalarOp | evaler.c:672-705 | every binary operator except `\|` and `&` has a broadcast scalar operator |
| Evaluator.OpLength | evaler.c:707-725 | a list's length is its size, a string's its length in bytes, a range's the number of values it yields; other types have no length |
| Evaluator.RangeValue | evaler.c:937-1012 | non-number bounds without Inf are a type error; a non-Int count is an error; an Inf stop gives an unbounded range from start with step 1; Int bounds give a step range with step ±1 toward stop |
| Evaluator.Eval | evaler.c:1044-1080 | evaluation only grows the local frame; parents and existing keys are kept |
| Evaluator.Runner | evaler.c:1044-1080 | a node as an evaluator over contexts, which only grows its context |
| Evaluator.Thunks | evaler.c:763-785 | the statements as evaluators, one per node |
| Evaluator.EvalBinop | evaler.c:672-705 | a token that is no binary operator is an error |
| Evaluator.EvalUnop | evaler.c:727-738 | a token that is no unary operator is an error |
| Evaluator.EvalAssignment | evaler.c:740-757 | a successful assignment targets a name, which then reads back as the assigned value |
| Evaluator.EvalRange | evaler.c:937-1012 | a successful range node evaluates to a Range |
| EvaluatorFacts.OrShortCircuits | evaler.c:624-646 | `\|` with a truthy non-list left side is Int 1 and the right side is never evaluated |
| EvaluatorFacts.OrFalsyLeft | evaler.c:624-646 | `\|` with a falsy left side and no list on the right is the truth of the right side |
| EvaluatorFacts.OrBroadcasts | evaler.c:624-646 | `\|` with a non-empty list on an evaluated side broadcasts the scalar `\|` |
| EvaluatorFacts.AndShortCircuits | evaler.c:648-670 | `&` with a falsy left side is Int 0 and the right side is never evaluated |
| EvaluatorFacts.AndTruthyLeft | evaler.c:648-670 | `&` with a truthy non-list left side and no list on the right is the truth of the right side |
| EvaluatorFacts.AndBroadcasts | evaler.c:648-670 | `&` with a non-empty list on an evaluated side broadcasts the scalar `&` |
| EvaluatorFacts.ScalarBinop | evaler.c:672-705 | any other binary operator evaluates left then right and broadcasts its scalar operator over the two values |
| EvaluatorFacts.NestedListReachesScalar | evaler.c:164-188 | broadcasting is one level deep: `[[…]] + [y]` hands the inner list to `+`, a type error |
| EvaluatorFacts.AssignmentBinds | evaler.c:740-742 | `x = e` evaluates e, binds x to its value and gives that value |
| EvaluatorFacts.AssignmentToNonName | evaler.c:753-755 | after the right side is evaluated, a target that is neither name nor index is fatal |
| EvaluatorFacts.UnboundComparison | evaler.c:296-308 | an unbound name reads as Nil, so `y > c` is a type error naming Nil and Int |
| EvaluatorFacts.CaseGuardFails | evaler.c:1020-1029 | a guard whose predicate fails fails with the same error |
| EvaluatorFacts.UnboundGuardFails | evaler.c:1020-1029 | `e if y > c` with `y` unbound is a type error |
| EvaluatorFacts.IndexReadUnknown | evaler.c:1076-1078 | reading `x[i]` is the unknown-node error |
| EvaluatorFacts.CaseFalsy | evaler.c:1020-1029 | a guard with a falsy predicate gives Nil without evaluating its expression |
| EvaluatorFacts.CaseTruthy | evaler.c:1020-1029 | a guard with a truthy predicate gives its expression's value |
| EvaluatorFacts.ProgramIsLastStatement | evaler.c:763-771 | a program's value is its last statement's, each statement running in the context the previous one left |
| EvaluatorFacts.ProgramStopsAtError | evaler.c:763-771 | a program stops at its first failing statement with that error |
| EvaluatorFacts.ItemsAreValues | evaler.c:773-785 | a list literal is the list of its items' values, in order |
| EvaluatorFacts.CasesFirstNonNil | evaler.c:1031-1042 | a CASES block gives its first non-Nil statement's value and runs nothing after it |
| EvaluatorFacts.CasesAllNil | evaler.c:1031-1042 | a CASES block whose statements all give Nil gives Nil |
| EvaluatorFacts.ForOverList | evaler.c:834-839 | `for` over a list runs the body once per element with the name bound; the value is the last run's |
| EvaluatorFacts.ForOverRange | evaler.c:840-845 | `for` over a range runs the body once per value yielded; the value is the last run's |
| EvaluatorFacts.ForOverScalar | evaler.c:846-849 | `for` over any other value runs the body once with the name bound to it |
| EvaluatorFacts.LengthOfNode | evaler.c:733-734 | `#x` is the length of x's value |
| EvaluatorFacts.RangeOfLiterals | evaler.c:937-1012 | `a..b` on Int literals is the range eval_range builds from their values |
| EvaluatorFacts.CountedRangeOfLiterals | evaler.c:980-990 | `a..b..n` on Int literals is the counted range built from their values |
| EvaluatorFacts.CountRangeValue | evaler.c:980-990 | the value of `a..b..n` on Ints is the counted range `make_int_range_count` builds |
| EvaluatorFacts.StepRangeLength | evaler.c:1003-1009 | a default-step range from a to b has \|b-a\|+1 values when b±1 and \|b-a\|+1 fit in `long long`; otherwise taking its length overflows |
| EvaluatorFacts.CountRangeLength | evaler.c:707-725 | a counted Int range of count n has length n |
| EvaluatorFacts.LengthOfRange | evaler.c:937-1012 | `#(a..b)` is \|b-a\|+1 when b±1 and \|b-a\|+1 fit in `long long`, and an overflow otherwise |
| EvaluatorFacts.LengthOfCountedRange | evaler.c:980-990 | `#(a..b..n)` is n when the count divides the span |

## Left out

- Float semantics: the Float side of the operators is exact real arithmetic, with no rounding, NaN or infinity. Float division by zero, `fmod` and `pow` are not modelled.
- Float ranges (`make_float_range_*`, evaler.c:854-861, 914-935): every path of `eval_range` that builds one, including the default step on Float bounds, gives a NotModelled error. `make_int_range_count`'s float fallback is an opaque `FloatRange` result.
- Operators.OpPower: always an error, because `op_power` goes through `pow` even on Ints.
- Calls and definitions (`eval_fcall`, `eval_fdef`, evaler.c:787-827): they capture raw context pointers, so `Eval` gives NotModelled for them.
- Commands (`eval_cmd`, `cmd_print`, `get_cmd`): these are output; `Eval` gives NotModelled. The parser still parses them.
- Math built-ins and `setup_builtin_context` (evaler.c:190-294): foreign floating-point calls.
- Index assignment (evaler.c:743-752): it writes into shared storage with no bounds check, so it gives NotModelled.
- Aliasing: lists and ranges are values here. A range that `#` or `for` drains is not advanced for other holders of the same range.
- Evaluation order: C leaves the order of `eval_binop`'s operand evaluation unspecified; the model evaluates the left operand first.
- Strings are assumed free of NUL characters.
- Evaluator.OpLength: counts characters; it is strlen's byte count because text is byte text (`Tokenize` requires every character to be at most U+00FF).
- Lexer.StringStep: the 512-byte buffer limit is a character count, the same as a byte count on byte text.
- Lexer.LiteralStep: as for StringStep; the limit holds for numbers, words and strings alike.
- Parser.CallTail: `f()` leaves the argument pointer and count unset in C; the model gives the call an empty argument list. Evaluating a call is not modelled, so what that unset count would do there is not modelled either.
- Lexer and parser are modelled each against its own code, not as a pipeline. The lexer never emits `..`, `|`, `&` or command-argument forms the parser expects.
- No unparse/parse round trip: the parser facts are stated per grammar rule.
- Parser: no structural well-formedness invariant of the tree is proved.
- Ranges.Drain: bounded by `fuel`; a drain that needs more values ends in OutOfFuel, where the source would loop on.
- Evaluator.Eval: bounded by `fuel` on `for` over ranges and range lengths, for the same reason.
- Printer.ValueToStr: a double's `%f` text is not modelled and gives NotModelled.
- `draw_ast` and the name-table formatters (`tok_to_str`, `node_type_to_str`, `value_type_to_str`, …): output only.
- The command-line driver nc.c is not part of this model.
- Memory: realloc and capacity bookkeeping of contexts are plain sequences. `sb_append`'s realloc byte count (utils.c:17) is a memory-layout defect and not modelled.
- `as_float` on a non-number inside range construction gives NotModelled.
- Evaluator.RangeValue: an Inf stop with a non-Int start gives NotModelled, because it builds a float range.
