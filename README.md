# Abrvalg, modelled in Dafny

Abrvalg is a small, indentation-sensitive scripting language with a Python-like
syntax. Its implementation is a pipeline of four parts, and this project models
each of them:

- **Lexer** (`abrvalg/lexer.py`). It splits the source into lines and right-trims
  each one. A blank line is recorded as empty. Otherwise the indentation unit is
  detected from the first indented line. Each line's level becomes INDENT and
  DEDENT tokens, and the rest of the line is matched against an ordered table of
  regular expressions. The first rule that matches wins. White space and comments
  are dropped. Strings and numbers are decoded, and names spelled like a reserved
  word become keywords. The `TokenStream` cursor then hands the tokens to the
  parser one at a time.
- **Parser** (`abrvalg/parser.py`). A Pratt-style parser for expressions, with
  binding powers. It sits inside a recursive-descent parser for statements. The
  parser keeps a scope stack, so that `return` is accepted only inside a function
  and `break`/`continue` only directly inside a loop.
- **Interpreter** (`abrvalg/interpreter.py`). A tree-walking evaluator over a chain
  of environments. `break`, `continue` and `return` are host exceptions, and so are
  the run-time errors.
- **Error report** (`abrvalg/errors.py`). A syntax error from the lexer or the
  parser is reported with the offending source line and a caret under the column.

## How the model is organised

- **Pure code becomes functions.**
  - `Lexer` holds the rule matchers, line lexing and the indentation state machine.
  - `Grammar` holds one function per sub-parser.
  - `Evaluator` evaluates one node in a given state.
  - `Operators` and `Builtins` hold the host operations the interpreter applies.
  - `Errors` builds the report.
- **Code that updates things in place becomes classes and methods.**
  - `Lexer.Lexer` and `Lexer.TokenStream` model the lexer and the token cursor.
  - `Parser.Parser` is the parser object with its scope stack. Every sub-parser is a
    method that moves the shared cursor.
  - `Interpreter.Environment` is the environment chain that `set` updates.
  - Each method is proved to compute exactly what the corresponding function says.
- **Values and state.** Run-time values live in `Values`. A state is a stack of
  environment frames (the current one last) and a store of the list and dictionary
  objects that values refer to, so aliasing is modelled. Host exceptions are the
  `Signal` an evaluation ends with.
- **Proofs.** Properties of the three stages are proved in `LexerLemmas`,
  `GrammarLemmas` and `InterpreterLemmas`. `LexerExamples` runs one of the lexer's
  test sources through the whole lexer. `Pipeline` connects lexing, parsing,
  running and reporting, as `evaluate_env` does.

## Model

| member | source | states |
|---|---|---|
| Text.ShowNat | abrvalg/interpreter.py:256 | the decimal text of a natural number is a non-empty run of digits without a leading zero |
| Text.DigitsValueOfShowNat | abrvalg/interpreter.py:256-257 | reading the digits of `ShowNat(n)` gives back `n` |
| Text.Repeat | abrvalg/errors.py:23 | `c * n` has `max(n, 0)` characters, each of them `c` |
| Text.RStrip | abrvalg/lexer.py:147 | `rstrip()` keeps a prefix of the line; it removes only white space, and what it keeps does not end in white space |
| Text.ParseInt | abrvalg/interpreter.py:257 | `int(text)` succeeds only on text that is not blank once stripped |
| Text.ParseIntShowInt | abrvalg/interpreter.py:256-257 | `int(str(i)) == i` for every integer, negative ones included |
| Errors.ReportSyntaxError | abrvalg/errors.py:18-23 | the echoed line is `source_lines[line - 1]` under the host's indexing (a line below 1 counts from the end); the header names the message, line and column; the caret line is `column - 1` spaces and then `^` |
| Errors.HeaderNumbers | abrvalg/errors.py:22 | the header is the fixed prefix, the message, then the line and column in decimal, and both numbers read back |
| Lexer.DecodeStr | abrvalg/lexer.py:21-38 | decoding escapes never lengthens a literal body (its inverse is proved in LexerLemmas.DecodeEncode) |
| Lexer.RunEnd | abrvalg/lexer.py:56-58 | the end of the maximal run of a character class: every character before it is in the class, the one at it is not |
| Lexer.FirstBareQuote | abrvalg/lexer.py:52-53 | the first quote not preceded by a backslash; none before it, or none at all |
| Lexer.LastQuote | abrvalg/lexer.py:52-53 | the last quote in a range; no quote after it, or none at all |
| Lexer.ClosingQuote | abrvalg/lexer.py:52-53 | the quote that closes a string literal lies after the opening one, on the line |
| Lexer.FirstLiteral | abrvalg/lexer.py:59-72 | an alternation matches one of its strings at the position, and fails exactly when none of them starts the rest of the line |
| Lexer.MatchPattern | abrvalg/lexer.py:50-73 | a match ends after the position; a string rule's group is the text between the quotes, any other rule's is the whole match (see also lines 109-117) |
| Lexer.FirstMatch | abrvalg/lexer.py:107-111 | the rule that fires matches, and every earlier rule fails; no rule fires exactly when all fail |
| Lexer.Emit | abrvalg/lexer.py:112-123 | white space and comments yield no token; any other match yields exactly one token, at its 1-based column on the line |
| Lexer.FirstBreak | abrvalg/lexer.py:145 | the next line break, with none before it |
| Lexer.SplitLines | abrvalg/lexer.py:145 | no line that `splitlines()` returns contains a line break |
| Lexer.LeadingCount | abrvalg/lexer.py:128-134 | the length of the leading run of `c`: all `c` before it, not `c` at it |
| Lexer.LeadingCountOf | abrvalg/lexer.py:128-134 | that run length is the only count with this property |
| Lexer.IndentUnit | abrvalg/lexer.py:136-138 | a unit exists exactly when the line starts with a space or a tab, and it is the whole leading run of that character |
| Lexer.Occurrences | abrvalg/lexer.py:157 | `line.count(unit)` copies of the unit fit in the line |
| Lexer.Copies | abrvalg/lexer.py:168-177 | `[t] * n` is `n` copies of `t` |
| Lexer.Dedent | abrvalg/lexer.py:156-160 | cutting off the indentation leaves no more than the line |
| Lexer.CurrentAt | abrvalg/lexer.py:201-206 | `current()` answers the token at the cursor exactly when one is there; past the end it is "Unexpected end of input" at the last token, and with no tokens the host's IndexError |
| Lexer.EndCheck | abrvalg/lexer.py:208-211 | `expect_end()` passes exactly when every token is consumed; otherwise it is "End expected" at the current token |
| Lexer.ExpectAllSucceeds | abrvalg/lexer.py:188-194 | `consume_expected` succeeds exactly when the next tokens have the expected kinds; it then returns the last of them and moves past all of them |
| Lexer.ExpectAllFailure | abrvalg/lexer.py:188-194 | a failed `consume_expected` ran out of input, or names the first token of the wrong kind at that token, after consuming it |
| Lexer.ExpectAllStep | abrvalg/lexer.py:190-193 | a matching first token moves on to the remaining kinds |
| Lexer.Lexer.constructor | abrvalg/lexer.py:100-101 | a new lexer has recorded no lines and tries the rule table in order |
| Lexer.Lexer.TokenizeLine | abrvalg/lexer.py:103-126 | the loop over a line's positions gives the tokens, or the error, that `LineTokensFrom` describes |
| Lexer.Lexer.CountLeadingCharacters | abrvalg/lexer.py:128-134 | the loop counts `LeadingCount` |
| Lexer.Lexer.DetectIndent | abrvalg/lexer.py:136-138 | returns `IndentUnit` of the line |
| Lexer.Lexer.MeasureIndent | abrvalg/lexer.py:153-160 | the unit is detected only while unknown, then kept; the line is measured and cut under that unit |
| Lexer.Lexer.AppendLine | abrvalg/lexer.py:162-174 | the level and tokens after a line are those of `Advance`: indentation tokens of the level change, the line's tokens, one NEWLINE, and only for a line with tokens |
| Lexer.Lexer.TokenizeRound | abrvalg/lexer.py:145-174 | one pass of the loop agrees with the scan `TokenizeFrom` describes |
| Lexer.Lexer.Tokenize | abrvalg/lexer.py:140-179 | `tokenize` records exactly the lines `TokenizeSource` records, after the ones recorded before, and returns its tokens or error |
| Lexer.TokenStream.constructor | abrvalg/lexer.py:184-186 | the cursor starts at the first token |
| Lexer.TokenStream.Current | abrvalg/lexer.py:201-206 | answers `CurrentAt` at the cursor |
| Lexer.TokenStream.Consume | abrvalg/lexer.py:196-199 | answers `CurrentAt` at the old cursor, which advances by one only when that succeeds |
| Lexer.TokenStream.ConsumeExpected | abrvalg/lexer.py:188-194 | the result and the new cursor are those of `ExpectAll` |
| Lexer.TokenStream.ExpectEnd | abrvalg/lexer.py:208-211 | answers `EndCheck` at the cursor |
| Lexer.TokenStream.IsEnd | abrvalg/lexer.py:213-214 | true exactly when every token is consumed |
| LexerLemmas.DecodeEncode | abrvalg/lexer.py:21-38 | every string has a literal body that decodes to it: `DecodeStr(EncodeStr(s)) == s` |
| LexerLemmas.DecodePlain | abrvalg/lexer.py:21-38 | a body without backslashes decodes to itself |
| LexerLemmas.DecodeNumIsHostInt | abrvalg/lexer.py:41-45 | on number texts, `decode_num` is `int(text)` for a digit run and a decimal literal otherwise |
| LexerLemmas.NumberRulesMatchNumbers | abrvalg/lexer.py:54-55 | the two NUMBER rules capture number texts only |
| LexerLemmas.WordPatternsMiss | abrvalg/lexer.py:51-58 | no comment, string, number, name, blank or line-feed pattern matches at a punctuation character |
| LexerLemmas.SkipWordRule | abrvalg/lexer.py:51-58 | each of the first eight rules passes a punctuation position on to the next rule (see also lines 107-111) |
| LexerLemmas.PunctuationSkipsWordRules | abrvalg/lexer.py:51-58 | at punctuation only the operator and bracket rules can fire (see also lines 107-111) |
| LexerLemmas.NextRule | abrvalg/lexer.py:107-111 | a rule that fails passes the position on to the next rule |
| LexerLemmas.FireRule | abrvalg/lexer.py:107-111 | a rule that matches fires once it is reached |
| LexerLemmas.FirstLiteralMisses | abrvalg/lexer.py:59-72 | an alternation none of whose strings starts the rest of the line fails |
| LexerLemmas.LiteralRuleMisses | abrvalg/lexer.py:59-72 | such an operator or bracket rule passes the position on (see also lines 107-111) |
| LexerLemmas.FirstCharacterMisses | abrvalg/lexer.py:59-72 | so does one none of whose strings starts with the current character (see also lines 107-111) |
| LexerLemmas.BangRuleMisses | abrvalg/lexer.py:59 | the `!` rule fails at any other character |
| LexerLemmas.ArithmeticRuleMisses | abrvalg/lexer.py:60 | the arithmetic rule fails at a character that is not one of its operators |
| LexerLemmas.BooleanRuleMisses | abrvalg/lexer.py:62 | the boolean rule fails at a character other than `|` and `&` |
| LexerLemmas.RangeRuleMisses | abrvalg/lexer.py:63 | the range rule fails at a character other than `.` |
| LexerLemmas.LoneEqualsNotComparison | abrvalg/lexer.py:61 | a `=` without a second `=` is not a comparison |
| LexerLemmas.LoneEqualsSkipsOperators | abrvalg/lexer.py:51-63 | such a `=` passes over every rule before ASSIGN |
| LexerLemmas.BangRuleMatches | abrvalg/lexer.py:59 | the `!` rule takes the `!` alone |
| LexerLemmas.AssignRuleMatches | abrvalg/lexer.py:64 | the ASSIGN rule takes one `=` |
| LexerLemmas.BangBeforeNotEqual | abrvalg/lexer.py:59-61 | because the `!` rule comes first, `!=` lexes as the operator `!` followed by `=` (see also lines 107-111) |
| LexerLemmas.LoneEqualsIsAssign | abrvalg/lexer.py:61-64 | a `=` without a second `=` lexes as ASSIGN (see also lines 107-111) |
| LexerLemmas.ComparisonSkipsRules | abrvalg/lexer.py:51-60 | `=`, `<` and `>` reach the comparison rule |
| LexerLemmas.ComparisonRuleMatches | abrvalg/lexer.py:61 | the comparison rule takes `==`, `<=` and `>=` whole |
| LexerLemmas.TwoCharacterComparisons | abrvalg/lexer.py:61 | `==`, `<=` and `>=` each lex as one OPERATOR token (see also lines 107-111) |
| LexerLemmas.NameSkipsRules | abrvalg/lexer.py:51-55 | a letter or `_` passes over the comment, string and number rules |
| LexerLemmas.NameSkipsRule | abrvalg/lexer.py:51-55 | it passes over each of them |
| LexerLemmas.NameRuleMatches | abrvalg/lexer.py:56 | the NAME rule takes the maximal run of word characters |
| LexerLemmas.NameEmits | abrvalg/lexer.py:118-123 | a NAME spelled like a reserved word becomes that keyword with no value; any other keeps its text |
| LexerLemmas.WholeWords | abrvalg/lexer.py:56 | a keyword is recognised only as a whole word, so `xbreak` and `breakx` stay names (see also lines 107-123) |
| LexerLemmas.CommentRuleMatches | abrvalg/lexer.py:51 | the comment rule takes a whole line that starts with `#` |
| LexerLemmas.CommentOnlyLine | abrvalg/lexer.py:90-93 | a comment-only line yields no tokens and so no NEWLINE and no level change; it is still recorded (see also lines 162-174) |
| LexerLemmas.RuleKinds | abrvalg/lexer.py:50-73 | no rule produces INDENT or DEDENT, and only the line-feed rule produces NEWLINE |
| LexerLemmas.KeywordKinds | abrvalg/lexer.py:75-88 | every reserved word maps to a keyword kind |
| LexerLemmas.EmitOnLine | abrvalg/lexer.py:112-123 | an emitted token lies on its line, at the match's column |
| LexerLemmas.FiredKind | abrvalg/lexer.py:50-73 | the rule that fires on a line without line feeds is not a layout rule (see also lines 107-111) |
| LexerLemmas.EmitStep | abrvalg/lexer.py:105-124 | one fired rule keeps the tokens on the line and in increasing column order |
| LexerLemmas.LineTokensShape | abrvalg/lexer.py:103-126 | a line's tokens lie on it in increasing column order and include no layout token; a failure names the first character no rule matches, at its column |
| LexerLemmas.LineTokensFired | abrvalg/lexer.py:107-124 | after a rule fires, lexing continues where its match ends |
| LexerLemmas.LineTokensStuck | abrvalg/lexer.py:125-126 | where no rule fires, lexing fails with "Unexpected character" at that column |
| LexerLemmas.DepthCopies | abrvalg/lexer.py:168-177 | `n` INDENTs raise the depth by `n`; `n` DEDENTs lower it by `n` without going below zero |
| LexerLemmas.IndentStep | abrvalg/lexer.py:166-171 | the tokens of a level change bring the depth to the new level, never below zero |
| LexerLemmas.IndentTokensDepth | abrvalg/lexer.py:166-171 | those tokens move the depth by exactly the level change |
| LexerLemmas.LineAppendOk | abrvalg/lexer.py:164-174 | a line with tokens keeps every token placed on its recorded line and the depth at the line's level |
| LexerLemmas.AdvanceOk | abrvalg/lexer.py:162-174 | each round of `tokenize` keeps the scan invariant |
| LexerLemmas.AdvanceLineEnds | abrvalg/lexer.py:164-174 | a line with text appends exactly one NEWLINE, for its own line, after its tokens, and the earlier lines keep theirs |
| LexerLemmas.LineSegment | abrvalg/lexer.py:164-174 | what a line with text appends lies on that line, ends in its one NEWLINE, and holds its text |
| LexerLemmas.LineEndsAppend | abrvalg/lexer.py:164-174 | appending a later line's tokens keeps every line's NEWLINE count and order |
| LexerLemmas.LineEndsClosing | abrvalg/lexer.py:176-177 | the closing DEDENTs add no NEWLINE and no text |
| LexerLemmas.FinishOk | abrvalg/lexer.py:176-177 | the closing DEDENTs bring the depth back to zero and keep placement and line ends |
| LexerLemmas.FinishShaped | abrvalg/lexer.py:176-179 | a finished scan is well shaped |
| LexerLemmas.ErrorShaped | abrvalg/lexer.py:125-126 | a lexical error on the last recorded line is well shaped (see also line 162) |
| LexerLemmas.BodyShape | abrvalg/lexer.py:103-126 | lexing a line body always gives that shape |
| LexerLemmas.LexLineStep | abrvalg/lexer.py:162-174 | the rest of a line's round either ends the scan well shaped or keeps the invariant |
| LexerLemmas.RoundStep | abrvalg/lexer.py:145-174 | a round either ends the scan well shaped or keeps the invariant |
| LexerLemmas.TokenizeShape | abrvalg/lexer.py:145-179 | the scan from any line on ends well shaped |
| LexerLemmas.TokenizeSourceShape | abrvalg/lexer.py:140-179 | `tokenize` either records every line, with every token on its line, each line with text ending in exactly one NEWLINE just past the line's end and followed on that line only by the closing DEDENTs, a line without text getting none, and INDENT/DEDENT balanced (the depth never drops below zero and ends at zero); or it stops at the last recorded line, at the character no rule matches |
| LexerExamples.KeywordsAreWholeWords | tests/test_lexer.py:19-23 | the whole lexer on the source `xbreak x break breakx` yields NAME `xbreak`, NAME `x`, BREAK, NAME `breakx` and one NEWLINE, all on line 1 at the columns where the words start, and records that one line |
| Grammar.NextPrecedence | abrvalg/parser.py:240-246 | zero at the end and at a token that continues no expression; positive only at an infix token; fails exactly at an operator missing from the precedence table |
| Grammar.Expect | abrvalg/lexer.py:188-194 | on success, moves past exactly the expected tokens and returns the last of them |
| Grammar.Fail | abrvalg/parser.py:17-20 | always an error; at an existing token it is a syntax error at that token's line and column |
| Grammar.Expression | abrvalg/parser.py:248-257 | an expression consumes at least one token and stops where the next token binds no tighter than the given power |
| Grammar.Absorb | abrvalg/parser.py:253-256 | the infix loop ends where the next token binds no tighter |
| Grammar.PrefixExpression | abrvalg/parser.py:222-231 | a prefix sub-parser consumes at least one token (see also lines 249-251) |
| Grammar.Present | abrvalg/parser.py:249-251 | wraps a node result without changing its success, value or error |
| Grammar.NumberExpression | abrvalg/parser.py:87-91 | a NUMBER token becomes a Number node with its value |
| Grammar.StringExpression | abrvalg/parser.py:95-99 | a STRING token becomes a String node with its text |
| Grammar.NameExpression | abrvalg/parser.py:103-107 | a NAME token becomes an Identifier node with its name |
| Grammar.GroupExpression | abrvalg/parser.py:129-135 | a parenthesised group consumes at least one token |
| Grammar.ArrayExpression | abrvalg/parser.py:139-145 | a list literal becomes an Array node |
| Grammar.DictionaryExpression | abrvalg/parser.py:149-173 | a dictionary literal becomes a Dictionary node |
| Grammar.UnaryExpression | abrvalg/parser.py:111-125 | a prefix operator consumes at least one token |
| Grammar.InfixExpression | abrvalg/parser.py:233-238 | an infix sub-parser consumes at least one token |
| Grammar.BinaryExpression | abrvalg/parser.py:177-187 | a binary operator consumes at least one token |
| Grammar.CallExpression | abrvalg/parser.py:191-200 | a call consumes at least one token |
| Grammar.SubscriptExpression | abrvalg/parser.py:204-215 | a subscript consumes at least one token |
| Grammar.ListOfExpressions | abrvalg/parser.py:261-275 | the list keeps the items collected so far, in order |
| Grammar.ListStep | abrvalg/parser.py:263-273 | an item followed by a comma is collected, and the loop goes on after the comma |
| Grammar.KeyValues | abrvalg/parser.py:151-167 | the entries keep those collected so far, in order |
| Grammar.KeyValuesStep | abrvalg/parser.py:151-166 | an entry followed by a comma is collected, and the loop goes on after the comma |
| Grammar.KeyValue | abrvalg/parser.py:153-161 | a present entry consumes at least one token |
| Grammar.Statements | abrvalg/parser.py:492-500 | the statement list keeps those collected so far, in order |
| Grammar.Statement | abrvalg/parser.py:480-497 | a present statement consumes at least one token |
| Grammar.Block | abrvalg/parser.py:279-285 | a block consumes at least one token |
| Grammar.ColonBlock | abrvalg/parser.py:309-311 | a colon and a block consume at least one token |
| Grammar.Params | abrvalg/parser.py:292-302 | the parameter list stays within the input |
| Grammar.ParamsFrom | abrvalg/parser.py:295-301 | the parameters keep those collected so far, in order |
| Grammar.ParamsStep | abrvalg/parser.py:295-301 | a name followed by a comma is collected, and the loop goes on after the comma |
| Grammar.FunctionStatement | abrvalg/parser.py:304-314 | a declaration consumes at least one token |
| Grammar.FunctionRest | abrvalg/parser.py:307-314 | the rest of a declaration consumes at least one token |
| Grammar.ConditionalStatement | abrvalg/parser.py:343-354 | a conditional consumes at least one token |
| Grammar.ConditionalRest | abrvalg/parser.py:350-354 | its `elif` and `else` parts stay within the input |
| Grammar.Elifs | abrvalg/parser.py:320-332 | the `elif` branches keep those collected so far, in order |
| Grammar.Elif | abrvalg/parser.py:322-331 | one `elif` branch consumes at least one token |
| Grammar.ElseBlock | abrvalg/parser.py:334-341 | the optional `else` stays within the input |
| Grammar.MatchStatement | abrvalg/parser.py:370-386 | a `match` consumes at least one token |
| Grammar.MatchClauses | abrvalg/parser.py:374-386 | a `match` has at least one `when` clause |
| Grammar.Whens | abrvalg/parser.py:375-376 | the `when` clauses keep those collected so far, in order |
| Grammar.When | abrvalg/parser.py:361-368 | one `when` clause consumes at least one token |
| Grammar.WhileStatement | abrvalg/parser.py:390-402 | a `while` loop consumes at least one token |
| Grammar.ForStatement | abrvalg/parser.py:406-418 | a `for` loop consumes at least one token |
| Grammar.ForRest | abrvalg/parser.py:411-418 | the rest of a `for` loop consumes at least one token |
| Grammar.ReturnStatement | abrvalg/parser.py:422-430 | a `return` consumes at least one token |
| Grammar.BreakStatement | abrvalg/parser.py:434-440 | a `break` consumes at least one token |
| Grammar.ContinueStatement | abrvalg/parser.py:444-450 | a `continue` consumes at least one token |
| GrammarLemmas.ReturnRule | abrvalg/parser.py:422-430 | `return` is "Return outside of function" at the keyword exactly when no function scope is on the stack; with one it parses the same under any stack, and a bare `return` is `Return(None)` |
| GrammarLemmas.BreakRule | abrvalg/parser.py:434-440 | `break` is "Break outside of loop" at the keyword exactly when the innermost scope is not a loop; inside one, `break NEWLINE` is `Break` |
| GrammarLemmas.ContinueRule | abrvalg/parser.py:444-450 | `continue` is "Continue outside of loop" at the keyword exactly when the innermost scope is not a loop; inside one, `continue NEWLINE` is `Continue` |
| Grammar.AssignmentStatement | abrvalg/parser.py:454-460 | an assignment consumes at least one token |
| Grammar.ExpressionStatement | abrvalg/parser.py:465-474 | a present expression statement consumes at least one token |
| GrammarLemmas.ProgramScoped | abrvalg/parser.py:23-31 | in every parsed program, each `return` lies inside a function body, and each `break` and `continue` lies directly inside a loop body (see also lines 504-509) |
| GrammarLemmas.StatementsRespectScope | abrvalg/parser.py:492-500 | the statement loop keeps every statement well scoped |
| GrammarLemmas.StatementRespectsScope | abrvalg/parser.py:480-497 | every statement parsed under a scope stack is well scoped under it |
| GrammarLemmas.BlockRespectsScope | abrvalg/parser.py:279-285 | so is every statement of a block |
| GrammarLemmas.ColonBlockRespectsScope | abrvalg/parser.py:279-285 | and of a block after a colon |
| GrammarLemmas.FunctionRespectsScope | abrvalg/parser.py:304-314 | a declaration's body is parsed inside a function scope, so the declaration is well scoped |
| GrammarLemmas.FunctionRestRespectsScope | abrvalg/parser.py:307-314 | the same, from the parameters on |
| GrammarLemmas.ConditionalRespectsScope | abrvalg/parser.py:343-354 | a conditional pushes no scope, and all its branches are well scoped |
| GrammarLemmas.ConditionalRestRespectsScope | abrvalg/parser.py:350-354 | so are its `elif` and `else` branches |
| GrammarLemmas.ElifsRespectScope | abrvalg/parser.py:320-332 | every `elif` branch collected is well scoped |
| GrammarLemmas.ElifRespectsScope | abrvalg/parser.py:322-331 | one `elif` branch is well scoped |
| GrammarLemmas.ElseRespectsScope | abrvalg/parser.py:334-341 | the `else` branch is well scoped |
| GrammarLemmas.MatchRespectsScope | abrvalg/parser.py:370-386 | a `match` is well scoped |
| GrammarLemmas.MatchClausesRespectScope | abrvalg/parser.py:374-386 | so are its clauses |
| GrammarLemmas.WhensRespectScope | abrvalg/parser.py:375-376 | every `when` clause collected is well scoped |
| GrammarLemmas.WhenRespectsScope | abrvalg/parser.py:361-368 | one `when` clause is well scoped |
| GrammarLemmas.WhileRespectsScope | abrvalg/parser.py:390-402 | a `while` body is parsed inside a loop scope, so the loop is well scoped |
| GrammarLemmas.ForRespectsScope | abrvalg/parser.py:406-418 | so is a `for` loop |
| GrammarLemmas.ForRestRespectsScope | abrvalg/parser.py:411-418 | the same, from `in` on |
| GrammarLemmas.ExpressionStatementScoped | abrvalg/parser.py:465-474 | an expression statement is an assignment or an expression node, so it is well scoped anywhere |
| GrammarLemmas.ExpressionShape | abrvalg/parser.py:248-257 | the expression parser builds only expression nodes |
| GrammarLemmas.AbsorbShape | abrvalg/parser.py:253-256 | the infix loop keeps the result an expression node |
| GrammarLemmas.PrefixShape | abrvalg/parser.py:222-231 | prefix sub-parsers build expression nodes |
| GrammarLemmas.InfixShape | abrvalg/parser.py:233-238 | an infix sub-parser builds a binary operator, a call or a subscript |
| GrammarLemmas.BindingPowers | abrvalg/parser.py:36-63 | call and subscript bind tightest, then a unary operand, then `* / %`, `+ -`, the orderings, the equalities, `&&`, `||`, and the ranges loosest |
| GrammarLemmas.RightOperandStops | abrvalg/parser.py:179-187 | a binary operator's right operand stops before any operator that binds no tighter, so binary operators group to the left |
| GrammarLemmas.ExpectCurrent | abrvalg/lexer.py:188-194 | expecting the kind of the current token consumes exactly that token |
| GrammarLemmas.UnsupportedUnary | abrvalg/parser.py:113-118 | an operator other than `-` and `!` in prefix position is a syntax error at that operator |
| GrammarLemmas.UnaryOperandStops | abrvalg/parser.py:115-125 | a unary operand takes calls and subscripts but no binary operator: `-a * b` is `(-a) * b` |
| GrammarLemmas.MatchNeedsWhen | abrvalg/parser.py:374-378 | a `match` block that does not start with `when` is a syntax error at that token |
| GrammarLemmas.ListTrailingComma | abrvalg/parser.py:263-275 | a list of expressions may end with a comma |
| GrammarLemmas.EntriesTrailingComma | abrvalg/parser.py:151-167 | dictionary entries may end with a comma |
| GrammarLemmas.NoExpressionAt | abrvalg/parser.py:248-251 | a token that starts no expression yields nothing and consumes nothing |
| GrammarLemmas.EntriesEndAt | abrvalg/parser.py:151-158 | dictionary entries end at a token that starts no expression |
| GrammarLemmas.ParamsRejectTrailingComma | abrvalg/parser.py:292-302 | a parameter list may not end with a comma: "Expected NAME" at the token after it |
| GrammarLemmas.AssignmentToAnyExpression | abrvalg/parser.py:454-474 | any expression followed by `=` starts an assignment to it, and the assignment ends the line |
| GrammarLemmas.AssignmentEndsLine | abrvalg/parser.py:454-460 | an assignment binds the expression before `=` and ends with a NEWLINE |
| GrammarLemmas.NumberExpressionAlone | tests/test_parser.py:15-19 | a number alone on a line is a Number expression of one token |
| GrammarLemmas.NumberStatementAlone | tests/test_parser.py:15-19 | as a statement, it also consumes the NEWLINE |
| GrammarLemmas.NumberStatementCollected | tests/test_parser.py:15-19 | the statement loop collects it |
| GrammarLemmas.NumberStatementsAlone | tests/test_parser.py:15-19 | the statement list is exactly that number |
| GrammarLemmas.StatementsAtEnd | abrvalg/parser.py:494 | at the end of input the statement loop stops |
| GrammarLemmas.StatementsStep | abrvalg/parser.py:494-499 | a parsed statement is collected, and the loop goes on after it |
| GrammarLemmas.SingleNumberProgram | tests/test_parser.py:15-19 | the program `1` parses to the body `[Number(1)]` |
| Parser.ErrorAt | abrvalg/parser.py:17-20 | the error raised at the current token is `Grammar.Fail` |
| Parser.ExpectTokens | abrvalg/lexer.py:188-194 | `consume_expected` as the grammar's `Expect` |
| Parser.Lift | abrvalg/parser.py:249-251 | wraps a node result without changing its success, value or error |
| Parser.Parser.constructor | abrvalg/parser.py:514-515 | a new parser has an empty scope stack |
| Parser.Parser.Parse | abrvalg/parser.py:504-509 | `parse` returns exactly `ParseProgram` from the cursor (see also lines 517-519) |
| Parser.Parser.NextPrecedence | abrvalg/parser.py:240-246 | same result as `Grammar.NextPrecedence` |
| Parser.Parser.Expression | abrvalg/parser.py:248-257 | same value, cursor and error as `Grammar.Expression` |
| Parser.Parser.Prefix | abrvalg/parser.py:222-231 | same value, cursor and error as `Grammar.PrefixExpression` |
| Parser.Parser.NumberExpression | abrvalg/parser.py:87-91 | same value, cursor and error as `Grammar.NumberExpression` |
| Parser.Parser.StringExpression | abrvalg/parser.py:95-99 | same value, cursor and error as `Grammar.StringExpression` |
| Parser.Parser.NameExpression | abrvalg/parser.py:103-107 | same value, cursor and error as `Grammar.NameExpression` |
| Parser.Parser.UnaryExpression | abrvalg/parser.py:111-125 | same value, cursor and error as `Grammar.UnaryExpression` |
| Parser.Parser.GroupExpression | abrvalg/parser.py:129-135 | same value, cursor and error as `Grammar.GroupExpression` |
| Parser.Parser.ArrayExpression | abrvalg/parser.py:139-145 | same value, cursor and error as `Grammar.ArrayExpression` |
| Parser.Parser.DictionaryExpression | abrvalg/parser.py:169-173 | same value, cursor and error as `Grammar.DictionaryExpression` |
| Parser.Parser.KeyValues | abrvalg/parser.py:151-167 | the loop collects the entries of `Grammar.KeyValues`, with the same cursor and error |
| Parser.Parser.KeyValue | abrvalg/parser.py:153-161 | same value, cursor and error as `Grammar.KeyValue` |
| Parser.Parser.Infix | abrvalg/parser.py:233-238 | same value, cursor and error as `Grammar.InfixExpression` |
| Parser.Parser.BinaryExpression | abrvalg/parser.py:177-187 | same value, cursor and error as `Grammar.BinaryExpression` |
| Parser.Parser.CallExpression | abrvalg/parser.py:191-200 | same value, cursor and error as `Grammar.CallExpression` |
| Parser.Parser.SubscriptExpression | abrvalg/parser.py:204-215 | same value, cursor and error as `Grammar.SubscriptExpression` |
| Parser.Parser.ListOfExpressions | abrvalg/parser.py:261-275 | the loop collects the items of `Grammar.ListOfExpressions`, with the same cursor and error |
| Parser.Parser.Statements | abrvalg/parser.py:492-500 | the loop collects the statements of `Grammar.Statements`, and the scope stack is unchanged |
| Parser.Parser.Statement | abrvalg/parser.py:480-497 | same value, cursor and error as `Grammar.Statement`, and the scope stack is unchanged |
| Parser.Parser.Block | abrvalg/parser.py:279-285 | same value, cursor and error as `Grammar.Block`, and the scope stack is unchanged |
| Parser.Parser.ScopedBlock | abrvalg/parser.py:23-31 | a block parsed with one more scope pushed, which is popped again afterwards, even on an error |
| Parser.Parser.Params | abrvalg/parser.py:292-302 | the loop collects the parameters of `Grammar.Params`, with the same cursor and error |
| Parser.Parser.FunctionStatement | abrvalg/parser.py:304-314 | same value, cursor and error as `Grammar.FunctionStatement`, and the scope stack is unchanged |
| Parser.Parser.FunctionRest | abrvalg/parser.py:307-314 | same value, cursor and error as `Grammar.FunctionRest`, and the scope stack is unchanged |
| Parser.Parser.ConditionalStatement | abrvalg/parser.py:343-354 | same value, cursor and error as `Grammar.ConditionalStatement`, and the scope stack is unchanged |
| Parser.Parser.ElifConditions | abrvalg/parser.py:320-332 | the loop collects the branches of `Grammar.Elifs`, and the scope stack is unchanged |
| Parser.Parser.Elif | abrvalg/parser.py:322-331 | same value, cursor and error as `Grammar.Elif`, and the scope stack is unchanged |
| Parser.Parser.Else | abrvalg/parser.py:334-341 | same value, cursor and error as `Grammar.ElseBlock`, and the scope stack is unchanged |
| Parser.Parser.MatchStatement | abrvalg/parser.py:370-386 | same value, cursor and error as `Grammar.MatchStatement`, and the scope stack is unchanged |
| Parser.Parser.MatchClauses | abrvalg/parser.py:374-386 | the loop collects the clauses of `Grammar.MatchClauses`, and the scope stack is unchanged |
| Parser.Parser.When | abrvalg/parser.py:361-368 | same value, cursor and error as `Grammar.When`, and the scope stack is unchanged |
| Parser.Parser.WhileStatement | abrvalg/parser.py:390-402 | same value, cursor and error as `Grammar.WhileStatement`, and the scope stack is unchanged |
| Parser.Parser.ForStatement | abrvalg/parser.py:406-418 | same value, cursor and error as `Grammar.ForStatement`, and the scope stack is unchanged |
| Parser.Parser.ForRest | abrvalg/parser.py:411-418 | same value, cursor and error as `Grammar.ForRest`, and the scope stack is unchanged |
| Parser.Parser.ReturnStatement | abrvalg/parser.py:422-430 | same value, cursor and error as `Grammar.ReturnStatement` |
| Parser.Parser.BreakStatement | abrvalg/parser.py:434-440 | same value, cursor and error as `Grammar.BreakStatement` |
| Parser.Parser.ContinueStatement | abrvalg/parser.py:444-450 | same value, cursor and error as `Grammar.ContinueStatement` |
| Parser.Parser.AssignmentStatement | abrvalg/parser.py:454-460 | same value, cursor and error as `Grammar.AssignmentStatement` |
| Parser.Parser.ExpressionStatement | abrvalg/parser.py:465-474 | same value, cursor and error as `Grammar.ExpressionStatement` |
| Values.SetLocal | abrvalg/interpreter.py:45-46 | `set` binds the key to the value in the current frame and changes no other frame |
| Values.BindArgs | abrvalg/interpreter.py:41-43 | every parameter is bound in a call's frame, and every bound value is one of the arguments (see also line 159) |
| Values.BindArgsKeys | abrvalg/interpreter.py:41-43 | every binding of a call's frame is some parameter bound to the argument at that parameter's position (see also line 159) |
| Values.GlobalFrame | abrvalg/interpreter.py:251-266 | the global frame binds each built-in under its name |
| Values.FindKey | abrvalg/interpreter.py:181-187 | finds the entry holding the key, or reports that none does |
| Values.PutKey | abrvalg/interpreter.py:187-195 | after `d[k] = v`, `k` maps to `v`; other entries keep their place; a new key goes last and the size grows by one only then |
| Values.KeyValue | abrvalg/interpreter.py:195 | every key is the key of some value |
| Builtins.Clamp | abrvalg/interpreter.py:255 | a slice bound counts from the end when negative and is clamped to the sequence |
| Builtins.SliceOf | abrvalg/interpreter.py:255 | `s[start:stop]` holds the elements from the clamped start up to the clamped stop |
| Builtins.Chars | abrvalg/interpreter.py:255 | `list()` of a string is its characters, each as a one-character string |
| Builtins.RangeItems | abrvalg/interpreter.py:75-76 | `range(lo, hi)` holds the ints from `lo` up to `hi`, in order |
| Builtins.ItemsOf | abrvalg/interpreter.py:139 | the items of a string, list or range refer only to existing objects (see also line 255) |
| Builtins.SliceList | abrvalg/interpreter.py:255 | `slice` leaves the frames alone, only adds to the store, and returns or raises |
| Builtins.Length | abrvalg/interpreter.py:254 | `len` is never negative |
| Builtins.ApplyBuiltin | abrvalg/interpreter.py:251-260 | a built-in leaves the frames alone, only adds to the store, and returns a value or raises |
| Operators.Alloc | abrvalg/interpreter.py:190-191 | a new object goes at the end of the store, and its reference is the result |
| Operators.FloorMod | abrvalg/interpreter.py:68 | `a % b` takes the sign of the divisor |
| Operators.FloorDivMod | abrvalg/interpreter.py:68 | `a == b * (a // b) + a % b` |
| Operators.Repeated | abrvalg/interpreter.py:66 | `s * n` has `n * len(s)` elements, none when `n <= 0` |
| Operators.ValuesEqual | abrvalg/interpreter.py:73-74 | `==` compares ints and strings by value; only cases outside the model fail (see also line 120) |
| Operators.ApplyBinary | abrvalg/interpreter.py:62-83 | an operator of the simple table leaves the frames alone, only adds to the store, and returns or raises |
| Operators.Add | abrvalg/interpreter.py:65 | the same, for `+` |
| Operators.Multiply | abrvalg/interpreter.py:66 | the same, for `*` |
| Operators.RepeatList | abrvalg/interpreter.py:66 | the same, for a list times an int |
| Operators.ApplyPure | abrvalg/interpreter.py:67-76 | the operators other than `+` and `*` allocate nothing; `!=` is the negation of `==`; `-` on ints is their difference; `/` on ints raises, a ZeroDivisionError exactly when the divisor is zero |
| Operators.Compare | abrvalg/interpreter.py:69-72 | an ordering yields a bool, and on ints it is the order of the ints |
| Operators.ApplyUnary | abrvalg/interpreter.py:90-95 | `!v` is `not bool(v)`, and `-i` negates an int |
| Operators.Index | abrvalg/interpreter.py:181-187 | an index is in range exactly when `-n <= k < n`; a negative one counts from the end |
| Operators.GetItem | abrvalg/interpreter.py:178-181 | `collection[key]` refers only to existing objects |
| Operators.SetItem | abrvalg/interpreter.py:184-187 | `collection[key] = v` changes only the collection's own object |
| Evaluator.Eval | abrvalg/interpreter.py:202-227 | evaluating a node keeps the frames below the current one, only adds to the store, and keeps the state well formed |
| Evaluator.EvalIdentifier | abrvalg/interpreter.py:170-175 | the same, for a name |
| Evaluator.Declare | abrvalg/interpreter.py:149-150 | the same, for a declaration |
| Evaluator.EvalAssignment | abrvalg/interpreter.py:98-102 | the same, for an assignment |
| Evaluator.Bind | abrvalg/interpreter.py:100-102 | the same, for the binding step of an assignment |
| Evaluator.EvalSetItem | abrvalg/interpreter.py:184-187 | the same, for an item assignment |
| Evaluator.EvalBinary | abrvalg/interpreter.py:62-87 | the same, for a binary operator |
| Evaluator.EvalLazy | abrvalg/interpreter.py:77-80 | the same, for `&&` and `||` |
| Evaluator.EvalUnary | abrvalg/interpreter.py:90-95 | the same, for a unary operator |
| Evaluator.EvalGetItem | abrvalg/interpreter.py:178-181 | the same, for a subscript |
| Evaluator.EvalArray | abrvalg/interpreter.py:190-191 | the same, for a list literal |
| Evaluator.EvalItems | abrvalg/interpreter.py:191 | the same, and a normal ending has evaluated every item |
| Evaluator.EvalDict | abrvalg/interpreter.py:194-195 | the same, for a dictionary literal |
| Evaluator.EvalEntries | abrvalg/interpreter.py:195 | the same, for its entries |
| Evaluator.EvalCall | abrvalg/interpreter.py:153-167 | the same, for a call |
| Evaluator.Returned | abrvalg/interpreter.py:163-167 | after a call the caller's frames are back, with the store the body left |
| Evaluator.EvalCondition | abrvalg/interpreter.py:105-114 | keeps the frames below, only adds to the store |
| Evaluator.EvalElifs | abrvalg/interpreter.py:108-112 | the same, for the `elif` branches |
| Evaluator.EvalElse | abrvalg/interpreter.py:113-114 | the same, for the `else` branch |
| Evaluator.EvalMatch | abrvalg/interpreter.py:117-123 | the same, for a `match` |
| Evaluator.EvalWhens | abrvalg/interpreter.py:119-123 | the same, for its clauses |
| Evaluator.EvalWhile | abrvalg/interpreter.py:126-133 | the same, and a loop that ends normally has the value `None` |
| Evaluator.WhileNext | abrvalg/interpreter.py:128-133 | the same, after one iteration |
| Evaluator.EvalFor | abrvalg/interpreter.py:136-146 | the same, and a loop that ends normally has the value `None` |
| Evaluator.NextItem | abrvalg/interpreter.py:139-142 | the next element refers only to existing objects |
| Evaluator.ForFrom | abrvalg/interpreter.py:139-146 | the iterations let no `break` or `continue` escape, and end normally with `None` |
| Evaluator.ForNext | abrvalg/interpreter.py:141-146 | the same, after one iteration |
| Evaluator.ExecBody | abrvalg/interpreter.py:238-248 | running statements keeps the frames below, only adds to the store |
| Interpreter.BuiltinsFrameIsGlobal | abrvalg/interpreter.py:251-266 | binding the five built-ins in order gives the global frame |
| Interpreter.BindArgsStep | abrvalg/interpreter.py:41-43 | each step of `_from_dict` adds one parameter to the frame of the ones before |
| Interpreter.ForFromStep | abrvalg/interpreter.py:139-146 | one iteration of a `for` loop: a failing element raises, the end gives `None`, and otherwise the variable is set and the body runs |
| Interpreter.ForNextStep | abrvalg/interpreter.py:141-146 | after the body: `Break` ends the loop with `None`, `Continue` and a normal end go on, and any other ending leaves the loop |
| Interpreter.Environment.Global | abrvalg/interpreter.py:263-266 | `create_global_env` gives one frame, the global frame, and an empty store |
| Interpreter.Environment.Set | abrvalg/interpreter.py:45-46 | `set` updates the frames as `SetLocal` and leaves the store alone |
| Interpreter.Environment.Get | abrvalg/interpreter.py:48-53 | `get` answers `Lookup` |
| Interpreter.Environment.Enter | abrvalg/interpreter.py:35-43 | the callee's environment is a new frame holding the arguments, above the caller's (see also line 163) |
| Interpreter.Environment.Exit | abrvalg/interpreter.py:163-167 | leaving a call drops the callee's frame |
| Interpreter.Environment.Invoke | abrvalg/interpreter.py:159-167 | a call of a declared function runs its body in a new frame and ends as `Returned` says |
| Interpreter.Environment.ExecStatements | abrvalg/interpreter.py:238-248 | `eval_statements` ends as `ExecBody` says, in the state it says |
| Interpreter.Environment.WhileLoop | abrvalg/interpreter.py:126-133 | `eval_while_loop` ends as `EvalWhile` says |
| Interpreter.Environment.ForLoop | abrvalg/interpreter.py:136-146 | `eval_for_loop` ends as `EvalFor` says |
| Interpreter.Environment.Iterate | abrvalg/interpreter.py:140-142 | one iteration sets the variable and runs the body |
| Interpreter.Environment.ForStep | abrvalg/interpreter.py:139-146 | one iteration either ends the loop as `ForFrom` says or goes on with the next element |
| Interpreter.Environment.ForEach | abrvalg/interpreter.py:139-146 | the iterations end as `ForFrom` says |
| InterpreterLemmas.LookupFound | abrvalg/interpreter.py:48-53 | `get` finds a value exactly when some frame binds the key to something other than `None` |
| InterpreterLemmas.LookupInnermost | abrvalg/interpreter.py:48-53 | the value found is the innermost such binding |
| InterpreterLemmas.SetThenLookup | abrvalg/interpreter.py:45-53 | after `set(k, v)`, `get(k)` is `v` (unless `v` is `None`, which lets the lookup pass outwards), and other keys are unaffected |
| InterpreterLemmas.BindArgsLast | abrvalg/interpreter.py:41-43 | a parameter named twice is bound to the argument at its last position (see also line 159) |
| InterpreterLemmas.StrLessIrreflexive | abrvalg/interpreter.py:69-72 | no string is less than itself |
| InterpreterLemmas.StrLessTransitive | abrvalg/interpreter.py:69-72 | the string order is transitive |
| InterpreterLemmas.StrLessTotal | abrvalg/interpreter.py:69-72 | of two different strings exactly one comes first |
| InterpreterLemmas.ValuesEqualSymmetric | abrvalg/interpreter.py:73 | `==` does not depend on the order of its operands (see also line 120) |
| InterpreterLemmas.IntOfStrOfInt | abrvalg/interpreter.py:256-257 | the built-ins `int` and `str` are inverse on ints |
| InterpreterLemmas.RepeatedAt | abrvalg/interpreter.py:66 | `s * n` starts with `s`, and each later element repeats the one `len(s)` places before it |
| InterpreterLemmas.RepeatedPrefix | abrvalg/interpreter.py:66 | `s * (n - 1)` is a prefix of `s * n` |
| InterpreterLemmas.ModuloOperator | abrvalg/interpreter.py:68 | `%` is the remainder of floor division, and a zero divisor raises ZeroDivisionError |
| InterpreterLemmas.RangeOperators | abrvalg/interpreter.py:75-76 | `a..b` is `range(a, b)`, and `a...b` is `range(a, b + 1)`, which ends with `b` |
| InterpreterLemmas.ListIndex | abrvalg/interpreter.py:178-181 | a negative list index counts from the end |
| InterpreterLemmas.GetAfterSet | abrvalg/interpreter.py:178-187 | what `collection[key] = v` stores, `collection[key]` reads back |
| InterpreterLemmas.AndShortCircuits | abrvalg/interpreter.py:79 | `l && r` with a false left operand is `False`, and `r` is never evaluated |
| InterpreterLemmas.OrShortCircuits | abrvalg/interpreter.py:80 | `l || r` with a true left operand is `True`, and `r` is never evaluated |
| InterpreterLemmas.AndEvaluatesRight | abrvalg/interpreter.py:79 | `l && r` with a true left operand evaluates `r` in the state `l` left, and is `bool(r)` unless `r` ends abnormally |
| InterpreterLemmas.OrEvaluatesRight | abrvalg/interpreter.py:80 | `l || r` with a false left operand evaluates `r` in the state `l` left, and is `bool(r)` unless `r` ends abnormally |
| InterpreterLemmas.SimpleOperatorOrder | abrvalg/interpreter.py:82-83 | an operator of the simple table evaluates the left operand, then the right in the state the left left, stops at the first abnormal end, and applies the operator to both values |
| InterpreterLemmas.UnknownBinaryOperator | abrvalg/interpreter.py:84-87 | an operator outside both tables raises "Invalid operator" before any operand is evaluated |
| InterpreterLemmas.UnknownUnaryOperator | abrvalg/interpreter.py:90-95 | a unary operator other than `-` and `!` raises KeyError before its operand is evaluated |
| InterpreterLemmas.ArityCheckedFirst | abrvalg/interpreter.py:153-158 | a wrong argument count raises TypeError once the callee is known, before any argument is evaluated |
| InterpreterLemmas.BreakEndsBody | abrvalg/interpreter.py:238-244 | a `break` statement ends a body with `Break`, and nothing after it runs |
| InterpreterLemmas.WhileFalseTest | abrvalg/interpreter.py:126-133 | a loop whose test is false at once never runs its body and is `None` |
| InterpreterLemmas.WhileTrueTest | abrvalg/interpreter.py:126-133 | with a true test the body runs: `Break` ends the loop with `None`, `Continue` and a normal end test again, and `Return` or an exception leaves the loop |
| InterpreterLemmas.IdentifierLookup | abrvalg/interpreter.py:170-175 | a name evaluates to what `get` finds, or raises NameError when that is `None` |
| InterpreterLemmas.AssignmentBinds | abrvalg/interpreter.py:98-102 | `x = e` binds `x` to the value of `e` in the current frame only, and is `None` itself |
| InterpreterLemmas.CalleeSeesCaller | abrvalg/interpreter.py:48-53 | in a call's frame a name that is not a parameter is looked up in the caller's chain (see also line 163) |
| InterpreterLemmas.CallOfFunction | abrvalg/interpreter.py:153-167 | a call runs the body in a new frame over the caller's; a `Return` is the call's value, and the caller's frames are restored |
| InterpreterLemmas.ReturnStatement | abrvalg/interpreter.py:198-199 | a `return` statement ends the body with `Return` of its value, or `None` (see also lines 245-247) |
| InterpreterLemmas.AppendedStatement | abrvalg/interpreter.py:238-248 | running `body + [s]` runs `body`, then `s` in the state it left, unless `body` ended abnormally |
| InterpreterLemmas.SingleStatementBody | abrvalg/interpreter.py:238-248 | an empty body is `None`, and a one-statement body is that statement's evaluation |
| InterpreterLemmas.ConditionTest | abrvalg/interpreter.py:105-108 | a true `if` test runs the `if` body; a false one goes on to the `elif` branches |
| InterpreterLemmas.FirstTrueElif | abrvalg/interpreter.py:108-111 | the first `elif` whose test is true runs its body, and no later test is evaluated |
| InterpreterLemmas.NoTrueElif | abrvalg/interpreter.py:108-114 | when no `elif` test is true the `else` body runs, or the result is `None` when there is none |
| InterpreterLemmas.FirstEqualPattern | abrvalg/interpreter.py:117-121 | the first `when` pattern equal to the subject runs its body, and no later pattern is evaluated |
| InterpreterLemmas.NoEqualPattern | abrvalg/interpreter.py:119-123 | when no pattern equals the subject the `else` body runs, or the result is `None` when there is none |
| InterpreterLemmas.DeclarationBinds | abrvalg/interpreter.py:149-150 | declaring a function binds its name in the current frame to the function, is `None`, and changes nothing else |
| InterpreterLemmas.SetItemOrder | abrvalg/interpreter.py:184-187 | `c[k] = e` evaluates the collection, the key and the value in this order, stops at the first abnormal ending, and then stores the value or raises |
| Pipeline.Reporting | abrvalg/errors.py:18-23 | a report is made exactly when the line indexes into the recorded lines; otherwise the host's IndexError escapes |
| Pipeline.EvaluateEnvSpec | abrvalg/interpreter.py:269-308 | evaluation keeps the environment's invariant, and a syntax error or escaping exception leaves the environment untouched |
| Pipeline.EvaluateEnv | abrvalg/interpreter.py:269-308 | `evaluate_env` lexes, parses and runs the program, or reports, as `EvaluateEnvSpec` says |
| Pipeline.Evaluate | abrvalg/interpreter.py:311-312 | `evaluate` is `evaluate_env` in a fresh global environment |
| Pipeline.LexErrorReported | abrvalg/interpreter.py:269-279 | a source the lexer rejects is reported at the last recorded line, with the caret under the character no rule matches, and the environment is untouched |

## Left out

- Floating point. A NUMBER with a decimal point keeps its text. Evaluating it raises a `NotModelled` fault, and so does true division `/`.
- Unicode character classes. `\w` and `\d` are modelled as ASCII letters, digits and `_`.
- `splitlines()` breaks only at the line-break characters the model lists. `str.isspace` is modelled on the common white-space characters.
- Host behaviour outside the model raises a `NotModelled` fault. This covers:
  - a bool used as an int in arithmetic, or as an index, slice bound or dictionary key;
  - a range as a dictionary key;
  - the tuples that stand for declared functions and built-ins, when sliced, measured, subscripted or iterated;
  - slicing a dictionary;
  - `str()` of a container or a function;
  - `==` between two lists, two dictionaries or two declared functions;
  - ordering of lists;
  - string formatting with `%`.
- The output of `print`. The built-in returns `None` and writes nothing, because I/O is outside the model.
- Unbounded running. Every call and loop iteration spends one unit of fuel, and a program that runs out ends with `OutOfFuel`. Programs that do not terminate are therefore not modelled.
- The `verbose` flag of `evaluate_env` and its tracing output. `__main__.py`, `utils.py` and `ttt.py` are not part of this model.
- The environment chain is a stack of frames, not linked objects. A declared function sees the bindings of whoever calls it, as in the source, because the callee's environment's parent is the caller's.
- Numeric environment keys. An assignment to a number literal binds the key `NumberName(numeral)`. The host's equality of `1` and `1.0` as keys is not modelled.
- The messages of host exceptions. A KeyError, IndexError or TypeError raised by the host carries a generic message in the model.
- Dictionary order is insertion order, as in Python 3.7 and later.
- Dead code. The `if` that checks `Block`'s statements for `None` can never fire and is not modelled.
- Parameter lists. A trailing comma is a syntax error (see `GrammarLemmas.ParamsRejectTrailingComma`), which is what the code does.
- InterpreterLemmas.ConditionTest, InterpreterLemmas.FirstTrueElif, InterpreterLemmas.NoTrueElif, InterpreterLemmas.FirstEqualPattern, InterpreterLemmas.NoEqualPattern: these cover tests and patterns that change no state and end normally. A test with side effects is covered by the `Evaluator` functions only.
- Evaluator.Eval: its own contract states only the invariant every evaluation keeps (`Follows`). What each node does is stated by the `InterpreterLemmas` lemmas, and the loops' steps by the `Interpreter` methods.
- Evaluator.EvalIdentifier: contract states only `Follows`; see InterpreterLemmas.IdentifierLookup.
- Evaluator.Declare: contract states only `Follows`; see InterpreterLemmas.DeclarationBinds.
- Evaluator.EvalAssignment: contract states only `Follows`; see InterpreterLemmas.AssignmentBinds.
- Evaluator.Bind: contract states only `Follows`; see InterpreterLemmas.AssignmentBinds.
- Evaluator.EvalSetItem: contract states only `Follows`; see InterpreterLemmas.SetItemOrder and InterpreterLemmas.GetAfterSet.
- Evaluator.EvalBinary: contract states only `Follows`; see InterpreterLemmas.SimpleOperatorOrder, AndShortCircuits, OrShortCircuits, AndEvaluatesRight, OrEvaluatesRight, UnknownBinaryOperator, ModuloOperator and RangeOperators.
- Evaluator.EvalLazy: contract states only `Follows`; see InterpreterLemmas.AndShortCircuits, OrShortCircuits, AndEvaluatesRight and OrEvaluatesRight.
- Evaluator.EvalUnary: contract states only `Follows`; see InterpreterLemmas.UnknownUnaryOperator and Operators.ApplyUnary.
- Evaluator.EvalGetItem: contract states only `Follows`; see InterpreterLemmas.ListIndex and GetAfterSet.
- Evaluator.EvalArray: contract states only `Follows`.
- Evaluator.EvalItems: contract states only `Follows` and the number of items.
- Evaluator.EvalDict: contract states only `Follows`.
- Evaluator.EvalEntries: contract states only `Follows`.
- Evaluator.EvalCall: contract states only `Follows`; see InterpreterLemmas.CallOfFunction and ArityCheckedFirst.
- Evaluator.EvalCondition: contract states only `Follows`; see InterpreterLemmas.ConditionTest.
- Evaluator.EvalElifs: contract states only `Follows`; see InterpreterLemmas.FirstTrueElif and NoTrueElif.
- Evaluator.EvalElse: contract states only `Follows`.
- Evaluator.EvalMatch: contract states only `Follows`; see InterpreterLemmas.FirstEqualPattern and NoEqualPattern.
- Evaluator.EvalWhens: contract states only `Follows`; see InterpreterLemmas.FirstEqualPattern and NoEqualPattern.
- Evaluator.EvalWhile: does not state that no `break` or `continue` escapes the loop. One raised by the test itself (a call in the test) passes through, as in the host. See InterpreterLemmas.WhileTrueTest and WhileFalseTest.
- Evaluator.WhileNext: contract states only `Follows` and the `None` value.
- Evaluator.ExecBody: contract states only `Follows`; see InterpreterLemmas.AppendedStatement, SingleStatementBody, BreakEndsBody and ReturnStatement.
- Operators.ApplyBinary: contract states only that the frames are kept and the operator returns or raises. The values are given by its body, and by Operators.Compare, ValuesEqual and InterpreterLemmas.ModuloOperator and RangeOperators.
- Operators.Add: contract states only that the frames are kept and the operator returns or raises.
- Operators.Multiply: contract states only that the frames are kept and the operator returns or raises; see InterpreterLemmas.RepeatedAt.
- Operators.RepeatList: contract states only that the frames are kept and the operator returns or raises.
- Operators.GetItem: contract states only that the result refers to existing objects; see InterpreterLemmas.ListIndex and GetAfterSet.
- Builtins.ApplyBuiltin: contract states only that the frames are kept and the built-in returns or raises; see InterpreterLemmas.IntOfStrOfInt, Builtins.SliceOf and Builtins.Chars.
- Builtins.SliceList: contract states only that the frames are kept and the built-in returns or raises; the elements are Builtins.SliceOf's.
- Builtins.Length: contract states only that the length is not negative.
- Lexer.DecodeStr: contract states only a length bound; the round trip is LexerLemmas.DecodeEncode.
- Lexer.Dedent: contract states only that the body is no longer than the line; the level and the body are what Lexer.Lexer.MeasureIndent computes.
- Text.ParseInt: contract states only when it can succeed; the round trip is Text.ParseIntShowInt.
- Grammar.Expression: the grammar functions state progress and position bounds in their own contracts. What they build is stated by GrammarLemmas, and Parser.Parser's methods are proved to compute them.
- Grammar.PrefixExpression: contract states only progress; see GrammarLemmas.PrefixShape.
- Grammar.GroupExpression: contract states only progress.
- Grammar.UnaryExpression: contract states only progress; see GrammarLemmas.UnsupportedUnary and UnaryOperandStops.
- Grammar.InfixExpression: contract states only progress; see GrammarLemmas.InfixShape.
- Grammar.BinaryExpression: contract states only progress; see GrammarLemmas.RightOperandStops.
- Grammar.CallExpression: contract states only progress; see GrammarLemmas.InfixShape.
- Grammar.SubscriptExpression: contract states only progress; see GrammarLemmas.InfixShape.
- Grammar.KeyValue: contract states only progress.
- Grammar.Statement: contract states only progress; see GrammarLemmas.StatementRespectsScope.
- Grammar.Block: contract states only progress; see GrammarLemmas.BlockRespectsScope.
- Grammar.ColonBlock: contract states only progress.
- Grammar.Params: contract states only position bounds; see GrammarLemmas.ParamsRejectTrailingComma.
- Grammar.FunctionStatement: contract states only progress; see GrammarLemmas.FunctionRespectsScope.
- Grammar.FunctionRest: contract states only progress.
- Grammar.ConditionalStatement: contract states only progress; see GrammarLemmas.ConditionalRespectsScope.
- Grammar.ConditionalRest: contract states only position bounds.
- Grammar.Elif: contract states only progress.
- Grammar.ElseBlock: contract states only position bounds.
- Grammar.MatchStatement: contract states only progress; see GrammarLemmas.MatchNeedsWhen.
- Grammar.When: contract states only progress.
- Grammar.WhileStatement: contract states only progress; see GrammarLemmas.WhileRespectsScope.
- Grammar.ForStatement: contract states only progress; see GrammarLemmas.ForRespectsScope.
- Grammar.ForRest: contract states only progress.
- Grammar.ReturnStatement: contract states only progress; the scope rule in both directions is GrammarLemmas.ReturnRule, and GrammarLemmas.ProgramScoped lifts its soundness half to whole programs.
- Grammar.BreakStatement: contract states only progress; the scope rule in both directions is GrammarLemmas.BreakRule, and GrammarLemmas.ProgramScoped lifts its soundness half to whole programs.
- Grammar.ContinueStatement: contract states only progress; the scope rule in both directions is GrammarLemmas.ContinueRule, and GrammarLemmas.ProgramScoped lifts its soundness half to whole programs.
- Grammar.AssignmentStatement: contract states only progress; see GrammarLemmas.AssignmentEndsLine.
- Grammar.ExpressionStatement: contract states only progress; see GrammarLemmas.AssignmentToAnyExpression.
- Pipeline.Reporting: a line that does not index into the recorded lines is the host's IndexError (`Crashed`), which `evaluate_env` does not catch.
