/// The regular-expression lexer and the token cursor of abrvalg/lexer.py.
///
/// Each line is matched against an ordered rule table and the FIRST rule that matches
/// at the current position wins. Every rule is hand-coded here as a small matcher over
/// the line. Indentation is turned into INDENT/DEDENT tokens by a state machine over
/// the lines of the source.
module Lexer {
  import opened Results
  import opened Text
  import opened Errors

  /// Token names, spelled as the language spells them in its messages.
  datatype Kind =
    | COMMENT | STRING | NUMBER | NAME | WHITESPACE | NEWLINE | OPERATOR | ASSIGN
    | LPAREN | RPAREN | LBRACK | RBRACK | LCBRACK | RCBRACK | COLON | COMMA
    | INDENT | DEDENT
    | FUNCTION | RETURN | ELSE | ELIF | IF | WHILE | BREAK | CONTINUE | FOR | IN | MATCH | WHEN
  {
    function Name(): string {
      match this
      case COMMENT => "COMMENT"
      case STRING => "STRING"
      case NUMBER => "NUMBER"
      case NAME => "NAME"
      case WHITESPACE => "WHITESPACE"
      case NEWLINE => "NEWLINE"
      case OPERATOR => "OPERATOR"
      case ASSIGN => "ASSIGN"
      case LPAREN => "LPAREN"
      case RPAREN => "RPAREN"
      case LBRACK => "LBRACK"
      case RBRACK => "RBRACK"
      case LCBRACK => "LCBRACK"
      case RCBRACK => "RCBRACK"
      case COLON => "COLON"
      case COMMA => "COMMA"
      case INDENT => "INDENT"
      case DEDENT => "DEDENT"
      case FUNCTION => "FUNCTION"
      case RETURN => "RETURN"
      case ELSE => "ELSE"
      case ELIF => "ELIF"
      case IF => "IF"
      case WHILE => "WHILE"
      case BREAK => "BREAK"
      case CONTINUE => "CONTINUE"
      case FOR => "FOR"
      case IN => "IN"
      case MATCH => "MATCH"
      case WHEN => "WHEN"
    }

    predicate IsKeyword() {
      this in {FUNCTION, RETURN, ELSE, ELIF, IF, WHILE, BREAK, CONTINUE, FOR, IN, MATCH, WHEN}
    }
  }

  /// The value of a NUMBER literal: an integer, or the text of a literal with a decimal
  /// point (floating point is not part of this model).
  datatype Numeral = Integer(value: int) | Decimal(text: string)

  /// A token's value: none (keywords and synthesised tokens), the matched or decoded text,
  /// or a decoded number.
  datatype TokenValue = NoValue | Str(s: string) | Num(n: Numeral)

  datatype Token = Token(kind: Kind, value: TokenValue, line: int, column: int)

  /// The value shape each kind carries when the lexer produced it.
  predicate WellFormed(t: Token) {
    && (t.kind == NUMBER <==> t.value.Num?)
    && (t.kind == STRING || t.kind == NAME || t.kind == OPERATOR ==> t.value.Str?)
  }

  type LexToken = t: Token | WellFormed(t) witness Token(NEWLINE, NoValue, 1, 1)

  /// Reserved words: a NAME spelled like one of these becomes that keyword.
  const Keywords: map<string, Kind> := map[
    "func" := FUNCTION, "return" := RETURN, "else" := ELSE, "elif" := ELIF, "if" := IF,
    "while" := WHILE, "break" := BREAK, "continue" := CONTINUE, "for" := FOR, "in" := IN,
    "match" := MATCH, "when" := WHEN]

  // ----- string and number decoding -------------------------------------------------

  /// The character an escape `\c` stands for, for the six escapes the lexer knows.
  function Unescape(c: char): Option<char> {
    if c == 'r' then Some('\r')
    else if c == 'n' then Some('\n')
    else if c == 't' then Some('\t')
    else if c == '\\' then Some('\\')
    else if c == '"' then Some('"')
    else if c == '\'' then Some('\'')
    else None
  }

  /// Escape decoding of a string literal's body, scanning left to right: each of the six
  /// known escapes becomes its character and every other character, including a
  /// backslash that starts no known escape, is kept.
  function DecodeStr(s: string): (r: string)
    ensures |r| <= |s|
    decreases |s|
  {
    if s == [] then []
    else if |s| >= 2 && s[0] == '\\' && Unescape(s[1]).Some? then [Unescape(s[1]).value] + DecodeStr(s[2..])
    else [s[0]] + DecodeStr(s[1..])
  }

  /// How a character is written inside a literal so that `DecodeStr` gives it back.
  function Escape(c: char): string {
    if c == '\r' then "\\r"
    else if c == '\n' then "\\n"
    else if c == '\t' then "\\t"
    else if c == '\\' then "\\\\"
    else if c == '"' then "\\\""
    else if c == '\'' then "\\'"
    else [c]
  }

  function EncodeStr(s: string): string {
    if s == [] then [] else Escape(s[0]) + EncodeStr(s[1..])
  }

  /// `int(text)` when the host accepts the text, the decimal literal otherwise.
  function DecodeNum(s: string): Numeral {
    if |s| > 0 && AllDigits(s) then Integer(DigitsValue(s)) else Decimal(s)
  }

  // ----- the rule table ---------------------------------------------------------------

  predicate IsLetter(c: char) {
    'a' <= c <= 'z' || 'A' <= c <= 'Z'
  }

  predicate IsWordChar(c: char) {
    IsLetter(c) || IsDigit(c) || c == '_'
  }

  /// The character sets that the rules repeat.
  datatype CharClass = AnyButLineFeed | Digit | Word | Blank | LineFeed

  predicate InClass(c: char, cls: CharClass) {
    match cls
    case AnyButLineFeed => c != '\n'
    case Digit => IsDigit(c)
    case Word => IsWordChar(c)
    case Blank => c == ' ' || c == '\t'
    case LineFeed => c == '\n'
  }

  type Literal = s: string | |s| > 0 witness "="

  /// One regular expression of the table.
  datatype Pattern =
    | HashComment               // #.*
    | QuotedText(quote: char)   // "((\\"|[^"])*)" and its single-quoted twin
    | PointNumber               // \d+\.\d+
    | DigitRun                  // \d+
    | NameWord                  // [a-zA-Z_]\w*
    | BlankRun                  // [ \t]+
    | LineFeedRun               // \n+
    | Literals(alts: seq<Literal>)  // an alternation of fixed strings, tried in order

  /// A successful match: where it ends and the text the lexer takes from it (the first
  /// group where the pattern has one, the whole match otherwise).
  datatype Hit = Hit(end: nat, group: string)

  /// Where the maximal run of `cls` characters starting at `i` ends.
  function RunEnd(line: string, i: nat, cls: CharClass): (e: nat)
    requires i <= |line|
    ensures i <= e <= |line|
    ensures forall k :: i <= k < e ==> InClass(line[k], cls)
    ensures e == |line| || !InClass(line[e], cls)
    decreases |line| - i
  {
    if i < |line| && InClass(line[i], cls) then RunEnd(line, i + 1, cls) else i
  }

  /// A quote at `k` that is not preceded by a backslash.
  predicate BareQuote(line: string, q: char, k: int) {
    1 <= k < |line| && line[k] == q && line[k - 1] != '\\'
  }

  function FirstBareQuote(line: string, q: char, i: nat): (r: Option<nat>)
    ensures r.Some? ==> i <= r.value && BareQuote(line, q, r.value)
    ensures r.Some? ==> forall k :: i <= k < r.value ==> !BareQuote(line, q, k)
    ensures r.None? ==> forall k :: i <= k < |line| ==> !BareQuote(line, q, k)
    decreases |line| - i
  {
    if i >= |line| then None
    else if BareQuote(line, q, i) then Some(i)
    else FirstBareQuote(line, q, i + 1)
  }

  function LastQuote(line: string, q: char, lo: nat, hi: nat): (r: Option<nat>)
    requires hi <= |line|
    ensures r.Some? ==> lo <= r.value < hi && line[r.value] == q
    ensures r.Some? ==> forall k :: r.value < k < hi ==> line[k] != q
    ensures r.None? ==> forall k :: lo <= k < hi ==> line[k] != q
    decreases hi
  {
    if hi <= lo then None
    else if line[hi - 1] == q then Some(hi - 1)
    else LastQuote(line, q, lo, hi - 1)
  }

  /// The closing quote of the string rule started at `pos`. The starred group consumes
  /// `\q` pairs and other characters greedily, so the first quote that no backslash
  /// precedes closes the literal; when every later quote is escaped, backtracking hands
  /// back the last of them, which then closes it.
  function ClosingQuote(line: string, q: char, pos: nat): (r: Option<nat>)
    requires pos < |line|
    ensures r.Some? ==> pos < r.value < |line| && line[r.value] == q
  {
    match FirstBareQuote(line, q, pos + 1)
    case Some(k) => Some(k)
    case None => LastQuote(line, q, pos + 1, |line|)
  }

  function FirstLiteral(alts: seq<Literal>, line: string, pos: nat): (r: Option<Hit>)
    requires pos <= |line|
    ensures r.Some? ==> pos < r.value.end <= |line| && r.value.group == line[pos..r.value.end]
    ensures r.Some? ==> r.value.group in alts
    ensures r.None? ==> forall j :: 0 <= j < |alts| ==> !(alts[j] <= line[pos..])
  {
    if alts == [] then None
    else if alts[0] <= line[pos..] then Some(Hit(pos + |alts[0]|, alts[0]))
    else FirstLiteral(alts[1..], line, pos)
  }

  /// `regex.match(line, pos)` for one pattern of the table.
  function MatchPattern(p: Pattern, line: string, pos: nat): (r: Option<Hit>)
    requires pos < |line|
    ensures r.Some? ==> pos < r.value.end <= |line|
    ensures r.Some? && p.QuotedText? ==> pos + 2 <= r.value.end && r.value.group == line[pos + 1..r.value.end - 1]
    ensures r.Some? && !p.QuotedText? ==> r.value.group == line[pos..r.value.end]
  {
    match p
    case HashComment =>
      if line[pos] == '#' then
        var e := RunEnd(line, pos + 1, AnyButLineFeed);
        Some(Hit(e, line[pos..e]))
      else None
    case QuotedText(q) =>
      if line[pos] != q then None
      else (match ClosingQuote(line, q, pos)
            case Some(k) => Some(Hit(k + 1, line[pos + 1..k]))
            case None => None)
    case PointNumber =>
      if !IsDigit(line[pos]) then None
      else
        var d := RunEnd(line, pos, Digit);
        if d + 1 < |line| && line[d] == '.' && IsDigit(line[d + 1]) then
          var e := RunEnd(line, d + 1, Digit);
          Some(Hit(e, line[pos..e]))
        else None
    case DigitRun =>
      if IsDigit(line[pos]) then
        var e := RunEnd(line, pos, Digit);
        Some(Hit(e, line[pos..e]))
      else None
    case NameWord =>
      if IsLetter(line[pos]) || line[pos] == '_' then
        var e := RunEnd(line, pos + 1, Word);
        Some(Hit(e, line[pos..e]))
      else None
    case BlankRun =>
      if InClass(line[pos], Blank) then
        var e := RunEnd(line, pos, Blank);
        Some(Hit(e, line[pos..e]))
      else None
    case LineFeedRun =>
      if line[pos] == '\n' then
        var e := RunEnd(line, pos, LineFeed);
        Some(Hit(e, line[pos..e]))
      else None
    case Literals(alts) => FirstLiteral(alts, line, pos)
  }

  datatype Rule = Rule(kind: Kind, pattern: Pattern)

  /// The rule table, in the order in which the rules are tried.
  const Rules: seq<Rule> := [
    Rule(COMMENT, HashComment),
    Rule(STRING, QuotedText('"')),
    Rule(STRING, QuotedText('\'')),
    Rule(NUMBER, PointNumber),
    Rule(NUMBER, DigitRun),
    Rule(NAME, NameWord),
    Rule(WHITESPACE, BlankRun),
    Rule(NEWLINE, LineFeedRun),
    Rule(OPERATOR, Literals(["!"])),
    Rule(OPERATOR, Literals(["+", "*", "-", "/", "%"])),
    Rule(OPERATOR, Literals(["<=", ">=", "==", "!=", "<", ">"])),
    Rule(OPERATOR, Literals(["||", "&&"])),
    Rule(OPERATOR, Literals(["...", ".."])),
    Rule(ASSIGN, Literals(["="])),
    Rule(LPAREN, Literals(["("])),
    Rule(RPAREN, Literals([")"])),
    Rule(LBRACK, Literals(["["])),
    Rule(RBRACK, Literals(["]"])),
    Rule(LCBRACK, Literals(["{"])),
    Rule(RCBRACK, Literals(["}"])),
    Rule(COLON, Literals([":"])),
    Rule(COMMA, Literals([","]))
  ]

  /// Rule `rule` of the table fired with `hit`.
  datatype Fired = Fired(rule: nat, hit: Hit)

  /// The first rule of `rules`, from index `i` on, whose pattern matches at `pos`.
  function FirstMatch(rules: seq<Rule>, line: string, pos: nat, i: nat): (r: Option<Fired>)
    requires pos < |line| && i <= |rules|
    ensures r.Some? ==> i <= r.value.rule < |rules|
    ensures r.Some? ==> MatchPattern(rules[r.value.rule].pattern, line, pos) == Some(r.value.hit)
    ensures r.Some? ==> forall j :: i <= j < r.value.rule ==> MatchPattern(rules[j].pattern, line, pos).None?
    ensures r.None? ==> forall j :: i <= j < |rules| ==> MatchPattern(rules[j].pattern, line, pos).None?
    decreases |rules| - i
  {
    if i == |rules| then None
    else
      match MatchPattern(rules[i].pattern, line, pos)
      case Some(h) => Some(Fired(i, h))
      case None => FirstMatch(rules, line, pos, i + 1)
  }

  /// The token (if any) that a match of a rule of kind `kind` starting at `start` yields:
  /// white space and comments yield none, strings and numbers are decoded, and a NAME
  /// spelled like a reserved word becomes that keyword with no value.
  function Emit(kind: Kind, group: string, start: nat, lineNum: int): (r: seq<LexToken>)
    ensures kind == WHITESPACE || kind == COMMENT <==> r == []
    ensures |r| <= 1
    ensures r != [] ==> r[0].line == lineNum && r[0].column == start + 1
  {
    if kind == WHITESPACE || kind == COMMENT then []
    else if kind == STRING then [Token(STRING, Str(DecodeStr(group)), lineNum, start + 1)]
    else if kind == NUMBER then [Token(NUMBER, Num(DecodeNum(group)), lineNum, start + 1)]
    else if kind == NAME && group in Keywords then [Token(Keywords[group], NoValue, lineNum, start + 1)]
    else [Token(kind, Str(group), lineNum, start + 1)]
  }

  /// The tokens of one (indent-stripped) line from `pos` on, after `acc`, under the rule
  /// table `rules`: the first rule that matches fires and lexing continues where its match
  /// ends; a position where no rule matches is an error naming that character, at column
  /// `pos + 1`.
  function LineTokensFrom(rules: seq<Rule>, line: string, lineNum: int, pos: nat, acc: seq<LexToken>)
    : Result<seq<LexToken>, SyntaxError>
    requires pos <= |line|
    decreases |line| - pos, 1
  {
    if pos == |line| then Ok(acc) else NextToken(rules, line, lineNum, pos, acc)
  }

  /// The message of a character no rule matches.
  function UnexpectedCharacter(c: char): string {
    "Unexpected character " + [c]
  }

  /// One step of `LineTokensFrom` at a position inside the line.
  function NextToken(rules: seq<Rule>, line: string, lineNum: int, pos: nat, acc: seq<LexToken>)
    : Result<seq<LexToken>, SyntaxError>
    requires pos < |line|
    decreases |line| - pos, 0
  {
    match FirstMatch(rules, line, pos, 0)
    case None => Err(SyntaxError(UnexpectedCharacter(line[pos]), lineNum, pos + 1))
    case Some(f) =>
      LineTokensFrom(rules, line, lineNum, f.hit.end, acc + Emit(rules[f.rule].kind, f.hit.group, pos, lineNum))
  }

  function LineTokens(line: string, lineNum: int): Result<seq<LexToken>, SyntaxError> {
    LineTokensFrom(Rules, line, lineNum, 0, [])
  }

  // ----- lines and indentation --------------------------------------------------------

  /// The characters at which the host's `str.splitlines` breaks a line.
  predicate IsLineBreak(c: char) {
    var n := c as int;
    c == '\n' || c == '\r' || n == 0x0b || n == 0x0c || n == 0x1c || n == 0x1d || n == 0x1e
    || n == 0x85 || n == 0x2028 || n == 0x2029
  }

  function FirstBreak(s: string, i: nat): (k: nat)
    requires i <= |s|
    ensures i <= k <= |s| && (k < |s| ==> IsLineBreak(s[k]))
    ensures forall j :: i <= j < k ==> !IsLineBreak(s[j])
    decreases |s| - i
  {
    if i == |s| || IsLineBreak(s[i]) then i else FirstBreak(s, i + 1)
  }

  /// `s.splitlines()`: the lines of `s` without their terminators (`\r\n` counts as one),
  /// and no empty last line after a final terminator.
  function SplitLines(s: string): (lines: seq<string>)
    ensures forall k, j :: 0 <= k < |lines| && 0 <= j < |lines[k]| ==> !IsLineBreak(lines[k][j])
    decreases |s|
  {
    if s == [] then []
    else
      var k := FirstBreak(s, 0);
      if k == |s| then [s]
      else
        var w := if s[k] == '\r' && k + 1 < |s| && s[k + 1] == '\n' then 2 else 1;
        [s[..k]] + SplitLines(s[k + w..])
  }

  /// A non-empty indentation unit: a run of spaces or a run of tabs.
  type Unit = s: string | |s| > 0 witness " "

  /// How many characters `c` the line starts with.
  function LeadingCount(line: string, c: char): (n: nat)
    ensures n <= |line|
    ensures forall i :: 0 <= i < n ==> line[i] == c
    ensures n == |line| || line[n] != c
  {
    if line == [] || line[0] != c then 0 else 1 + LeadingCount(line[1..], c)
  }

  /// The indentation unit a line reveals: its leading run of spaces, or of tabs, if it
  /// starts with either.
  function IndentUnit(line: string): (u: Option<Unit>)
    requires |line| > 0
    ensures u.Some? <==> line[0] == ' ' || line[0] == '\t'
    ensures u.Some? ==> u.value <= line && forall i :: 0 <= i < |u.value| ==> u.value[i] == line[0]
    ensures u.Some? ==> |u.value| == |line| || line[|u.value|] != line[0]
  {
    if line[0] == ' ' || line[0] == '\t' then
      Some(Repeat(line[0], LeadingCount(line, line[0])))
    else None
  }

  /// `s.count(u)`: occurrences of `u` in `s` counted left to right without overlap,
  /// wherever they stand in the line.
  function Occurrences(s: string, u: Unit): (n: nat)
    ensures 0 <= n * |u| <= |s|
    decreases |s|
  {
    if |s| < |u| then 0
    else if u <= s then
      var m := Occurrences(s[|u|..], u);
      assert (1 + m) * |u| == |u| + m * |u|;
      1 + m
    else Occurrences(s[1..], u)
  }

  function Copies(t: LexToken, n: nat): (r: seq<LexToken>)
    ensures |r| == n && forall k :: 0 <= k < n ==> r[k] == t
  {
    if n == 0 then [] else [t] + Copies(t, n - 1)
  }

  /// The tokens that move the indentation from `last` to `level` on line `lineNum`.
  function IndentTokens(level: nat, last: nat, lineNum: int): seq<LexToken> {
    if level > last then Copies(Token(INDENT, NoValue, lineNum, 0), level - last)
    else Copies(Token(DEDENT, NoValue, lineNum, 0), last - level)
  }

  /// The state `tokenize` carries from line to line: the indentation unit once detected,
  /// the last indentation level, the lines recorded for error reports, and the tokens.
  datatype Scan = Scan(unit: Option<Unit>, level: nat, recorded: seq<string>, tokens: seq<LexToken>)

  /// A line after the indentation unit: its level and the line without its indentation.
  datatype Indented = Indented(level: nat, body: string)

  function Dedent(line: string, unit: Option<Unit>): (d: Indented)
    ensures |d.body| <= |line|
  {
    match unit
    case None => Indented(0, line)
    case Some(u) =>
      var level := Occurrences(line, u);
      Indented(level, line[level * |u|..])
  }

  /// What `tokenize` leaves behind: the lines it recorded, and the tokens or the error.
  datatype Lexed = Lexed(recorded: seq<string>, result: Result<seq<LexToken>, SyntaxError>)

  /// `tokenize`'s loop from the line at index `i` on, in state `sc` (the line at index `i`
  /// is numbered `i + 1`); at the end the open indentation levels are closed by DEDENTs
  /// on the last line's number.
  function TokenizeFrom(lines: seq<string>, i: nat, sc: Scan): Lexed
    requires i <= |lines|
    decreases |lines| - i, 2
  {
    if i == |lines| then
      Lexed(sc.recorded, Ok(sc.tokens + Copies(Token(DEDENT, NoValue, |lines|, 0), sc.level)))
    else RoundAt(lines, i, sc)
  }

  /// One round of the loop, on the line at index `i`. A line that is blank once
  /// right-trimmed is recorded as empty. Otherwise the indentation unit is detected if
  /// still unknown, and the line's level is measured and its indentation cut off.
  function RoundAt(lines: seq<string>, i: nat, sc: Scan): Lexed
    requires i < |lines|
    decreases |lines| - i, 1
  {
    var line := RStrip(lines[i]);
    if line == [] then TokenizeFrom(lines, i + 1, sc.(recorded := sc.recorded + [""]))
    else
      var unit := if sc.unit.None? then IndentUnit(line) else sc.unit;
      var d := Dedent(line, unit);
      LexLineAt(lines, i, sc, unit, d, LineTokens(d.body, i + 1))
  }

  /// The rest of the round for a non-blank line whose indentation `d` is measured under
  /// `unit` and whose body lexed to `lexed`: the body is recorded, and an error stops
  /// the scan.
  function LexLineAt(lines: seq<string>, i: nat, sc: Scan, unit: Option<Unit>, d: Indented,
                     lexed: Result<seq<LexToken>, SyntaxError>): Lexed
    requires i < |lines|
    decreases |lines| - i, 0
  {
    match lexed
    case Err(e) => Lexed(sc.recorded + [d.body], Err(e))
    case Ok(lt) => TokenizeFrom(lines, i + 1, Advance(sc, unit, d, lt, i + 1))
  }

  /// The state after the line numbered `lineNum`, with indentation `d` and tokens `lt`:
  /// the body is recorded; a line with tokens appends the INDENT/DEDENT tokens of its
  /// level change, its tokens and one NEWLINE just past the end of the body, and its
  /// level becomes the last level.
  function Advance(sc: Scan, unit: Option<Unit>, d: Indented, lt: seq<LexToken>, lineNum: int): Scan {
    var recorded := sc.recorded + [d.body];
    if lt == [] then Scan(unit, sc.level, recorded, sc.tokens)
    else
      var tokens := sc.tokens + IndentTokens(d.level, sc.level, lineNum) + lt
        + [Token(NEWLINE, NoValue, lineNum, |d.body| + 1)];
      Scan(unit, d.level, recorded, tokens)
  }

  function TokenizeSource(s: string): Lexed {
    TokenizeFrom(SplitLines(s), 0, Scan(None, 0, [], []))
  }

  /// The lexer object; it records the lines it has scanned, for error reports.
  class Lexer {
    /// The rule table the lexer tries, in order.
    const rules: seq<Rule>
    var sourceLines: seq<string>

    constructor()
      ensures rules == Rules && sourceLines == []
    {
      rules := Rules;
      sourceLines := [];
    }

    /// The tokens of one line, trying the rules in table order at each position.
    method TokenizeLine(line: string, lineNum: int) returns (r: Result<seq<LexToken>, SyntaxError>)
      ensures r == LineTokensFrom(rules, line, lineNum, 0, [])
    {
      var endPos := 0;
      var tokens: seq<LexToken> := [];
      while endPos < |line|
        invariant endPos <= |line|
        invariant LineTokensFrom(rules, line, lineNum, endPos, tokens) == LineTokensFrom(rules, line, lineNum, 0, [])
        decreases |line| - endPos
      {
        var fired: Option<Fired> := None;
        var i := 0;
        while i < |rules| && fired.None?
          invariant i <= |rules|
          invariant FirstMatch(rules, line, endPos, 0) == if fired.None? then FirstMatch(rules, line, endPos, i) else fired
          invariant fired.Some? ==> fired.value.rule < |rules| && endPos < fired.value.hit.end <= |line|
        {
          var m := MatchPattern(rules[i].pattern, line, endPos);
          if m.Some? {
            fired := Some(Fired(i, m.value));
          }
          i := i + 1;
        }
        if fired.None? {
          return Err(SyntaxError(UnexpectedCharacter(line[endPos]), lineNum, endPos + 1));
        }
        var start := endPos;
        endPos := fired.value.hit.end;
        tokens := tokens + Emit(rules[fired.value.rule].kind, fired.value.hit.group, start, lineNum);
      }
      return Ok(tokens);
    }

    /// The length of the run of `c` that starts the line.
    method CountLeadingCharacters(line: string, c: char) returns (count: nat)
      ensures count == LeadingCount(line, c)
    {
      count := 0;
      for i := 0 to |line|
        invariant count == i
        invariant forall k :: 0 <= k < i ==> line[k] == c
      {
        if line[i] != c {
          LeadingCountOf(line, c, count);
          return;
        }
        count := count + 1;
      }
      LeadingCountOf(line, c, count);
    }

    method DetectIndent(line: string) returns (u: Option<Unit>)
      requires |line| > 0
      ensures u == IndentUnit(line)
    {
      if line[0] == ' ' || line[0] == '\t' {
        var n := CountLeadingCharacters(line, line[0]);
        return Some(Repeat(line[0], n));
      }
      return None;
    }

    /// The indentation of a non-blank, right-trimmed line: the unit is detected from this
    /// line if it is still unknown, and the line's level is measured and its indentation
    /// cut off.
    method MeasureIndent(text: string, unit0: Option<Unit>) returns (unit: Option<Unit>, d: Indented)
      requires text != []
      ensures unit == if unit0.None? then IndentUnit(text) else unit0
      ensures d == Dedent(text, unit)
    {
      unit := unit0;
      if unit.None? {
        unit := DetectIndent(text);
      }
      var line := text;
      var indentLevel := 0;
      if unit.Some? {
        indentLevel := Occurrences(line, unit.value);
        line := line[indentLevel * |unit.value|..];
      }
      d := Indented(indentLevel, line);
    }

    /// The tokens `lt` of the line numbered `lineNum` are appended after the INDENT/DEDENT
    /// tokens of its level change, followed by one NEWLINE, unless there are none.
    method AppendLine(unit: Option<Unit>, d: Indented, level0: nat, ghost recorded0: seq<string>,
                      tokens0: seq<LexToken>, lt: seq<LexToken>, lineNum: int)
      returns (level: nat, tokens: seq<LexToken>)
      ensures Advance(Scan(unit, level0, recorded0, tokens0), unit, d, lt, lineNum)
        == Scan(unit, level, recorded0 + [d.body], tokens)
    {
      level, tokens := level0, tokens0;
      if lt != [] {
        if d.level != level {
          tokens := tokens + IndentTokens(d.level, level, lineNum);
          level := d.level;
        } else {
          assert tokens + IndentTokens(d.level, level, lineNum) == tokens;
        }
        tokens := tokens + lt + [Token(NEWLINE, NoValue, lineNum, |d.body| + 1)];
      }
    }

    /// One round of `tokenize`'s loop, on the line at index `i`: the line is right-trimmed
    /// and a blank line is recorded as empty; any other line is recorded and lexed
    /// without its indentation (`body`).
    method TokenizeRound(lines: seq<string>, i: nat, unit0: Option<Unit>, level0: nat,
                         ghost recorded0: seq<string>, tokens0: seq<LexToken>)
      returns (unit: Option<Unit>, body: string, level: nat, tokens: seq<LexToken>, err: Option<SyntaxError>)
      requires rules == Rules && i < |lines|
      ensures TokenizeFrom(lines, i, Scan(unit0, level0, recorded0, tokens0))
        == if err.Some? then Lexed(recorded0 + [body], Err(err.value))
           else TokenizeFrom(lines, i + 1, Scan(unit, level, recorded0 + [body], tokens))
    {
      ghost var sc := Scan(unit0, level0, recorded0, tokens0);
      assert TokenizeFrom(lines, i, sc) == RoundAt(lines, i, sc);
      var line := RStrip(lines[i]);
      if line == [] {
        assert RoundAt(lines, i, sc) == TokenizeFrom(lines, i + 1, sc.(recorded := recorded0 + [""]));
        return unit0, "", level0, tokens0, None;
      }
      var d;
      unit, d := MeasureIndent(line, unit0);
      body := d.body;
      var lineTokens := TokenizeLine(d.body, i + 1);
      assert RoundAt(lines, i, sc) == LexLineAt(lines, i, sc, unit, d, LineTokens(d.body, i + 1));
      assert lineTokens == LineTokens(d.body, i + 1);
      if lineTokens.Err? {
        return unit, body, level0, tokens0, Some(lineTokens.error);
      }
      level, tokens := AppendLine(unit, d, level0, recorded0, tokens0, lineTokens.value, i + 1);
      err := None;
    }

    /// Splits the source into lines and tokenizes them, recording each line (without
    /// its indentation) as it goes.
    method Tokenize(s: string) returns (r: Result<seq<LexToken>, SyntaxError>)
      requires rules == Rules
      modifies this
      ensures sourceLines == old(sourceLines) + TokenizeSource(s).recorded
      ensures r == TokenizeSource(s).result
    {
      var lines := SplitLines(s);
      var indentSymbol: Option<Unit> := None;
      var tokens: seq<LexToken> := [];
      var lastIndentLevel: nat := 0;
      ghost var recorded: seq<string> := [];
      for i := 0 to |lines|
        invariant sourceLines == old(sourceLines) + recorded
        invariant TokenizeFrom(lines, i, Scan(indentSymbol, lastIndentLevel, recorded, tokens)) == TokenizeSource(s)
      {
        var body, err;
        indentSymbol, body, lastIndentLevel, tokens, err :=
          TokenizeRound(lines, i, indentSymbol, lastIndentLevel, recorded, tokens);
        sourceLines := sourceLines + [body];
        recorded := recorded + [body];
        if err.Some? {
          return Err(err.value);
        }
      }
      tokens := tokens + Copies(Token(DEDENT, NoValue, |lines|, 0), lastIndentLevel);
      return Ok(tokens);
    }
  }

  lemma LeadingCountOf(line: string, c: char, n: nat)
    requires n <= |line| && (forall k :: 0 <= k < n ==> line[k] == c) && (n == |line| || line[n] != c)
    ensures LeadingCount(line, c) == n
  {
  }

  // ----- the token cursor -------------------------------------------------------------

  /// The token at `pos`. Past the end this is the error "Unexpected end of input" at the
  /// last token; with no tokens at all the host's own lookup of the last token fails.
  function CurrentAt(tokens: seq<LexToken>, pos: nat): (r: Result<LexToken, ParseFailure>)
    ensures r.Ok? <==> pos < |tokens|
    ensures r.Ok? ==> r.value == tokens[pos]
    ensures r.Err? && tokens != [] ==>
      r.error == Syntax(SyntaxError("Unexpected end of input", tokens[|tokens| - 1].line, tokens[|tokens| - 1].column))
    ensures r.Err? && tokens == [] ==> r.error == HostIndexError
  {
    if pos < |tokens| then Ok(tokens[pos])
    else if tokens == [] then Err(HostIndexError)
    else
      var last := tokens[|tokens| - 1];
      Err(Syntax(SyntaxError("Unexpected end of input", last.line, last.column)))
  }

  /// The message of a token of kind `got` met where `expected` was required.
  function ExpectedMessage(expected: Kind, got: Kind): string {
    "Expected " + expected.Name() + ", got " + got.Name()
  }

  /// `consume_expected(*kinds)` from `pos`: the tokens are consumed one at a time and each
  /// is compared with its kind after it is consumed; the result is the last token, and the
  /// position after the consumed tokens (a mismatched token counts as consumed).
  function ExpectAll(tokens: seq<LexToken>, pos: nat, kinds: seq<Kind>): (r: (Result<LexToken, ParseFailure>, nat))
    requires |kinds| > 0
    decreases |kinds|
  {
    match CurrentAt(tokens, pos)
    case Err(e) => (Err(e), pos)
    case Ok(t) =>
      if t.kind != kinds[0] then
        (Err(Syntax(SyntaxError(ExpectedMessage(kinds[0], t.kind), t.line, t.column))), pos + 1)
      else if |kinds| == 1 then (Ok(t), pos + 1)
      else ExpectAll(tokens, pos + 1, kinds[1..])
  }

  /// Whether the tokens from `pos` on start with tokens of exactly the kinds `kinds`.
  predicate KindsAt(tokens: seq<LexToken>, pos: nat, kinds: seq<Kind>) {
    pos + |kinds| <= |tokens| && forall k :: 0 <= k < |kinds| ==> tokens[pos + k].kind == kinds[k]
  }

  /// `expect_end` at `pos`: nothing when every token is consumed, "End expected" at the
  /// current token otherwise.
  function EndCheck(tokens: seq<LexToken>, pos: nat): (r: Option<ParseFailure>)
    requires pos <= |tokens|
    ensures r.None? <==> pos == |tokens|
    ensures r.Some? ==> r.value == Syntax(SyntaxError("End expected", tokens[pos].line, tokens[pos].column))
  {
    if pos == |tokens| then None
    else Some(Syntax(SyntaxError("End expected", tokens[pos].line, tokens[pos].column)))
  }

  /// A cursor over a token list.
  class TokenStream {
    const tokens: seq<LexToken>
    var pos: nat

    ghost predicate Valid()
      reads this
    {
      pos <= |tokens|
    }

    constructor(tokens: seq<LexToken>)
      ensures this.tokens == tokens && pos == 0 && Valid()
    {
      this.tokens := tokens;
      pos := 0;
    }

    method Current() returns (r: Result<LexToken, ParseFailure>)
      requires Valid()
      ensures r == CurrentAt(tokens, pos)
    {
      if pos < |tokens| {
        return Ok(tokens[pos]);
      }
      if tokens == [] {
        return Err(HostIndexError);
      }
      var last := tokens[|tokens| - 1];
      return Err(Syntax(SyntaxError("Unexpected end of input", last.line, last.column)));
    }

    /// The current token, after which the cursor moves on; at the end nothing moves.
    method Consume() returns (r: Result<LexToken, ParseFailure>)
      requires Valid()
      modifies this
      ensures Valid()
      ensures r == CurrentAt(tokens, old(pos))
      ensures pos == if r.Ok? then old(pos) + 1 else old(pos)
    {
      r := Current();
      if r.Ok? {
        pos := pos + 1;
      }
    }

    method ConsumeExpected(kinds: seq<Kind>) returns (r: Result<LexToken, ParseFailure>)
      requires Valid() && |kinds| > 0
      modifies this
      ensures Valid()
      ensures (r, pos) == ExpectAll(tokens, old(pos), kinds)
    {
      var i := 0;
      while true
        invariant Valid() && i < |kinds|
        invariant ExpectAll(tokens, pos, kinds[i..]) == ExpectAll(tokens, old(pos), kinds)
        decreases |kinds| - i
      {
        var token := Consume();
        if token.Err? {
          return Err(token.error);
        }
        if token.value.kind != kinds[i] {
          return Err(Syntax(SyntaxError(ExpectedMessage(kinds[i], token.value.kind), token.value.line, token.value.column)));
        }
        if i + 1 == |kinds| {
          return token;
        }
        assert kinds[i..][1..] == kinds[i + 1..];
        i := i + 1;
      }
    }

    method ExpectEnd() returns (err: Option<ParseFailure>)
      requires Valid()
      ensures err == EndCheck(tokens, pos)
    {
      if pos != |tokens| {
        var token := Current();
        return Some(Syntax(SyntaxError("End expected", token.value.line, token.value.column)));
      }
      return None;
    }

    method IsEnd() returns (b: bool)
      requires Valid()
      ensures b <==> pos == |tokens|
    {
      return pos == |tokens|;
    }
  }

  /// `consume_expected` succeeds exactly when the next tokens have the expected kinds; it
  /// then returns the last of them and moves past all of them.
  lemma {:induction false} ExpectAllSucceeds(tokens: seq<LexToken>, pos: nat, kinds: seq<Kind>)
    requires |kinds| > 0
    ensures ExpectAll(tokens, pos, kinds).0.Ok? <==> KindsAt(tokens, pos, kinds)
    ensures ExpectAll(tokens, pos, kinds).0.Ok? ==>
      ExpectAll(tokens, pos, kinds) == (Ok(tokens[pos + |kinds| - 1]), pos + |kinds|)
    decreases |kinds|
  {
    if pos < |tokens| && tokens[pos].kind == kinds[0] && |kinds| > 1 {
      ExpectAllSucceeds(tokens, pos + 1, kinds[1..]);
      if KindsAt(tokens, pos, kinds) {
        assert forall k :: 0 <= k < |kinds| - 1 ==> tokens[pos + 1 + k].kind == kinds[1..][k] by {
          forall k | 0 <= k < |kinds| - 1 ensures tokens[pos + 1 + k].kind == kinds[1..][k] {
            assert tokens[pos + (k + 1)].kind == kinds[k + 1];
          }
        }
      }
      if KindsAt(tokens, pos + 1, kinds[1..]) {
        forall k | 0 <= k < |kinds| ensures tokens[pos + k].kind == kinds[k] {
          if k > 0 {
            assert tokens[pos + 1 + (k - 1)].kind == kinds[1..][k - 1];
          }
        }
      }
    }
  }

  /// What a failed `consume_expected` from `pos` leaves: either it ran out of input, or it
  /// names the first token whose kind differs from the expected one, at that token, after
  /// consuming it.
  predicate ExpectFailed(r: Result<LexToken, ParseFailure>, p: nat, tokens: seq<LexToken>, pos: nat, kinds: seq<Kind>) {
    r.Err? ==> (
      && pos <= p <= pos + |kinds|
      && (|| (p >= |tokens| && (r.error == HostIndexError
                               || (r.error.Syntax? && r.error.error.message == "Unexpected end of input")))
          || (pos < p <= |tokens| && KindsAt(tokens, pos, kinds[..p - 1 - pos])
              && tokens[p - 1].kind != kinds[p - 1 - pos]
              && r.error == Syntax(SyntaxError(ExpectedMessage(kinds[p - 1 - pos], tokens[p - 1].kind),
                                               tokens[p - 1].line, tokens[p - 1].column)))))
  }

  /// A failed `consume_expected` has the shape `ExpectFailed` names.
  lemma {:induction false} ExpectAllFailure(tokens: seq<LexToken>, pos: nat, kinds: seq<Kind>)
    requires |kinds| > 0
    ensures ExpectFailed(ExpectAll(tokens, pos, kinds).0, ExpectAll(tokens, pos, kinds).1, tokens, pos, kinds)
    decreases |kinds|
  {
    if pos >= |tokens| || tokens[pos].kind != kinds[0] || |kinds| == 1 {
      assert kinds[..0] == [];
    } else {
      ExpectAllFailure(tokens, pos + 1, kinds[1..]);
      ExpectAllStep(tokens, pos, kinds);
      var (r, p) := ExpectAll(tokens, pos + 1, kinds[1..]);
      ExpectFailedShift(r, p, tokens, pos, kinds);
    }
  }

  /// A matching first token moves `consume_expected` on to the rest of the kinds.
  lemma ExpectAllStep(tokens: seq<LexToken>, pos: nat, kinds: seq<Kind>)
    requires pos < |tokens| && |kinds| > 1 && tokens[pos].kind == kinds[0]
    ensures ExpectAll(tokens, pos, kinds) == ExpectAll(tokens, pos + 1, kinds[1..])
  {
    assert CurrentAt(tokens, pos) == Ok(tokens[pos]);
  }

  /// A failure shape for the rest of the kinds is one for all of them once the first
  /// token matched.
  lemma ExpectFailedShift(r: Result<LexToken, ParseFailure>, p: nat, tokens: seq<LexToken>, pos: nat, kinds: seq<Kind>)
    requires pos < |tokens| && |kinds| > 1 && tokens[pos].kind == kinds[0]
    requires ExpectFailed(r, p, tokens, pos + 1, kinds[1..])
    ensures ExpectFailed(r, p, tokens, pos, kinds)
  {
    var m := p - 1 - pos;
    if r.Err? && pos + 1 < p <= |tokens| && KindsAt(tokens, pos + 1, kinds[1..][..m - 1]) {
      assert kinds[1..][..m - 1] == kinds[1..m];
      forall k | 0 <= k < m ensures tokens[pos + k].kind == kinds[k] {
        if k > 0 {
          assert tokens[pos + 1 + (k - 1)].kind == kinds[1..m][k - 1];
        }
      }
      assert KindsAt(tokens, pos, kinds[..m]);
    }
  }

}
