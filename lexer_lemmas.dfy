/// What the lexer guarantees: the decoders against their inverses and the host's
/// conversions, the shape of one line's tokens, and the shape of a whole token list.
module LexerLemmas {
  import opened Results
  import opened Text
  import opened Errors
  import opened Lexer

  // ----- decoding ---------------------------------------------------------------------

  /// Decoding undoes encoding: every string has a literal body that denotes it.
  lemma {:induction false} DecodeEncode(s: string)
    ensures DecodeStr(EncodeStr(s)) == s
    decreases |s|
  {
    if s != [] {
      var c, rest := s[0], EncodeStr(s[1..]);
      DecodeEncode(s[1..]);
      if |Escape(c)| == 2 {
        assert (Escape(c) + rest)[2..] == rest;
      } else {
        assert (Escape(c) + rest)[1..] == rest;
      }
    }
  }

  /// A literal body without backslashes denotes itself.
  lemma {:induction false} DecodePlain(s: string)
    requires forall i :: 0 <= i < |s| ==> s[i] != '\\'
    ensures DecodeStr(s) == s
    decreases |s|
  {
    if s != [] {
      DecodePlain(s[1..]);
    }
  }

  /// The text of a NUMBER token: digits, or digits, a point and digits.
  predicate NumberText(s: string) {
    || (|s| > 0 && AllDigits(s))
    || exists k :: 0 < k < |s| - 1 && s[k] == '.' && AllDigits(s[..k]) && AllDigits(s[k + 1..])
  }

  /// On the texts the NUMBER rules match, `DecodeNum` is the host's "`int(text)`, or the
  /// text as a float when `int` refuses it": digit runs are integers, decimals are not.
  lemma DecodeNumIsHostInt(s: string)
    requires NumberText(s)
    ensures DecodeNum(s) == match ParseInt(s) case Some(n) => Integer(n) case None => Decimal(s)
  {
    assert IsDigit(s[0]) && IsDigit(s[|s| - 1]) by {
      if !(|s| > 0 && AllDigits(s)) {
        var k :| 0 < k < |s| - 1 && s[k] == '.' && AllDigits(s[..k]) && AllDigits(s[k + 1..]);
        assert s[..k][0] == s[0];
        assert s[k + 1..][|s| - k - 2] == s[|s| - 1];
      }
    }
    StripNoSpace(s);
    if |s| > 0 && AllDigits(s) {
      AllDigitsGroups(s);
      RemoveUnderscoresNone(s);
    } else {
      var k :| 0 < k < |s| - 1 && s[k] == '.' && AllDigits(s[..k]) && AllDigits(s[k + 1..]);
      assert !GroupChar(s, k);
    }
  }

  /// The groups the two NUMBER rules capture are number texts.
  lemma NumberRulesMatchNumbers(p: Pattern, line: string, pos: nat)
    requires pos < |line| && (p == PointNumber || p == DigitRun)
    ensures MatchPattern(p, line, pos).Some? ==> NumberText(MatchPattern(p, line, pos).value.group)
  {
    var r := MatchPattern(p, line, pos);
    if r.Some? {
      var g := r.value.group;
      if p == PointNumber {
        var d := RunEnd(line, pos, Digit);
        var k := d - pos;
        assert forall j :: 0 <= j < |g| ==> g[j] == line[pos + j];
        assert g[k] == '.' && AllDigits(g[..k]);
        var tail := g[k + 1..];
        forall j | 0 <= j < |tail| ensures IsDigit(tail[j]) {
          assert tail[j] == g[k + 1 + j];
        }
      } else {
        assert forall j :: 0 <= j < |g| ==> g[j] == line[pos + j];
      }
    }
  }

  // ----- the order of the rules -------------------------------------------------------

  /// A character that no comment, string, number, name, blank or line-feed rule can start
  /// with.
  predicate Punctuation(c: char) {
    c != '#' && c != '"' && c != '\'' && !IsWordChar(c) && c != ' ' && c != '\t' && c != '\n'
  }

  /// No comment, string, number, name, blank or line-feed pattern starts at punctuation.
  lemma WordPatternsMiss(p: Pattern, line: string, pos: nat)
    requires pos < |line| && Punctuation(line[pos]) && !p.Literals?
    requires p.QuotedText? ==> p.quote == '"' || p.quote == '\''
    ensures MatchPattern(p, line, pos).None?
  {
  }

  /// Each of the first eight rules hands a punctuation position to the next rule.
  lemma SkipWordRule(line: string, pos: nat, k: nat)
    requires pos < |line| && Punctuation(line[pos]) && k < 8
    ensures FirstMatch(Rules, line, pos, k) == FirstMatch(Rules, line, pos, k + 1)
  {
    WordPatternsMiss(Rules[k].pattern, line, pos);
  }

  /// At punctuation the first eight rules fail, so the operator and bracket rules decide.
  lemma PunctuationSkipsWordRules(line: string, pos: nat)
    requires pos < |line| && Punctuation(line[pos])
    ensures FirstMatch(Rules, line, pos, 0) == FirstMatch(Rules, line, pos, 8)
  {
    SkipWordRule(line, pos, 0);
    SkipWordRule(line, pos, 1);
    SkipWordRule(line, pos, 2);
    SkipWordRule(line, pos, 3);
    SkipWordRule(line, pos, 4);
    SkipWordRule(line, pos, 5);
    SkipWordRule(line, pos, 6);
    SkipWordRule(line, pos, 7);
  }

  /// The kinds of the rules the lemmas below fire.
  lemma FiredRuleKinds()
    ensures Rules[0].kind == COMMENT && Rules[5].kind == NAME && Rules[6].kind == WHITESPACE && Rules[13].kind == ASSIGN
    ensures Rules[8].kind == OPERATOR && Rules[10].kind == OPERATOR
  {
  }

  /// The strings of the operator rules, in the order the lexer tries them.
  lemma BangRule() ensures Rules[8].pattern == Literals(["!"]) { }
  lemma ArithmeticRule() ensures Rules[9].pattern == Literals(["+", "*", "-", "/", "%"]) { }
  lemma ComparisonRule() ensures Rules[10].pattern == Literals(["<=", ">=", "==", "!=", "<", ">"]) { }
  lemma BooleanRule() ensures Rules[11].pattern == Literals(["||", "&&"]) { }
  lemma RangeRule() ensures Rules[12].pattern == Literals(["...", ".."]) { }


  /// A rule that does not match at `pos` hands the position to the next rule.
  lemma NextRule(line: string, pos: nat, i: nat)
    requires pos < |line| && i < |Rules| && MatchPattern(Rules[i].pattern, line, pos).None?
    ensures FirstMatch(Rules, line, pos, i) == FirstMatch(Rules, line, pos, i + 1)
  {
  }

  /// The rule that matches at `pos` fires when no earlier rule has.
  lemma FireRule(line: string, pos: nat, k: nat, hit: Hit)
    requires pos < |line| && k < |Rules| && MatchPattern(Rules[k].pattern, line, pos) == Some(hit)
    ensures FirstMatch(Rules, line, pos, k) == Some(Fired(k, hit))
  {
  }

  /// An alternation none of whose strings starts the rest of the line does not match.
  lemma {:induction false} FirstLiteralMisses(alts: seq<Literal>, line: string, pos: nat)
    requires pos <= |line| && forall j :: 0 <= j < |alts| ==> !(alts[j] <= line[pos..])
    ensures FirstLiteral(alts, line, pos).None?
    decreases |alts|
  {
    if alts != [] {
      assert forall j :: 0 <= j < |alts[1..]| ==> alts[1..][j] == alts[j + 1];
      FirstLiteralMisses(alts[1..], line, pos);
    }
  }

  /// An operator or bracket rule none of whose strings starts the rest of the line hands
  /// the position to the next rule.
  lemma LiteralRuleMisses(line: string, pos: nat, k: nat)
    requires pos < |line| && 8 <= k < |Rules|
    requires forall j :: 0 <= j < |Rules[k].pattern.alts| ==> !(Rules[k].pattern.alts[j] <= line[pos..])
    ensures FirstMatch(Rules, line, pos, k) == FirstMatch(Rules, line, pos, k + 1)
  {
    FirstLiteralMisses(Rules[k].pattern.alts, line, pos);
  }

  /// An operator or bracket rule none of whose strings starts with the character at
  /// `pos` hands the position to the next rule.
  lemma FirstCharacterMisses(line: string, pos: nat, k: nat)
    requires pos < |line| && 8 <= k < |Rules|
    requires forall j :: 0 <= j < |Rules[k].pattern.alts| ==> Rules[k].pattern.alts[j][0] != line[pos]
    ensures FirstMatch(Rules, line, pos, k) == FirstMatch(Rules, line, pos, k + 1)
  {
    var alts := Rules[k].pattern.alts;
    forall j | 0 <= j < |alts| ensures !(alts[j] <= line[pos..]) {
      assert line[pos..][0] == line[pos];
    }
    LiteralRuleMisses(line, pos, k);
  }

  /// The `!` rule misses any other character.
  lemma BangRuleMisses(line: string, pos: nat)
    requires pos < |line| && line[pos] != '!'
    ensures FirstMatch(Rules, line, pos, 8) == FirstMatch(Rules, line, pos, 9)
  {
    BangRule();
    FirstCharacterMisses(line, pos, 8);
  }

  /// The arithmetic rule misses a character that is not `+ * - / %`.
  lemma ArithmeticRuleMisses(line: string, pos: nat)
    requires pos < |line| && line[pos] !in "+*-/%"
    ensures FirstMatch(Rules, line, pos, 9) == FirstMatch(Rules, line, pos, 10)
  {
    ArithmeticRule();
    FirstCharacterMisses(line, pos, 9);
  }

  /// The boolean rule misses a character that is not `|` or `&`.
  lemma BooleanRuleMisses(line: string, pos: nat)
    requires pos < |line| && line[pos] != '|' && line[pos] != '&'
    ensures FirstMatch(Rules, line, pos, 11) == FirstMatch(Rules, line, pos, 12)
  {
    BooleanRule();
    FirstCharacterMisses(line, pos, 11);
  }

  /// The range rule misses a character that is not `.`.
  lemma RangeRuleMisses(line: string, pos: nat)
    requires pos < |line| && line[pos] != '.'
    ensures FirstMatch(Rules, line, pos, 12) == FirstMatch(Rules, line, pos, 13)
  {
    RangeRule();
    FirstCharacterMisses(line, pos, 12);
  }

  /// A `=` that no second `=` follows is not a comparison operator.
  lemma LoneEqualsNotComparison(line: string, pos: nat)
    requires pos < |line| && line[pos] == '=' && (pos + 1 == |line| || line[pos + 1] != '=')
    ensures FirstMatch(Rules, line, pos, 10) == FirstMatch(Rules, line, pos, 11)
  {
    var rest := line[pos..];
    assert rest[0] == '=' && (|rest| == 1 || rest[1] != '=');
    ComparisonRule();
    var alts := Rules[10].pattern.alts;
    assert forall j :: 0 <= j < |alts| ==> alts[j][0] != '=' || alts[j] == "==";
    LiteralRuleMisses(line, pos, 10);
  }

  /// A `=` that no second `=` follows passes over the five operator rules.
  lemma LoneEqualsSkipsOperators(line: string, pos: nat)
    requires pos < |line| && line[pos] == '=' && (pos + 1 == |line| || line[pos + 1] != '=')
    ensures FirstMatch(Rules, line, pos, 0) == FirstMatch(Rules, line, pos, 13)
  {
    PunctuationSkipsWordRules(line, pos);
    BangRuleMisses(line, pos);
    ArithmeticRuleMisses(line, pos);
    LoneEqualsNotComparison(line, pos);
    BooleanRuleMisses(line, pos);
    RangeRuleMisses(line, pos);
  }

  /// The `!` rule matches the `!` alone.
  lemma BangRuleMatches(line: string, pos: nat)
    requires pos < |line| && line[pos] == '!'
    ensures MatchPattern(Rules[8].pattern, line, pos) == Some(Hit(pos + 1, "!"))
  {
    assert "!" <= line[pos..];
  }

  /// The ASSIGN rule matches one `=`.
  lemma AssignRuleMatches(line: string, pos: nat)
    requires pos < |line| && line[pos] == '='
    ensures MatchPattern(Rules[13].pattern, line, pos) == Some(Hit(pos + 1, "="))
  {
    assert "=" <= line[pos..];
  }

  /// The `!` rule comes before the comparison rule, so `!=` starts with the operator `!`.
  lemma BangBeforeNotEqual(line: string, pos: nat)
    requires pos + 1 < |line| && line[pos] == '!' && line[pos + 1] == '='
    ensures Rules[8].kind == OPERATOR && FirstMatch(Rules, line, pos, 0) == Some(Fired(8, Hit(pos + 1, "!")))
  {
    PunctuationSkipsWordRules(line, pos);
    BangRuleMatches(line, pos);
    FireRule(line, pos, 8, Hit(pos + 1, "!"));
    FiredRuleKinds();
  }

  /// The `=` left after that `!` is an ASSIGN unless a second `=` follows it.
  lemma LoneEqualsIsAssign(line: string, pos: nat)
    requires pos < |line| && line[pos] == '=' && (pos + 1 == |line| || line[pos + 1] != '=')
    ensures Rules[13].kind == ASSIGN && FirstMatch(Rules, line, pos, 0) == Some(Fired(13, Hit(pos + 1, "=")))
  {
    LoneEqualsSkipsOperators(line, pos);
    AssignRuleMatches(line, pos);
    FireRule(line, pos, 13, Hit(pos + 1, "="));
    FiredRuleKinds();
  }

  /// Before the comparison rule, `=`, `<` and `>` pass over the `!` and arithmetic
  /// rules.
  lemma ComparisonSkipsRules(line: string, pos: nat)
    requires pos < |line| && (line[pos] == '=' || line[pos] == '<' || line[pos] == '>')
    ensures FirstMatch(Rules, line, pos, 0) == FirstMatch(Rules, line, pos, 10)
  {
    ComparisonCharacter(line[pos]);
    PunctuationSkipsWordRules(line, pos);
    BangRuleMisses(line, pos);
    ArithmeticRuleMisses(line, pos);
  }

  /// `=`, `<` and `>` are punctuation, and neither `!` nor an arithmetic operator.
  lemma ComparisonCharacter(c: char)
    requires c == '=' || c == '<' || c == '>'
    ensures Punctuation(c) && c != '!' && c !in "+*-/%"
  {
  }

  /// The comparison rule takes `==`, `<=` and `>=` whole.
  lemma ComparisonRuleMatches(line: string, pos: nat, op: string)
    requires op == "==" || op == "<=" || op == ">="
    requires pos + 2 <= |line| && line[pos..pos + 2] == op
    ensures MatchPattern(Rules[10].pattern, line, pos) == Some(Hit(pos + 2, op))
  {
    var rest := line[pos..];
    assert rest[..2] == op && rest[0] == op[0] && rest[1] == op[1];
    ComparisonRule();
    var alts := Rules[10].pattern.alts;
    if op == "<=" {
      FirstLiteralPicks(alts, line, pos, 0);
    } else if op == ">=" {
      assert alts[0][0] != rest[0];
      FirstLiteralPicks(alts, line, pos, 1);
    } else {
      assert alts[0][0] != rest[0] && alts[1][0] != rest[0];
      FirstLiteralPicks(alts, line, pos, 2);
    }
  }

  /// An alternation takes the first of its strings that starts the rest of the line.
  lemma {:induction false} FirstLiteralPicks(alts: seq<Literal>, line: string, pos: nat, i: nat)
    requires pos <= |line| && i < |alts| && alts[i] <= line[pos..]
    requires forall j :: 0 <= j < i ==> !(alts[j] <= line[pos..])
    ensures FirstLiteral(alts, line, pos) == Some(Hit(pos + |alts[i]|, alts[i]))
    decreases i
  {
    if i > 0 {
      assert !(alts[0] <= line[pos..]);
      assert forall j :: 0 <= j < |alts| - 1 ==> alts[1..][j] == alts[j + 1];
      FirstLiteralPicks(alts[1..], line, pos, i - 1);
    }
  }

  /// `==`, `<=` and `>=` each lex as a single comparison operator.
  lemma TwoCharacterComparisons(line: string, pos: nat, op: string)
    requires op == "==" || op == "<=" || op == ">="
    requires pos + 2 <= |line| && line[pos..pos + 2] == op
    ensures Rules[10].kind == OPERATOR && FirstMatch(Rules, line, pos, 0) == Some(Fired(10, Hit(pos + 2, op)))
  {
    assert line[pos] == line[pos..pos + 2][0] == op[0];
    ComparisonSkipsRules(line, pos);
    ComparisonRuleMatches(line, pos, op);
    FireRule(line, pos, 10, Hit(pos + 2, op));
    FiredRuleKinds();
  }

  /// A letter or `_` passes over the comment, string and number rules.
  lemma NameSkipsRules(line: string, pos: nat)
    requires pos < |line| && (IsLetter(line[pos]) || line[pos] == '_')
    ensures FirstMatch(Rules, line, pos, 0) == FirstMatch(Rules, line, pos, 5)
  {
    for k := 0 to 5
      invariant FirstMatch(Rules, line, pos, 0) == FirstMatch(Rules, line, pos, k)
    {
      NameSkipsRule(line, pos, k);
    }
  }

  /// A letter or `_` passes over one of the comment, string and number rules.
  lemma NameSkipsRule(line: string, pos: nat, k: nat)
    requires pos < |line| && (IsLetter(line[pos]) || line[pos] == '_') && k < 5
    ensures FirstMatch(Rules, line, pos, k) == FirstMatch(Rules, line, pos, k + 1)
  {
  }

  /// The NAME rule takes the maximal run of word characters.
  lemma NameRuleMatches(line: string, pos: nat)
    requires pos < |line| && (IsLetter(line[pos]) || line[pos] == '_')
    ensures var e := RunEnd(line, pos + 1, Word);
      MatchPattern(Rules[5].pattern, line, pos) == Some(Hit(e, line[pos..e]))
  {
  }

  /// A NAME spelled like a reserved word becomes that keyword, with no value; any other
  /// NAME keeps its text.
  lemma NameEmits(word: string, start: nat, lineNum: int)
    ensures Emit(NAME, word, start, lineNum)
      == if word in Keywords then [Token(Keywords[word], NoValue, lineNum, start + 1)]
         else [Token(NAME, Str(word), lineNum, start + 1)]
  {
  }

  /// A NAME match takes the whole word, so a keyword is recognised only when the whole
  /// word is spelled like it (`xbreak` and `breakx` stay names).
  lemma WholeWords(line: string, pos: nat)
    requires pos < |line| && (IsLetter(line[pos]) || line[pos] == '_')
    ensures var e := RunEnd(line, pos + 1, Word);
      && (e == |line| || !IsWordChar(line[e]))
      && Rules[5].kind == NAME
      && FirstMatch(Rules, line, pos, 0) == Some(Fired(5, Hit(e, line[pos..e])))
  {
    var e := RunEnd(line, pos + 1, Word);
    assert FirstMatch(Rules, line, pos, 0) == Some(Fired(5, Hit(e, line[pos..e]))) by {
      NameFires(line, pos);
    }
    assert Rules[5].kind == NAME by {
      FiredRuleKinds();
    }
  }

  /// A letter or `_` fires the NAME rule, which takes the maximal run of word characters.
  lemma NameFires(line: string, pos: nat)
    requires pos < |line| && (IsLetter(line[pos]) || line[pos] == '_')
    ensures var e := RunEnd(line, pos + 1, Word);
      FirstMatch(Rules, line, pos, 0) == Some(Fired(5, Hit(e, line[pos..e])))
  {
    var e := RunEnd(line, pos + 1, Word);
    NameSkipsRules(line, pos);
    NameRuleMatches(line, pos);
    FireRule(line, pos, 5, Hit(e, line[pos..e]));
  }

  /// The comment rule takes a whole line that starts with `#`.
  lemma CommentRuleMatches(line: string)
    requires |line| > 0 && line[0] == '#' && forall i :: 0 <= i < |line| ==> line[i] != '\n'
    ensures MatchPattern(Rules[0].pattern, line, 0) == Some(Hit(|line|, line))
  {
    assert RunEnd(line, 1, AnyButLineFeed) == |line|;
    assert line[0..|line|] == line;
  }

  /// A line holding only a comment yields no tokens, so the lexer adds neither a NEWLINE
  /// nor indentation tokens for it and keeps its level; the line is still recorded.
  lemma CommentOnlyLine(sc: Scan, unit: Option<Unit>, level: nat, line: string, lineNum: int)
    requires |line| > 0 && line[0] == '#' && forall i :: 0 <= i < |line| ==> line[i] != '\n'
    ensures LineTokens(line, lineNum) == Ok([])
    ensures Advance(sc, unit, Indented(level, line), [], lineNum)
      == Scan(unit, sc.level, sc.recorded + [line], sc.tokens)
  {
    CommentRuleMatches(line);
    FireRule(line, 0, 0, Hit(|line|, line));
    var none: seq<LexToken> := [];
    assert Emit(Rules[0].kind, line, 0, lineNum) == none;
    assert none + none == none;
    assert LineTokens(line, lineNum) == NextToken(Rules, line, lineNum, 0, []);
    assert NextToken(Rules, line, lineNum, 0, []) == LineTokensFrom(Rules, line, lineNum, |line|, []);
  }

  // ----- the tokens of one line -------------------------------------------------------

  /// Kinds the lexer never emits from a line: the layout kinds it synthesises itself and
  /// the kinds it drops.
  predicate Unemitted(k: Kind) {
    k == INDENT || k == DEDENT || k == WHITESPACE || k == COMMENT
  }

  /// Tokens lexed from a line numbered `lineNum` with no line feed, that start before
  /// column `width + 1`: emitted kinds only, no NEWLINE, and no NAME spelled like a
  /// reserved word.
  predicate OnLine(ts: seq<LexToken>, lineNum: int, width: int) {
    forall k :: 0 <= k < |ts| ==>
      && ts[k].line == lineNum && 1 <= ts[k].column <= width
      && !Unemitted(ts[k].kind) && ts[k].kind != NEWLINE
      && (ts[k].kind == NAME ==> ts[k].value.s !in Keywords)
  }

  /// Tokens in the order of their columns, no two at the same column.
  predicate ColumnsIncrease(ts: seq<LexToken>) {
    forall j, k :: 0 <= j < k < |ts| ==> ts[j].column < ts[k].column
  }

  /// No rule of the table produces a layout token or a NEWLINE from a line without
  /// line feeds.
  lemma RuleKinds(j: nat)
    requires j < |Rules|
    ensures Rules[j].kind != INDENT && Rules[j].kind != DEDENT
    ensures Rules[j].kind == NEWLINE <==> Rules[j].pattern == LineFeedRun
  {
  }

  lemma KeywordKinds(w: string)
    requires w in Keywords
    ensures Keywords[w].IsKeyword() && !Unemitted(Keywords[w]) && Keywords[w] != NEWLINE
  {
  }

  /// The token a rule of a kind other than the layout kinds emits lies on the line.
  lemma EmitOnLine(kind: Kind, group: string, start: nat, lineNum: int)
    requires kind != INDENT && kind != DEDENT && kind != NEWLINE
    ensures OnLine(Emit(kind, group, start, lineNum), lineNum, start + 1)
  {
    if kind == NAME && group in Keywords {
      KeywordKinds(group);
    }
  }

  /// The rule that matches somewhere on a line without line feeds is not a layout rule.
  lemma FiredKind(j: nat, line: string, start: nat)
    requires j < |Rules| && start < |line| && forall i :: 0 <= i < |line| ==> line[i] != '\n'
    requires MatchPattern(Rules[j].pattern, line, start).Some?
    ensures Rules[j].kind != INDENT && Rules[j].kind != DEDENT && Rules[j].kind != NEWLINE
  {
    RuleKinds(j);
  }

  /// One fired rule keeps the accumulated tokens on the line and in column order.
  lemma EmitStep(line: string, lineNum: int, pos: nat, acc: seq<LexToken>, f: Fired)
    requires pos < |line| && forall i :: 0 <= i < |line| ==> line[i] != '\n'
    requires OnLine(acc, lineNum, pos) && ColumnsIncrease(acc)
    requires FirstMatch(Rules, line, pos, 0) == Some(f)
    ensures var acc' := acc + Emit(Rules[f.rule].kind, f.hit.group, pos, lineNum);
      pos < f.hit.end <= |line| && OnLine(acc', lineNum, f.hit.end) && ColumnsIncrease(acc')
  {
    var kind := Rules[f.rule].kind;
    FiredKind(f.rule, line, pos);
    EmitOnLine(kind, f.hit.group, pos, lineNum);
    AppendOnLine(acc, Emit(kind, f.hit.group, pos, lineNum), lineNum, pos, f.hit.end);
  }

  /// A token at column `pos + 1` after tokens up to column `pos` keeps them on the line and
  /// in column order, up to any later end.
  lemma AppendOnLine(acc: seq<LexToken>, more: seq<LexToken>, lineNum: int, pos: nat, end: int)
    requires OnLine(acc, lineNum, pos) && ColumnsIncrease(acc)
    requires |more| <= 1 && OnLine(more, lineNum, pos + 1) && (more != [] ==> more[0].column == pos + 1)
    requires pos < end
    ensures OnLine(acc + more, lineNum, end) && ColumnsIncrease(acc + more)
  {
    var all := acc + more;
    forall k | 0 <= k < |all|
      ensures all[k] == if k < |acc| then acc[k] else more[k - |acc|]
      ensures all[k].column <= if k < |acc| then pos else pos + 1
    {
    }
    forall j, k | 0 <= j < k < |all| ensures all[j].column < all[k].column {
      if k == |acc| {
        assert all[k] == more[0];
      }
    }
  }

  /// What `LineTokensFrom` from `pos` with `acc` accumulated may return: tokens that extend
  /// `acc`, lie on the line in column order and are not layout, or the error naming a
  /// character past `pos` that no rule matches, at its column.
  predicate LineResult(r: Result<seq<LexToken>, SyntaxError>, line: string, lineNum: int, pos: nat, acc: seq<LexToken>) {
    match r
    case Ok(ts) => acc <= ts && OnLine(ts, lineNum, |line|) && ColumnsIncrease(ts)
    case Err(e) =>
      e.line == lineNum && pos < e.column <= |line| && e.message == UnexpectedCharacter(line[e.column - 1])
  }

  /// The tokens of a line without line feeds lie on it, in column order, and are not
  /// layout; a line that fails names the first character no rule matches, at its column.
  lemma {:induction false} LineTokensShape(line: string, lineNum: int, pos: nat, acc: seq<LexToken>)
    requires pos <= |line| && forall i :: 0 <= i < |line| ==> line[i] != '\n'
    requires OnLine(acc, lineNum, pos) && ColumnsIncrease(acc)
    ensures LineResult(LineTokensFrom(Rules, line, lineNum, pos, acc), line, lineNum, pos, acc)
    decreases |line| - pos
  {
    if pos < |line| {
      var m := FirstMatch(Rules, line, pos, 0);
      if m.Some? {
        var f := m.value;
        EmitStep(line, lineNum, pos, acc, f);
        var acc' := acc + Emit(Rules[f.rule].kind, f.hit.group, pos, lineNum);
        LineTokensShape(line, lineNum, f.hit.end, acc');
        LineTokensFired(line, lineNum, pos, acc, f);
        LineResultWeaken(LineTokensFrom(Rules, line, lineNum, f.hit.end, acc'), line, lineNum, pos, f.hit.end, acc, acc');
      } else {
        LineTokensStuck(line, lineNum, pos, acc);
      }
    } else {
      assert LineTokensFrom(Rules, line, lineNum, pos, acc) == Ok(acc);
    }
  }

  /// A result of the rest of the line is a result of the line from an earlier position
  /// with fewer tokens accumulated.
  lemma LineResultWeaken(r: Result<seq<LexToken>, SyntaxError>, line: string, lineNum: int, pos: nat, next: nat,
                         acc: seq<LexToken>, acc': seq<LexToken>)
    requires LineResult(r, line, lineNum, next, acc') && pos < next && acc <= acc'
    ensures LineResult(r, line, lineNum, pos, acc)
  {
  }

  /// A fired rule moves `LineTokensFrom` past its match.
  lemma LineTokensFired(line: string, lineNum: int, pos: nat, acc: seq<LexToken>, f: Fired)
    requires pos < |line| && FirstMatch(Rules, line, pos, 0) == Some(f) && f.hit.end <= |line|
    ensures LineTokensFrom(Rules, line, lineNum, pos, acc)
      == LineTokensFrom(Rules, line, lineNum, f.hit.end, acc + Emit(Rules[f.rule].kind, f.hit.group, pos, lineNum))
  {
  }

  /// Where no rule fires, `LineTokensFrom` fails at that character.
  lemma LineTokensStuck(line: string, lineNum: int, pos: nat, acc: seq<LexToken>)
    requires pos < |line| && FirstMatch(Rules, line, pos, 0).None?
    ensures LineTokensFrom(Rules, line, lineNum, pos, acc) == Err(SyntaxError(UnexpectedCharacter(line[pos]), lineNum, pos + 1))
  {
  }

  // ----- the whole token list ---------------------------------------------------------

  /// Where a token may stand on the body recorded for its line: INDENT and DEDENT at
  /// column 0, NEWLINE just past the end of the body, every other token on the body.
  predicate Fits(t: LexToken, body: string) {
    if t.kind == INDENT || t.kind == DEDENT then t.column == 0
    else if t.kind == NEWLINE then t.column == |body| + 1
    else 1 <= t.column <= |body|
  }

  /// Every token names a recorded line, and fits on it.
  predicate Placed(ts: seq<LexToken>, recorded: seq<string>) {
    forall k :: 0 <= k < |ts| ==> 1 <= ts[k].line <= |recorded| && Fits(ts[k], recorded[ts[k].line - 1])
  }

  /// The indentation depth a token list leaves: INDENTs count up, DEDENTs down.
  function Depth(ts: seq<LexToken>): int {
    if ts == [] then 0
    else
      var t := ts[|ts| - 1];
      Depth(ts[..|ts| - 1]) + (if t.kind == INDENT then 1 else if t.kind == DEDENT then -1 else 0)
  }

  /// Starting at depth `base`, no prefix of the list goes below depth 0.
  predicate NeverBelow(ts: seq<LexToken>, base: int) {
    forall p :: 0 <= p <= |ts| ==> base + Depth(ts[..p]) >= 0
  }

  lemma {:induction false} DepthAppend(a: seq<LexToken>, b: seq<LexToken>)
    ensures Depth(a + b) == Depth(a) + Depth(b)
    decreases |b|
  {
    if b != [] {
      assert (a + b)[..|a + b| - 1] == a + b[..|b| - 1];
      assert (a + b)[|a + b| - 1] == b[|b| - 1];
      DepthAppend(a, b[..|b| - 1]);
    } else {
      assert a + b == a;
    }
  }

  lemma {:induction false} NeverBelowAppend(a: seq<LexToken>, b: seq<LexToken>, base: int)
    requires NeverBelow(a, base) && NeverBelow(b, base + Depth(a))
    ensures NeverBelow(a + b, base)
  {
    forall p | 0 <= p <= |a + b| ensures base + Depth((a + b)[..p]) >= 0 {
      if p <= |a| {
        assert (a + b)[..p] == a[..p];
      } else {
        assert (a + b)[..p] == a + b[..p - |a|];
        DepthAppend(a, b[..p - |a|]);
      }
    }
  }

  /// A list without INDENT or DEDENT leaves the depth where it was.
  lemma {:induction false} DepthFlat(ts: seq<LexToken>, base: int)
    requires base >= 0 && forall k :: 0 <= k < |ts| ==> ts[k].kind != INDENT && ts[k].kind != DEDENT
    ensures Depth(ts) == 0 && NeverBelow(ts, base)
    decreases |ts|
  {
    if ts != [] {
      DepthFlat(ts[..|ts| - 1], base);
    }
    forall p | 0 <= p <= |ts| ensures base + Depth(ts[..p]) >= 0 {
      if p < |ts| {
        DepthFlat(ts[..p], base);
      } else {
        assert ts[..p] == ts;
      }
    }
  }

  /// `n` INDENTs raise the depth by `n`; `n` DEDENTs lower it by `n` and stay at or
  /// above 0 from any depth of at least `n`.
  lemma {:induction false} DepthCopies(t: LexToken, n: nat, base: int)
    requires (t.kind == INDENT && base >= 0) || (t.kind == DEDENT && base >= n)
    ensures Depth(Copies(t, n)) == if t.kind == INDENT then n as int else -(n as int)
    ensures NeverBelow(Copies(t, n), base)
    decreases n
  {
    var c := Copies(t, n);
    if n > 0 {
      assert c[..n - 1] == Copies(t, n - 1);
      DepthCopies(t, n - 1, base);
    }
    forall p | 0 <= p <= n ensures base + Depth(c[..p]) >= 0 {
      if p < n {
        assert c[..p] == Copies(t, p);
        DepthCopies(t, p, base);
      } else {
        assert c[..p] == c;
      }
    }
  }

  /// A kind lexed from a line's text, as opposed to the layout kinds `tokenize` adds.
  predicate IsText(k: Kind) {
    k != INDENT && k != DEDENT && k != NEWLINE
  }

  /// Some token lexed from text lies on line `j`.
  predicate TextOn(ts: seq<LexToken>, j: int) {
    exists k :: 0 <= k < |ts| && ts[k].line == j && IsText(ts[k].kind)
  }

  /// The number of NEWLINE tokens on line `j`.
  function NewlineCount(ts: seq<LexToken>, j: int): nat {
    if ts == [] then 0
    else
      var t := ts[|ts| - 1];
      NewlineCount(ts[..|ts| - 1], j) + (if t.kind == NEWLINE && t.line == j then 1 else 0)
  }

  /// A line with text ends in exactly one NEWLINE and a line without text has none; on
  /// its line, a NEWLINE is followed only by DEDENTs (the closing ones of the last line).
  ghost predicate LineEnds(ts: seq<LexToken>) {
    && (forall j :: NewlineCount(ts, j) == if TextOn(ts, j) then 1 else 0)
    && (forall k1, k2 :: 0 <= k1 < k2 < |ts| && ts[k1].kind == NEWLINE && ts[k2].line == ts[k1].line ==>
          ts[k2].kind == DEDENT)
  }

  lemma {:induction false} NewlineCountAppend(a: seq<LexToken>, b: seq<LexToken>, j: int)
    ensures NewlineCount(a + b, j) == NewlineCount(a, j) + NewlineCount(b, j)
    decreases |b|
  {
    if b != [] {
      assert (a + b)[..|a + b| - 1] == a + b[..|b| - 1];
      assert (a + b)[|a + b| - 1] == b[|b| - 1];
      NewlineCountAppend(a, b[..|b| - 1], j);
    } else {
      assert a + b == a;
    }
  }

  /// A list without a NEWLINE on line `j` counts none there.
  lemma {:induction false} NoNewlineOn(ts: seq<LexToken>, j: int)
    requires forall k :: 0 <= k < |ts| ==> ts[k].kind != NEWLINE || ts[k].line != j
    ensures NewlineCount(ts, j) == 0
    decreases |ts|
  {
    if ts != [] {
      NoNewlineOn(ts[..|ts| - 1], j);
    }
  }

  lemma TextOnAppend(a: seq<LexToken>, b: seq<LexToken>, j: int)
    ensures TextOn(a + b, j) <==> TextOn(a, j) || TextOn(b, j)
  {
    if TextOn(a + b, j) {
      var k :| 0 <= k < |a + b| && (a + b)[k].line == j && IsText((a + b)[k].kind);
      if k < |a| {
        assert (a + b)[k] == a[k];
      } else {
        assert (a + b)[k] == b[k - |a|];
      }
    }
    if TextOn(a, j) {
      var k :| 0 <= k < |a| && a[k].line == j && IsText(a[k].kind);
      assert (a + b)[k] == a[k];
    }
    if TextOn(b, j) {
      var k :| 0 <= k < |b| && b[k].line == j && IsText(b[k].kind);
      assert (a + b)[|a| + k] == b[k];
    }
  }

  /// The tokens a line with text appends (its level change, its tokens, its NEWLINE) all
  /// lie on that line, and only the last is a NEWLINE.
  lemma LineSegment(ind: seq<LexToken>, lt: seq<LexToken>, nl: seq<LexToken>, lineNum: int, width: int)
    requires forall k :: 0 <= k < |ind| ==> ind[k] == Token(INDENT, NoValue, lineNum, 0) || ind[k] == Token(DEDENT, NoValue, lineNum, 0)
    requires lt != [] && OnLine(lt, lineNum, width)
    requires nl == [Token(NEWLINE, NoValue, lineNum, width + 1)]
    ensures var seg := ind + lt + nl;
      && (forall k :: 0 <= k < |seg| ==> seg[k].line == lineNum)
      && (forall k :: 0 <= k < |seg| - 1 ==> seg[k].kind != NEWLINE)
      && seg[|seg| - 1].kind == NEWLINE
      && (forall j :: NewlineCount(seg, j) == if j == lineNum then 1 else 0)
      && (forall j :: TextOn(seg, j) <==> j == lineNum)
  {
    var seg := ind + lt + nl;
    forall k | 0 <= k < |seg| ensures seg[k].line == lineNum && (k < |seg| - 1 ==> seg[k].kind != NEWLINE) {
      if k < |ind| {
        assert seg[k] == ind[k];
      } else if k < |ind| + |lt| {
        assert seg[k] == lt[k - |ind|];
      } else {
        assert seg[k] == nl[0];
      }
    }
    forall j ensures NewlineCount(seg, j) == if j == lineNum then 1 else 0 {
      NewlineCountAppend(ind + lt, nl, j);
      NoNewlineOn(ind + lt, j);
      assert nl[..0] == [];
    }
    forall j ensures TextOn(seg, j) <==> j == lineNum {
      assert seg[|ind|] == lt[0];
      if TextOn(seg, j) {
        var k :| 0 <= k < |seg| && seg[k].line == j && IsText(seg[k].kind);
      }
    }
  }

  /// Appending a line's segment after the tokens of earlier lines keeps `LineEnds`.
  lemma LineEndsAppend(tokens: seq<LexToken>, seg: seq<LexToken>, lineNum: int)
    requires LineEnds(tokens) && forall k :: 0 <= k < |tokens| ==> tokens[k].line < lineNum
    requires seg != [] && forall k :: 0 <= k < |seg| ==> seg[k].line == lineNum
    requires forall k :: 0 <= k < |seg| - 1 ==> seg[k].kind != NEWLINE
    requires forall j :: NewlineCount(seg, j) == if j == lineNum then 1 else 0
    requires forall j :: TextOn(seg, j) <==> j == lineNum
    ensures LineEnds(tokens + seg)
  {
    var t := tokens + seg;
    forall j ensures NewlineCount(t, j) == if TextOn(t, j) then 1 else 0 {
      NewlineCountAppend(tokens, seg, j);
      TextOnAppend(tokens, seg, j);
      if j == lineNum {
        NoNewlineOn(tokens, j);
        assert !TextOn(tokens, j);
      }
    }
    assert forall k :: 0 <= k < |tokens| ==> t[k] == tokens[k];
    assert forall k :: |tokens| <= k < |t| ==> t[k] == seg[k - |tokens|];
  }

  /// The closing DEDENTs keep `LineEnds`.
  lemma LineEndsClosing(tokens: seq<LexToken>, closing: seq<LexToken>)
    requires LineEnds(tokens) && forall k :: 0 <= k < |closing| ==> closing[k].kind == DEDENT
    ensures LineEnds(tokens + closing)
  {
    var t := tokens + closing;
    forall j ensures NewlineCount(t, j) == if TextOn(t, j) then 1 else 0 {
      NewlineCountAppend(tokens, closing, j);
      NoNewlineOn(closing, j);
      TextOnAppend(tokens, closing, j);
    }
    assert forall k :: 0 <= k < |tokens| ==> t[k] == tokens[k];
    assert forall k :: |tokens| <= k < |t| ==> t[k] == closing[k - |tokens|];
  }

  /// What holds of the scan state after `i` lines.
  ghost predicate ScanOk(sc: Scan, i: nat) {
    && |sc.recorded| == i
    && Placed(sc.tokens, sc.recorded) && LineEnds(sc.tokens)
    && Depth(sc.tokens) == sc.level && NeverBelow(sc.tokens, 0)
    && (sc.level == 0 || i > 0)
  }

  lemma PlacedGrow(ts: seq<LexToken>, recorded: seq<string>, body: string)
    requires Placed(ts, recorded)
    ensures Placed(ts, recorded + [body])
  {
    forall k | 0 <= k < |ts| ensures (recorded + [body])[ts[k].line - 1] == recorded[ts[k].line - 1] {
    }
  }

  /// The INDENT/DEDENT tokens of a level change keep the depth bookkeeping.
  lemma IndentStep(tokens: seq<LexToken>, level: nat, last: nat, lineNum: int)
    requires Depth(tokens) == last && NeverBelow(tokens, 0)
    ensures var t := tokens + IndentTokens(level, last, lineNum);
      Depth(t) == level && NeverBelow(t, 0)
  {
    var ind := IndentTokens(level, last, lineNum);
    IndentTokensDepth(level, last, lineNum);
    DepthAppend(tokens, ind);
    NeverBelowAppend(tokens, ind, 0);
  }

  /// The tokens of a level change move the depth from the old level to the new one
  /// without going below zero on the way.
  lemma IndentTokensDepth(level: nat, last: nat, lineNum: int)
    ensures Depth(IndentTokens(level, last, lineNum)) == level - last
    ensures NeverBelow(IndentTokens(level, last, lineNum), last)
  {
    if level > last {
      DepthCopies(Token(INDENT, NoValue, lineNum, 0), level - last, last);
    } else {
      DepthCopies(Token(DEDENT, NoValue, lineNum, 0), last - level, last);
    }
  }

  lemma PlacedAppend(a: seq<LexToken>, b: seq<LexToken>, recorded: seq<string>)
    requires Placed(a, recorded) && Placed(b, recorded)
    ensures Placed(a + b, recorded)
  {
    assert forall k :: |a| <= k < |a + b| ==> (a + b)[k] == b[k - |a|];
  }

  /// The tokens a line with tokens appends keep the placement and depth bookkeeping.
  lemma LineAppendOk(tokens: seq<LexToken>, recorded: seq<string>, last: nat, d: Indented,
                     lt: seq<LexToken>, lineNum: nat)
    requires 0 < lineNum == |recorded| && recorded[lineNum - 1] == d.body
    requires Placed(tokens, recorded) && Depth(tokens) == last && NeverBelow(tokens, 0)
    requires OnLine(lt, lineNum, |d.body|)
    ensures var t := tokens + IndentTokens(d.level, last, lineNum) + lt
      + [Token(NEWLINE, NoValue, lineNum, |d.body| + 1)];
      Placed(t, recorded) && Depth(t) == d.level && NeverBelow(t, 0)
  {
    var ind := IndentTokens(d.level, last, lineNum);
    var nl := [Token(NEWLINE, NoValue, lineNum, |d.body| + 1)];
    LineAppendDepth(tokens, last, d.level, ind, lt, nl, lineNum);
    LineAppendPlaced(tokens, recorded, ind, lt, nl, d.body, lineNum);
  }

  lemma LineAppendDepth(tokens: seq<LexToken>, last: nat, level: nat, ind: seq<LexToken>,
                        lt: seq<LexToken>, nl: seq<LexToken>, lineNum: int)
    requires Depth(tokens) == last && NeverBelow(tokens, 0) && ind == IndentTokens(level, last, lineNum)
    requires forall k :: 0 <= k < |lt| ==> lt[k].kind != INDENT && lt[k].kind != DEDENT
    requires forall k :: 0 <= k < |nl| ==> nl[k].kind == NEWLINE
    ensures Depth(tokens + ind + lt + nl) == level && NeverBelow(tokens + ind + lt + nl, 0)
  {
    var t1 := tokens + ind;
    var t2 := t1 + lt;
    IndentStep(tokens, level, last, lineNum);
    DepthFlat(lt, level);
    DepthFlat(nl, level);
    DepthAppend(t1, lt);
    NeverBelowAppend(t1, lt, 0);
    DepthAppend(t2, nl);
    NeverBelowAppend(t2, nl, 0);
  }

  lemma LineAppendPlaced(tokens: seq<LexToken>, recorded: seq<string>, ind: seq<LexToken>,
                         lt: seq<LexToken>, nl: seq<LexToken>, body: string, lineNum: nat)
    requires 0 < lineNum == |recorded| && recorded[lineNum - 1] == body
    requires Placed(tokens, recorded) && OnLine(lt, lineNum, |body|)
    requires forall k :: 0 <= k < |ind| ==> ind[k] == Token(INDENT, NoValue, lineNum, 0) || ind[k] == Token(DEDENT, NoValue, lineNum, 0)
    requires nl == [Token(NEWLINE, NoValue, lineNum, |body| + 1)]
    ensures Placed(tokens + ind + lt + nl, recorded)
  {
    assert Placed(ind, recorded);
    assert Placed(lt, recorded);
    assert Placed(nl, recorded);
    PlacedAppend(tokens, ind, recorded);
    PlacedAppend(tokens + ind, lt, recorded);
    PlacedAppend(tokens + ind + lt, nl, recorded);
  }

  /// A line's round keeps the scan state's invariant.
  lemma AdvanceOk(sc: Scan, unit: Option<Unit>, d: Indented, lt: seq<LexToken>, lineNum: nat)
    requires lineNum > 0 && ScanOk(sc, lineNum - 1) && OnLine(lt, lineNum, |d.body|)
    ensures ScanOk(Advance(sc, unit, d, lt, lineNum), lineNum)
  {
    PlacedGrow(sc.tokens, sc.recorded, d.body);
    if lt != [] {
      LineAppendOk(sc.tokens, sc.recorded + [d.body], sc.level, d, lt, lineNum);
      AdvanceLineEnds(sc, d, lt, lineNum);
    }
  }

  /// A line with text appends exactly one NEWLINE, for its own line, after its tokens.
  lemma AdvanceLineEnds(sc: Scan, d: Indented, lt: seq<LexToken>, lineNum: nat)
    requires lineNum > 0 && ScanOk(sc, lineNum - 1) && lt != [] && OnLine(lt, lineNum, |d.body|)
    ensures LineEnds(sc.tokens + IndentTokens(d.level, sc.level, lineNum) + lt
      + [Token(NEWLINE, NoValue, lineNum, |d.body| + 1)])
  {
    var ind := IndentTokens(d.level, sc.level, lineNum);
    var nl := [Token(NEWLINE, NoValue, lineNum, |d.body| + 1)];
    LineSegment(ind, lt, nl, lineNum, |d.body|);
    assert forall k :: 0 <= k < |sc.tokens| ==> sc.tokens[k].line <= |sc.recorded|;
    LineEndsAppend(sc.tokens, ind + lt + nl, lineNum);
    assert sc.tokens + ind + lt + nl == sc.tokens + (ind + lt + nl);
  }

  /// The closing DEDENTs keep the placement and bring the depth back to 0.
  lemma FinishOk(sc: Scan, n: nat)
    requires ScanOk(sc, n)
    ensures var ts := sc.tokens + Copies(Token(DEDENT, NoValue, n, 0), sc.level);
      Placed(ts, sc.recorded) && LineEnds(ts) && Depth(ts) == 0 && NeverBelow(ts, 0)
  {
    var closing := Copies(Token(DEDENT, NoValue, n, 0), sc.level);
    LineEndsClosing(sc.tokens, closing);
    DepthCopies(Token(DEDENT, NoValue, n, 0), sc.level, sc.level);
    DepthAppend(sc.tokens, closing);
    NeverBelowAppend(sc.tokens, closing, 0);
    assert Placed(closing, sc.recorded);
    PlacedAppend(sc.tokens, closing, sc.recorded);
  }

  predicate NoLineFeed(s: string) {
    forall i :: 0 <= i < |s| ==> s[i] != '\n'
  }

  /// The body of a line without line feeds has none either.
  lemma BodyNoLineFeed(raw: string, unit: Option<Unit>)
    requires NoLineFeed(raw) && RStrip(raw) != []
    ensures NoLineFeed(Dedent(RStrip(raw), unit).body)
  {
    var line := RStrip(raw);
    assert forall i :: 0 <= i < |line| ==> line[i] == raw[i];
    if unit.Some? {
      var n := Occurrences(line, unit.value) * |unit.value|;
      assert forall i :: 0 <= i < |line| - n ==> line[n..][i] == line[n + i];
    }
  }

  /// What `tokenize` produces from `n` lines: either every line is recorded, the tokens
  /// are placed on their lines, each line with text ends in exactly one NEWLINE (and a
  /// line without text in none), and INDENTs and DEDENTs are balanced (the depth never
  /// drops below 0 and ends at 0); or the scan stopped at the last recorded line, on the
  /// character no rule matches.
  ghost predicate Shaped(r: Lexed, n: nat) {
    match r.result
    case Ok(ts) =>
      && |r.recorded| == n && Placed(ts, r.recorded) && LineEnds(ts)
      && Depth(ts) == 0 && NeverBelow(ts, 0)
    case Err(e) =>
      && 0 < e.line == |r.recorded| <= n
      && 1 <= e.column <= |r.recorded[e.line - 1]|
      && e.message == UnexpectedCharacter(r.recorded[e.line - 1][e.column - 1])
  }

  lemma FinishShaped(sc: Scan, n: nat)
    requires ScanOk(sc, n)
    ensures Shaped(Lexed(sc.recorded, Ok(sc.tokens + Copies(Token(DEDENT, NoValue, n, 0), sc.level))), n)
  {
    FinishOk(sc, n);
  }

  lemma ErrorShaped(recorded: seq<string>, body: string, e: SyntaxError, n: nat)
    requires |recorded| < n
    requires e.line == |recorded| + 1 && 0 < e.column <= |body|
    requires e.message == UnexpectedCharacter(body[e.column - 1])
    ensures Shaped(Lexed(recorded + [body], Err(e)), n)
  {
  }

  /// What `LineTokensShape` says of a body's lexing result.
  predicate LexedShape(lexed: Result<seq<LexToken>, SyntaxError>, body: string, lineNum: int) {
    match lexed
    case Ok(lt) => OnLine(lt, lineNum, |body|)
    case Err(e) =>
      e.line == lineNum && 0 < e.column <= |body| && e.message == UnexpectedCharacter(body[e.column - 1])
  }

  /// A non-blank line's round, given the shape of its lexing result: a lexical error is a
  /// shaped result, and tokens give a state that keeps the invariant.
  lemma TextRound(sc: Scan, unit: Option<Unit>, d: Indented, lexed: Result<seq<LexToken>, SyntaxError>,
                  lineNum: nat, n: nat)
    requires 0 < lineNum <= n && ScanOk(sc, lineNum - 1) && LexedShape(lexed, d.body, lineNum)
    ensures lexed.Ok? ==> ScanOk(Advance(sc, unit, d, lexed.value, lineNum), lineNum)
    ensures lexed.Err? ==> Shaped(Lexed(sc.recorded + [d.body], Err(lexed.error)), n)
  {
    if lexed.Ok? {
      AdvanceOk(sc, unit, d, lexed.value, lineNum);
    } else {
      ErrorShaped(sc.recorded, d.body, lexed.error, n);
    }
  }

  /// The lexing result of a body without line feeds has the shape `LexedShape` names.
  lemma BodyShape(body: string, lineNum: int)
    requires NoLineFeed(body)
    ensures LexedShape(LineTokens(body, lineNum), body, lineNum)
  {
    LineTokensShape(body, lineNum, 0, []);
  }

  /// The rest of a non-blank line's round either stops the scan with a shaped result, or
  /// hands a state that keeps the invariant to the next line.
  lemma LexLineStep(lines: seq<string>, i: nat, sc: Scan, unit: Option<Unit>, d: Indented,
                    lexed: Result<seq<LexToken>, SyntaxError>) returns (next: Option<Scan>)
    requires i < |lines| && ScanOk(sc, i) && LexedShape(lexed, d.body, i + 1)
    ensures next.None? ==> Shaped(LexLineAt(lines, i, sc, unit, d, lexed), |lines|)
    ensures next.Some? ==>
      ScanOk(next.value, i + 1) && LexLineAt(lines, i, sc, unit, d, lexed) == TokenizeFrom(lines, i + 1, next.value)
  {
    TextRound(sc, unit, d, lexed, i + 1, |lines|);
    if lexed.Ok? {
      return Some(Advance(sc, unit, d, lexed.value, i + 1));
    }
    return None;
  }

  /// The round on the line at index `i` either stops the scan with a shaped result, or
  /// hands a state that keeps the invariant to the next line.
  lemma RoundStep(lines: seq<string>, i: nat, sc: Scan) returns (next: Option<Scan>)
    requires i < |lines| && ScanOk(sc, i) && NoLineFeed(lines[i])
    ensures next.None? ==> Shaped(TokenizeFrom(lines, i, sc), |lines|)
    ensures next.Some? ==>
      ScanOk(next.value, i + 1) && TokenizeFrom(lines, i, sc) == TokenizeFrom(lines, i + 1, next.value)
  {
    assert TokenizeFrom(lines, i, sc) == RoundAt(lines, i, sc);
    var line := RStrip(lines[i]);
    if line == [] {
      PlacedGrow(sc.tokens, sc.recorded, "");
      return Some(sc.(recorded := sc.recorded + [""]));
    }
    var unit := if sc.unit.None? then IndentUnit(line) else sc.unit;
    var d := Dedent(line, unit);
    var lexed := LineTokens(d.body, i + 1);
    assert RoundAt(lines, i, sc) == LexLineAt(lines, i, sc, unit, d, lexed);
    BodyNoLineFeed(lines[i], unit);
    BodyShape(d.body, i + 1);
    next := LexLineStep(lines, i, sc, unit, d, lexed);
  }

  lemma {:induction false} TokenizeShape(lines: seq<string>, i: nat, sc: Scan)
    requires i <= |lines| && ScanOk(sc, i)
    requires forall j :: 0 <= j < |lines| ==> NoLineFeed(lines[j])
    ensures Shaped(TokenizeFrom(lines, i, sc), |lines|)
    decreases |lines| - i
  {
    if i == |lines| {
      FinishShaped(sc, |lines|);
    } else {
      var next := RoundStep(lines, i, sc);
      if next.Some? {
        TokenizeShape(lines, i + 1, next.value);
      }
    }
  }

  /// The whole source: `SplitLines` gives lines without line feeds, and the scan starts
  /// with no unit, at level 0, with nothing recorded.
  lemma TokenizeSourceShape(s: string)
    ensures Shaped(TokenizeSource(s), |SplitLines(s)|)
  {
    var lines := SplitLines(s);
    forall j | 0 <= j < |lines| ensures NoLineFeed(lines[j]) {
      forall k | 0 <= k < |lines[j]| ensures lines[j][k] != '\n' {
        assert !IsLineBreak(lines[j][k]);
      }
    }
    var none: seq<LexToken> := [];
    assert none[..0] == none;
    TokenizeShape(lines, 0, Scan(None, 0, [], []));
  }
}
