/// Whole sources run through `TokenizeSource`, as the lexer's own test suite spells them.
module LexerExamples {
  import opened Results
  import opened Text
  import opened Errors
  import opened Lexer
  import opened LexerLemmas

  /// The source `xbreak x break breakx`: a keyword spelled inside a longer word, alone,
  /// and at the start of a longer word, with single blanks between them.
  predicate KeywordSample(s: string) {
    && |s| == 21 && s[..6] == "xbreak" && s[6] == ' ' && s[7] == 'x' && s[8] == ' '
    && s[9..14] == "break" && s[14] == ' ' && s[15..] == "breakx"
  }

  /// Keywords are recognised only as whole words: the source `xbreak x break breakx`
  /// lexes to NAME NAME BREAK NAME NEWLINE, with the names keeping their text and every
  /// token on line 1 at the column where its word starts.
  lemma KeywordsAreWholeWords(s: string)
    requires KeywordSample(s)
    ensures TokenizeSource(s) == Lexed([s], Ok([
      Token(NAME, Str("xbreak"), 1, 1), Token(NAME, Str("x"), 1, 8), Token(BREAK, NoValue, 1, 10),
      Token(NAME, Str("breakx"), 1, 16), Token(NEWLINE, NoValue, 1, 22)]))
  {
    SampleIsOneLine(s);
    var lines := SplitLines(s);
    var start := Scan(None, 0, [], []);
    var d := Dedent(s, IndentUnit(s));
    assert d == Indented(0, s);
    var lt := SampleLineTokens(s);
    assert TokenizeSource(s) == RoundAt(lines, 0, start);
    assert RoundAt(lines, 0, start) == LexLineAt(lines, 0, start, None, d, Ok(lt));
    var sc := Advance(start, None, d, lt, 1);
    assert LexLineAt(lines, 0, start, None, d, Ok(lt)) == TokenizeFrom(lines, 1, sc);
    assert IndentTokens(0, 0, 1) == [];
    assert sc == Scan(None, 0, [s], lt + [Token(NEWLINE, NoValue, 1, 22)]);
    var closing := Copies(Token(DEDENT, NoValue, 1, 0), 0);
    assert closing == [];
    assert TokenizeFrom(lines, 1, sc) == Lexed([s], Ok(sc.tokens + closing));
    assert sc.tokens + closing == sc.tokens;
    assert sc.tokens == [Token(NAME, Str("xbreak"), 1, 1), Token(NAME, Str("x"), 1, 8), Token(BREAK, NoValue, 1, 10),
      Token(NAME, Str("breakx"), 1, 16), Token(NEWLINE, NoValue, 1, 22)];
  }

  /// The sample is a single line, with nothing to strip on the right and no indentation.
  lemma SampleIsOneLine(s: string)
    requires KeywordSample(s)
    ensures SplitLines(s) == [s] && RStrip(s) == s && IndentUnit(s) == None
  {
    SampleCharacters(s);
    assert FirstBreak(s, 0) == |s|;
  }

  /// The sample holds only letters and blanks, so no line break.
  lemma SampleCharacters(s: string)
    requires KeywordSample(s)
    ensures forall j :: 0 <= j < |s| ==> IsLetter(s[j]) || s[j] == ' '
    ensures forall j :: 0 <= j < |s| ==> !IsLineBreak(s[j])
  {
    forall j | 0 <= j < |s| ensures IsLetter(s[j]) || s[j] == ' ' {
      if j < 6 {
        assert s[j] == s[..6][j];
      } else if 9 <= j < 14 {
        assert s[j] == s[9..14][j - 9];
      } else if 15 <= j {
        assert s[j] == s[15..][j - 15];
      }
    }
  }

  /// The body of the sample line lexes to its four words.
  lemma SampleLineTokens(s: string) returns (lt: seq<LexToken>)
    requires KeywordSample(s)
    ensures lt == [Token(NAME, Str("xbreak"), 1, 1), Token(NAME, Str("x"), 1, 8),
                   Token(BREAK, NoValue, 1, 10), Token(NAME, Str("breakx"), 1, 16)]
    ensures LineTokens(s, 1) == Ok(lt)
  {
    SampleWord1(s);
    SampleWord2(s);
    SampleWord3(s);
    lt := SampleWord4(s);
    assert LineTokensFrom(Rules, s, 1, 21, lt) == Ok(lt);
  }

  /// `xbreak` and its blank: the keyword inside the word does not count.
  lemma SampleWord1(s: string)
    requires KeywordSample(s)
    ensures LineTokensFrom(Rules, s, 1, 0, []) == LineTokensFrom(Rules, s, 1, 7, [Token(NAME, Str("xbreak"), 1, 1)])
  {
    assert s[0..6] == "xbreak";
    assert Emit(NAME, "xbreak", 0, 1) == [Token(NAME, Str("xbreak"), 1, 1)] by {
      assert "xbreak" !in Keywords;
    }
    var a := WordThenBlank(s, 0, "xbreak", []);
    assert a == [Token(NAME, Str("xbreak"), 1, 1)];
  }

  /// `x` and its blank.
  lemma SampleWord2(s: string)
    requires KeywordSample(s)
    ensures LineTokensFrom(Rules, s, 1, 7, [Token(NAME, Str("xbreak"), 1, 1)])
      == LineTokensFrom(Rules, s, 1, 9, [Token(NAME, Str("xbreak"), 1, 1), Token(NAME, Str("x"), 1, 8)])
  {
    assert s[7..8] == "x";
    assert s[9] == s[9..14][0];
    assert Emit(NAME, "x", 7, 1) == [Token(NAME, Str("x"), 1, 8)] by {
      assert "x" !in Keywords;
    }
    var a := WordThenBlank(s, 7, "x", [Token(NAME, Str("xbreak"), 1, 1)]);
    assert a == [Token(NAME, Str("xbreak"), 1, 1), Token(NAME, Str("x"), 1, 8)];
  }

  /// `break` and its blank: the whole word is the keyword.
  lemma SampleWord3(s: string)
    requires KeywordSample(s)
    ensures LineTokensFrom(Rules, s, 1, 9, [Token(NAME, Str("xbreak"), 1, 1), Token(NAME, Str("x"), 1, 8)])
      == LineTokensFrom(Rules, s, 1, 15, [Token(NAME, Str("xbreak"), 1, 1), Token(NAME, Str("x"), 1, 8), Token(BREAK, NoValue, 1, 10)])
  {
    assert s[15] == s[15..][0];
    assert Emit(NAME, "break", 9, 1) == [Token(BREAK, NoValue, 1, 10)] by {
      assert Keywords["break"] == BREAK;
    }
    var a := WordThenBlank(s, 9, "break", [Token(NAME, Str("xbreak"), 1, 1), Token(NAME, Str("x"), 1, 8)]);
    assert a == [Token(NAME, Str("xbreak"), 1, 1), Token(NAME, Str("x"), 1, 8), Token(BREAK, NoValue, 1, 10)];
  }

  /// `breakx` at the end of the line: a keyword followed by more word characters.
  lemma SampleWord4(s: string) returns (lt: seq<LexToken>)
    requires KeywordSample(s)
    ensures lt == [Token(NAME, Str("xbreak"), 1, 1), Token(NAME, Str("x"), 1, 8), Token(BREAK, NoValue, 1, 10), Token(NAME, Str("breakx"), 1, 16)]
    ensures LineTokensFrom(Rules, s, 1, 15, [Token(NAME, Str("xbreak"), 1, 1), Token(NAME, Str("x"), 1, 8), Token(BREAK, NoValue, 1, 10)]) == LineTokensFrom(Rules, s, 1, 21, lt)
  {
    assert s[15..21] == "breakx";
    assert Emit(NAME, "breakx", 15, 1) == [Token(NAME, Str("breakx"), 1, 16)] by {
      assert "breakx" !in Keywords;
    }
    lt := WordStep(s, 15, "breakx", [Token(NAME, Str("xbreak"), 1, 1), Token(NAME, Str("x"), 1, 8), Token(BREAK, NoValue, 1, 10)]);
  }

  /// A word followed by a single blank yields one token, and lexing goes on after the
  /// blank.
  lemma WordThenBlank(line: string, pos: nat, word: string, acc: seq<LexToken>) returns (acc': seq<LexToken>)
    requires |word| > 0 && pos + |word| + 1 < |line| && line[pos..pos + |word|] == word
    requires IsLetter(word[0]) && forall k :: 0 < k < |word| ==> IsWordChar(word[k])
    requires line[pos + |word|] == ' ' && line[pos + |word| + 1] != ' ' && line[pos + |word| + 1] != '\t'
    ensures acc' == acc + Emit(NAME, word, pos, 1)
    ensures LineTokensFrom(Rules, line, 1, pos, acc) == LineTokensFrom(Rules, line, 1, pos + |word| + 1, acc')
  {
    acc' := WordStep(line, pos, word, acc);
    BlankStep(line, pos + |word|, acc');
  }

  /// A word that starts at `pos` and is not followed by a word character yields one
  /// token, and lexing goes on after it.
  lemma WordStep(line: string, pos: nat, word: string, acc: seq<LexToken>) returns (acc': seq<LexToken>)
    requires |word| > 0 && pos + |word| <= |line| && line[pos..pos + |word|] == word
    requires IsLetter(word[0]) && forall k :: 0 < k < |word| ==> IsWordChar(word[k])
    requires pos + |word| == |line| || !IsWordChar(line[pos + |word|])
    ensures acc' == acc + Emit(NAME, word, pos, 1)
    ensures LineTokensFrom(Rules, line, 1, pos, acc) == LineTokensFrom(Rules, line, 1, pos + |word|, acc')
  {
    var end := pos + |word|;
    WordRunEnd(line, pos, word);
    WholeWords(line, pos);
    LineTokensFired(line, 1, pos, acc, Fired(5, Hit(end, word)));
    acc' := acc + Emit(NAME, word, pos, 1);
  }

  /// The run of word characters after the first letter of `word` ends with `word`.
  lemma WordRunEnd(line: string, pos: nat, word: string)
    requires |word| > 0 && pos + |word| <= |line| && line[pos..pos + |word|] == word
    requires forall k :: 0 < k < |word| ==> IsWordChar(word[k])
    requires pos + |word| == |line| || !IsWordChar(line[pos + |word|])
    ensures RunEnd(line, pos + 1, Word) == pos + |word|
  {
    assert forall k :: pos <= k < pos + |word| ==> line[k] == word[k - pos];
  }

  /// One blank between two words yields nothing and lexing goes on after it.
  lemma BlankStep(line: string, pos: nat, acc: seq<LexToken>)
    requires pos + 1 < |line| && line[pos] == ' ' && line[pos + 1] != ' ' && line[pos + 1] != '\t'
    ensures LineTokensFrom(Rules, line, 1, pos, acc) == LineTokensFrom(Rules, line, 1, pos + 1, acc)
  {
    var f := Fired(6, Hit(pos + 1, line[pos..pos + 1]));
    BlankFires(line, pos);
    LineTokensFired(line, 1, pos, acc, f);
    assert Rules[6].kind == WHITESPACE by {
      FiredRuleKinds();
    }
    assert acc + Emit(WHITESPACE, line[pos..pos + 1], pos, 1) == acc;
  }

  /// A single blank fires the white-space rule.
  lemma BlankFires(line: string, pos: nat)
    requires pos + 1 < |line| && line[pos] == ' ' && line[pos + 1] != ' ' && line[pos + 1] != '\t'
    ensures FirstMatch(Rules, line, pos, 0) == Some(Fired(6, Hit(pos + 1, line[pos..pos + 1])))
  {
    BlankSkipsRules(line, pos);
    BlankRuleMatches(line, pos);
    FireRule(line, pos, 6, Hit(pos + 1, line[pos..pos + 1]));
  }

  /// The white-space rule takes a single blank that no other blank follows.
  lemma BlankRuleMatches(line: string, pos: nat)
    requires pos + 1 < |line| && line[pos] == ' ' && line[pos + 1] != ' ' && line[pos + 1] != '\t'
    ensures MatchPattern(Rules[6].pattern, line, pos) == Some(Hit(pos + 1, line[pos..pos + 1]))
  {
    assert RunEnd(line, pos, Blank) == pos + 1;
  }

  /// A blank passes over the first six rules.
  lemma BlankSkipsRules(line: string, pos: nat)
    requires pos < |line| && line[pos] == ' '
    ensures FirstMatch(Rules, line, pos, 0) == FirstMatch(Rules, line, pos, 6)
  {
    for k := 0 to 6
      invariant FirstMatch(Rules, line, pos, 0) == FirstMatch(Rules, line, pos, k)
    {
      BlankSkipsRule(line, pos, k);
    }
  }

  /// A blank passes over the comment, string, number and name rules.
  lemma BlankSkipsRule(line: string, pos: nat, k: nat)
    requires pos < |line| && line[pos] == ' ' && k < 6
    ensures FirstMatch(Rules, line, pos, k) == FirstMatch(Rules, line, pos, k + 1)
  {
  }
}
