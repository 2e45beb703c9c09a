/** The text of the tokenizer's test, and the facts about its characters
    the scan of it needs, apart from the tokenizer so that no other
    definition is in scope while they are checked. */
module TokenizerText {
  /** The text of the tokenizer test, holding a token of every kind. */
  const SOURCE: string := "'(42 -42 answer42 +-*/<=>!?_#t . #f)"

  /** SOURCE cut into the texts of its matches. */
  ghost predicate CutIntoMatches(s: string)
  {
    && |s| == 36
    && s[0..] == "'" + s[1..]
    && s[1..] == "(" + s[2..]
    && s[2..] == "42" + s[4..]
    && s[4..] == " " + s[5..]
    && s[5..] == "-42" + s[8..]
    && s[8..] == " " + s[9..]
    && s[9..] == "answer42" + s[17..]
    && s[17..] == " " + s[18..]
    && s[18..] == "+-*/<=>!?_" + s[28..]
    && s[28..] == "#t" + s[30..]
    && s[30..] == " " + s[31..]
    && s[31..] == "." + s[32..]
    && s[32..] == " " + s[33..]
    && s[33..] == "#f" + s[35..]
    && s[35..] == ")" + s[36..]
  }

  /** A slice equal to `text` cuts the suffix into `text` and the rest. */
  lemma {:induction false} CutAt(s: string, p: nat, text: string, q: nat)
    requires p <= q <= |s| && s[p..q] == text
    ensures s[p..] == text + s[q..]
  {
  }

  /** The characters of SOURCE, one by one. */
  ghost predicate SpellsSource(s: string)
  {
    && |s| == 36
    && s[0] == '\''
    && s[1] == '('
    && s[2] == '4'
    && s[3] == '2'
    && s[4] == ' '
    && s[5] == '-'
    && s[6] == '4'
    && s[7] == '2'
    && s[8] == ' '
    && s[9] == 'a'
    && s[10] == 'n'
    && s[11] == 's'
    && s[12] == 'w'
    && s[13] == 'e'
    && s[14] == 'r'
    && s[15] == '4'
    && s[16] == '2'
    && s[17] == ' '
    && s[18] == '+'
    && s[19] == '-'
    && s[20] == '*'
    && s[21] == '/'
    && s[22] == '<'
    && s[23] == '='
    && s[24] == '>'
    && s[25] == '!'
    && s[26] == '?'
    && s[27] == '_'
    && s[28] == '#'
    && s[29] == 't'
    && s[30] == ' '
    && s[31] == '.'
    && s[32] == ' '
    && s[33] == '#'
    && s[34] == 'f'
    && s[35] == ')'
  }

  lemma {:induction false} SourceSpelledQuote(s: string)
    requires s == SOURCE
    ensures s[0] == '\''
  {
  }

  lemma {:induction false} SourceSpelled0(s: string)
    requires s == SOURCE
    ensures s[1] == '('
    ensures s[2] == '4'
    ensures s[3] == '2'
    ensures s[4] == ' '
    ensures s[5] == '-'
    ensures s[6] == '4'
    ensures s[7] == '2'
    ensures s[8] == ' '
  {
  }

  lemma {:induction false} SourceSpelled1(s: string)
    requires s == SOURCE
    ensures s[9] == 'a'
    ensures s[10] == 'n'
    ensures s[11] == 's'
    ensures s[12] == 'w'
    ensures s[13] == 'e'
    ensures s[14] == 'r'
    ensures s[15] == '4'
    ensures s[16] == '2'
    ensures s[17] == ' '
  {
  }

  lemma {:induction false} SourceSpelled2(s: string)
    requires s == SOURCE
    ensures s[18] == '+'
    ensures s[19] == '-'
    ensures s[20] == '*'
    ensures s[21] == '/'
    ensures s[22] == '<'
    ensures s[23] == '='
    ensures s[24] == '>'
    ensures s[25] == '!'
    ensures s[26] == '?'
  {
  }

  lemma {:induction false} SourceSpelled3(s: string)
    requires s == SOURCE
    ensures s[27] == '_'
    ensures s[28] == '#'
    ensures s[29] == 't'
    ensures s[30] == ' '
    ensures s[31] == '.'
    ensures s[32] == ' '
    ensures s[33] == '#'
    ensures s[34] == 'f'
    ensures s[35] == ')'
  {
  }

  lemma {:induction false} SourceSpelled(s: string)
    requires s == SOURCE
    ensures SpellsSource(s)
  {
    SourceSpelledQuote(s);
    SourceSpelled0(s);
    SourceSpelled1(s);
    SourceSpelled2(s);
    SourceSpelled3(s);
  }

  lemma {:induction false} SourceCuts0(s: string)
    requires SpellsSource(s)
    ensures s[0..] == "'" + s[1..]
    ensures s[1..] == "(" + s[2..]
    ensures s[2..] == "42" + s[4..]
    ensures s[4..] == " " + s[5..]
    ensures s[5..] == "-42" + s[8..]
  {
    CutAt(s, 0, "'", 1);
    CutAt(s, 1, "(", 2);
    CutAt(s, 2, "42", 4);
    CutAt(s, 4, " ", 5);
    CutAt(s, 5, "-42", 8);
  }

  lemma {:induction false} SourceCuts1(s: string)
    requires SpellsSource(s)
    ensures s[8..] == " " + s[9..]
    ensures s[9..] == "answer42" + s[17..]
    ensures s[17..] == " " + s[18..]
    ensures s[18..] == "+-*/<=>!?_" + s[28..]
    ensures s[28..] == "#t" + s[30..]
  {
    CutAt(s, 8, " ", 9);
    CutAt(s, 9, "answer42", 17);
    CutAt(s, 17, " ", 18);
    CutAt(s, 18, "+-*/<=>!?_", 28);
    CutAt(s, 28, "#t", 30);
  }

  lemma {:induction false} SourceCuts2(s: string)
    requires SpellsSource(s)
    ensures s[30..] == " " + s[31..]
    ensures s[31..] == "." + s[32..]
    ensures s[32..] == " " + s[33..]
    ensures s[33..] == "#f" + s[35..]
    ensures s[35..] == ")" + s[36..]
  {
    CutAt(s, 30, " ", 31);
    CutAt(s, 31, ".", 32);
    CutAt(s, 32, " ", 33);
    CutAt(s, 33, "#f", 35);
    CutAt(s, 35, ")", 36);
  }

  lemma {:induction false} SourceCuts(s: string)
    requires SpellsSource(s)
    ensures CutIntoMatches(s)
  {
    SourceCuts0(s);
    SourceCuts1(s);
    SourceCuts2(s);
  }
}

/** The tokenizer's tests, stated about the model. */
module TokenizerScenarios {
  import opened Results
  import opened Options
  import opened Lexer
  import opened TokenizerText

  /** The tokenizer tests: blank text gives only the end-of-input token. */
  lemma {:induction false} TokenizeBlank()
    ensures Tokenize("") == Ok([EOI_TOKEN])
    ensures Tokenize(" \n") == Ok([EOI_TOKEN])
  {
    BlankIffOnlyEoi("");
    BlankIffOnlyEoi(" \n");
  }

  lemma {:induction false} HashMatchesNothing(s: string)
    requires s == "#"
    ensures FirstMatch(RULES, s).None? && s[0] == '#'
  {
    FrontNothing(s);
  }

  lemma {:induction false} HashMessage()
    ensures Unrecognized('#') == "unrecognized character found \"#\""
  {
  }

  /** A lone `#` is refused, naming the character. */
  lemma {:induction false} TokenizeHash(s: string)
    requires s == "#"
    ensures Tokenize(s) == Err("unrecognized character found \"#\"")
  {
    HashMatchesNothing(s);
    TokenizeStops(s);
    HashMessage();
  }

  /** One step of the scan that emits the token `t`. */
  lemma {:induction false} StepToken(s: string, i: nat, n: nat, t: Token, ts: seq<Token>)
    requires |s| > 0 && FirstMatch(RULES, s) == Some((i, n))
    requires Emit(RULES[i], s[..n]) == [t]
    requires Scan(s[n..]) == Ok(ts)
    ensures Scan(s) == Ok([t] + ts)
  {
    ScanStep(s, i, n);
  }

  /** One step of the scan over whitespace, which emits nothing. */
  lemma {:induction false} StepSpace(s: string, n: nat, ts: seq<Token>)
    requires |s| > 0 && FirstMatch(RULES, s) == Some((0, n))
    requires Scan(s[n..]) == Ok(ts)
    ensures Scan(s) == Ok(ts)
  {
    ScanStep(s, 0, n);
    SpaceEmitsNothing(s[..n], Scan(s[n..]));
  }

  lemma {:induction false} SpaceEmitsNothing(text: string, r: Result<seq<Token>, string>)
    ensures Prefixed(Emit(RULES[0], text), r) == r
  {
    assert RULES[0] == Space;
    match r
    case Ok(ts) => assert [] + ts == ts;
    case Err(_) =>
  }

  /** The step of `StepToken` over a matched `text` in front of `rest`. */
  lemma {:induction false} StepOver(text: string, rest: string, i: nat, t: Token, ts: seq<Token>)
    requires |text| > 0 && FirstMatch(RULES, text + rest) == Some((i, |text|))
    requires Emit(RULES[i], text) == [t]
    requires Scan(rest) == Ok(ts)
    ensures Scan(text + rest) == Ok([t] + ts)
  {
    var s := text + rest;
    assert s[|text|..] == rest && s[..|text|] == text;
    StepToken(s, i, |text|, t, ts);
  }

  /** The step of `StepSpace` over whitespace `text` in front of `rest`. */
  lemma {:induction false} SpaceOver(text: string, rest: string, ts: seq<Token>)
    requires |text| > 0 && FirstMatch(RULES, text + rest) == Some((0 as nat, |text|))
    requires Scan(rest) == Ok(ts)
    ensures Scan(text + rest) == Ok(ts)
  {
    var s := text + rest;
    assert s[|text|..] == rest;
    StepSpace(s, |text|, ts);
  }

  // The tokenizer test's text one match at a time: each lemma scans one
  // matched prefix in front of a rest that starts with the next character.

  lemma {:induction false} ScanQuote(rest: string, ts: seq<Token>)
    requires |rest| > 0 && rest[0] == '('
    requires Scan(rest) == Ok(ts)
    ensures Scan("'" + rest) == Ok([Token(QuoteTok, "'")] + ts)
  {
    FrontQuote(rest);
    EmitQuote();
    StepOver("'", rest, 7, Token(QuoteTok, "'"), ts);
  }

  lemma {:induction false} FrontQuote(rest: string)
    ensures FirstMatch(RULES, "'" + rest) == Some((7, 1))
  {
    var s := "'" + rest;
    assert s[0] == '\'';
    FrontPunctuation(s);
  }

  lemma {:induction false} EmitQuote()
    ensures Emit(RULES[7], "'") == [Token(QuoteTok, "'")]
  {
    assert RULES[7] == QuoteRule;
  }

  lemma {:induction false} ScanLParen(rest: string, ts: seq<Token>)
    requires |rest| > 0 && rest[0] == '4'
    requires Scan(rest) == Ok(ts)
    ensures Scan("(" + rest) == Ok([Token(LParen, "(")] + ts)
  {
    FrontLParen(rest);
    EmitLParen();
    StepOver("(", rest, 5, Token(LParen, "("), ts);
  }

  lemma {:induction false} FrontLParen(rest: string)
    requires |rest| > 0 && rest[0] == '4'
    ensures FirstMatch(RULES, "(" + rest) == Some((5, 1))
  {
    var s := "(" + rest;
    assert s[0] == '(';
    FrontPunctuation(s);
  }

  lemma {:induction false} EmitLParen()
    ensures Emit(RULES[5], "(") == [Token(LParen, "(")]
  {
    assert RULES[5] == LParenRule;
  }

  lemma {:induction false} ScanFortyTwo(rest: string, ts: seq<Token>)
    requires |rest| > 0 && rest[0] == ' '
    requires Scan(rest) == Ok(ts)
    ensures Scan("42" + rest) == Ok([Token(NumTok, "42")] + ts)
  {
    FrontFortyTwo(rest);
    EmitFortyTwo();
    StepOver("42", rest, 1, Token(NumTok, "42"), ts);
  }

  lemma {:induction false} FrontFortyTwo(rest: string)
    requires |rest| > 0 && rest[0] == ' '
    ensures FirstMatch(RULES, "42" + rest) == Some((1, 2))
  {
    var s := "42" + rest;
    assert s[0] == '4';
    RunIs(s, IsDigit, 2);
    FrontDigit(s);
  }

  lemma {:induction false} EmitFortyTwo()
    ensures Emit(RULES[1], "42") == [Token(NumTok, "42")]
  {
    assert RULES[1] == NumRule;
  }

  /** One blank before a character that is not whitespace. */
  lemma {:induction false} ScanSpace(rest: string, ts: seq<Token>)
    requires |rest| > 0 && !IsWhitespace(rest[0])
    requires Scan(rest) == Ok(ts)
    ensures Scan(" " + rest) == Ok(ts)
  {
    var s := " " + rest;
    RunIs(s, IsWhitespace, 1);
    FrontWhitespace(s);
    SpaceOver(" ", rest, ts);
  }

  lemma {:induction false} ScanMinusFortyTwo(rest: string, ts: seq<Token>)
    requires |rest| > 0 && rest[0] == ' '
    requires Scan(rest) == Ok(ts)
    ensures Scan("-42" + rest) == Ok([Token(NumTok, "-42")] + ts)
  {
    FrontMinusFortyTwo(rest);
    EmitMinusFortyTwo();
    StepOver("-42", rest, 1, Token(NumTok, "-42"), ts);
  }

  lemma {:induction false} FrontMinusFortyTwo(rest: string)
    requires |rest| > 0 && rest[0] == ' '
    ensures FirstMatch(RULES, "-42" + rest) == Some((1, 3))
  {
    var s := "-42" + rest;
    assert s[0] == '-';
    RunIs(s[1..], IsDigit, 2);
    FrontSignedNumber(s);
  }

  lemma {:induction false} EmitMinusFortyTwo()
    ensures Emit(RULES[1], "-42") == [Token(NumTok, "-42")]
  {
    assert RULES[1] == NumRule;
  }

  lemma {:induction false} ScanAnswer42(rest: string, ts: seq<Token>)
    requires |rest| > 0 && rest[0] == ' '
    requires Scan(rest) == Ok(ts)
    ensures Scan("answer42" + rest) == Ok([Token(SymTok, "answer42")] + ts)
  {
    FrontAnswer42(rest);
    EmitAnswer42();
    StepOver("answer42", rest, 4, Token(SymTok, "answer42"), ts);
  }

  lemma {:induction false} FrontAnswer42(rest: string)
    requires |rest| > 0 && rest[0] == ' '
    ensures FirstMatch(RULES, "answer42" + rest) == Some((4, 8))
  {
    var s := "answer42" + rest;
    assert s[0] == 'a';
    FrontWholeSymbol("answer42", rest);
  }

  lemma {:induction false} EmitAnswer42()
    ensures Emit(RULES[4], "answer42") == [Token(SymTok, "answer42")]
  {
    assert RULES[4] == SymRule;
  }

  /** Every character of the operator symbol may start a symbol. */
  lemma {:induction false} OperatorCharacters(s: string)
    requires |s| > 10 && s[..10] == "+-*/<=>!?_"
    ensures forall i :: 0 <= i < 10 ==> IsSymStart(s[i])
    ensures !SignedNumberAhead(s)
  {
    forall i | 0 <= i < 10
      ensures IsSymStart(s[i])
    {
      assert s[i] == "+-*/<=>!?_"[i];
    }
  }

  lemma {:induction false} ScanOperators(rest: string, ts: seq<Token>)
    requires |rest| > 0 && rest[0] == '#'
    requires Scan(rest) == Ok(ts)
    ensures Scan("+-*/<=>!?_" + rest) == Ok([Token(SymTok, "+-*/<=>!?_")] + ts)
  {
    FrontOperators(rest);
    EmitOperators();
    StepOver("+-*/<=>!?_", rest, 4, Token(SymTok, "+-*/<=>!?_"), ts);
  }

  lemma {:induction false} FrontOperators(rest: string)
    requires |rest| > 0 && rest[0] == '#'
    ensures FirstMatch(RULES, "+-*/<=>!?_" + rest) == Some((4, 10))
  {
    var s := "+-*/<=>!?_" + rest;
    assert s[0] == '+';
    OperatorCharacters(s);
    FrontWholeSymbol("+-*/<=>!?_", rest);
  }

  lemma {:induction false} EmitOperators()
    ensures Emit(RULES[4], "+-*/<=>!?_") == [Token(SymTok, "+-*/<=>!?_")]
  {
    assert RULES[4] == SymRule;
  }

  lemma {:induction false} ScanTrue(rest: string, ts: seq<Token>)
    requires |rest| > 0 && rest[0] == ' '
    requires Scan(rest) == Ok(ts)
    ensures Scan("#t" + rest) == Ok([Token(TrueTok, "#t")] + ts)
  {
    FrontTrue(rest);
    EmitTrue();
    StepOver("#t", rest, 2, Token(TrueTok, "#t"), ts);
  }

  lemma {:induction false} FrontTrue(rest: string)
    requires |rest| > 0 && rest[0] == ' '
    ensures FirstMatch(RULES, "#t" + rest) == Some((2, 2))
  {
    var s := "#t" + rest;
    assert s[0] == '#';
    FrontBoolean(s);
  }

  lemma {:induction false} EmitTrue()
    ensures Emit(RULES[2], "#t") == [Token(TrueTok, "#t")]
  {
    assert RULES[2] == TrueRule;
  }

  lemma {:induction false} ScanDot(rest: string, ts: seq<Token>)
    requires |rest| > 0 && rest[0] == ' '
    requires Scan(rest) == Ok(ts)
    ensures Scan("." + rest) == Ok([Token(DotTok, ".")] + ts)
  {
    FrontDot(rest);
    EmitDot();
    StepOver(".", rest, 8, Token(DotTok, "."), ts);
  }

  lemma {:induction false} FrontDot(rest: string)
    requires |rest| > 0 && rest[0] == ' '
    ensures FirstMatch(RULES, "." + rest) == Some((8, 1))
  {
    var s := "." + rest;
    assert s[0] == '.';
    FrontPunctuation(s);
  }

  lemma {:induction false} EmitDot()
    ensures Emit(RULES[8], ".") == [Token(DotTok, ".")]
  {
    assert RULES[8] == DotRule;
  }

  lemma {:induction false} ScanFalse(rest: string, ts: seq<Token>)
    requires |rest| > 0 && rest[0] == ')'
    requires Scan(rest) == Ok(ts)
    ensures Scan("#f" + rest) == Ok([Token(FalseTok, "#f")] + ts)
  {
    FrontFalse(rest);
    EmitFalse();
    StepOver("#f", rest, 3, Token(FalseTok, "#f"), ts);
  }

  lemma {:induction false} FrontFalse(rest: string)
    requires |rest| > 0 && rest[0] == ')'
    ensures FirstMatch(RULES, "#f" + rest) == Some((3, 2))
  {
    var s := "#f" + rest;
    assert s[0] == '#';
    FrontBoolean(s);
  }

  lemma {:induction false} EmitFalse()
    ensures Emit(RULES[3], "#f") == [Token(FalseTok, "#f")]
  {
    assert RULES[3] == FalseRule;
  }

  lemma {:induction false} ScanRParen(rest: string, ts: seq<Token>)
    requires rest == []
    requires Scan(rest) == Ok(ts)
    ensures Scan(")" + rest) == Ok([Token(RParen, ")")] + ts)
  {
    FrontRParen(rest);
    EmitRParen();
    StepOver(")", rest, 6, Token(RParen, ")"), ts);
  }

  lemma {:induction false} FrontRParen(rest: string)
    requires rest == []
    ensures FirstMatch(RULES, ")" + rest) == Some((6, 1))
  {
    var s := ")" + rest;
    assert s[0] == ')';
    FrontPunctuation(s);
  }

  lemma {:induction false} EmitRParen()
    ensures Emit(RULES[6], ")") == [Token(RParen, ")")]
  {
    assert RULES[6] == RParenRule;
  }

  /** Its tokens, before the end-of-input token. */
  const EXPECTED: seq<Token> := [
    Token(QuoteTok, "'"),
    Token(LParen, "("),
    Token(NumTok, "42"),
    Token(NumTok, "-42"),
    Token(SymTok, "answer42"),
    Token(SymTok, "+-*/<=>!?_"),
    Token(TrueTok, "#t"),
    Token(DotTok, "."),
    Token(FalseTok, "#f"),
    Token(RParen, ")") ]

  /** The expected tokens split at position 0; ExpectedAt1 to ExpectedAt9
      split them at the later positions. */
  lemma {:induction false} ExpectedAt0()
    ensures EXPECTED[0..] == [Token(QuoteTok, "'")] + EXPECTED[1..]
  {
  }

  lemma {:induction false} ExpectedAt1()
    ensures EXPECTED[1..] == [Token(LParen, "(")] + EXPECTED[2..]
  {
  }

  lemma {:induction false} ExpectedAt2()
    ensures EXPECTED[2..] == [Token(NumTok, "42")] + EXPECTED[3..]
  {
  }

  lemma {:induction false} ExpectedAt3()
    ensures EXPECTED[3..] == [Token(NumTok, "-42")] + EXPECTED[4..]
  {
  }

  lemma {:induction false} ExpectedAt4()
    ensures EXPECTED[4..] == [Token(SymTok, "answer42")] + EXPECTED[5..]
  {
  }

  lemma {:induction false} ExpectedAt5()
    ensures EXPECTED[5..] == [Token(SymTok, "+-*/<=>!?_")] + EXPECTED[6..]
  {
  }

  lemma {:induction false} ExpectedAt6()
    ensures EXPECTED[6..] == [Token(TrueTok, "#t")] + EXPECTED[7..]
  {
  }

  lemma {:induction false} ExpectedAt7()
    ensures EXPECTED[7..] == [Token(DotTok, ".")] + EXPECTED[8..]
  {
  }

  lemma {:induction false} ExpectedAt8()
    ensures EXPECTED[8..] == [Token(FalseTok, "#f")] + EXPECTED[9..]
  {
  }

  lemma {:induction false} ExpectedAt9()
    ensures EXPECTED[9..] == [Token(RParen, ")")] + EXPECTED[10..]
  {
  }

  /** Each match of SOURCE in turn, from the last one back to the first:
      the suffix from match 14 on scans to its token and the tokens after
      it. ScanFrom13 to ScanFrom0 do the same for the earlier matches. */
  lemma {:induction false} ScanFrom14(s: string)
    requires |s| == 36 && s[35..] == ")" + s[36..]
    requires Scan(s[36..]) == Ok(EXPECTED[10..])
    ensures Scan(s[35..]) == Ok(EXPECTED[9..])
  {
    ScanRParen(s[36..], EXPECTED[10..]);
    ExpectedAt9();
  }

  lemma {:induction false} ScanFrom13(s: string)
    requires |s| == 36 && s[33..] == "#f" + s[35..]
    requires s[35] == ')'
    requires Scan(s[35..]) == Ok(EXPECTED[9..])
    ensures Scan(s[33..]) == Ok(EXPECTED[8..])
  {
    ScanFalse(s[35..], EXPECTED[9..]);
    ExpectedAt8();
  }

  lemma {:induction false} ScanFrom12(s: string)
    requires |s| == 36 && s[32..] == " " + s[33..]
    requires s[33] == '#'
    requires Scan(s[33..]) == Ok(EXPECTED[8..])
    ensures Scan(s[32..]) == Ok(EXPECTED[8..])
  {
    ScanSpace(s[33..], EXPECTED[8..]);
  }

  lemma {:induction false} ScanFrom11(s: string)
    requires |s| == 36 && s[31..] == "." + s[32..]
    requires s[32] == ' '
    requires Scan(s[32..]) == Ok(EXPECTED[8..])
    ensures Scan(s[31..]) == Ok(EXPECTED[7..])
  {
    ScanDot(s[32..], EXPECTED[8..]);
    ExpectedAt7();
  }

  lemma {:induction false} ScanFrom10(s: string)
    requires |s| == 36 && s[30..] == " " + s[31..]
    requires s[31] == '.'
    requires Scan(s[31..]) == Ok(EXPECTED[7..])
    ensures Scan(s[30..]) == Ok(EXPECTED[7..])
  {
    ScanSpace(s[31..], EXPECTED[7..]);
  }

  lemma {:induction false} ScanFrom9(s: string)
    requires |s| == 36 && s[28..] == "#t" + s[30..]
    requires s[30] == ' '
    requires Scan(s[30..]) == Ok(EXPECTED[7..])
    ensures Scan(s[28..]) == Ok(EXPECTED[6..])
  {
    ScanTrue(s[30..], EXPECTED[7..]);
    ExpectedAt6();
  }

  lemma {:induction false} ScanFrom8(s: string)
    requires |s| == 36 && s[18..] == "+-*/<=>!?_" + s[28..]
    requires s[28] == '#'
    requires Scan(s[28..]) == Ok(EXPECTED[6..])
    ensures Scan(s[18..]) == Ok(EXPECTED[5..])
  {
    ScanOperators(s[28..], EXPECTED[6..]);
    ExpectedAt5();
  }

  lemma {:induction false} ScanFrom7(s: string)
    requires |s| == 36 && s[17..] == " " + s[18..]
    requires s[18] == '+'
    requires Scan(s[18..]) == Ok(EXPECTED[5..])
    ensures Scan(s[17..]) == Ok(EXPECTED[5..])
  {
    ScanSpace(s[18..], EXPECTED[5..]);
  }

  lemma {:induction false} ScanFrom6(s: string)
    requires |s| == 36 && s[9..] == "answer42" + s[17..]
    requires s[17] == ' '
    requires Scan(s[17..]) == Ok(EXPECTED[5..])
    ensures Scan(s[9..]) == Ok(EXPECTED[4..])
  {
    ScanAnswer42(s[17..], EXPECTED[5..]);
    ExpectedAt4();
  }

  lemma {:induction false} ScanFrom5(s: string)
    requires |s| == 36 && s[8..] == " " + s[9..]
    requires s[9] == 'a'
    requires Scan(s[9..]) == Ok(EXPECTED[4..])
    ensures Scan(s[8..]) == Ok(EXPECTED[4..])
  {
    ScanSpace(s[9..], EXPECTED[4..]);
  }

  lemma {:induction false} ScanFrom4(s: string)
    requires |s| == 36 && s[5..] == "-42" + s[8..]
    requires s[8] == ' '
    requires Scan(s[8..]) == Ok(EXPECTED[4..])
    ensures Scan(s[5..]) == Ok(EXPECTED[3..])
  {
    ScanMinusFortyTwo(s[8..], EXPECTED[4..]);
    ExpectedAt3();
  }

  lemma {:induction false} ScanFrom3(s: string)
    requires |s| == 36 && s[4..] == " " + s[5..]
    requires s[5] == '-'
    requires Scan(s[5..]) == Ok(EXPECTED[3..])
    ensures Scan(s[4..]) == Ok(EXPECTED[3..])
  {
    ScanSpace(s[5..], EXPECTED[3..]);
  }

  lemma {:induction false} ScanFrom2(s: string)
    requires |s| == 36 && s[2..] == "42" + s[4..]
    requires s[4] == ' '
    requires Scan(s[4..]) == Ok(EXPECTED[3..])
    ensures Scan(s[2..]) == Ok(EXPECTED[2..])
  {
    ScanFortyTwo(s[4..], EXPECTED[3..]);
    ExpectedAt2();
  }

  lemma {:induction false} ScanFrom1(s: string)
    requires |s| == 36 && s[1..] == "(" + s[2..]
    requires s[2] == '4'
    requires Scan(s[2..]) == Ok(EXPECTED[2..])
    ensures Scan(s[1..]) == Ok(EXPECTED[1..])
  {
    ScanLParen(s[2..], EXPECTED[2..]);
    ExpectedAt1();
  }

  lemma {:induction false} ScanFrom0(s: string)
    requires |s| == 36 && s[0..] == "'" + s[1..]
    requires s[1] == '('
    requires Scan(s[1..]) == Ok(EXPECTED[1..])
    ensures Scan(s[0..]) == Ok(EXPECTED[0..])
  {
    ScanQuote(s[1..], EXPECTED[1..]);
    ExpectedAt0();
  }

  /** The whole text, scanned from its last match back to its first. */
  lemma {:induction false} ScanCutText(s: string)
    requires SpellsSource(s) && CutIntoMatches(s)
    ensures Scan(s) == Ok(EXPECTED)
  {
    assert s[36..] == [] && EXPECTED[10..] == [];
    ScanFrom14(s);
    ScanFrom13(s);
    ScanFrom12(s);
    ScanFrom11(s);
    ScanFrom10(s);
    ScanFrom9(s);
    ScanFrom8(s);
    ScanFrom7(s);
    ScanFrom6(s);
    ScanFrom5(s);
    ScanFrom4(s);
    ScanFrom3(s);
    ScanFrom2(s);
    ScanFrom1(s);
    ScanFrom0(s);
    assert s[0..] == s && EXPECTED[0..] == EXPECTED;
  }

  /** The tokenizer test: the first match wins, so `-42` is a number,
      `answer42` is one symbol and the operator symbol ends at `#`. */
  lemma {:induction false} TokenizeEveryKind(s: string)
    requires s == SOURCE
    ensures Tokenize(s) == Ok(EXPECTED + [EOI_TOKEN])
  {
    SourceSpelled(s);
    SourceCuts(s);
    ScanCutText(s);
  }
}
