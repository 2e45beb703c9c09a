/** The tokenizer of src/parser.ts: an ordered list of rules, tried in turn
    at the front of the remaining text, the first match winning. Whitespace
    is consumed without a token, the output ends with one end-of-input
    token, and a position no rule matches aborts with an error. */
module Lexer {
  import opened Results
  import opened Options

  datatype TokenKind = NumTok | TrueTok | FalseTok | SymTok | LParen | RParen | QuoteTok | DotTok | Eoi

  datatype Token = Token(kind: TokenKind, text: string)

  const EOI_TOKEN: Token := Token(Eoi, "")

  /** The characters JavaScript's `\s` class matches. */
  predicate IsWhitespace(c: char)
  {
    || c == ' ' || c == '\t' || c == '\n' || c == '\r'
    || c == '\U{000B}' || c == '\U{000C}' || c == '\U{00A0}' || c == '\U{1680}'
    || ('\U{2000}' <= c <= '\U{200A}')
    || c == '\U{2028}' || c == '\U{2029}' || c == '\U{202F}' || c == '\U{205F}'
    || c == '\U{3000}' || c == '\U{FEFF}'
  }

  predicate IsDigit(c: char) { '0' <= c <= '9' }

  predicate IsSign(c: char) { c == '+' || c == '-' }

  /** The characters a symbol may start with. */
  predicate IsSymStart(c: char)
  {
    || c == '-' || c == '+' || c == '*' || c == '/' || c == '_'
    || c == '<' || c == '=' || c == '>' || c == '!' || c == '?'
    || 'a' <= c <= 'z' || 'A' <= c <= 'Z'
  }

  /** The characters a symbol may continue with. */
  predicate IsSymChar(c: char) { IsSymStart(c) || IsDigit(c) }

  /** The length of the longest prefix of `s` whose characters all satisfy `p`. */
  function Run(s: string, p: char -> bool): (n: nat)
    ensures n <= |s|
    ensures forall i :: 0 <= i < n ==> p(s[i])
    ensures n < |s| ==> !p(s[n])
    decreases |s|
  {
    if |s| > 0 && p(s[0]) then 1 + Run(s[1..], p) else 0
  }

  /** The rules, one per pattern, in the order the tokenizer tries them. */
  datatype Rule = Space | NumRule | TrueRule | FalseRule | SymRule | LParenRule | RParenRule | QuoteRule | DotRule

  const RULES: seq<Rule> := [Space, NumRule, TrueRule, FalseRule, SymRule, LParenRule, RParenRule, QuoteRule, DotRule]

  /** Every rule is tried, and tried once; whitespace comes first, and the
      number rule comes before the symbol rule, so that a signed number is
      never read as a symbol. */
  lemma {:induction false} RulesEachOnce()
    ensures forall r: Rule :: r in RULES
    ensures forall i, j :: 0 <= i < j < |RULES| ==> RULES[i] != RULES[j]
    ensures RULES[0] == Space && RULES[1] == NumRule && RULES[4] == SymRule
  {
    forall r: Rule
      ensures r in RULES
    {
      match r {
        case Space => assert RULES[0] == r;
        case NumRule => assert RULES[1] == r;
        case TrueRule => assert RULES[2] == r;
        case FalseRule => assert RULES[3] == r;
        case SymRule => assert RULES[4] == r;
        case LParenRule => assert RULES[5] == r;
        case RParenRule => assert RULES[6] == r;
        case QuoteRule => assert RULES[7] == r;
        case DotRule => assert RULES[8] == r;
      }
    }
  }

  /** The token kind a rule emits; whitespace emits none. */
  function RuleKind(rule: Rule): (k: Option<TokenKind>)
    ensures k != Some(Eoi)
  {
    match rule
    case Space => None
    case NumRule => Some(NumTok)
    case TrueRule => Some(TrueTok)
    case FalseRule => Some(FalseTok)
    case SymRule => Some(SymTok)
    case LParenRule => Some(LParen)
    case RParenRule => Some(RParen)
    case QuoteRule => Some(QuoteTok)
    case DotRule => Some(DotTok)
  }

  /** The length of the text a rule's pattern matches at the front of `s`,
      if it matches. Every pattern is greedy. */
  function Match(rule: Rule, s: string): (r: Option<nat>)
    ensures r.Some? ==> 1 <= r.value <= |s|
  {
    match rule
    case Space =>
      var n := Run(s, IsWhitespace);
      if n >= 1 then Some(n) else None
    case NumRule =>
      if |s| >= 2 && IsSign(s[0]) && IsDigit(s[1]) then Some(1 + Run(s[1..], IsDigit))
      else if |s| >= 1 && IsDigit(s[0]) then Some(Run(s, IsDigit))
      else None
    case TrueRule => if |s| >= 2 && s[0] == '#' && s[1] == 't' then Some(2) else None
    case FalseRule => if |s| >= 2 && s[0] == '#' && s[1] == 'f' then Some(2) else None
    case SymRule => if |s| >= 1 && IsSymStart(s[0]) then Some(1 + Run(s[1..], IsSymChar)) else None
    case LParenRule => if |s| >= 1 && s[0] == '(' then Some(1) else None
    case RParenRule => if |s| >= 1 && s[0] == ')' then Some(1) else None
    case QuoteRule => if |s| >= 1 && s[0] == '\'' then Some(1) else None
    case DotRule => if |s| >= 1 && s[0] == '.' then Some(1) else None
  }

  /** The first rule of `rules` that matches the front of `s`: its index
      and the length of its match. */
  function FirstMatch(rules: seq<Rule>, s: string): (r: Option<(nat, nat)>)
    ensures r.None? ==> forall j :: 0 <= j < |rules| ==> Match(rules[j], s).None?
    ensures r.Some? ==> r.value.0 < |rules| && Match(rules[r.value.0], s) == Some(r.value.1)
    ensures r.Some? ==> forall j :: 0 <= j < r.value.0 ==> Match(rules[j], s).None?
    decreases |rules|
  {
    if |rules| == 0 then None
    else
      match Match(rules[0], s)
      case Some(n) => Some((0, n))
      case None =>
        match FirstMatch(rules[1..], s)
        case None => None
        case Some((i, n)) => Some((i + 1, n))
  }

  /** The message a position no rule matches aborts with. */
  function Unrecognized(c: char): string
  {
    "unrecognized character found \"" + [c] + "\""
  }

  /** What a matched rule contributes to the output. */
  function Emit(rule: Rule, text: string): seq<Token>
  {
    match RuleKind(rule)
    case None => []
    case Some(k) => [Token(k, text)]
  }

  /** The tokens of `rest`, without the end-of-input token. */
  function Scan(rest: string): (r: Result<seq<Token>, string>)
    ensures r.Ok? ==> forall i :: 0 <= i < |r.value| ==> r.value[i].kind != Eoi
    decreases |rest|
  {
    if |rest| == 0 then Ok([])
    else
      match FirstMatch(RULES, rest)
      case None => Err(Unrecognized(rest[0]))
      case Some((i, n)) =>
        match Scan(rest[n..])
        case Err(e) => Err(e)
        case Ok(ts) => Ok(Emit(RULES[i], rest[..n]) + ts)
  }

  /** `tokenize`: the tokens of `source` followed by one end-of-input
      token, which appears nowhere else. */
  function Tokenize(source: string): (r: Result<seq<Token>, string>)
    ensures r.Ok? ==> |r.value| >= 1 && r.value[|r.value| - 1] == EOI_TOKEN
    ensures r.Ok? ==> forall i :: 0 <= i < |r.value| - 1 ==> r.value[i].kind != Eoi
    ensures r.Err? <==> Scan(source).Err?
  {
    match Scan(source)
    case Err(e) => Err(e)
    case Ok(ts) => Ok(ts + [EOI_TOKEN])
  }

  /** The while loop of the source, pushing tokens until the text runs out. */
  method TokenizeLoop(source: string) returns (r: Result<seq<Token>, string>)
    ensures r == Tokenize(source)
  {
    var tokens: seq<Token> := [];
    var rest := source;
    assert Scan(source).Ok? ==> [] + Scan(source).value == Scan(source).value;
    while |rest| != 0
      invariant Scan(source) == Prefixed(tokens, Scan(rest))
      decreases |rest|
    {
      var m := FirstMatch(RULES, rest);
      if m.None? {
        return Err(Unrecognized(rest[0]));
      }
      var (i, n) := m.value;
      var emitted := Emit(RULES[i], rest[..n]);
      assert Scan(rest) == Prefixed(emitted, Scan(rest[n..]));
      PrefixedTwice(tokens, emitted, Scan(rest[n..]));
      tokens := tokens + emitted;
      rest := rest[n..];
    }
    assert Scan(rest) == Ok([]);
    assert tokens + [] == tokens;
    tokens := tokens + [EOI_TOKEN];
    return Ok(tokens);
  }

  /** `r` with `tokens` put in front of its tokens, or its error. */
  function Prefixed(tokens: seq<Token>, r: Result<seq<Token>, string>): Result<seq<Token>, string>
  {
    match r
    case Ok(ts) => Ok(tokens + ts)
    case Err(e) => Err(e)
  }

  lemma {:induction false} PrefixedTwice(a: seq<Token>, b: seq<Token>, r: Result<seq<Token>, string>)
    ensures Prefixed(a, Prefixed(b, r)) == Prefixed(a + b, r)
  {
    if r.Ok? {
      assert a + (b + r.value) == (a + b) + r.value;
    }
  }

  /** `source` with every whitespace character removed. */
  function Strip(s: string): string
    decreases |s|
  {
    if |s| == 0 then []
    else (if IsWhitespace(s[0]) then [] else [s[0]]) + Strip(s[1..])
  }

  /** The texts of `ts`, concatenated. */
  function Texts(ts: seq<Token>): string
    decreases |ts|
  {
    if |ts| == 0 then [] else ts[0].text + Texts(ts[1..])
  }

  lemma {:induction false} StripConcat(a: string, b: string)
    ensures Strip(a + b) == Strip(a) + Strip(b)
    decreases |a|
  {
    if |a| > 0 {
      assert (a + b)[1..] == a[1..] + b;
      StripConcat(a[1..], b);
    } else {
      assert a + b == b;
    }
  }

  lemma {:induction false} StripAllWhitespace(s: string)
    ensures Strip(s) == [] <==> forall i :: 0 <= i < |s| ==> IsWhitespace(s[i])
    decreases |s|
  {
    if |s| > 0 {
      StripAllWhitespace(s[1..]);
      if forall i :: 0 <= i < |s| ==> IsWhitespace(s[i]) {
        assert forall i :: 0 <= i < |s[1..]| ==> IsWhitespace(s[1..][i]) by {
          forall i | 0 <= i < |s[1..]| ensures IsWhitespace(s[1..][i]) {
            assert s[1..][i] == s[i + 1];
          }
        }
      }
      if Strip(s) == [] {
        forall i | 0 <= i < |s| ensures IsWhitespace(s[i]) {
          if i > 0 { assert s[i] == s[1..][i - 1]; }
        }
      }
    }
  }

  lemma {:induction false} StripNoWhitespace(s: string)
    requires forall i :: 0 <= i < |s| ==> !IsWhitespace(s[i])
    ensures Strip(s) == s
    decreases |s|
  {
    if |s| > 0 {
      StripNoWhitespace(s[1..]);
      assert [s[0]] + s[1..] == s;
    }
  }

  /** Text that could be a numeral: a digit, or a sign and then a digit. */
  predicate LooksNumeric(text: string)
  {
    (|text| >= 1 && IsDigit(text[0])) || (|text| >= 2 && IsSign(text[0]) && IsDigit(text[1]))
  }

  predicate AllDigits(s: string) { forall i :: 0 <= i < |s| ==> IsDigit(s[i]) }

  /** The shape the text of a token of each kind has. A symbol never looks
      like a numeral: the number rule comes first. */
  predicate WellShaped(t: Token)
  {
    match t.kind
    case NumTok =>
      (|t.text| >= 1 && AllDigits(t.text))
      || (|t.text| >= 2 && IsSign(t.text[0]) && AllDigits(t.text[1..]))
    case SymTok =>
      && |t.text| >= 1 && IsSymStart(t.text[0])
      && (forall i :: 1 <= i < |t.text| ==> IsSymChar(t.text[i]))
      && !LooksNumeric(t.text)
    case TrueTok => t.text == "#t"
    case FalseTok => t.text == "#f"
    case LParen => t.text == "("
    case RParen => t.text == ")"
    case QuoteTok => t.text == "'"
    case DotTok => t.text == "."
    case Eoi => t.text == ""
  }

  /** The text a rule other than whitespace matches holds no whitespace. */
  lemma {:induction false} MatchedTextHasNoSpace(rule: Rule, s: string, n: nat)
    requires rule != Space && Match(rule, s) == Some(n)
    ensures forall k :: 0 <= k < n ==> !IsWhitespace(s[k])
  {
    if rule == NumRule {
      if |s| >= 2 && IsSign(s[0]) && IsDigit(s[1]) {
        forall k | 1 <= k < n ensures IsDigit(s[k]) {
          assert s[k] == s[1..][k - 1];
        }
      }
    } else if rule == SymRule {
      forall k | 1 <= k < n ensures IsSymChar(s[k]) {
        assert s[k] == s[1..][k - 1];
      }
    }
  }

  /** A number match is a numeral. */
  lemma {:induction false} NumMatchShape(s: string, n: nat)
    requires Match(NumRule, s) == Some(n)
    ensures WellShaped(Token(NumTok, s[..n]))
  {
    var text := s[..n];
    if |s| >= 2 && IsSign(s[0]) && IsDigit(s[1]) {
      forall k | 0 <= k < |text[1..]| ensures IsDigit(text[1..][k]) {
        assert text[1..][k] == s[1..][k];
      }
    } else {
      assert forall k :: 0 <= k < |text| ==> IsDigit(text[k]);
    }
  }

  /** A symbol match where the number rule failed does not look numeric. */
  lemma {:induction false} SymMatchShape(s: string, n: nat)
    requires Match(NumRule, s).None? && Match(SymRule, s) == Some(n)
    ensures WellShaped(Token(SymTok, s[..n]))
  {
    var text := s[..n];
    forall k | 1 <= k < |text| ensures IsSymChar(text[k]) {
      assert text[k] == s[1..][k - 1];
    }
    assert !LooksNumeric(text);
  }

  /** What a matching rule emits is well shaped, provided the number rule
      was tried before the symbol rule. */
  lemma {:induction false} RuleWellShaped(rule: Rule, s: string, n: nat)
    requires Match(rule, s) == Some(n)
    requires rule == SymRule ==> Match(NumRule, s).None?
    ensures forall k :: 0 <= k < |Emit(rule, s[..n])| ==> WellShaped(Emit(rule, s[..n])[k])
  {
    var text := s[..n];
    match rule
    case Space =>
    case NumRule => NumMatchShape(s, n);
    case SymRule => SymMatchShape(s, n);
    case TrueRule => assert text == "#t";
    case FalseRule => assert text == "#f";
    case LParenRule => assert text == "(";
    case RParenRule => assert text == ")";
    case QuoteRule => assert text == "'";
    case DotRule => assert text == ".";
  }

  /** One step of the scanner emits well-shaped tokens. */
  lemma {:induction false} StepWellShaped(s: string, i: nat, n: nat)
    requires FirstMatch(RULES, s) == Some((i, n))
    ensures forall k :: 0 <= k < |Emit(RULES[i], s[..n])| ==> WellShaped(Emit(RULES[i], s[..n])[k])
  {
    if RULES[i] == SymRule {
      assert i == 4;
      assert Match(RULES[1], s).None?;
    }
    RuleWellShaped(RULES[i], s, n);
  }

  /** One step of the scanner: the text of what it emits is the matched
      prefix with its whitespace removed. */
  lemma {:induction false} StepTexts(s: string, i: nat, n: nat)
    requires FirstMatch(RULES, s) == Some((i, n))
    ensures Texts(Emit(RULES[i], s[..n])) == Strip(s[..n])
  {
    var text := s[..n];
    var rule := RULES[i];
    if rule == Space {
      assert forall k :: 0 <= k < |text| ==> IsWhitespace(text[k]);
      StripAllWhitespace(text);
    } else {
      MatchedTextHasNoSpace(rule, s, n);
      StripNoWhitespace(text);
      assert Texts(Emit(rule, text)) == text + Texts([]);
    }
  }

  /** Every token the scanner emits is well shaped. */
  lemma {:induction false} ScanWellShaped(rest: string)
    requires Scan(rest).Ok?
    ensures forall k :: 0 <= k < |Scan(rest).value| ==> WellShaped(Scan(rest).value[k])
    decreases |rest|
  {
    if |rest| > 0 {
      var (i, n) := FirstMatch(RULES, rest).value;
      ScanWellShaped(rest[n..]);
      StepWellShaped(rest, i, n);
    }
  }

  /** The texts of the tokens, read in order, spell the source with its
      whitespace removed: nothing is dropped, duplicated or reordered. */
  lemma {:induction false} ScanSpellsSource(rest: string)
    requires Scan(rest).Ok?
    ensures Texts(Scan(rest).value) == Strip(rest)
    decreases |rest|
  {
    if |rest| > 0 {
      var (i, n) := FirstMatch(RULES, rest).value;
      var emitted, ts := Emit(RULES[i], rest[..n]), Scan(rest[n..]).value;
      ScanStep(rest, i, n);
      ScanSpellsSource(rest[n..]);
      StepTexts(rest, i, n);
      SpellsJoin(emitted, ts, rest, n);
    }
  }

  /** Tokens spelling the text before `n` followed by tokens spelling the
      text after it spell the whole text. */
  lemma {:induction false} SpellsJoin(a: seq<Token>, b: seq<Token>, s: string, n: nat)
    requires n <= |s| && Texts(a) == Strip(s[..n]) && Texts(b) == Strip(s[n..])
    ensures Texts(a + b) == Strip(s)
  {
    TextsConcat(a, b);
    StripConcat(s[..n], s[n..]);
    assert s[..n] + s[n..] == s;
  }

  lemma {:induction false} TextsConcat(a: seq<Token>, b: seq<Token>)
    ensures Texts(a + b) == Texts(a) + Texts(b)
    decreases |a|
  {
    if |a| > 0 {
      assert (a + b)[1..] == a[1..] + b;
      TextsConcat(a[1..], b);
    } else {
      assert a + b == b;
    }
  }

  /** Whitespace-only text, the empty text included, gives `[EOI]`. */
  lemma {:induction false} BlankGivesOnlyEoi(source: string)
    requires forall i :: 0 <= i < |source| ==> IsWhitespace(source[i])
    ensures Tokenize(source) == Ok([EOI_TOKEN])
  {
    if |source| > 0 {
      assert Match(Space, source) == Some(|source|);
      assert FirstMatch(RULES, source) == Some((0 as nat, |source| as nat));
      assert source[|source|..] == [];
      assert Scan(source[|source|..]) == Ok([]);
      assert Emit(RULES[0], source[..|source|]) == [];
      var none: seq<Token> := [];
      assert none + none == none;
      assert Scan(source) == Ok(none + none);
    }
    assert Scan(source) == Ok([]);
    assert [] + [EOI_TOKEN] == [EOI_TOKEN];
  }

  /** `tokenize` answers `[EOI]` exactly for empty or whitespace-only text. */
  lemma {:induction false} BlankIffOnlyEoi(source: string)
    ensures Tokenize(source) == Ok([EOI_TOKEN]) <==> forall i :: 0 <= i < |source| ==> IsWhitespace(source[i])
  {
    StripAllWhitespace(source);
    if forall i :: 0 <= i < |source| ==> IsWhitespace(source[i]) {
      BlankGivesOnlyEoi(source);
    }
    if Tokenize(source) == Ok([EOI_TOKEN]) {
      var ts := Scan(source).value;
      assert |ts + [EOI_TOKEN]| == 1;
      assert ts == [];
      ScanSpellsSource(source);
      assert Strip(source) == Texts([]) == [];
    }
  }

  /** No rule matches at the front of `s`. */
  predicate NoRuleMatches(s: string)
  {
    forall j :: 0 <= j < |RULES| ==> Match(RULES[j], s).None?
  }

  /** A character that starts whitespace, a number or a symbol is matched
      by some rule. */
  lemma {:induction false} ClassStartMatches(s: string)
    requires |s| > 0 && (IsWhitespace(s[0]) || IsDigit(s[0]) || IsSymStart(s[0]))
    ensures !NoRuleMatches(s)
  {
    if IsWhitespace(s[0]) {
      assert Match(RULES[0], s).Some?;
    } else if IsDigit(s[0]) {
      assert Match(RULES[1], s).Some?;
    } else {
      assert Match(RULES[4], s).Some?;
    }
  }

  /** Every position inside the text a rule matched starts some rule's
      match as well: the matched characters after the first are
      whitespace, digits or symbol characters, and the second character of
      `#t` and `#f` starts a symbol. */
  lemma {:induction false} InsideMatchMatches(s: string, rule: Rule, n: nat, q: nat)
    requires Match(rule, s) == Some(n) && 0 < q < n
    ensures !NoRuleMatches(s[q..])
  {
    var c := s[q];
    assert s[q..][0] == c;
    match rule {
      case Space =>
        ClassStartMatches(s[q..]);
      case NumRule =>
        if |s| >= 2 && IsSign(s[0]) && IsDigit(s[1]) {
          assert s[1..][q - 1] == c;
        }
        ClassStartMatches(s[q..]);
      case SymRule =>
        assert s[1..][q - 1] == c;
        ClassStartMatches(s[q..]);
      case TrueRule =>
        ClassStartMatches(s[q..]);
      case FalseRule =>
        ClassStartMatches(s[q..]);
      case LParenRule => assert false;
      case RParenRule => assert false;
      case QuoteRule => assert false;
      case DotRule => assert false;
    }
  }

  /** The first position of `s` where no rule matches: every earlier
      position starts some rule's match. */
  predicate FirstUnmatched(s: string, p: int)
  {
    0 <= p < |s| && NoRuleMatches(s[p..]) && forall q :: 0 <= q < p ==> !NoRuleMatches(s[q..])
  }

  /** A failed scan names the character at the first position of the text
      where no rule matches. */
  lemma {:induction false} ScanErrorNamesCharacter(rest: string)
    requires Scan(rest).Err?
    ensures exists p :: FirstUnmatched(rest, p) && Scan(rest).error == Unrecognized(rest[p])
    decreases |rest|
  {
    match FirstMatch(RULES, rest)
    case None =>
      assert rest[0..] == rest;
      assert FirstUnmatched(rest, 0);
    case Some((i, n)) =>
      var tail := rest[n..];
      assert Scan(rest) == Scan(tail);
      ScanErrorNamesCharacter(tail);
      var p :| FirstUnmatched(tail, p) && Scan(tail).error == Unrecognized(tail[p]);
      FirstUnmatchedShift(rest, i, n, p);
  }

  /** A first unmatched position after the first step's match is the
      first unmatched position of the whole text. */
  lemma {:induction false} FirstUnmatchedShift(s: string, i: nat, n: nat, p: int)
    requires |s| > 0 && FirstMatch(RULES, s) == Some((i, n)) && FirstUnmatched(s[n..], p)
    ensures FirstUnmatched(s, n + p) && s[n..][p] == s[n + p]
  {
    var tail := s[n..];
    assert tail[p..] == s[n + p..];
    forall q | 0 <= q < n + p
      ensures !NoRuleMatches(s[q..])
    {
      if q < n {
        PositionMatched(s, i, n, q);
      } else {
        assert s[q..] == tail[q - n..];
      }
    }
  }

  /** Inside the first step's match, some rule matches at each position. */
  lemma {:induction false} PositionMatched(s: string, i: nat, n: nat, q: nat)
    requires |s| > 0 && FirstMatch(RULES, s) == Some((i, n)) && q < n
    ensures !NoRuleMatches(s[q..])
  {
    if q == 0 {
      assert s[0..] == s;
    } else {
      InsideMatchMatches(s, RULES[i], n, q);
    }
  }

  /** A successful scan leaves no position where no rule matches. */
  lemma {:induction false} ScanOkMatchesEverywhere(rest: string)
    requires Scan(rest).Ok?
    ensures forall p :: 0 <= p < |rest| ==> !NoRuleMatches(rest[p..])
    decreases |rest|
  {
    if |rest| > 0 {
      var (i, n) := FirstMatch(RULES, rest).value;
      var tail := rest[n..];
      ScanOkMatchesEverywhere(tail);
      forall p | 0 <= p < |rest|
        ensures !NoRuleMatches(rest[p..])
      {
        if p < n {
          PositionMatched(rest, i, n, p);
        } else {
          assert rest[p..] == tail[p - n..];
        }
      }
    }
  }

  /** The scan fails exactly when some position of the text starts no
      rule's match. */
  lemma {:induction false} ScanFailsIff(rest: string)
    ensures Scan(rest).Err? <==> exists p :: 0 <= p < |rest| && NoRuleMatches(rest[p..])
  {
    if Scan(rest).Err? {
      ScanErrorNamesCharacter(rest);
    } else {
      ScanOkMatchesEverywhere(rest);
    }
  }

  /** `Run` is the only length with its contract: every character before
      `n` satisfies `p` and the one at `n`, if any, does not. */
  lemma {:induction false} RunIs(s: string, p: char -> bool, n: nat)
    requires n <= |s| && (forall i :: 0 <= i < n ==> p(s[i]))
    requires n == |s| || !p(s[n])
    ensures Run(s, p) == n
  {
  }

  /** The converse of `FirstMatch`'s contract: when rule `i` matches and no
      earlier rule does, rule `i` is the one chosen. */
  lemma {:induction false} FirstMatchIsFirst(rules: seq<Rule>, s: string, i: nat, n: nat)
    requires i < |rules| && Match(rules[i], s) == Some(n)
    requires forall j :: 0 <= j < i ==> Match(rules[j], s).None?
    ensures FirstMatch(rules, s) == Some((i, n))
    decreases |rules|
  {
    if i > 0 {
      assert forall j :: 0 <= j < i - 1 ==> rules[1..][j] == rules[j + 1];
      FirstMatchIsFirst(rules[1..], s, i - 1, n);
    }
  }

  /** One step of the scanner: the tokens of the matched prefix, then the
      tokens of the rest. */
  lemma {:induction false} ScanStep(s: string, i: nat, n: nat)
    requires |s| > 0 && FirstMatch(RULES, s) == Some((i, n))
    ensures Scan(s) == Prefixed(Emit(RULES[i], s[..n]), Scan(s[n..]))
  {
  }

  /** A number with a sign needs a digit right after the sign. */
  predicate SignedNumberAhead(s: string)
  {
    |s| >= 2 && IsSign(s[0]) && IsDigit(s[1])
  }

  /** The character classes the rules start with do not overlap. */
  lemma {:induction false} ClassesDisjoint(c: char)
    ensures IsWhitespace(c) ==> !IsDigit(c) && !IsSymStart(c)
    ensures IsWhitespace(c) ==> c != '#' && c != '(' && c != ')' && c != '\'' && c != '.'
    ensures IsDigit(c) ==> !IsSymStart(c) && c != '#'
    ensures IsSymStart(c) ==> c != '#' && c != '(' && c != ')' && c != '\'' && c != '.'
    ensures IsSign(c) ==> IsSymStart(c) && !IsDigit(c)
  {
  }

  /** Whitespace in front is skipped by the first rule. */
  lemma {:induction false} FrontWhitespace(s: string)
    requires |s| > 0 && IsWhitespace(s[0])
    ensures FirstMatch(RULES, s) == Some((0, Run(s, IsWhitespace)))
  {
    FirstMatchIsFirst(RULES, s, 0, Run(s, IsWhitespace));
  }

  /** Whitespace does not match when the front is not whitespace. */
  lemma {:induction false} NoSpaceMatch(s: string)
    requires |s| > 0 && !IsWhitespace(s[0])
    ensures Match(Space, s) == None
  {
    assert Run(s, IsWhitespace) == 0;
  }

  /** A digit starts a number, which runs over the digits after it. */
  lemma {:induction false} FrontDigit(s: string)
    requires |s| > 0 && IsDigit(s[0])
    ensures FirstMatch(RULES, s) == Some((1, Run(s, IsDigit)))
  {
    ClassesDisjoint(s[0]);
    NoSpaceMatch(s);
    assert RULES[0] == Space && RULES[1] == NumRule;
    FirstMatchIsFirst(RULES, s, 1, Run(s, IsDigit));
  }

  /** A sign followed by a digit starts a number too; the number rule comes
      before the symbol rule, so `-42` is a number and not a symbol. */
  lemma {:induction false} FrontSignedNumber(s: string)
    requires SignedNumberAhead(s)
    ensures FirstMatch(RULES, s) == Some((1, (1 + Run(s[1..], IsDigit)) as nat))
  {
    ClassesDisjoint(s[0]);
    NoSpaceMatch(s);
    assert RULES[0] == Space && RULES[1] == NumRule;
    FirstMatchIsFirst(RULES, s, 1, 1 + Run(s[1..], IsDigit));
  }

  /** `#t` and `#f` are the boolean literals. */
  lemma {:induction false} FrontBoolean(s: string)
    requires |s| >= 2 && s[0] == '#' && (s[1] == 't' || s[1] == 'f')
    ensures FirstMatch(RULES, s) == Some((if s[1] == 't' then 2 else 3, 2))
  {
    NoSpaceMatch(s);
    assert RULES[0] == Space && RULES[1] == NumRule && RULES[2] == TrueRule && RULES[3] == FalseRule;
    assert Match(NumRule, s) == None;
    assert Match(TrueRule, s) == if s[1] == 't' then Some(2) else None;
    FirstMatchIsFirst(RULES, s, if s[1] == 't' then 2 else 3, 2);
  }

  /** A symbol character that does not start a signed number starts a
      symbol, which runs over every symbol character and digit after it. */
  lemma {:induction false} FrontSymbol(s: string)
    requires |s| > 0 && IsSymStart(s[0]) && !SignedNumberAhead(s)
    ensures FirstMatch(RULES, s) == Some((4, (1 + Run(s[1..], IsSymChar)) as nat))
  {
    ClassesDisjoint(s[0]);
    NoSpaceMatch(s);
    assert RULES[0] == Space && RULES[1] == NumRule && RULES[2] == TrueRule && RULES[3] == FalseRule && RULES[4] == SymRule;
    assert Match(NumRule, s) == None;
    assert Match(TrueRule, s) == None;
    assert Match(FalseRule, s) == None;
    FirstMatchIsFirst(RULES, s, 4, 1 + Run(s[1..], IsSymChar));
  }

  /** A whole symbol in front of a character that cannot continue it is
      matched exactly by the symbol rule. */
  lemma {:induction false} FrontWholeSymbol(text: string, rest: string)
    requires |text| > 0 && IsSymStart(text[0]) && !SignedNumberAhead(text + rest)
    requires forall i :: 1 <= i < |text| ==> IsSymChar(text[i])
    requires |rest| == 0 || !IsSymChar(rest[0])
    ensures FirstMatch(RULES, text + rest) == Some((4 as nat, |text|))
  {
    var s := text + rest;
    RunIs(s[1..], IsSymChar, |text| - 1);
    FrontSymbol(s);
  }

  /** The one-character tokens `(`, `)`, `'` and `.`. */
  lemma {:induction false} FrontPunctuation(s: string)
    requires |s| > 0 && (s[0] == '(' || s[0] == ')' || s[0] == '\'' || s[0] == '.')
    ensures FirstMatch(RULES, s)
            == Some((if s[0] == '(' then 5 else if s[0] == ')' then 6 else if s[0] == '\'' then 7 else 8, 1))
  {
    var i := if s[0] == '(' then 5 else if s[0] == ')' then 6 else if s[0] == '\'' then 7 else 8;
    assert !IsWhitespace(s[0]) && !IsDigit(s[0]) && !IsSymStart(s[0]);
    NoSpaceMatch(s);
    forall j | 0 <= j < i
      ensures Match(RULES[j], s).None?
    {
    }
    FirstMatchIsFirst(RULES, s, i, 1);
  }

  /** No rule matches exactly when the front character starts none of the
      above. */
  lemma {:induction false} FrontNothing(s: string)
    requires |s| > 0
    ensures FirstMatch(RULES, s).None? <==>
              && !IsWhitespace(s[0]) && !IsDigit(s[0]) && !IsSymStart(s[0])
              && s[0] != '(' && s[0] != ')' && s[0] != '\'' && s[0] != '.'
              && !(|s| >= 2 && s[0] == '#' && (s[1] == 't' || s[1] == 'f'))
  {
    if IsWhitespace(s[0]) {
      FrontWhitespace(s);
    } else if IsDigit(s[0]) {
      FrontDigit(s);
    } else if SignedNumberAhead(s) {
      FrontSignedNumber(s);
    } else if IsSymStart(s[0]) {
      FrontSymbol(s);
    } else if s[0] == '(' || s[0] == ')' || s[0] == '\'' || s[0] == '.' {
      FrontPunctuation(s);
    } else if |s| >= 2 && s[0] == '#' && (s[1] == 't' || s[1] == 'f') {
      FrontBoolean(s);
    } else {
      NoSpaceMatch(s);
      assert RULES == [Space, NumRule, TrueRule, FalseRule, SymRule, LParenRule, RParenRule, QuoteRule, DotRule];
      assert Match(NumRule, s) == None;
      assert Match(TrueRule, s) == None;
      assert Match(FalseRule, s) == None;
      assert Match(SymRule, s) == None;
      assert NoRuleMatches(s);
    }
  }

  /** Where no rule matches, the tokenizer stops with the error naming the
      character there. */
  lemma {:induction false} TokenizeStops(s: string)
    requires |s| > 0 && FirstMatch(RULES, s).None?
    ensures Tokenize(s) == Err(Unrecognized(s[0]))
  {
  }
}
