/**
 Concrete scans of small inputs, each derived from the general properties.
 */
module ScannerExamples {
  import opened Tokens
  import opened Cursor
  import opened Scanner
  import opened ScannerProperties

  /** `<=` is one LESS_EQUAL token, never LESS followed by EQUAL. */
  lemma LessEqualExample(src: string)
    requires src == "<="
    ensures ScanTokens(src) == Scanned([Token(LessEqual, "<=", NoLit, 1), EofToken(1)], [])
  {
    PunctuationRoundTrip(LessEqual);
  }

  /** A keyword is only recognised as a whole word: `classic` is an identifier. */
  lemma ClassicExample(src: string)
    requires src == "classic"
    ensures ScanTokens(src) == Scanned([Token(Identifier, "classic", NoLit, 1), EofToken(1)], [])
  {
    IdentifierToken(src, 0, 1);
    var s := ScanToken(src, 0, 1);
    assert s.current == |src|;
    assert src[0..|src|] == src;
    SingleTokenSource(src, Identifier, NoLit);
  }

  /** The two iterations over `123.`: the number stops before the dot. */
  lemma TrailingDotSteps(src: string)
    requires src == "123."
    ensures ScanToken(src, 0, 1) == Step(3, 1, Add(Number, Num("123")))
    ensures ScanToken(src, 3, 1) == Step(4, 1, Add(Dot, NoLit))
  {
    NumberToken(src, 0, 1);
    var s := ScanToken(src, 0, 1);
    assert src[0..3] == "123" && src[0..4] == "123.";
    assert NumberLexeme(src[0..3]);
    assert src[0..4][3] == '.' && !IsDigit(src[0..4][3]);
    assert s.current == 3;
  }

  /** A dot not followed by a digit is left out of the number: `123.` is
      NUMBER `123` then DOT. */
  lemma TrailingDotExample(src: string)
    requires src == "123."
    ensures ScanTokens(src) == Scanned(
      [Token(Number, "123", Num("123"), 1), Token(Dot, ".", NoLit, 1), EofToken(1)], [])
  {
    TrailingDotSteps(src);
    TwoStepSource(src);
    assert src[0..3] == "123" && src[3..4] == ".";
  }

  /** `123.45` is a single NUMBER token. */
  lemma FractionExample(src: string)
    requires src == "123.45"
    ensures ScanTokens(src) == Scanned([Token(Number, "123.45", Num("123.45"), 1), EofToken(1)], [])
  {
    NumberToken(src, 0, 1);
    var s := ScanToken(src, 0, 1);
    assert src[0..6] == src;
    assert src[3] == '.' && src[..3] == "123" && src[4..] == "45";
    assert NumberLexeme(src);
    assert s.current == 6;
    SingleTokenSource(src, Number, Num(src));
  }

  /** A quoted `abc` is one STRING token whose literal drops the quotes. */
  lemma StringExample(src: string)
    requires src == "\"abc\""
    ensures ScanTokens(src) == Scanned([Token(String, "\"abc\"", Str("abc"), 1), EofToken(1)], [])
  {
    assert src[1..4] == "abc";
    TerminatedString(src, 0, 1, 4);
    assert CountNewlines("abc") == 0;
    SingleTokenSource(src, String, Str("abc"));
  }

  /** An unterminated string emits no token and one diagnostic. */
  lemma UnterminatedExample(src: string)
    requires src == "\"abc"
    ensures ScanTokens(src) == Scanned([EofToken(1)], [Diagnostic(1, UnterminatedString)])
  {
    UnterminatedStringEndsScan(src, 0, 1);
    assert src[0..] == src;
    assert CountNewlines("\"abc") == 0;
    ScanTokensOutput(src);
  }

  /** The three iterations over `\n\n+`. */
  lemma LineTrackingSteps(src: string)
    requires src == "\n\n+"
    ensures ScanToken(src, 0, 1) == Step(1, 2, Skip)
    ensures ScanToken(src, 1, 2) == Step(2, 3, Skip)
    ensures ScanToken(src, 2, 3) == Step(3, 3, Add(Plus, NoLit))
  {
    SkipCases(src, 0, 1);
    SkipCases(src, 1, 2);
  }

  /** Line feeds advance the line counter: the PLUS in `\n\n+` is on line 3. */
  lemma LineTrackingExample(src: string)
    requires src == "\n\n+"
    ensures ScanTokens(src) == Scanned([Token(Plus, "+", NoLit, 3), EofToken(3)], [])
  {
    LineTrackingSteps(src);
    ScanUnfold(src, 0, 1, ScanToken(src, 0, 1));
    ScanUnfold(src, 1, 2, ScanToken(src, 1, 2));
    LastStep(src, 2, 3);
    ScanTokensOutput(src);
    assert src[2..3] == "+";
  }

  /** A character outside the dispatch table yields a diagnostic and no token. */
  lemma UnexpectedExample(src: string)
    requires src == "@"
    ensures ScanTokens(src) == Scanned([EofToken(1)], [Diagnostic(1, UnexpectedCharacter('@'))])
  {
    UnexpectedCharacterResumes(src, 0, 1);
    LastStep(src, 0, 1);
    ScanTokensOutput(src);
  }

  /** Whitespace and a comment alone yield only the end-of-input token. */
  lemma BlankExample(src: string)
    requires src == "//x\n "
    ensures ScanTokens(src) == Scanned([EofToken(2)], [])
  {
    assert src[2..][1..] == "\n ";
    assert InComment("\n ") by {
      assert "\n "[1..] == " ";
      assert " "[1..] == "";
    }
    assert Blank(src);
    BlankSource(src);
    assert src[1..] == "/x\n " && src[1..][1..] == "x\n " && src[1..][1..][1..] == "\n ";
    assert CountNewlines(src) == 1;
  }
}
