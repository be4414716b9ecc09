/**
 Properties of the scanner, stated against definitions that do not mention
 the scanner: the per-kind spellings, a grammar of blank text, and shape
 predicates for number and identifier lexemes.  `ScanTokensOutput`,
 `LastStep`, `TwoStepSource` and `SingleTokenSource` are not such properties:
 they unfold `Scan` and `ScanTokens` for the worked examples.
 */
module ScannerProperties {
  import opened Tokens
  import opened Cursor
  import opened Scanner

  // ---------------------------------------------------------------------------
  // Reference definitions
  // ---------------------------------------------------------------------------

  /** The characters the main dispatch discards. */
  predicate IsWhitespace(c: char) {
    c == ' ' || c == '\r' || c == '\t' || c == '\n'
  }

  /** Lead characters the main dispatch handles; every other character is
      reported as unexpected. */
  predicate Dispatched(c: char) {
    c in "(){},.-+;*!=<>/\"" || IsWhitespace(c) || IsDigit(c) || IsAlpha(c)
  }

  /** Text made only of whitespace and `//` comments. */
  predicate Blank(s: string)
    decreases |s|
  {
    || |s| == 0
    || (IsWhitespace(s[0]) && Blank(s[1..]))
    || (|s| >= 2 && s[0] == '/' && s[1] == '/' && InComment(s[2..]))
  }

  /** The rest of a `//` comment, followed by blank text.  A comment ends at
      the line feed, which itself is blank text. */
  predicate InComment(s: string)
    decreases |s|
  {
    || |s| == 0
    || (s[0] == '\n' && Blank(s[1..]))
    || (s[0] != '\n' && InComment(s[1..]))
  }

  predicate AllDigits(s: string) {
    forall i | 0 <= i < |s| :: IsDigit(s[i])
  }

  /** `digits` or `digits.digits`. */
  predicate NumberLexeme(s: string) {
    || (|s| > 0 && AllDigits(s))
    || exists d | 0 < d < |s| - 1 :: s[d] == '.' && AllDigits(s[..d]) && AllDigits(s[d + 1..])
  }

  /** A letter or underscore followed by letters, digits and underscores. */
  predicate IdentifierLexeme(s: string) {
    && |s| > 0
    && IsAlpha(s[0])
    && forall i | 0 <= i < |s| :: IsAlphaNumeric(s[i])
  }

  /** `p` occurs in `src` at offset `at`. */
  predicate OccursAt(p: string, src: string, at: nat) {
    at + |p| <= |src| && src[at..at + |p|] == p
  }

  // ---------------------------------------------------------------------------
  // One iteration of the main loop
  // ---------------------------------------------------------------------------

  /** Every two-character operator is a one-character operator followed by `=`. */
  lemma TwoCharSpellings(k: TokenType)
    requires IsPunctuation(k) && |Spelling(k)| == 2
    ensures Spelling(k)[0] in "!=<>" && Spelling(k)[1] == '='
  {
  }

  /** Punctuation and operators: the token's kind is the one spelled by the
      consumed text, and no longer operator spelling occurs at the lexeme start
      (maximal munch); `!`, `=`, `<`, `>` take a second character exactly when
      it is `=`, and `match` never moves past the end of input. */
  lemma Punctuation(src: string, start: nat, line: nat)
    requires start < |src|
    requires src[start] in "(){},.-+;*!=<>" || (src[start] == '/' && !(start + 1 < |src| && src[start + 1] == '/'))
    ensures var s := ScanToken(src, start, line);
      && s.line == line
      && s.action.Add?
      && s.action.literal == NoLit
      && IsPunctuation(s.action.kind)
      && Spelling(s.action.kind) == src[start..s.current]
      && (s.current == start + 2 <==> src[start] in "!=<>" && start + 1 < |src| && src[start + 1] == '=')
      && forall k | IsPunctuation(k) && |Spelling(k)| > s.current - start :: !OccursAt(Spelling(k), src, start)
  {
    var s := ScanToken(src, start, line);
    var c := src[start];
    if c in "!=<>" {
      var next := Match(src, start + 1, '=');
      assert s.current == next;
      if next == start + 2 {
        assert src[start..s.current] == [c, '='];
      } else {
        assert src[start..s.current] == [c];
      }
    } else {
      assert s.current == start + 1;
      assert src[start..s.current] == [c];
    }
    forall k | IsPunctuation(k) && |Spelling(k)| > s.current - start
      ensures !OccursAt(Spelling(k), src, start)
    {
      TwoCharSpellings(k);
    }
  }

  /** `//` starts a comment: nothing is emitted and the cursor stops at the next
      line feed, which is left for the next iteration, or at the end of input. */
  lemma Comment(src: string, start: nat, line: nat)
    requires start + 1 < |src| && src[start] == '/' && src[start + 1] == '/'
    ensures var s := ScanToken(src, start, line);
      && s == Step(CommentEnd(src, start + 2), line, Skip)
      && start + 2 <= s.current <= |src|
      && (forall i | start + 2 <= i < s.current :: src[i] != '\n')
      && (s.current == |src| || src[s.current] == '\n')
  {
  }

  /** An iteration emits nothing exactly at whitespace, a line feed or a
      comment; whitespace consumes one character and only a line feed moves
      the line counter. */
  lemma SkipCases(src: string, start: nat, line: nat)
    requires start < |src|
    ensures ScanToken(src, start, line).action.Skip?
      <==> IsWhitespace(src[start]) || (src[start] == '/' && start + 1 < |src| && src[start + 1] == '/')
    ensures IsWhitespace(src[start]) ==>
      ScanToken(src, start, line) == Step(start + 1, if src[start] == '\n' then line + 1 else line, Skip)
  {
  }

  /** Exactly the characters outside the dispatch table are reported as
      unexpected; such a character is consumed alone, and scanning resumes
      right after it with the same line counter. */
  lemma UnexpectedCharacterResumes(src: string, start: nat, line: nat)
    requires start < |src|
    ensures ScanToken(src, start, line).action == Report(UnexpectedCharacter(src[start]))
      <==> !Dispatched(src[start])
    ensures !Dispatched(src[start]) ==>
      var rest := Scan(src, start + 1, line);
      Scan(src, start, line)
        == Run(rest.tokens, rest.spans, [Diagnostic(line, UnexpectedCharacter(src[start]))] + rest.diagnostics, rest.line)
  {
    if !Dispatched(src[start]) {
      assert ScanToken(src, start, line) == Step(start + 1, line, Report(UnexpectedCharacter(src[start])));
    }
  }

  /** An iteration reports exactly an unexpected character or an opening quote
      that no closing quote follows. */
  lemma ReportCases(src: string, start: nat, line: nat)
    requires start < |src|
    ensures ScanToken(src, start, line).action.Report? <==>
      !Dispatched(src[start]) || (src[start] == '"' && forall i | start < i < |src| :: src[i] != '"')
  {
  }

  /** The one position of a number lexeme that is not a digit is its dot, which
      has digits on both sides. */
  lemma NonDigitIsTheDot(t: string, p: nat)
    requires NumberLexeme(t) && p < |t| && !IsDigit(t[p])
    ensures 0 < p < |t| - 1 && t[p] == '.' && AllDigits(t[..p]) && AllDigits(t[p + 1..])
  {
    var d :| 0 < d < |t| - 1 && t[d] == '.' && AllDigits(t[..d]) && AllDigits(t[d + 1..]);
  }

  /** Two distinct non-digit positions rule out number shape. */
  lemma TwoNonDigits(t: string, p: nat, q: nat)
    requires p < q < |t| && !IsDigit(t[p]) && !IsDigit(t[q])
    ensures !NumberLexeme(t)
  {
    if NumberLexeme(t) {
      NonDigitIsTheDot(t, p);
    }
  }

  /** A digit followed by the digit loop is a run of digits. */
  lemma LeadingDigits(src: string, start: nat)
    requires start < |src| && IsDigit(src[start])
    ensures AllDigits(src[start..DigitsEnd(src, start + 1)])
  {
  }

  /** The number loop, from just past a leading digit, stops at the end of
      the longest prefix with number shape. */
  lemma NumberEndIsLongest(src: string, start: nat)
    requires start < |src| && IsDigit(src[start])
    ensures var end := NumberEnd(src, start + 1);
      && NumberLexeme(src[start..end])
      && forall k | end < k <= |src| :: !NumberLexeme(src[start..k])
  {
    var whole := DigitsEnd(src, start + 1);
    LeadingDigits(src, start);
    if Peek(src, whole) == '.' && IsDigit(PeekNext(src, whole)) {
      FractionIsLongest(src, start, whole);
    } else {
      WholeIsLongest(src, start, whole);
    }
  }

  lemma FractionIsLongest(src: string, start: nat, whole: nat)
    requires start < whole < |src| - 1 && AllDigits(src[start..whole])
    requires src[whole] == '.' && IsDigit(src[whole + 1])
    ensures var end := DigitsEnd(src, whole + 1);
      && NumberLexeme(src[start..end])
      && forall k | end < k <= |src| :: !NumberLexeme(src[start..k])
  {
    var end := DigitsEnd(src, whole + 1);
    var lexeme := src[start..end];
    var d := whole - start;
    assert lexeme[d] == '.';
    assert lexeme[..d] == src[start..whole];
    assert lexeme[d + 1..] == src[whole + 1..end];
    forall k | end < k <= |src| ensures !NumberLexeme(src[start..k]) {
      TwoNonDigits(src[start..k], whole - start, end - start);
    }
  }

  lemma WholeIsLongest(src: string, start: nat, whole: nat)
    requires start < whole <= |src| && AllDigits(src[start..whole])
    requires whole == |src| || !IsDigit(src[whole])
    requires !(whole + 1 < |src| && src[whole] == '.' && IsDigit(src[whole + 1]))
    ensures NumberLexeme(src[start..whole])
    ensures forall k | whole < k <= |src| :: !NumberLexeme(src[start..k])
  {
    forall k | whole < k <= |src| ensures !NumberLexeme(src[start..k]) {
      var t := src[start..k];
      if NumberLexeme(t) {
        NonDigitIsTheDot(t, whole - start);
      }
    }
  }

  /** Numbers: the lexeme has number shape, it is the longest prefix of the rest
      of the source with that shape, and the literal keeps its text. */
  lemma NumberToken(src: string, start: nat, line: nat)
    requires start < |src| && IsDigit(src[start])
    ensures var s := ScanToken(src, start, line);
      && s.line == line
      && s.action == Add(Number, Num(src[start..s.current]))
      && NumberLexeme(src[start..s.current])
      && forall k | s.current < k <= |src| :: !NumberLexeme(src[start..k])
  {
    var end := NumberEnd(src, start + 1);
    assert ScanToken(src, start, line) == Step(end, line, Add(Number, Num(src[start..end])));
    NumberEndIsLongest(src, start);
  }

  /** Identifiers: the lexeme is the maximal identifier-shaped run, and its kind
      is a keyword exactly when the whole lexeme is that keyword's spelling. */
  lemma IdentifierToken(src: string, start: nat, line: nat)
    requires start < |src| && IsAlpha(src[start])
    ensures var s := ScanToken(src, start, line);
      var text := src[start..s.current];
      && s.line == line
      && s.action.Add?
      && s.action.literal == NoLit
      && IdentifierLexeme(text)
      && (s.current == |src| || !IsAlphaNumeric(src[s.current]))
      && ((IsKeyword(s.action.kind) && Spelling(s.action.kind) == text)
          || (s.action.kind == Identifier && forall k | IsKeyword(k) :: Spelling(k) != text))
  {
    var end := AlphaNumericEnd(src, start + 1);
    assert ScanToken(src, start, line) == Step(end, line, Add(IdentifierKind(src[start..end]), NoLit));
  }

  /** The string step on a terminated string stops just past the first
      closing quote. */
  lemma StringStepTerminated(src: string, start: nat, line: nat, close: nat)
    requires start < close < |src| && src[close] == '"'
    requires forall i | start < i < close :: src[i] != '"'
    ensures StringStep(src, start, line)
      == Step(close + 1, line + CountNewlines(src[start + 1..close]), Add(String, Str(src[start + 1..close])))
    ensures src[start] == '"' ==>
      StepTokens(src, start, StringStep(src, start, line)) == [Token(String, ['"'] + src[start + 1..close] + ['"'], Str(src[start + 1..close]), line + CountNewlines(src[start + 1..close]))]
  {
    var body := StringEnd(src, start + 1, line);
    assert body.current == close;
    assert src[start..close + 1] == [src[start]] + src[start + 1..close] + ['"'];
  }

  /** A terminated string: the lexeme runs from the opening quote through the
      first closing quote, the literal is exactly the text between them, and
      the token's line is the counter at the closing quote. */
  lemma TerminatedString(src: string, start: nat, line: nat, close: nat)
    requires start < close < |src| && src[start] == '"' && src[close] == '"'
    requires forall i | start < i < close :: src[i] != '"'
    ensures ScanToken(src, start, line)
      == Step(close + 1, line + CountNewlines(src[start + 1..close]), Add(String, Str(src[start + 1..close])))
    ensures StepTokens(src, start, ScanToken(src, start, line))
      == [Token(String, ['"'] + src[start + 1..close] + ['"'], Str(src[start + 1..close]), line + CountNewlines(src[start + 1..close]))]
  {
    StringStepTerminated(src, start, line, close);
    assert ScanToken(src, start, line) == StringStep(src, start, line);
  }

  /** An unterminated string reports one diagnostic at the counter's value at
      the end of input, emits no token, and ends the scan. */
  lemma UnterminatedStringEndsScan(src: string, start: nat, line: nat)
    requires start < |src| && src[start] == '"'
    requires forall i | start < i < |src| :: src[i] != '"'
    ensures var last := line + CountNewlines(src[start..]);
      && ScanToken(src, start, line) == Step(|src|, last, Report(UnterminatedString))
      && Scan(src, start, line) == Run([], [], [Diagnostic(last, UnterminatedString)], last)
  {
    var body := StringEnd(src, start + 1, line);
    assert body.current == |src|;
    ScanTokenLine(src, start, line);
    assert src[start..] == src[start..|src|];
  }

  // ---------------------------------------------------------------------------
  // The whole pass
  // ---------------------------------------------------------------------------

  /** Each token of `r`, a run that started at `start` with counter `line`,
      records that counter plus the line feeds up to the end of its lexeme. */
  predicate LinesAtEnds(src: string, start: nat, line: nat, r: Run)
    requires start <= |src|
    requires |r.spans| == |r.tokens|
    requires forall i | 0 <= i < |r.spans| :: start <= r.spans[i].end <= |src|
  {
    forall i | 0 <= i < |r.tokens| :: r.tokens[i].line == line + CountNewlines(src[start..r.spans[i].end])
  }

  /** One emission step keeps the token lines equal to the initial line plus
      the line feeds up to the end of each lexeme. */
  lemma EmitLines(src: string, start: nat, line: nat, s: Step, rest: Run)
    requires start < s.current <= |src|
    requires s.line == line + CountNewlines(src[start..s.current])
    requires |rest.spans| == |rest.tokens|
    requires forall j | 0 <= j < |rest.tokens| :: s.current <= rest.spans[j].start < rest.spans[j].end <= |src|
    requires LinesAtEnds(src, s.current, s.line, rest)
    ensures var r := Emit(src, start, s, rest);
      |r.spans| == |r.tokens| && LinesAtEnds(src, start, line, r)
  {
    var r := Emit(src, start, s, rest);
    var first := if s.action.Add? then 1 else 0;
    forall i | first <= i < |r.tokens|
      ensures r.tokens[i].line == line + CountNewlines(src[start..r.spans[i].end])
    {
      var j := i - first;
      assert r.tokens[i] == rest.tokens[j] && r.spans[i] == rest.spans[j];
      CountNewlinesSplit(src, start, s.current, rest.spans[j].end);
    }
  }

  /** Every token records the line counter at the end of its lexeme: the
      initial line plus the line feeds before that point. */
  lemma {:induction false} TokenLines(src: string, start: nat, line: nat)
    requires start <= |src|
    ensures WellFormedRun(src, start, Scan(src, start, line))
    ensures LinesAtEnds(src, start, line, Scan(src, start, line))
    decreases |src| - start
  {
    ScanWellFormed(src, start, line);
    if start < |src| {
      var s := ScanToken(src, start, line);
      TokenLines(src, s.current, s.line);
      ScanTokenLine(src, start, line);
      ScanUnfold(src, start, line, s);
      EmitLines(src, start, line, s, Scan(src, s.current, s.line));
    }
  }

  /** The rest of a comment is blank iff the text from the comment's end is. */
  lemma {:induction false} CommentTail(src: string, k: nat)
    requires k <= |src|
    ensures InComment(src[k..]) <==> Blank(src[CommentEnd(src, k)..])
    decreases |src| - k
  {
    if k < |src| {
      assert src[k..][1..] == src[k + 1..];
      if src[k] != '\n' {
        CommentTail(src, k + 1);
      }
    }
  }

  /** Blank text, read from an offset: a whitespace character or the start of
      a comment, then the rest. */
  lemma BlankUnfold(src: string, start: nat)
    requires start < |src|
    ensures Blank(src[start..]) <==>
      || (IsWhitespace(src[start]) && Blank(src[start + 1..]))
      || (src[start] == '/' && start + 1 < |src| && src[start + 1] == '/' && InComment(src[start + 2..]))
  {
    assert src[start..][1..] == src[start + 1..];
    if start + 1 < |src| {
      assert src[start..][2..] == src[start + 2..];
    }
  }

  /** One step of the blank-text induction: a step that skips exactly
      whitespace and comments, followed by a rest that is empty exactly on
      blank text, is empty exactly on blank text. */
  lemma BlankStep(src: string, start: nat, s: Step, rest: Run)
    requires start < s.current <= |src|
    requires s.action.Skip?
      <==> IsWhitespace(src[start]) || (src[start] == '/' && start + 1 < |src| && src[start + 1] == '/')
    requires IsWhitespace(src[start]) ==> s.current == start + 1
    requires src[start] == '/' && start + 1 < |src| && src[start + 1] == '/' ==> s.current == CommentEnd(src, start + 2)
    requires Blank(src[s.current..]) <==> rest.tokens == [] && rest.diagnostics == []
    ensures var r := Emit(src, start, s, rest);
      Blank(src[start..]) <==> r.tokens == [] && r.diagnostics == []
  {
    BlankUnfold(src, start);
    if src[start] == '/' && start + 1 < |src| && src[start + 1] == '/' {
      CommentTail(src, start + 2);
    }
  }

  /** From any offset, the scan emits no token and no diagnostic exactly when
      the rest of the source is blank. */
  lemma {:induction false} BlankScan(src: string, start: nat, line: nat)
    requires start <= |src|
    ensures var r := Scan(src, start, line);
      Blank(src[start..]) <==> r.tokens == [] && r.diagnostics == []
    decreases |src| - start
  {
    if start < |src| {
      var s := ScanToken(src, start, line);
      var rest := Scan(src, s.current, s.line);
      BlankScan(src, s.current, s.line);
      ScanUnfold(src, start, line, s);
      SkipCases(src, start, line);
      if src[start] == '/' && start + 1 < |src| && src[start + 1] == '/' {
        Comment(src, start, line);
      }
      BlankStep(src, start, s, rest);
    }
  }

  /** The output of a whole scan: the main loop's tokens, then end of input,
      and the main loop's diagnostics. */
  lemma ScanTokensOutput(src: string)
    ensures var run := Scan(src, 0, 1);
      && ScanTokens(src).tokens == run.tokens + [EofToken(run.line)]
      && ScanTokens(src).diagnostics == run.diagnostics
      && run.line == 1 + CountNewlines(src)
  {
    assert src[0..] == src;
  }

  /** The source is blank (only whitespace and comments) iff scanning yields
      the end-of-input token alone and no diagnostic. */
  lemma BlankSource(src: string)
    ensures Blank(src) <==> ScanTokens(src) == Scanned([EofToken(1 + CountNewlines(src))], [])
  {
    ScanTokensOutput(src);
    BlankScan(src, 0, 1);
    assert src[0..] == src;
  }

  /** The last iteration of the main loop: what it emits is the rest of the run. */
  lemma LastStep(src: string, start: nat, line: nat)
    requires start < |src| && ScanToken(src, start, line).current == |src|
    ensures var s := ScanToken(src, start, line);
      Scan(src, start, line) == Run(StepTokens(src, start, s), StepSpans(start, s), StepDiagnostics(s), s.line)
  {
    var s := ScanToken(src, start, line);
    ScanUnfold(src, start, line, s);
    assert Scan(src, s.current, s.line) == Run([], [], [], s.line);
  }

  /** A source consumed by two iterations scans to what they emit, in order,
      then end of input. */
  lemma TwoStepSource(src: string)
    requires 0 < |src| && ScanToken(src, 0, 1).current < |src|
    requires var s := ScanToken(src, 0, 1); ScanToken(src, s.current, s.line).current == |src|
    ensures var s1 := ScanToken(src, 0, 1);
      var s2 := ScanToken(src, s1.current, s1.line);
      ScanTokens(src) == Scanned(StepTokens(src, 0, s1) + StepTokens(src, s1.current, s2) + [EofToken(s2.line)],
                                 StepDiagnostics(s1) + StepDiagnostics(s2))
  {
    var s1 := ScanToken(src, 0, 1);
    ScanUnfold(src, 0, 1, s1);
    LastStep(src, s1.current, s1.line);
    ScanTokensOutput(src);
    assert StepTokens(src, 0, s1) + (StepTokens(src, s1.current, ScanToken(src, s1.current, s1.line)) + [])
      == StepTokens(src, 0, s1) + StepTokens(src, s1.current, ScanToken(src, s1.current, s1.line));
  }

  /** A source consumed by one iteration that emits a token scans to that
      token followed by end of input. */
  lemma SingleTokenSource(src: string, k: TokenType, literal: Literal)
    requires 0 < |src| && ScanToken(src, 0, 1) == Step(|src|, 1, Add(k, literal))
    ensures ScanTokens(src) == Scanned([Token(k, src, literal, 1), EofToken(1)], [])
  {
    assert src[0..|src|] == src;
    assert Scan(src, 0, 1) == Run([Token(k, src, literal, 1)], [Span(0, |src|)], [], 1);
  }

  lemma PunctuationLead(k: TokenType)
    requires IsPunctuation(k)
    ensures Spelling(k)[0] in "(){},.-+;*!=<>" || Spelling(k) == "/"
  {
  }

  lemma KeywordLetters(k: TokenType)
    requires IsKeyword(k)
    ensures IsAlpha(Spelling(k)[0])
    ensures forall i | 0 <= i < |Spelling(k)| :: IsAlphaNumeric(Spelling(k)[i])
  {
  }

  /** Round trip: the spelling of any punctuation or operator kind scans to
      exactly one token of that kind, then end of input. */
  lemma PunctuationRoundTrip(k: TokenType)
    requires IsPunctuation(k)
    ensures ScanTokens(Spelling(k)) == Scanned([Token(k, Spelling(k), NoLit, 1), EofToken(1)], [])
  {
    var src := Spelling(k);
    PunctuationLead(k);
    Punctuation(src, 0, 1);
    var s := ScanToken(src, 0, 1);
    if s.current < |src| {
      assert OccursAt(Spelling(k), src, 0);
    }
    assert src[0..s.current] == src;
    SpellingInjective(s.action.kind, k);
    SingleTokenSource(src, k, NoLit);
  }

  /** Round trip: the spelling of any keyword scans to exactly one token of
      that keyword's kind, never IDENTIFIER, then end of input. */
  lemma KeywordRoundTrip(k: TokenType)
    requires IsKeyword(k)
    ensures ScanTokens(Spelling(k)) == Scanned([Token(k, Spelling(k), NoLit, 1), EofToken(1)], [])
  {
    var src := Spelling(k);
    KeywordLetters(k);
    IdentifierToken(src, 0, 1);
    var s := ScanToken(src, 0, 1);
    assert src[0..s.current] == src;
    SpellingInjective(s.action.kind, k);
    SingleTokenSource(src, k, NoLit);
  }
}
