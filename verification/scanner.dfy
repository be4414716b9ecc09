/**
 The scanner: one iteration of the main loop (`ScanToken`), the whole
 left-to-right pass (`Scan`), and the public entry point (`ScanTokens`),
 which appends the end-of-input token.  Diagnostics are returned beside
 the tokens instead of being printed.
 */
module Scanner {
  import opened Tokens
  import opened Cursor

  /** What one iteration of the main loop does besides moving the cursor. */
  datatype Action =
    | Skip                                    // whitespace, line feed or comment
    | Add(kind: TokenType, literal: Literal)  // emits the lexeme [start, current)
    | Report(error: ErrorKind)                // calls the diagnostic sink

  /** The scan state after one iteration, and what it emitted. */
  datatype Step = Step(current: nat, line: nat, action: Action)

  /** Kind of an identifier-shaped lexeme: its keyword if the whole lexeme is
      in the reserved-word table, IDENTIFIER otherwise. */
  function IdentifierKind(text: string): (k: TokenType)
    ensures IsKeyword(k) ==> text == Spelling(k)
    ensures !IsKeyword(k) ==> k == Identifier && forall kw | IsKeyword(kw) :: Spelling(kw) != text
  {
    if text in Keywords then
      KeywordTable(text, Keywords[text]);
      Keywords[text]
    else
      assert forall kw | IsKeyword(kw) :: Spelling(kw) != text by {
        forall kw | IsKeyword(kw) ensures Spelling(kw) != text {
          KeywordTable(Spelling(kw), kw);
        }
      }
      Identifier
  }

  /** `string()`: the body up to the next double quote, then either the
      closing quote and a STRING token whose literal lies strictly between the
      quotes, or, at the end of input, the unterminated-string diagnostic.
      `start` is the offset of the opening quote. */
  function StringStep(src: string, start: nat, line: nat): (s: Step)
    requires start < |src|
    ensures start < s.current <= |src|
    ensures s.line >= line
    ensures s.action.Report? <==> forall i | start < i < |src| :: src[i] != '"'
    ensures s.action.Report? ==> s.action.error == UnterminatedString && s.current == |src|
    ensures !s.action.Report? ==>
      && start + 2 <= s.current
      && s.action == Add(String, Str(src[start + 1..s.current - 1]))
      && src[s.current - 1] == '"'
      && forall i | start < i < s.current - 1 :: src[i] != '"'
  {
    var body := StringEnd(src, start + 1, line);
    if IsAtEnd(src, body.current) then
      Step(body.current, body.line, Report(UnterminatedString))
    else
      Step(body.current + 1, body.line, Add(String, Str(src[start + 1..body.current])))
  }

  /** `number()`: the NUMBER token that starts with the digit at `start`;
      the literal keeps the lexeme's text. */
  function NumberStep(src: string, start: nat, line: nat): (s: Step)
    requires start < |src|
    ensures start < s.current <= |src|
    ensures s.line == line
    ensures s.action == Add(Number, Num(src[start..s.current]))
    ensures forall i | start < i < s.current :: IsDigit(src[i]) || (src[i] == '.' && i + 1 < s.current && IsDigit(src[i + 1]))
    ensures s.current == |src| || !IsDigit(src[s.current])
    ensures (forall i | start < i < s.current :: IsDigit(src[i])) ==> !(s.current + 1 < |src| && src[s.current] == '.' && IsDigit(src[s.current + 1]))
    ensures forall i, j | start < i < j < s.current :: src[i] == '.' ==> src[j] != '.'
  {
    var end := NumberEnd(src, start + 1);
    Step(end, line, Add(Number, Num(src[start..end])))
  }

  /** `identifier()`: the identifier or keyword token that starts with the
      letter at `start`. */
  function IdentifierStep(src: string, start: nat, line: nat): (s: Step)
    requires start < |src|
    ensures start < s.current <= |src|
    ensures s.line == line
    ensures s.action == Add(IdentifierKind(src[start..s.current]), NoLit)
    ensures forall i | start < i < s.current :: IsAlphaNumeric(src[i])
    ensures s.current == |src| || !IsAlphaNumeric(src[s.current])
  {
    var end := AlphaNumericEnd(src, start + 1);
    Step(end, line, Add(IdentifierKind(src[start..end]), NoLit))
  }

  /** One iteration of the main loop, starting a lexeme at `start`: consume
      the lead character and dispatch on it. */
  function ScanToken(src: string, start: nat, line: nat): (s: Step)
    requires start < |src|
    ensures start < s.current <= |src|
    ensures s.line >= line
    ensures s.action.Add? ==> s.action.kind != Eof
  {
    var c := src[start];
    var current := start + 1;
    match c
    case '(' => Step(current, line, Add(LeftParen, NoLit))
    case ')' => Step(current, line, Add(RightParen, NoLit))
    case '{' => Step(current, line, Add(LeftBrace, NoLit))
    case '}' => Step(current, line, Add(RightBrace, NoLit))
    case ',' => Step(current, line, Add(Comma, NoLit))
    case '.' => Step(current, line, Add(Dot, NoLit))
    case '-' => Step(current, line, Add(Minus, NoLit))
    case '+' => Step(current, line, Add(Plus, NoLit))
    case ';' => Step(current, line, Add(Semicolon, NoLit))
    case '*' => Step(current, line, Add(Star, NoLit))
    case '!' =>
      var next := Match(src, current, '=');
      Step(next, line, Add(if next > current then BangEqual else Bang, NoLit))
    case '=' =>
      var next := Match(src, current, '=');
      Step(next, line, Add(if next > current then EqualEqual else Equal, NoLit))
    case '<' =>
      var next := Match(src, current, '=');
      Step(next, line, Add(if next > current then LessEqual else Less, NoLit))
    case '>' =>
      var next := Match(src, current, '=');
      Step(next, line, Add(if next > current then GreaterEqual else Greater, NoLit))
    case '/' =>
      var next := Match(src, current, '/');
      if next > current then Step(CommentEnd(src, next), line, Skip)
      else Step(current, line, Add(Slash, NoLit))
    case ' ' => Step(current, line, Skip)
    case '\r' => Step(current, line, Skip)
    case '\t' => Step(current, line, Skip)
    case '\n' => Step(current, line + 1, Skip)
    case '"' => StringStep(src, start, line)
    case _ =>
      if IsDigit(c) then NumberStep(src, start, line)
      else if IsAlpha(c) then IdentifierStep(src, start, line)
      else Step(current, line, Report(UnexpectedCharacter(c)))
  }

  /** An iteration that starts at neither a double quote nor a line feed
      consumes no line feed and leaves the line counter alone. */
  lemma ScanTokenSameLine(src: string, start: nat, line: nat)
    requires start < |src| && src[start] != '"' && src[start] != '\n'
    ensures var s := ScanToken(src, start, line);
      && s.line == line
      && forall i | start <= i < s.current :: src[i] != '\n'
  {
    var c := src[start];
    var s := ScanToken(src, start, line);
    if IsDigit(c) {
      assert s == NumberStep(src, start, line);
    } else if IsAlpha(c) {
      assert s == IdentifierStep(src, start, line);
    } else if c == '/' && Match(src, start + 1, '/') > start + 1 {
      assert s == Step(CommentEnd(src, start + 2), line, Skip);
    } else if c in "!=<>" {
      assert s.line == line && s.current <= start + 2;
      assert s.current == start + 2 ==> src[start + 1] == '=';
    } else {
      assert s.current == start + 1 && s.line == line;
    }
  }

  /** The string step's line counter has counted the line feeds it consumed. */
  lemma StringStepLine(src: string, start: nat, line: nat)
    requires start < |src| && src[start] == '"'
    ensures var s := StringStep(src, start, line);
      s.line == line + CountNewlines(src[start..s.current])
  {
    var body := StringEnd(src, start + 1, line);
    CountNewlinesSplit(src, start, start + 1, body.current);
    assert src[start..start + 1] == ['"'];
    if !IsAtEnd(src, body.current) {
      CountNewlinesSplit(src, start, body.current, body.current + 1);
      assert src[body.current..body.current + 1] == ['"'];
    }
  }

  /** The line counter after one iteration is the line counter before it plus
      the line feeds in the characters the iteration consumed. */
  lemma ScanTokenLine(src: string, start: nat, line: nat)
    requires start < |src|
    ensures var s := ScanToken(src, start, line);
      s.line == line + CountNewlines(src[start..s.current])
  {
    var s := ScanToken(src, start, line);
    var c := src[start];
    if c == '"' {
      assert s == StringStep(src, start, line);
      StringStepLine(src, start, line);
    } else if c == '\n' {
      assert s == Step(start + 1, line + 1, Skip);
      assert src[start..s.current] == ['\n'];
    } else {
      ScanTokenSameLine(src, start, line);
      CountNewlinesNone(src[start..s.current]);
    }
  }

  /** The source slice of one emitted token. */
  datatype Span = Span(start: nat, end: nat)

  /** The result of scanning from some offset to the end of input. */
  datatype Run = Run(tokens: seq<Token>, spans: seq<Span>, diagnostics: seq<Diagnostic>, line: nat)

  /** The tokens of `r` are non-empty slices of the source at or after
      `start`, in source order and without overlap, and none is end of input. */
  predicate WellFormedRun(src: string, start: nat, r: Run) {
    && |r.spans| == |r.tokens|
    && (forall i | 0 <= i < |r.tokens| ::
          && start <= r.spans[i].start < r.spans[i].end <= |src|
          && r.tokens[i].lexeme == src[r.spans[i].start..r.spans[i].end]
          && r.tokens[i].kind != Eof)
    && (forall i, j | 0 <= i < j < |r.spans| :: r.spans[i].end <= r.spans[j].start)
  }

  /** The main loop from offset `start` with line counter `line`: the tokens
      and diagnostics of the rest of the source, and the final line counter,
      which has counted every line feed of the rest of the source. */
  function Scan(src: string, start: nat, line: nat): (r: Run)
    requires start <= |src|
    ensures r.line == line + CountNewlines(src[start..])
    decreases |src| - start
  {
    if IsAtEnd(src, start) then
      Run([], [], [], line)
    else
      var s := ScanToken(src, start, line);
      var rest := Scan(src, s.current, s.line);
      ScanLineStep(src, start, line);
      Emit(src, start, s, rest)
  }

  /** Every token is the non-empty slice of its iteration, the slices come in
      source order without overlapping, and none is end of input. */
  lemma {:induction false} ScanWellFormed(src: string, start: nat, line: nat)
    requires start <= |src|
    ensures WellFormedRun(src, start, Scan(src, start, line))
    decreases |src| - start
  {
    if start < |src| {
      var s := ScanToken(src, start, line);
      ScanWellFormed(src, s.current, s.line);
      ScanUnfold(src, start, line, s);
      EmitWellFormed(src, start, s, Scan(src, s.current, s.line));
    }
  }

  /** One iteration's line count joins the count of the rest of the source. */
  lemma ScanLineStep(src: string, start: nat, line: nat)
    requires start < |src|
    ensures var s := ScanToken(src, start, line);
      s.line + CountNewlines(src[s.current..]) == line + CountNewlines(src[start..])
  {
    var s := ScanToken(src, start, line);
    ScanTokenLine(src, start, line);
    CountNewlinesSplit(src, start, s.current, |src|);
    assert src[start..] == src[start..|src|];
    assert src[s.current..] == src[s.current..|src|];
  }

  /** Putting one iteration's token in front of a well-formed run that starts
      where the iteration stopped gives a well-formed run. */
  lemma EmitWellFormed(src: string, start: nat, s: Step, rest: Run)
    requires start < s.current <= |src|
    requires s.action.Add? ==> s.action.kind != Eof
    requires WellFormedRun(src, s.current, rest)
    ensures WellFormedRun(src, start, Emit(src, start, s, rest))
  {
    if s.action.Add? {
      var r := Emit(src, start, s, rest);
      assert r.spans == [Span(start, s.current)] + rest.spans;
      assert forall i | 0 < i < |r.spans| :: r.spans[i] == rest.spans[i - 1] && r.tokens[i] == rest.tokens[i - 1];
    }
  }

  /** The token one iteration emits, as `addToken` builds it: the lexeme is
      the slice [start, current) and the line is the counter after the
      iteration. */
  function StepTokens(src: string, start: nat, s: Step): seq<Token>
    requires start < s.current <= |src|
  {
    if s.action.Add? then [Token(s.action.kind, src[start..s.current], s.action.literal, s.line)] else []
  }

  function StepSpans(start: nat, s: Step): seq<Span> {
    if s.action.Add? then [Span(start, s.current)] else []
  }

  /** The diagnostic one iteration reports, at the counter after the iteration. */
  function StepDiagnostics(s: Step): seq<Diagnostic> {
    if s.action.Report? then [Diagnostic(s.line, s.action.error)] else []
  }

  /** Put what one iteration emitted in front of the run that follows it. */
  function Emit(src: string, start: nat, s: Step, rest: Run): Run
    requires start < s.current <= |src|
  {
    Run(StepTokens(src, start, s) + rest.tokens, StepSpans(start, s) + rest.spans,
        StepDiagnostics(s) + rest.diagnostics, rest.line)
  }

  /** The output scanned so far followed by the output of the rest. */
  function Then(done: Run, rest: Run): Run {
    Run(done.tokens + rest.tokens, done.spans + rest.spans, done.diagnostics + rest.diagnostics, rest.line)
  }

  /** Appending one iteration's output to what was scanned before it, then
      the rest, is the same as the output scanned before it, then the
      iteration's output in front of the rest. */
  lemma ThenEmit(done: Run, src: string, start: nat, s: Step, rest: Run)
    requires start < s.current <= |src|
    ensures Then(done, Emit(src, start, s, rest))
      == Then(Run(done.tokens + StepTokens(src, start, s), done.spans + StepSpans(start, s),
                  done.diagnostics + StepDiagnostics(s), s.line), rest)
  {
    assert done.tokens + (StepTokens(src, start, s) + rest.tokens) == done.tokens + StepTokens(src, start, s) + rest.tokens;
    assert done.spans + (StepSpans(start, s) + rest.spans) == done.spans + StepSpans(start, s) + rest.spans;
    assert done.diagnostics + (StepDiagnostics(s) + rest.diagnostics) == done.diagnostics + StepDiagnostics(s) + rest.diagnostics;
  }

  /** One unfolding of the main loop: the iteration at `start`, then the rest. */
  lemma ScanUnfold(src: string, start: nat, line: nat, s: Step)
    requires start < |src| && s == ScanToken(src, start, line)
    ensures Scan(src, start, line) == Emit(src, start, s, Scan(src, s.current, s.line))
  {
  }

  /** The scanner's output: the token sequence and the diagnostics reported. */
  datatype Scanned = Scanned(tokens: seq<Token>, diagnostics: seq<Diagnostic>)

  /** Scan the whole source on fresh state (offset 0, line 1) and append the
      end-of-input token.  Lexical errors only add diagnostics; the model
      always returns, where the C++ aborts when `std::stod` rejects an
      out-of-range number. */
  function ScanTokens(src: string): (r: Scanned)
    ensures |r.tokens| >= 1
    ensures r.tokens[|r.tokens| - 1] == EofToken(1 + CountNewlines(src))
    ensures forall i | 0 <= i < |r.tokens| - 1 :: r.tokens[i].kind != Eof && r.tokens[i].lexeme != []
  {
    var run := Scan(src, 0, 1);
    ScanWellFormed(src, 0, 1);
    assert src[0..] == src;
    var tokens := run.tokens + [EofToken(run.line)];
    assert forall i | 0 <= i < |run.tokens| :: tokens[i] == run.tokens[i];
    Scanned(tokens, run.diagnostics)
  }

  /** One iteration of the in-place loop: the step taken at `start`, and the
      fact that moving its output from the rest of the scan onto the output
      already scanned leaves the whole output unchanged. */
  method Iterate(src: string, start: nat, line: nat, ghost done: Run) returns (s: Step)
    requires start < |src|
    ensures start < s.current <= |src|
    ensures Then(done, Scan(src, start, line))
      == Then(Run(done.tokens + StepTokens(src, start, s), done.spans + StepSpans(start, s),
                  done.diagnostics + StepDiagnostics(s), s.line), Scan(src, s.current, s.line))
  {
    s := ScanToken(src, start, line);
    ScanUnfold(src, start, line, s);
    ThenEmit(done, src, start, s, Scan(src, s.current, s.line));
  }

  /** The main loop as `scanTokens` writes it: a cursor and a line counter
      updated in place, tokens and diagnostics appended as they occur. */
  method ScanTokensLoop(src: string) returns (r: Scanned)
    ensures r == ScanTokens(src)
  {
    var tokens: seq<Token> := [];
    var diagnostics: seq<Diagnostic> := [];
    var current: nat := 0;
    var line: nat := 1;
    ghost var whole := Scan(src, 0, 1);
    ghost var spans: seq<Span> := [];
    while !IsAtEnd(src, current)
      invariant current <= |src|
      invariant whole == Then(Run(tokens, spans, diagnostics, line), Scan(src, current, line))
      decreases |src| - current
    {
      var start := current;
      var s := Iterate(src, start, line, Run(tokens, spans, diagnostics, line));
      tokens := tokens + StepTokens(src, start, s);
      spans := spans + StepSpans(start, s);
      diagnostics := diagnostics + StepDiagnostics(s);
      current, line := s.current, s.line;
    }
    assert Scan(src, current, line) == Run([], [], [], line);
    assert tokens == whole.tokens && diagnostics == whole.diagnostics && line == whole.line;
    r := Scanned(tokens + [EofToken(line)], diagnostics);
  }
}
