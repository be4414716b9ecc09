/**
 The scanner's character classes, its one-character lookahead over the
 immutable source, and the inner loops that extend a lexeme (comment,
 digit run, identifier run, string body).  A cursor position is a `nat`
 offset into the source; the end of input is the offset `|src|`.
 */
module Cursor {

  predicate IsDigit(c: char) {
    '0' <= c <= '9'
  }

  predicate IsAlpha(c: char) {
    ('a' <= c <= 'z') || ('A' <= c <= 'Z') || c == '_'
  }

  predicate IsAlphaNumeric(c: char) {
    IsAlpha(c) || IsDigit(c)
  }

  /** The members of each character class, written out one by one. */
  const DigitChars := "0123456789"
  const LowerChars := "abcdefghijklmnopqrstuvwxyz"
  const UpperChars := "ABCDEFGHIJKLMNOPQRSTUVWXYZ"

  /** A string whose characters count up from `lo` holds exactly the
      characters of that range. */
  lemma Consecutive(s: string, lo: char, c: char)
    requires forall k | 0 <= k < |s| :: s[k] as int == lo as int + k
    ensures c in s <==> lo as int <= c as int < lo as int + |s|
  {
    if lo as int <= c as int < lo as int + |s| {
      assert s[c as int - lo as int] == c;
    }
  }

  lemma DigitsSpelled(c: char)
    ensures IsDigit(c) <==> c in DigitChars
  {
    Consecutive(DigitChars, '0', c);
  }

  lemma AlphaSpelled(c: char)
    ensures IsAlpha(c) <==> c in LowerChars + UpperChars + "_"
  {
    Consecutive(LowerChars, 'a', c);
    Consecutive(UpperChars, 'A', c);
    assert c in LowerChars + UpperChars + "_" <==> c in LowerChars || c in UpperChars || c == '_';
  }

  lemma AlphaNumericSpelled(c: char)
    ensures IsAlphaNumeric(c) <==> c in LowerChars + UpperChars + "_" + DigitChars
  {
    DigitsSpelled(c);
    AlphaSpelled(c);
    assert c in LowerChars + UpperChars + "_" + DigitChars
      <==> c in LowerChars + UpperChars + "_" || c in DigitChars;
  }

  /** Number of line feeds in `s`. */
  function CountNewlines(s: string): nat {
    if |s| == 0 then 0
    else (if s[0] == '\n' then 1 else 0) + CountNewlines(s[1..])
  }

  lemma {:induction false} CountNewlinesAppend(a: string, b: string)
    ensures CountNewlines(a + b) == CountNewlines(a) + CountNewlines(b)
    decreases |a|
  {
    if |a| == 0 {
      assert a + b == b;
    } else {
      assert (a + b)[0] == a[0];
      assert (a + b)[1..] == a[1..] + b;
      CountNewlinesAppend(a[1..], b);
    }
  }

  /** Splitting a slice of the source at a middle offset splits its line count. */
  lemma CountNewlinesSplit(src: string, i: nat, j: nat, k: nat)
    requires i <= j <= k <= |src|
    ensures CountNewlines(src[i..k]) == CountNewlines(src[i..j]) + CountNewlines(src[j..k])
  {
    assert src[i..k] == src[i..j] + src[j..k];
    CountNewlinesAppend(src[i..j], src[j..k]);
  }

  lemma {:induction false} CountNewlinesNone(s: string)
    requires forall i | 0 <= i < |s| :: s[i] != '\n'
    ensures CountNewlines(s) == 0
    decreases |s|
  {
    if |s| > 0 {
      assert forall i | 0 <= i < |s[1..]| :: s[1..][i] == s[i + 1];
      CountNewlinesNone(s[1..]);
    }
  }

  predicate IsAtEnd(src: string, current: nat) {
    current >= |src|
  }

  /** The character under the cursor, or NUL at the end of input.  The NUL
      sentinel is neither a digit, a letter, a quote nor a line feed, so the
      loops below, which test it, stop at the end of input. */
  function Peek(src: string, current: nat): (c: char)
    ensures IsAtEnd(src, current) ==> !IsAlphaNumeric(c) && c != '"' && c != '\n' && c != '='
    ensures !IsAtEnd(src, current) ==> c == src[current]
    ensures IsAtEnd(src, current) ==> c == '\0'
  {
    if IsAtEnd(src, current) then '\0' else src[current]
  }

  /** The character after the cursor, or NUL past the end of input. */
  function PeekNext(src: string, current: nat): (c: char)
    ensures current + 1 >= |src| ==> !IsDigit(c)
    ensures current + 1 < |src| ==> c == src[current + 1]
    ensures current + 1 >= |src| ==> c == '\0'
  {
    if current + 1 >= |src| then '\0' else src[current + 1]
  }

  /** Conditional advance: consumes `expected` if it is the next character.
      Returns the new cursor; it moved iff the match succeeded. */
  function Match(src: string, current: nat, expected: char): (next: nat)
    requires current <= |src|
    ensures next == current || next == current + 1
    ensures next <= |src|
    ensures next == current + 1 <==> current < |src| && src[current] == expected
  {
    if IsAtEnd(src, current) then current
    else if src[current] != expected then current
    else current + 1
  }

  /** The comment loop: advances up to, not including, the next line feed,
      or to the end of input. */
  function CommentEnd(src: string, current: nat): (end: nat)
    requires current <= |src|
    ensures current <= end <= |src|
    ensures forall i | current <= i < end :: src[i] != '\n'
    ensures end == |src| || src[end] == '\n'
    decreases |src| - current
  {
    if Peek(src, current) != '\n' && !IsAtEnd(src, current) then CommentEnd(src, current + 1)
    else current
  }

  /** The digit loop: the end of the maximal run of digits from `current`. */
  function DigitsEnd(src: string, current: nat): (end: nat)
    requires current <= |src|
    ensures current <= end <= |src|
    ensures forall i | current <= i < end :: IsDigit(src[i])
    ensures end == |src| || !IsDigit(src[end])
    decreases |src| - current
  {
    if IsDigit(Peek(src, current)) then DigitsEnd(src, current + 1) else current
  }

  /** The identifier loop: the end of the maximal run of `[A-Za-z0-9_]`. */
  function AlphaNumericEnd(src: string, current: nat): (end: nat)
    requires current <= |src|
    ensures current <= end <= |src|
    ensures forall i | current <= i < end :: IsAlphaNumeric(src[i])
    ensures end == |src| || !IsAlphaNumeric(src[end])
    decreases |src| - current
  {
    if IsAlphaNumeric(Peek(src, current)) then AlphaNumericEnd(src, current + 1) else current
  }

  /** Cursor and line counter together. */
  datatype Position = Position(current: nat, line: nat)

  /** The string-body loop: advances to the next double quote or the end of
      input, counting every line feed it passes. */
  function StringEnd(src: string, current: nat, line: nat): (r: Position)
    requires current <= |src|
    ensures current <= r.current <= |src|
    ensures forall i | current <= i < r.current :: src[i] != '"'
    ensures r.current == |src| || src[r.current] == '"'
    ensures r.line == line + CountNewlines(src[current..r.current])
    decreases |src| - current
  {
    if Peek(src, current) != '"' && !IsAtEnd(src, current) then
      var r := StringEnd(src, current + 1, if Peek(src, current) == '\n' then line + 1 else line);
      assert src[current..r.current][1..] == src[current + 1..r.current];
      r
    else
      Position(current, line)
  }

  /** The number loop: a maximal digit run, then a fraction only when a dot is
      immediately followed by a digit.  `current` is just past the first digit. */
  function NumberEnd(src: string, current: nat): (end: nat)
    requires current <= |src|
    ensures current <= end <= |src|
    ensures forall i | current <= i < end :: IsDigit(src[i]) || (src[i] == '.' && i + 1 < end && IsDigit(src[i + 1]))
    ensures end == |src| || !IsDigit(src[end])
    ensures (forall i | current <= i < end :: IsDigit(src[i])) ==> !(end + 1 < |src| && src[end] == '.' && IsDigit(src[end + 1]))
    ensures forall i, j | current <= i < j < end :: src[i] == '.' ==> src[j] != '.'
  {
    var whole := DigitsEnd(src, current);
    if Peek(src, whole) == '.' && IsDigit(PeekNext(src, whole)) then
      DigitsEnd(src, whole + 1)
    else
      whole
  }
}
