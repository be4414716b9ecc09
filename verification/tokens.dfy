/**
 The data model of the scanner: token kinds, literal values, tokens,
 diagnostics and the fixed table of reserved words.
 */
module Tokens {

  /** The closed set of token categories, in the order of the C++ enumeration. */
  datatype TokenType =
    // Single-character tokens
    | LeftParen | RightParen | LeftBrace | RightBrace
    | Comma | Dot | Minus | Plus | Semicolon | Slash | Star
    // One- or two-character tokens
    | Bang | BangEqual | Equal | EqualEqual
    | Greater | GreaterEqual | Less | LessEqual
    // Literals
    | Identifier | String | Number
    // Keywords
    | And | Class | Else | False | Fun | For | If | Nil
    | Or | Print | Return | Super | This | True | Var | While
    // End of input
    | Eof

  /** The decoded value carried by a token.  The C++ variant has no "absent"
      alternative: every token that is neither STRING nor NUMBER (Eof included)
      stores a default-constructed, empty std::string there, modelled as NoLit.
      A NUMBER keeps its digit text; the conversion to double is not modelled. */
  datatype Literal = NoLit | Str(text: string) | Num(digits: string)

  datatype Token = Token(kind: TokenType, lexeme: string, literal: Literal, line: nat)

  /** The two lexical errors the scanner reports through the diagnostic sink. */
  datatype ErrorKind = UnexpectedCharacter(c: char) | UnterminatedString

  /** What one call of the diagnostic sink records: the line and the error. */
  datatype Diagnostic = Diagnostic(line: nat, error: ErrorKind)

  /** The synthetic end-of-input token: empty lexeme, no literal. */
  function EofToken(line: nat): (t: Token)
    ensures t.kind == Eof && t.lexeme == [] && t.literal == NoLit && t.line == line
  {
    Token(Eof, "", NoLit, line)
  }

  /** Kinds whose lexeme is one fixed punctuation or operator text. */
  predicate IsPunctuation(k: TokenType) {
    || k.LeftParen? || k.RightParen? || k.LeftBrace? || k.RightBrace?
    || k.Comma? || k.Dot? || k.Minus? || k.Plus? || k.Semicolon? || k.Slash? || k.Star?
    || k.Bang? || k.BangEqual? || k.Equal? || k.EqualEqual?
    || k.Greater? || k.GreaterEqual? || k.Less? || k.LessEqual?
  }

  /** Kinds of the reserved words. */
  predicate IsKeyword(k: TokenType) {
    || k.And? || k.Class? || k.Else? || k.False? || k.Fun? || k.For? || k.If? || k.Nil?
    || k.Or? || k.Print? || k.Return? || k.Super? || k.This? || k.True? || k.Var? || k.While?
  }

  /** The text of a kind that has exactly one spelling, written per kind
      independently of the scanner's dispatch and of the keyword table. */
  function Spelling(k: TokenType): (s: string)
    requires IsPunctuation(k) || IsKeyword(k)
    ensures 0 < |s|
    ensures IsPunctuation(k) ==> |s| <= 2
  {
    match k
    case LeftParen => "(" case RightParen => ")"
    case LeftBrace => "{" case RightBrace => "}"
    case Comma => "," case Dot => "." case Minus => "-" case Plus => "+"
    case Semicolon => ";" case Slash => "/" case Star => "*"
    case Bang => "!" case BangEqual => "!="
    case Equal => "=" case EqualEqual => "=="
    case Greater => ">" case GreaterEqual => ">="
    case Less => "<" case LessEqual => "<="
    case And => "and" case Class => "class" case Else => "else" case False => "false"
    case Fun => "fun" case For => "for" case If => "if" case Nil => "nil"
    case Or => "or" case Print => "print" case Return => "return" case Super => "super"
    case This => "this" case True => "true" case Var => "var" case While => "while"
  }

  /** The scanner's reserved-word table, entry for entry. */
  const Keywords: map<string, TokenType> := map[
    "and" := And, "class" := Class,
    "else" := Else, "false" := False,
    "for" := For, "fun" := Fun,
    "if" := If, "nil" := Nil,
    "or" := Or, "print" := Print,
    "return" := Return, "super" := Super,
    "this" := This, "true" := True,
    "var" := Var, "while" := While]

  /** The table maps a text to a kind exactly when that kind is a keyword
      spelled that way: no entry is missing, none is extra, none is misspelled. */
  lemma KeywordTable(s: string, k: TokenType)
    ensures s in Keywords && Keywords[s] == k <==> IsKeyword(k) && s == Spelling(k)
  {
    if IsKeyword(k) {
      KeywordsComplete(k);
    }
    if s in Keywords {
      KeywordsSound(s);
    }
  }

  /** Every keyword kind has its spelling in the table. */
  lemma KeywordsComplete(k: TokenType)
    requires IsKeyword(k)
    ensures Spelling(k) in Keywords && Keywords[Spelling(k)] == k
  {
  }

  /** Every table entry maps a keyword's spelling to that keyword. */
  lemma KeywordsSound(s: string)
    requires s in Keywords
    ensures IsKeyword(Keywords[s]) && Spelling(Keywords[s]) == s
  {
    var k := Keywords[s];
    if IsKeyword(k) {
      KeywordsComplete(k);
    }
  }

  /** Distinct kinds have distinct spellings, so a lexeme determines its kind. */
  lemma SpellingInjective(k1: TokenType, k2: TokenType)
    requires IsPunctuation(k1) || IsKeyword(k1)
    requires IsPunctuation(k2) || IsKeyword(k2)
    requires Spelling(k1) == Spelling(k2)
    ensures k1 == k2
  {
  }
}
