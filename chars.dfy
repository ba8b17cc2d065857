/** Small datatypes shared by every module. */
module Wrappers {
  datatype Option<+T> = None | Some(value: T)
}

/**
 * The character classes the reader dispatches on and scans with
 * (src/main.rs, lines 96-118, and the closures of lines 163-164).
 */
module Chars {
  /**
   * The Unicode White_Space property, which is what Rust's
   * `char::is_whitespace` decides.
   */
  predicate IsWhitespace(c: char) {
    ('\t' <= c <= '\r') || c == ' ' || c == '\U{85}' || c == '\U{A0}' || c == '\U{1680}'
    || ('\U{2000}' <= c <= '\U{200A}') || c == '\U{2028}' || c == '\U{2029}'
    || c == '\U{202F}' || c == '\U{205F}' || c == '\U{3000}'
  }

  /** `|c| !c.is_whitespace()`: every character a symbol may consist of. */
  predicate IsSymbolChar(c: char) { !IsWhitespace(c) }

  predicate IsQuote(c: char) { c == '"' }

  predicate IsNotQuote(c: char) { c != '"' }

  /** `c.is_digit(10)`: only the ASCII digits. */
  predicate IsNumber(c: char) { '0' <= c <= '9' }

  predicate IsPeriod(c: char) { c == '.' }

  predicate IsOpenParen(c: char) { c == '(' }

  predicate IsClosedParen(c: char) { c == ')' }

  /**
   * The predicates the reader hands to the scanner (`accept_if`, `skip_while`
   * and the scanners of `scan_with`), as first-order values.
   */
  datatype CharClass = Whitespace | SymbolChar | Quote | NotQuote | Digit | Period | OpenParen | ClosedParen

  predicate Matches(k: CharClass, c: char) {
    match k
    case Whitespace => IsWhitespace(c)
    case SymbolChar => IsSymbolChar(c)
    case Quote => IsQuote(c)
    case NotQuote => IsNotQuote(c)
    case Digit => IsNumber(c)
    case Period => IsPeriod(c)
    case OpenParen => IsOpenParen(c)
    case ClosedParen => IsClosedParen(c)
  }

  predicate AllDigits(s: seq<char>) {
    forall k :: 0 <= k < |s| ==> IsNumber(s[k])
  }

  /** The characters the parser dispatches on are never skipped as whitespace. */
  lemma DelimitersAreNotWhitespace(c: char)
    requires IsNumber(c) || IsQuote(c) || IsPeriod(c) || IsOpenParen(c) || IsClosedParen(c)
    ensures !IsWhitespace(c) && IsSymbolChar(c)
  {
  }
}
