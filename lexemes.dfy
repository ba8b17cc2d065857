/**
 * The grammar-specific sub-scanners `scan_string`, `scan_float`,
 * `scan_number` and `scan_symbol` (src/main.rs, lines 120-166), and the
 * scanner's `scan_with` combinator that runs one of them transactionally.
 *
 * Each sub-scanner is specified by a function on the text that gives the end
 * of the lexeme starting at a position, or None when the sub-scanner fails.
 */
module Lexemes {
  import opened Wrappers
  import opened Chars
  import opened TextScanner

  /** The sub-scanners `scan_with` is called with. */
  datatype Lexeme = StringBody | FloatLit | NumberLit | SymbolLit

  /** A float lexeme: one or more digits, a period, one or more digits. */
  ghost predicate IsFloatLexeme(s: seq<char>) {
    exists d :: 0 < d < |s| - 1 && AllDigits(s[..d]) && IsPeriod(s[d]) && AllDigits(s[d + 1..])
  }

  /**
   * `scan_string`: at least one non-quote character, then the rest of the
   * non-quote run; the body stops at a quote or at the end of the text.
   */
  function StringBodyEnd(t: seq<char>, i: nat): (r: Option<nat>)
    requires i <= |t|
    ensures r.None? <==> i == |t| || IsQuote(t[i])
    ensures r.Some? ==> i < r.value <= |t|
    ensures r.Some? ==> r.value == |t| || IsQuote(t[r.value])
  {
    if i < |t| && IsNotQuote(t[i]) then Some(SkipRun(t, i + 1, NotQuote)) else None
  }

  /** `scan_number`: one digit, then the rest of the digit run. */
  function NumberEnd(t: seq<char>, i: nat): (r: Option<nat>)
    requires i <= |t|
    ensures r.None? <==> i == |t| || !IsNumber(t[i])
    ensures r.Some? ==> i < r.value <= |t|
    ensures r.Some? ==> r.value == |t| || !IsNumber(t[r.value])
  {
    if i < |t| && IsNumber(t[i]) then Some(SkipRun(t, i + 1, Digit)) else None
  }

  /**
   * `scan_float`: a digit run, a period and a second digit run that starts
   * with a digit; fails on anything else.
   */
  function FloatEnd(t: seq<char>, i: nat): (r: Option<nat>)
    requires i <= |t|
    ensures r.Some? ==> i + 2 < r.value <= |t|
    ensures r.Some? ==> r.value == |t| || !IsNumber(t[r.value])
  {
    if i < |t| && IsNumber(t[i]) then
      var d := SkipRun(t, i + 1, Digit);
      if d < |t| && IsPeriod(t[d]) && d + 1 < |t| && IsNumber(t[d + 1]) then Some(SkipRun(t, d + 2, Digit))
      else None
    else None
  }

  /** `scan_symbol`: one non-whitespace character, then the rest of the non-whitespace run. */
  function SymbolEnd(t: seq<char>, i: nat): (r: Option<nat>)
    requires i <= |t|
    ensures r.None? <==> i == |t| || IsWhitespace(t[i])
    ensures r.Some? ==> i < r.value <= |t|
    ensures r.Some? ==> r.value == |t| || IsWhitespace(t[r.value])
  {
    if i < |t| && IsSymbolChar(t[i]) then Some(SkipRun(t, i + 1, SymbolChar)) else None
  }

  /** A string body holds no quote. */
  lemma StringBodySpan(t: seq<char>, i: nat)
    requires i <= |t| && StringBodyEnd(t, i).Some?
    ensures forall k :: i <= k < StringBodyEnd(t, i).value ==> IsNotQuote(t[k])
  {
    SkipRunSpan(t, i + 1, NotQuote);
  }

  /** What `scan_number` consumes is digits only. */
  lemma NumberDigits(t: seq<char>, i: nat)
    requires i <= |t| && NumberEnd(t, i).Some?
    ensures AllDigits(t[i..NumberEnd(t, i).value])
  {
    SkipRunSpan(t, i + 1, Digit);
    assert forall k :: 0 <= k < NumberEnd(t, i).value - i ==> t[i..NumberEnd(t, i).value][k] == t[i + k];
  }

  /** What `scan_float` consumes is digits, a period and digits. */
  lemma FloatShape(t: seq<char>, i: nat)
    requires i <= |t| && FloatEnd(t, i).Some?
    ensures IsFloatLexeme(t[i..FloatEnd(t, i).value])
  {
    var d := SkipRun(t, i + 1, Digit);
    var e := SkipRun(t, d + 2, Digit);
    SkipRunSpan(t, i + 1, Digit);
    SkipRunSpan(t, d + 2, Digit);
    var lexeme := t[i..e];
    assert forall k :: 0 <= k < d - i ==> lexeme[k] == t[i + k];
    assert AllDigits(lexeme[..d - i]);
    var fraction := lexeme[d - i + 1..];
    assert forall k :: 0 <= k < |fraction| ==> fraction[k] == t[d + 1 + k];
    assert AllDigits(fraction) && IsPeriod(lexeme[d - i]);
  }

  /** A symbol holds no whitespace. */
  lemma SymbolSpan(t: seq<char>, i: nat)
    requires i <= |t| && SymbolEnd(t, i).Some?
    ensures forall k :: i <= k < SymbolEnd(t, i).value ==> IsSymbolChar(t[k])
  {
    SkipRunSpan(t, i + 1, SymbolChar);
  }

  /** Where the sub-scanner `g` that `scan_with` runs stops, if it succeeds. */
  function LexemeEnd(g: Lexeme, t: seq<char>, i: nat): (r: Option<nat>)
    requires i <= |t|
    ensures r.Some? ==> i < r.value <= |t|
    ensures r.None? <==> i == |t| || match g
      case StringBody => IsQuote(t[i])
      case FloatLit => FloatEnd(t, i).None?
      case NumberLit => !IsNumber(t[i])
      case SymbolLit => IsWhitespace(t[i])
  {
    match g
    case StringBody => StringBodyEnd(t, i)
    case FloatLit => FloatEnd(t, i)
    case NumberLit => NumberEnd(t, i)
    case SymbolLit => SymbolEnd(t, i)
  }

  /**
   * Where `scan_float` gives up when it fails: at the start when no digit is
   * there, after the digit run when no period follows it, and one past the
   * period when no digit follows that.
   */
  function FloatStop(t: seq<char>, i: nat): (r: nat)
    requires i <= |t|
    ensures i <= r <= |t|
    ensures FloatEnd(t, i).None? && i < |t| && IsNumber(t[i]) ==> i < r
  {
    if i < |t| && IsNumber(t[i]) then
      var d := SkipRun(t, i + 1, Digit);
      if d < |t| && IsPeriod(t[d]) then d + 1 else d
    else i
  }

  method ScanString(scanner: Scanner) returns (ok: bool)
    requires scanner.Valid()
    modifies scanner
    ensures scanner.Valid() && old(scanner.cursor) <= scanner.cursor
    ensures ok == StringBodyEnd(scanner.text, old(scanner.cursor)).Some?
    ensures ok ==> scanner.cursor == StringBodyEnd(scanner.text, old(scanner.cursor)).value
    ensures !ok ==> scanner.cursor == old(scanner.cursor)
  {
    var c := scanner.AcceptIf(NotQuote);
    if c.None? {
      return false;
    }
    var _ := scanner.SkipWhile(NotQuote);
    return true;
  }

  method ScanFloat(scanner: Scanner) returns (ok: bool)
    requires scanner.Valid()
    modifies scanner
    ensures scanner.Valid() && old(scanner.cursor) <= scanner.cursor
    ensures ok == FloatEnd(scanner.text, old(scanner.cursor)).Some?
    ensures ok ==> scanner.cursor == FloatEnd(scanner.text, old(scanner.cursor)).value
    ensures !ok ==> scanner.cursor == FloatStop(scanner.text, old(scanner.cursor))
  {
    var c := scanner.AcceptIf(Digit);
    if c.None? {
      return false;
    }
    var _ := scanner.SkipWhile(Digit);
    c := scanner.AcceptIf(Period);
    if c.None? {
      return false;
    }
    c := scanner.AcceptIf(Digit);
    if c.None? {
      return false;
    }
    var _ := scanner.SkipWhile(Digit);
    return true;
  }

  method ScanNumber(scanner: Scanner) returns (ok: bool)
    requires scanner.Valid()
    modifies scanner
    ensures scanner.Valid() && old(scanner.cursor) <= scanner.cursor
    ensures ok == NumberEnd(scanner.text, old(scanner.cursor)).Some?
    ensures ok ==> scanner.cursor == NumberEnd(scanner.text, old(scanner.cursor)).value
    ensures !ok ==> scanner.cursor == old(scanner.cursor)
  {
    var c := scanner.AcceptIf(Digit);
    if c.None? {
      return false;
    }
    var _ := scanner.SkipWhile(Digit);
    return true;
  }

  method ScanSymbol(scanner: Scanner) returns (ok: bool)
    requires scanner.Valid()
    modifies scanner
    ensures scanner.Valid() && old(scanner.cursor) <= scanner.cursor
    ensures ok == SymbolEnd(scanner.text, old(scanner.cursor)).Some?
    ensures ok ==> scanner.cursor == SymbolEnd(scanner.text, old(scanner.cursor)).value
    ensures !ok ==> scanner.cursor == old(scanner.cursor)
  {
    var c := scanner.AcceptIf(SymbolChar);
    if c.None? {
      return false;
    }
    var _ := scanner.SkipWhile(SymbolChar);
    return true;
  }

  /**
   * `scan_with(f)`: remember the cursor, run the sub-scanner, and either
   * return the slice it consumed or put the cursor back where it was.
   * (Dafny methods are not values, so the sub-scanner is named by a tag.)
   */
  method ScanWith(scanner: Scanner, g: Lexeme) returns (r: Option<seq<char>>)
    requires scanner.Valid()
    modifies scanner
    ensures scanner.Valid()
    ensures LexemeEnd(g, scanner.text, old(scanner.cursor)).Some? ==>
      var e := LexemeEnd(g, scanner.text, old(scanner.cursor)).value;
      r == Some(scanner.text[old(scanner.cursor)..e]) && scanner.cursor == e
    ensures LexemeEnd(g, scanner.text, old(scanner.cursor)).None? ==>
      r == None && scanner.cursor == old(scanner.cursor)
  {
    var start := scanner.cursor;
    var ok: bool;
    match g {
      case StringBody => ok := ScanString(scanner);
      case FloatLit => ok := ScanFloat(scanner);
      case NumberLit => ok := ScanNumber(scanner);
      case SymbolLit => ok := ScanSymbol(scanner);
    }
    if ok {
      r := Some(scanner.text[start..scanner.cursor]);
    } else {
      scanner.cursor := start;
      r := None;
    }
  }
}
