/**
 * The reader itself as the source writes it (src/main.rs, lines 66-94 and
 * 127-190): procedures that advance one `Scanner`. Each is proved to leave the
 * outcome and the cursor that the reference definition in `Grammar` gives.
 */
module Reader {
  import opened Wrappers
  import opened Chars
  import opened TextScanner
  import opened Lexemes
  import opened Values
  import Grammar

  /** `parse`: read one value from `s`, then reject any text left after it. */
  method Parse(s: string) returns (r: Outcome)
    ensures r == Grammar.Parse(s)
  {
    var scanner := new Scanner(s);
    r := ParseInternal(scanner);
    if r.Abort? {
      return;  // the panic unwinds before the trailing-text check
    }
    if scanner.HasRemainingText() {
      r := Err(ScannerError(HasMoreText(scanner.RemainingText())));
    }
  }

  /** `parse_internal` */
  method ParseInternal(scanner: Scanner) returns (r: Outcome)
    requires scanner.Valid()
    modifies scanner
    ensures scanner.Valid()
    ensures Grammar.ParseAt(scanner.text, old(scanner.cursor)) == Grammar.Step(r, scanner.cursor)
    decreases |scanner.text| - scanner.cursor, 3
  {
    var _ := scanner.SkipWhile(Whitespace);
    var c := scanner.PeekNth(0);
    if c.None? {
      return Err(ScannerError(OutOfBounds));
    }
    if IsQuote(c.value) {
      r := ParseString(scanner);
    } else if IsOpenParen(c.value) {
      r := ParseSexp(scanner);
    } else if IsNumber(c.value) {
      r := ParseNumber(scanner);
    } else {
      r := ParseSymbol(scanner);
    }
    if r.Abort? {
      return;
    }
    var _ := scanner.SkipWhile(Whitespace);
  }

  /** `parse_string`: only called on an opening quote, so its first `unwrap` never panics. */
  method ParseString(scanner: Scanner) returns (r: Outcome)
    requires scanner.Valid() && scanner.cursor < |scanner.text| && IsQuote(scanner.text[scanner.cursor])
    modifies scanner
    ensures scanner.Valid()
    ensures Grammar.StringAt(scanner.text, old(scanner.cursor)) == Grammar.Step(r, scanner.cursor)
  {
    var open := scanner.AcceptIf(Quote);
    assert open.Some?;
    var body := ScanWith(scanner, StringBody);
    if body.None? {
      return Err(ScannerError(MustBeString));
    }
    var close := scanner.AcceptIf(Quote);
    if close.None? {
      return Err(ScannerError(MissingClosingQuote));
    }
    r := Ok(String(body.value));
  }

  /**
   * `parse_number`: try the float grammar; when it fails the cursor is back on
   * the first digit, so the integer grammar's `unwrap` never panics.
   */
  method ParseNumber(scanner: Scanner) returns (r: Outcome)
    requires scanner.Valid() && scanner.cursor < |scanner.text| && IsNumber(scanner.text[scanner.cursor])
    modifies scanner
    ensures scanner.Valid()
    ensures Grammar.NumberAt(scanner.text, old(scanner.cursor)) == Grammar.Step(r, scanner.cursor)
  {
    var float := ScanWith(scanner, FloatLit);
    if float.Some? {
      return Ok(Float(float.value));
    }
    NumberDigits(scanner.text, scanner.cursor);
    var digits := ScanWith(scanner, NumberLit);
    assert digits.Some?;
    var n := DecimalValue(digits.value);
    if n <= I32Max {
      r := Ok(Number(n as i32));
    } else {
      r := Abort(IntOverflow(digits.value));
    }
  }

  /** `parse_symbol`: only called on a non-whitespace character, so its `unwrap` never panics. */
  method ParseSymbol(scanner: Scanner) returns (r: Outcome)
    requires scanner.Valid() && scanner.cursor < |scanner.text| && IsSymbolChar(scanner.text[scanner.cursor])
    modifies scanner
    ensures scanner.Valid()
    ensures Grammar.SymbolAt(scanner.text, old(scanner.cursor)) == Grammar.Step(r, scanner.cursor)
  {
    var symbol := ScanWith(scanner, SymbolLit);
    assert symbol.Some?;
    r := Ok(Symbol(symbol.value));
  }

  /**
   * `parse_sexp`: read elements until a closing parenthesis or the end of the
   * text; an element that fails panics through `unwrap`.
   */
  method ParseSexp(scanner: Scanner) returns (r: Outcome)
    requires scanner.Valid() && scanner.cursor < |scanner.text| && IsOpenParen(scanner.text[scanner.cursor])
    modifies scanner
    ensures scanner.Valid()
    ensures Grammar.SexpAt(scanner.text, old(scanner.cursor)) == Grammar.Step(r, scanner.cursor)
    decreases |scanner.text| - scanner.cursor, 1
  {
    var open := scanner.AcceptIf(OpenParen);
    assert open.Some?;
    var items: seq<Lval> := [];
    var next := scanner.PeekNth(0);
    while next.Some? && !IsClosedParen(next.value)
      invariant scanner.Valid() && old(scanner.cursor) < scanner.cursor
      invariant next.Some? <==> scanner.cursor < |scanner.text|
      invariant next.Some? ==> next.value == scanner.text[scanner.cursor]
      invariant Grammar.SexpItems(scanner.text, scanner.cursor, items) == Grammar.SexpAt(scanner.text, old(scanner.cursor))
      decreases |scanner.text| - scanner.cursor
    {
      var element := ParseInternal(scanner);
      match element {
        case Ok(v) =>
          items := items + [v];
        case Err(e) =>
          return Abort(UnwrapOnErr(e));
        case Abort(_) =>
          return element;
      }
      var _ := scanner.SkipWhile(Whitespace);
      next := scanner.PeekNth(0);
    }
    var close := scanner.AcceptIf(ClosedParen);
    if close.None? {
      return Err(ScannerError(MissingClosingParen));
    }
    r := Ok(Sexp(items));
  }
}
