/**
 * The unit tests of src/main.rs (lines 192-287 and 308-350), stated as
 * lemmas about the reference reader and the rendering, together with the
 * quirks of the reader on a few more inputs.
 */
module Examples {
  import opened Wrappers
  import opened Chars
  import opened TextScanner
  import opened Lexemes
  import opened Values
  import opened Grammar
  import opened Properties
  import opened RoundTrip
  import Shifting
  import Layout

  /** A float renders as its own lexeme, as `42.1` does under `Display for f64`. */
  function ShowLexeme(x: string): string { x }

  lemma ItParsesAtoms()
    ensures Parse("val") == Ok(Symbol("val"))
  {
    ParseRender(Symbol("val"), ShowLexeme);
  }

  lemma ItParsesAtomAsOperators()
    ensures Parse("+") == Ok(Symbol("+"))
  {
    ParseRender(Symbol("+"), ShowLexeme);
  }

  /** The ghost emoji U+1F47B as one character: the symbol the test means. */
  lemma ItParsesAtomAsEmoji()
    ensures Parse("\U{1F47B}") == Ok(Symbol("\U{1F47B}"))
  {
    ParseRender(Symbol("\U{1F47B}"), ShowLexeme);
  }

  /**
   * The test's literal as it stands in src/main.rs: the four characters
   * U+00F0 U+0178 U+2018 U+00BB, which are the UTF-8 bytes of U+1F47B read
   * as CP-1252. They are not whitespace either, so they read as one symbol.
   */
  lemma ItParsesAtomAsEmojiAsWritten()
    ensures Parse("\U{F0}\U{178}\U{2018}\U{BB}") == Ok(Symbol("\U{F0}\U{178}\U{2018}\U{BB}"))
  {
    SymbolTokenReadsBack("\U{F0}\U{178}\U{2018}\U{BB}");
  }

  lemma ItParsesStrings()
    ensures Parse("\"string\"") == Ok(String("string"))
  {
    var t := "\"string\"";
    RunEnd(t, 0, 0, Whitespace);
    RunEnd(t, 2, 7, NotQuote);
    RunEnd(t, 8, 8, Whitespace);
    assert t[1..7] == "string";
    StringValueAt(t, 0, 7, "string");
    assert ParseAt(t, 0) == Step(Ok(String("string")), 8);
  }

  lemma ItParsesNumbers()
    ensures Parse("42") == Ok(Number(42))
  {
    assert Digits(42) == "42";
    ParseRender(Number(42), ShowLexeme);
  }

  lemma ItParsesFloats()
    ensures Parse("42.1") == Ok(Float("42.1"))
  {
    var x := "42.1";
    assert x[..2] == "42" && x[3..] == "1";
    assert IsFloatLexeme(x);
    ParseRender(Float(x), ShowLexeme);
  }

  lemma JoinTwo(a: string, b: string, sep: string)
    ensures Join([a, b], sep) == a + sep + b
  {
    assert [a, b][1..] == [b];
  }

  lemma JoinThree(a: string, b: string, c: string, sep: string)
    ensures Join([a, b, c], sep) == a + sep + b + sep + c
  {
    assert [a, b, c][1..] == [b, c];
    JoinTwo(b, c, sep);
  }

  /** `(+ 1 2)` is the rendering of the list of `+`, 1 and 2. */
  lemma RenderPlusOneTwo()
    ensures Render(Sexp([Symbol("+"), Number(1), Number(2)]), ShowLexeme) == "(+ 1 2)"
    ensures Join(Rendered([Symbol("+"), Number(1), Number(2)], ShowLexeme), " ") == "+ 1 2"
  {
    var items := [Symbol("+"), Number(1), Number(2)];
    assert Render(Number(1), ShowLexeme) == "1";
    assert Render(Number(2), ShowLexeme) == "2";
    assert Rendered(items, ShowLexeme) == ["+", "1", "2"];
    JoinThree("+", "1", "2", " ");
    RenderSexp(items, ShowLexeme);
  }

  lemma ItParsesSexps()
    ensures Parse("(+ 1 2)") == Ok(Sexp([Symbol("+"), Number(1), Number(2)]))
    ensures Parse("(println \"foo\")") == Ok(Sexp([Symbol("println"), String("foo")]))
  {
    ParsesPlusOneTwo();
    ParsesPrintln();
  }

  lemma ParsesPlusOneTwo()
    ensures Parse("(+ 1 2)") == Ok(Sexp([Symbol("+"), Number(1), Number(2)]))
  {
    var items := [Symbol("+"), Number(1), Number(2)];
    RenderPlusOneTwo();
    AllReadableElements(items, ShowLexeme);
    ParseRender(Sexp(items), ShowLexeme);
  }

  /** `(println "foo")` is the rendering of the list of `println` and the string `foo`. */
  lemma RenderPrintln()
    ensures Render(Sexp([Symbol("println"), String("foo")]), ShowLexeme) == "(println \"foo\")"
  {
    var items := [Symbol("println"), String("foo")];
    assert Render(String("foo"), ShowLexeme) == "\"foo\"";
    assert Rendered(items, ShowLexeme) == ["println", "\"foo\""];
    JoinTwo("println", "\"foo\"", " ");
    RenderSexp(items, ShowLexeme);
  }

  lemma ParsesPrintln()
    ensures Parse("(println \"foo\")") == Ok(Sexp([Symbol("println"), String("foo")]))
  {
    var items := [Symbol("println"), String("foo")];
    RenderPrintln();
    AllReadableElements(items, ShowLexeme);
    ParseRender(Sexp(items), ShowLexeme);
  }

  lemma MissingClosingParenText()
    ensures ErrorText(ScannerError(MissingClosingParen)) == "scanner error: missing closing paren"
  {
  }

  lemma ItReturnsErrorOnUnclosedParen()
    ensures Parse("(+ 1 2").Err? && ErrorText(Parse("(+ 1 2").error) == "scanner error: missing closing paren"
  {
    var items := [Symbol("+"), Number(1), Number(2)];
    RenderPlusOneTwo();
    AllReadableElements(items, ShowLexeme);
    UnclosedListRender(items, ShowLexeme, "(+ 1 2");
    MissingClosingParenText();
  }

  /** `15` is read as a number and leaves `a` behind. */
  lemma ReadsFifteen()
    ensures ParseAt("15a", 0) == Step(Ok(Number(15)), 2)
  {
    var t := "15a";
    RunEnd(t, 1, 2, Digit);
    assert FloatEnd(t, 0) == None;
    assert NumberEnd(t, 0) == Some(2);
    assert DecimalValue(t[0..2]) == 15 by {
      assert t[0..2] == "15" && "15"[..1] == "1";
    }
    assert NumberAt(t, 0) == Step(Ok(Number(15)), 2);
    assert ValueAt(t, 0) == NumberAt(t, 0);
    RunEnd(t, 0, 0, Whitespace);
    RunEnd(t, 2, 2, Whitespace);
  }

  lemma ItReturnsErrorOnMoreText()
    ensures Parse("15a").Err? && ErrorText(Parse("15a").error) == "scanner error: has more text \"a\""
  {
    ReadsFifteen();
    assert "15a"[2..] == "a";
    assert Parse("15a") == Err(ScannerError(HasMoreText("a")));
    MoreTextMessage();
  }

  lemma MoreTextMessage()
    ensures ErrorText(ScannerError(HasMoreText("a"))) == "scanner error: has more text \"a\""
  {
  }

  lemma MissingClosingQuoteText()
    ensures ErrorText(ScannerError(MissingClosingQuote)) == "scanner error: missing closing quote"
  {
  }

  /** `"foo` reads as a string body that no quote closes. */
  lemma ReadsUnterminatedFoo()
    ensures Parse("\"foo") == Err(ScannerError(MissingClosingQuote))
  {
    var t := "\"foo";
    RunEnd(t, 0, 0, Whitespace);
    RunEnd(t, 2, 4, NotQuote);
    RunEnd(t, 4, 4, Whitespace);
    assert StringAt(t, 0) == Step(Err(ScannerError(MissingClosingQuote)), 4);
    DispatchString(t, 0);
    assert ParseAt(t, 0) == Step(Err(ScannerError(MissingClosingQuote)), 4);
  }

  lemma ItReturnsErrorOnMissingQuote()
    ensures Parse("\"foo").Err? && ErrorText(Parse("\"foo").error) == "scanner error: missing closing quote"
  {
    ReadsUnterminatedFoo();
    MissingClosingQuoteText();
  }

  lemma ItReturnsErrorOnEmptyString()
    ensures Parse("").Err? && ErrorText(Parse("").error) == "scanner error: out of bounds"
  {
    AllWhitespaceIsOutOfBounds("");
  }

  /** `(+ 1 (- 2 1))` is the rendering of the nested list. */
  lemma RenderNested()
    ensures Render(Sexp([Symbol("+"), Number(1), Sexp([Symbol("-"), Number(2), Number(1)])]), ShowLexeme)
      == "(+ 1 (- 2 1))"
  {
    var minus := [Symbol("-"), Number(2), Number(1)];
    var plus := [Symbol("+"), Number(1), Sexp(minus)];
    assert Render(Number(1), ShowLexeme) == "1";
    assert Render(Number(2), ShowLexeme) == "2";
    assert Rendered(minus, ShowLexeme) == ["-", "2", "1"];
    JoinThree("-", "2", "1", " ");
    RenderSexp(minus, ShowLexeme);
    assert Render(Sexp(minus), ShowLexeme) == "(- 2 1)";
    assert Rendered(plus, ShowLexeme) == ["+", "1", "(- 2 1)"];
    JoinThree("+", "1", "(- 2 1)", " ");
    RenderSexp(plus, ShowLexeme);
  }

  lemma ItParsesRecursively()
    ensures Parse("(+ 1 (- 2 1))")
      == Ok(Sexp([Symbol("+"), Number(1), Sexp([Symbol("-"), Number(2), Number(1)])]))
  {
    var minus := [Symbol("-"), Number(2), Number(1)];
    var plus := [Symbol("+"), Number(1), Sexp(minus)];
    RenderNested();
    AllReadableElements(minus, ShowLexeme);
    AllReadableElements(plus, ShowLexeme);
    ParseRender(Sexp(plus), ShowLexeme);
  }

  lemma ItEvalsAtoms()
    ensures Render(Eval(Symbol("val")), ShowLexeme) == "val"
  {
  }

  lemma ItEvalsStrings()
    ensures Render(Eval(String("foo")), ShowLexeme) == "\"foo\""
  {
  }

  lemma ItEvalsNumbers()
    ensures Render(Eval(Number(42)), ShowLexeme) == "42"
  {
    assert Digits(42) == "42";
  }

  lemma ItEvalsFloats()
    ensures Render(Eval(Float("42.1")), ShowLexeme) == "42.1"
  {
  }

  lemma ItEvalsExpressions()
    ensures Render(Eval(Sexp([Symbol("+"), Number(1), Number(2)])), ShowLexeme) == "(+ 1 2)"
    ensures Render(Eval(Sexp([Symbol("println"), String("foo")])), ShowLexeme) == "(println \"foo\")"
  {
    RenderPlusOneTwo();
    RenderPrintln();
  }

  /** `42.` is not a float: `42` is read as a number and the period is left behind. */
  lemma TrailingPeriodIsLeftBehind()
    ensures Parse("42.") == Err(ScannerError(HasMoreText(".")))
  {
    var t := "42.";
    RunEnd(t, 1, 2, Digit);
    assert FloatEnd(t, 0) == None;
    assert NumberEnd(t, 0) == Some(2);
    assert DecimalValue(t[0..2]) == 42 by {
      assert t[0..2] == "42" && "42"[..1] == "4";
    }
    assert NumberAt(t, 0) == Step(Ok(Number(42)), 2);
    DispatchNumber(t, 0);
    RunEnd(t, 0, 0, Whitespace);
    RunEnd(t, 2, 2, Whitespace);
    assert ParseAt(t, 0) == Step(Ok(Number(42)), 2);
    assert t[2..] == ".";
  }

  /** `4.a` neither: the float attempt fails on `a` and `.a` is left behind. */
  lemma PeriodThenLetterIsLeftBehind()
    ensures Parse("4.a") == Err(ScannerError(HasMoreText(".a")))
  {
    var t := "4.a";
    RunEnd(t, 1, 1, Digit);
    assert FloatEnd(t, 0) == None;
    assert NumberEnd(t, 0) == Some(1);
    assert t[0..1] == "4";
    assert NumberAt(t, 0) == Step(Ok(Number(4)), 1);
    DispatchNumber(t, 0);
    RunEnd(t, 0, 0, Whitespace);
    RunEnd(t, 1, 1, Whitespace);
    assert ParseAt(t, 0) == Step(Ok(Number(4)), 1);
    assert t[1..] == ".a";
  }

  /**
   * `""` is not the empty string: the body scan finds no character, the error
   * leaves the closing quote unread, and trailing text is what gets reported.
   */
  lemma EmptyStringLiteralIsRejected()
    ensures Parse("\"\"") == Err(ScannerError(HasMoreText("\"")))
  {
    var t := "\"\"";
    assert StringAt(t, 0) == Step(Err(ScannerError(MustBeString)), 1);
    DispatchString(t, 0);
    RunEnd(t, 0, 0, Whitespace);
    RunEnd(t, 1, 1, Whitespace);
    assert ParseAt(t, 0) == Step(Err(ScannerError(MustBeString)), 1);
    assert t[1..] == "\"";
  }

  /** `(a)` does not read: the symbol takes the closing parenthesis. */
  lemma OneSymbolListIsUnclosed()
    ensures Parse("(a)") == Err(ScannerError(MissingClosingParen))
  {
    SymbolSwallowsClosingParen("a");
  }

  /** `()` is the empty list. */
  lemma EmptyListReads()
    ensures Parse("()") == Ok(Sexp([]))
  {
    assert Render(Sexp([]), ShowLexeme) == "()";
    ParseRender(Sexp([]), ShowLexeme);
  }

  /** `( )` is not the empty list: the space is not `)`, so an element is read, and it is the symbol `)`. */
  lemma SpaceInEmptyListIsUnclosed()
    ensures Parse("( )") == Err(ScannerError(MissingClosingParen))
  {
    assert "(" + " " + ")" == "( )";
    Layout.BlankEmptyListIsUnclosed(" ");
  }

  /** `(a )` reads: the space ends the symbol before the closing parenthesis, unlike in `(a)`. */
  lemma SpaceBeforeClosingParenReads()
    ensures Parse("(a )") == Ok(Sexp([Symbol("a")]))
  {
    var t := "(a )";
    RunEnd(t, 0, 0, Whitespace);
    RunEnd(t, 1, 1, Whitespace);
    RunEnd(t, 2, 2, SymbolChar);
    RunEnd(t, 2, 3, Whitespace);
    RunEnd(t, 4, 4, Whitespace);
    SymbolValueAt(t, 1, 2, "a");
    assert ParseAt(t, 1) == Step(Ok(Symbol("a")), 3);
    assert SexpItems(t, 3, [Symbol("a")]) == Step(Ok(Sexp([Symbol("a")])), 4);
    assert SexpItems(t, 1, []) == SexpItems(t, 3, [Symbol("a")]);
    DispatchSexp(t, 0);
  }

  /** `((a` panics: the inner list's missing parenthesis reaches the outer list's `unwrap`. */
  lemma NestedUnclosedListPanics()
    ensures Parse("((a") == Abort(UnwrapOnErr(ScannerError(MissingClosingParen)))
  {
    var t := "((a";
    RunEnd(t, 0, 0, Whitespace);
    RunEnd(t, 1, 1, Whitespace);
    RunEnd(t, 2, 2, Whitespace);
    RunEnd(t, 3, 3, SymbolChar);
    RunEnd(t, 3, 3, Whitespace);
    SymbolValueAt(t, 2, 3, "a");
    assert ParseAt(t, 2) == Step(Ok(Symbol("a")), 3);
    assert SexpItems(t, 2, []) == Step(Err(ScannerError(MissingClosingParen)), 3);
    DispatchSexp(t, 1);
    assert ParseAt(t, 1) == Step(Err(ScannerError(MissingClosingParen)), 3);
    ElementErrorPanics(t, 1, []);
    DispatchSexp(t, 0);
  }

  /** `("a` panics: the string element's missing quote reaches the list's `unwrap`. */
  lemma UnterminatedStringInListPanics()
    ensures Parse("(\"a") == Abort(UnwrapOnErr(ScannerError(MissingClosingQuote)))
  {
    var t := "(\"a";
    RunEnd(t, 0, 0, Whitespace);
    RunEnd(t, 1, 1, Whitespace);
    RunEnd(t, 3, 3, NotQuote);
    RunEnd(t, 3, 3, Whitespace);
    assert StringAt(t, 1) == Step(Err(ScannerError(MissingClosingQuote)), 3);
    DispatchString(t, 1);
    assert ParseAt(t, 1) == Step(Err(ScannerError(MissingClosingQuote)), 3);
    ElementErrorPanics(t, 1, []);
    DispatchSexp(t, 0);
  }

  /** `)` alone reads as a symbol; only inside a list is it a closing parenthesis. */
  lemma ClosingParenAloneIsASymbol()
    ensures Parse(")") == Ok(Symbol(")"))
  {
    SymbolTokenReadsBack(")");
  }

  /**
   * Trailing whitespace matters after an error: the space gives the string
   * body a character, so `"` fails with `must be string` but `" ` with
   * `missing closing quote`.
   */
  lemma TrailingSpaceChangesStringError()
    ensures Parse("\"") == Err(ScannerError(MustBeString))
    ensures Parse("\" ") == Err(ScannerError(MissingClosingQuote))
  {
    var t := "\"";
    RunEnd(t, 0, 0, Whitespace);
    RunEnd(t, 1, 1, Whitespace);
    assert StringAt(t, 0) == Step(Err(ScannerError(MustBeString)), 1);
    DispatchString(t, 0);
    var u := "\" ";
    RunEnd(u, 0, 0, Whitespace);
    RunEnd(u, 2, 2, NotQuote);
    RunEnd(u, 2, 2, Whitespace);
    assert StringAt(u, 0) == Step(Err(ScannerError(MissingClosingQuote)), 2);
    DispatchString(u, 0);
  }

  /** One past `i32::MAX` panics; `i32::MAX` itself reads back. */
  lemma I32Boundary()
    ensures Parse(Digits(2147483648)) == Abort(IntOverflow(Digits(2147483648)))
    ensures Parse(Digits(2147483647)) == Ok(Number(2147483647))
  {
    OverflowPanics(2147483648);
    ParseRender(Number(2147483647), ShowLexeme);
  }

  /** Whitespace around a value is skipped on both sides. */
  lemma WhitespaceAroundValue()
    ensures Parse(" \t(+ 1 2)\n") == Ok(Sexp([Symbol("+"), Number(1), Number(2)]))
  {
    var items := [Symbol("+"), Number(1), Number(2)];
    RenderPlusOneTwo();
    AllReadableElements(items, ShowLexeme);
    ParseRenderPadded(Sexp(items), ShowLexeme, "\n");
    assert " \t(+ 1 2)\n" == " \t" + ("(+ 1 2)" + "\n");
    Shifting.LeadingWhitespaceIgnored(" \t", "(+ 1 2)" + "\n");
  }
}
