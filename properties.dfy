/**
 * Properties of the reader, proved about the reference definition in
 * `Grammar` (and so, through the contracts in `Reader`, about the
 * procedures the source runs).
 */
module Properties {
  import opened Wrappers
  import opened Chars
  import opened TextScanner
  import opened Lexemes
  import opened Values
  import opened Grammar

  /** A string value is the text between two quotes and holds no quote itself. */
  lemma StringHoldsNoQuote(t: seq<char>, j: nat)
    requires j < |t| && IsQuote(t[j]) && StringAt(t, j).outcome.Ok?
    ensures forall k :: j < k < StringAt(t, j).pos - 1 ==> !IsQuote(t[k])
  {
    StringBodySpan(t, j + 1);
  }

  /**
   * Which input gives which string error: `must be string` exactly when no
   * character, or a second quote, follows the opening quote; `missing closing
   * quote` exactly when the body runs to the end of the text.
   */
  lemma StringErrorCases(t: seq<char>, j: nat)
    requires j < |t| && IsQuote(t[j])
    ensures StringAt(t, j).outcome == Err(ScannerError(MustBeString)) <==> j + 1 == |t| || IsQuote(t[j + 1])
    ensures StringAt(t, j).outcome == Err(ScannerError(MissingClosingQuote)) <==>
      j + 1 < |t| && forall k :: j < k < |t| ==> !IsQuote(t[k])
  {
    if j + 1 < |t| && !IsQuote(t[j + 1]) {
      SkipRunSpan(t, j + 2, NotQuote);
      if forall k :: j < k < |t| ==> !IsQuote(t[k]) {
        RunEnd(t, j + 2, |t|, NotQuote);
      }
    }
  }

  /** A symbol is the maximal run of non-whitespace characters from where it starts. */
  lemma SymbolIsMaximalRun(t: seq<char>, j: nat)
    requires j < |t| && IsSymbolChar(t[j])
    ensures forall k :: j <= k < SymbolAt(t, j).pos ==> IsSymbolChar(t[k])
    ensures SymbolAt(t, j).pos == SkipRun(t, j, SymbolChar)
  {
    SymbolSpan(t, j);
  }

  /**
   * Every error `parse` returns is either one of the inner messages, when the
   * value reaches the end of the text, or `has more text` with exactly the
   * text after the value.
   */
  lemma ParseErrors(s: string)
    requires Parse(s).Err?
    ensures var st := ParseAt(s, 0);
      || (st.pos == |s| && IsInnerMessage(Parse(s).error.msg))
      || (st.pos < |s| && Parse(s).error.msg == HasMoreText(s[st.pos..]))
  {
  }

  /** Empty or all-whitespace input, and only that, reads as `out of bounds`. */
  lemma AllWhitespaceIsOutOfBounds(s: string)
    ensures (forall k :: 0 <= k < |s| ==> IsWhitespace(s[k])) <==> Parse(s) == Err(ScannerError(OutOfBounds))
  {
    var j := SkipRun(s, 0, Whitespace);
    if forall k :: 0 <= k < |s| ==> IsWhitespace(s[k]) {
      RunEnd(s, 0, |s|, Whitespace);
    } else {
      var k :| 0 <= k < |s| && !IsWhitespace(s[k]);
      SkipRunSpan(s, 0, Whitespace);
      assert j <= k;
      var st := ParseAt(s, 0);
      if !st.outcome.Abort? && st.pos < |s| {
        assert HasMoreText(s[st.pos..])[0] == 'h';
      }
    }
  }

  /** Parts of one digit-led token: the digit run from `j`, and whether a fraction follows it. */
  predicate HasFraction(t: seq<char>, d: nat)
    requires d <= |t|
  {
    d + 1 < |t| && IsPeriod(t[d]) && IsNumber(t[d + 1])
  }

  /**
   * A digit-led token is a `Float` exactly when its digit run is followed by
   * a period and another digit; otherwise the cursor is back on the first
   * digit after the failed float attempt, and the same digits are read again
   * as a `Number` (or overflow `i32` and panic), leaving any period behind.
   */
  lemma NumberTokenCases(t: seq<char>, j: nat)
    requires j < |t| && IsNumber(t[j])
    ensures var d := SkipRun(t, j, Digit);
      HasFraction(t, d) ==> NumberAt(t, j) == Step(Ok(Float(t[j..SkipRun(t, d + 1, Digit)])), SkipRun(t, d + 1, Digit))
    ensures var d := SkipRun(t, j, Digit);
      !HasFraction(t, d) ==> NumberAt(t, j).pos == d && AllDigits(t[j..d])
    ensures var d := SkipRun(t, j, Digit);
      !HasFraction(t, d) && AllDigits(t[j..d]) && DecimalValue(t[j..d]) <= I32Max ==>
        NumberAt(t, j).outcome == Ok(Number(DecimalValue(t[j..d]) as i32))
    ensures var d := SkipRun(t, j, Digit);
      !HasFraction(t, d) && AllDigits(t[j..d]) && DecimalValue(t[j..d]) > I32Max ==>
        NumberAt(t, j).outcome == Abort(IntOverflow(t[j..d]))
  {
    var d := SkipRun(t, j, Digit);
    assert SkipRun(t, j + 1, Digit) == d;
    NumberDigits(t, j);
    if HasFraction(t, d) {
      SkipRunSpan(t, d + 1, Digit);
      RunEnd(t, d + 2, SkipRun(t, d + 1, Digit), Digit);
    }
  }

  /**
   * When text is left after the value, `parse` reports exactly that text,
   * whatever the value or inner error was; the text reported starts with a
   * character that is not whitespace.
   */
  lemma TrailingTextOverrides(s: string)
    requires ParseAt(s, 0).pos < |s| && !ParseAt(s, 0).outcome.Abort?
    ensures Parse(s) == Err(ScannerError(HasMoreText(s[ParseAt(s, 0).pos..])))
    ensures !IsWhitespace(s[ParseAt(s, 0).pos])
  {
  }

  /** `Parse` succeeds only when the value spans the whole text. */
  lemma ParsedValueSpansInput(s: string)
    requires Parse(s).Ok?
    ensures ParseAt(s, 0) == Step(Parse(s), |s|)
  {
  }

  /**
   * Within a list, an element that reads as an error does not propagate as
   * an error: the `unwrap` panics.
   */
  lemma ElementErrorPanics(t: seq<char>, j: nat, acc: seq<Lval>)
    requires j < |t| && !IsClosedParen(t[j]) && ParseAt(t, j).outcome.Err?
    ensures SexpItems(t, j, acc).outcome == Abort(UnwrapOnErr(ParseAt(t, j).outcome.error))
  {
  }

  /** A list holding nothing but whitespace, with no closing parenthesis, panics reading its first element. */
  lemma OpenParenThenWhitespacePanics(w: string)
    requires |w| > 0 && forall k :: 0 <= k < |w| ==> IsWhitespace(w[k])
    ensures Parse("(" + w) == Abort(UnwrapOnErr(ScannerError(OutOfBounds)))
  {
    var t := "(" + w;
    RunEnd(t, 0, 0, Whitespace);
    RunEnd(t, 1, |t|, Whitespace);
    assert t[1] == w[0];
    assert ParseAt(t, 1) == Step(Err(ScannerError(OutOfBounds)), |t|);
    assert !IsClosedParen(t[1]);
    assert SexpAt(t, 0) == Step(Abort(UnwrapOnErr(ScannerError(OutOfBounds))), |t|);
    assert ValueAt(t, 0) == SexpAt(t, 0);
  }

  /** A symbol token: non-empty, no whitespace, and not led by a quote, a parenthesis or a digit. */
  predicate IsSymbolToken(a: string) {
    && |a| > 0
    && (forall k :: 0 <= k < |a| ==> IsSymbolChar(a[k]))
    && !IsQuote(a[0]) && !IsOpenParen(a[0]) && !IsNumber(a[0])
  }

  /**
   * `scan_symbol` takes every non-whitespace character, a closing parenthesis
   * included, so a one-symbol list never sees its closing parenthesis.
   */
  lemma SymbolSwallowsClosingParen(a: string)
    requires IsSymbolToken(a) && !IsClosedParen(a[0])
    ensures Parse("(" + a + ")") == Err(ScannerError(MissingClosingParen))
  {
    var t := "(" + a + ")";
    assert forall k :: 1 <= k < |t| ==> IsSymbolChar(t[k]) by {
      forall k | 1 <= k < |t| ensures IsSymbolChar(t[k]) {
        if k < |t| - 1 {
          assert t[k] == a[k - 1];
        }
      }
    }
    RunEnd(t, 0, 0, Whitespace);
    RunEnd(t, 1, 1, Whitespace);
    RunEnd(t, 2, |t|, SymbolChar);
    RunEnd(t, |t|, |t|, Whitespace);
    assert t[1] == a[0];
    assert SymbolAt(t, 1) == Step(Ok(Symbol(t[1..|t|])), |t|);
    assert ParseAt(t, 1) == Step(Ok(Symbol(t[1..|t|])), |t|);
    assert !IsClosedParen(t[1]);
    assert SexpItems(t, 1, []) == SexpItems(t, |t|, [Symbol(t[1..|t|])]);
    assert SexpAt(t, 0) == Step(Err(ScannerError(MissingClosingParen)), |t|);
    assert ValueAt(t, 0) == SexpAt(t, 0);
  }
}
