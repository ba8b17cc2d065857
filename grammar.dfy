/**
 * A functional reference definition of the recursive-descent reader
 * (src/main.rs, lines 66-94 and 127-190). Each function takes the text and
 * the cursor position at which the corresponding Rust function is entered,
 * and gives the outcome together with the cursor position it leaves behind.
 */
module Grammar {
  import opened Wrappers
  import opened Chars
  import opened TextScanner
  import opened Lexemes
  import opened Values

  datatype Step = Step(outcome: Outcome, pos: nat)

  /** The messages `parse_internal` and the functions below it can return. */
  predicate IsInnerMessage(m: string) {
    m == OutOfBounds || m == MustBeString || m == MissingClosingQuote || m == MissingClosingParen
  }

  /** `parse_string`, entered on an opening quote. */
  function StringAt(t: seq<char>, j: nat): (r: Step)
    requires j < |t| && IsQuote(t[j])
    ensures j < r.pos <= |t|
    ensures r.outcome.Err? ==> r.outcome.error.msg == MustBeString || r.outcome.error.msg == MissingClosingQuote
    ensures r.outcome.Ok? ==>
      && j + 2 < r.pos && IsQuote(t[r.pos - 1])
      && r.outcome.value == String(t[j + 1..r.pos - 1])
    ensures !r.outcome.Abort?
  {
    match StringBodyEnd(t, j + 1)
    case None => Step(Err(ScannerError(MustBeString)), j + 1)
    case Some(e) =>
      if e < |t| && IsQuote(t[e]) then Step(Ok(String(t[j + 1..e])), e + 1)
      else Step(Err(ScannerError(MissingClosingQuote)), e)
  }

  /**
   * `parse_number`, entered on a digit: the float grammar first, and on its
   * failure the integer grammar from the same position.
   */
  function NumberAt(t: seq<char>, j: nat): (r: Step)
    requires j < |t| && IsNumber(t[j])
    ensures j < r.pos <= |t|
    ensures !r.outcome.Err?
    ensures r.outcome.Ok? ==> r.outcome.value.Float? || r.outcome.value.Number?
  {
    match FloatEnd(t, j)
    case Some(e) => Step(Ok(Float(t[j..e])), e)
    case None =>
      // the `unwrap` of `scan_with(scan_number)`: it cannot fail on a digit
      var e := NumberEnd(t, j).value;
      NumberDigits(t, j);
      var n := DecimalValue(t[j..e]);
      if n <= I32Max then Step(Ok(Number(n as i32)), e)
      else Step(Abort(IntOverflow(t[j..e])), e)
  }

  /** `parse_symbol`, entered on a non-whitespace character. */
  function SymbolAt(t: seq<char>, j: nat): (r: Step)
    requires j < |t| && IsSymbolChar(t[j])
    ensures j < r.pos <= |t|
    ensures r.outcome == Ok(Symbol(t[j..r.pos]))
    ensures r.pos == |t| || IsWhitespace(t[r.pos])
  {
    // the `unwrap` of `scan_with(scan_symbol)`: it cannot fail on a non-whitespace character
    var e := SymbolEnd(t, j).value;
    Step(Ok(Symbol(t[j..e])), e)
  }

  /**
   * `parse_internal`: skip whitespace, fail with `out of bounds` at the end of
   * the text, otherwise read a value and skip the whitespace after it.
   */
  function ParseAt(t: seq<char>, i: nat): (r: Step)
    requires i <= |t|
    ensures i <= r.pos <= |t|
    ensures r.outcome.Ok? ==> i < r.pos
    ensures !r.outcome.Abort? ==> r.pos == |t| || !IsWhitespace(t[r.pos])
    ensures r.outcome.Err? ==> IsInnerMessage(r.outcome.error.msg)
    ensures r.outcome == Err(ScannerError(OutOfBounds)) <==> SkipRun(t, i, Whitespace) == |t|
    decreases |t| - i, 3
  {
    var j := SkipRun(t, i, Whitespace);
    if j == |t| then Step(Err(ScannerError(OutOfBounds)), j)
    else
      var r := ValueAt(t, j);
      if r.outcome.Abort? then r else Step(r.outcome, SkipRun(t, r.pos, Whitespace))
  }

  /** The dispatch of `parse_internal` on the first character of a value. */
  function ValueAt(t: seq<char>, j: nat): (r: Step)
    requires j < |t| && !IsWhitespace(t[j])
    ensures j < r.pos <= |t|
    ensures r.outcome.Err? ==> IsInnerMessage(r.outcome.error.msg) && r.outcome.error.msg != OutOfBounds
    decreases |t| - j, 2
  {
    if IsQuote(t[j]) then StringAt(t, j)
    else if IsOpenParen(t[j]) then SexpAt(t, j)
    else if IsNumber(t[j]) then NumberAt(t, j)
    else SymbolAt(t, j)
  }

  /** `parse_sexp`, entered on an opening parenthesis. */
  function SexpAt(t: seq<char>, j: nat): (r: Step)
    requires j < |t| && IsOpenParen(t[j])
    ensures j < r.pos <= |t|
    ensures r.outcome.Err? ==> r.outcome.error.msg == MissingClosingParen && r.pos == |t|
    ensures r.outcome.Ok? ==> r.outcome.value.Sexp? && IsClosedParen(t[r.pos - 1])
    decreases |t| - j, 1
  {
    // the `unwrap` of `accept_if(is_open_paren)` cannot fail here
    SexpItems(t, j + 1, [])
  }

  /**
   * The `while let` loop of `parse_sexp` and the closing parenthesis after
   * it, entered at position `j` with the elements `acc` already read.
   */
  function SexpItems(t: seq<char>, j: nat, acc: seq<Lval>): (r: Step)
    requires j <= |t|
    ensures j <= r.pos <= |t|
    ensures r.outcome.Err? ==> r.outcome.error.msg == MissingClosingParen && r.pos == |t|
    ensures r.outcome.Ok? ==>
      && j < r.pos && IsClosedParen(t[r.pos - 1])
      && r.outcome.value.Sexp? && acc <= r.outcome.value.items
    decreases |t| - j, 4
  {
    if j == |t| then Step(Err(ScannerError(MissingClosingParen)), j)
    else if IsClosedParen(t[j]) then Step(Ok(Sexp(acc)), j + 1)
    else
      var e := ParseAt(t, j);
      match e.outcome
      case Ok(v) => SexpItems(t, SkipRun(t, e.pos, Whitespace), acc + [v])
      case Err(err) => Step(Abort(UnwrapOnErr(err)), e.pos)
      case Abort(_) => e
  }

  /**
   * `parse`: read one value and fail with the exact remaining text when
   * anything is left, whatever the value was. A panic unwinds before that check.
   */
  function Parse(s: seq<char>): Outcome {
    var st := ParseAt(s, 0);
    if st.outcome.Abort? then st.outcome
    else if st.pos < |s| then Err(ScannerError(HasMoreText(s[st.pos..])))
    else st.outcome
  }
}
