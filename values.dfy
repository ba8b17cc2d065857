/**
 * The reader's data model (src/main.rs, lines 10-52): the `Lval` tree, the
 * `ParseError` it reports, the outcome of a parse including the panics of
 * `unwrap`, and the `Display` renderings (lines 27-34 and 289-302).
 */
module Values {
  import opened Chars

  const I32Min: int := -0x8000_0000
  const I32Max: int := 0x7FFF_FFFF

  newtype i32 = x: int | -0x8000_0000 <= x < 0x8000_0000

  datatype Lval =
    | Number(n: i32)
    | Float(lexeme: string)   // the value `lexeme.parse::<f64>()` would give
    | Symbol(name: string)
    | String(str: string)
    | Sexp(items: seq<Lval>)

  /** `ParseError::ScannerError`; the `IoError` variant belongs to the input loop. */
  datatype ParseError = ScannerError(msg: string)

  /** Why a Rust `unwrap` panicked. */
  datatype Panic =
    | UnwrapOnErr(error: ParseError)   // `parse_internal(scanner).unwrap()` on a list element
    | IntOverflow(digits: string)      // `i32::from_str_radix(s, 10).unwrap()` out of range

  /** A `Result<Lval, ParseError>`, or a panic that unwinds past every caller. */
  datatype Outcome = Ok(value: Lval) | Err(error: ParseError) | Abort(panic: Panic)

  const OutOfBounds: string := "out of bounds"
  const MustBeString: string := "must be string"
  const MissingClosingQuote: string := "missing closing quote"
  const MissingClosingParen: string := "missing closing paren"

  function HasMoreText(rest: string): string {
    "has more text \"" + rest + "\""
  }

  /** `Display for ParseError`; the text of every message starts with the same prefix. */
  function ErrorText(e: ParseError): (s: string)
    ensures s == "scanner error: " + e.msg
  {
    match e
    case ScannerError(m) => "scanner error: " + m
  }

  /** The value of an ASCII digit: its place among the ten digits. */
  function DigitValue(c: char): (d: nat)
    requires IsNumber(c)
    ensures d <= 9 && "0123456789"[d] == c
  {
    (c as int) - ('0' as int)
  }

  function DigitChar(d: nat): (c: char)
    requires d <= 9
    ensures IsNumber(c) && DigitValue(c) == d
  {
    (('0' as int) + d) as char
  }

  /** The value `i32::from_str_radix(s, 10)` reads from a digit string, before the range check. */
  function DecimalValue(s: string): nat
    requires AllDigits(s)
    decreases |s|
  {
    if s == [] then 0 else DecimalValue(s[..|s| - 1]) * 10 + DigitValue(s[|s| - 1])
  }

  /** The shortest decimal digit string of `n`. */
  function Digits(n: nat): (s: string)
    ensures |s| > 0 && AllDigits(s)
    ensures DecimalValue(s) == n
    ensures s[0] == '0' ==> n == 0 && s == "0"
    decreases n
  {
    if n < 10 then [DigitChar(n)]
    else
      var s := Digits(n / 10) + [DigitChar(n % 10)];
      assert s[..|s| - 1] == Digits(n / 10);
      s
  }

  /** A digit string that does not start with `0` has a positive value. */
  lemma {:induction false} DecimalValuePositive(s: string)
    requires AllDigits(s) && |s| > 0 && s[0] != '0'
    ensures DecimalValue(s) > 0
    decreases |s|
  {
    if |s| > 1 {
      DecimalValuePositive(s[..|s| - 1]);
    }
  }

  /**
   * `from_str_radix` and `Display` are inverse on digit strings without a
   * leading zero: the value read from such a string renders as that string.
   */
  lemma {:induction false} DigitsOfDecimalValue(s: string)
    requires AllDigits(s) && |s| > 0 && (s[0] == '0' ==> s == "0")
    ensures Digits(DecimalValue(s)) == s
    decreases |s|
  {
    var c := s[|s| - 1];
    assert DigitChar(DigitValue(c)) == c;
    if |s| > 1 {
      var front := s[..|s| - 1];
      DecimalValuePositive(front);
      DigitsOfDecimalValue(front);
      var n := DecimalValue(s);
      assert n / 10 == DecimalValue(front) && n % 10 == DigitValue(c);
      assert s == front + [c];
    }
  }

  /** Decimal rendering of an integer, with a leading `-` for negative values. */
  function IntToText(i: int): string {
    if i < 0 then "-" + Digits(-i) else Digits(i)
  }

  /** `slice.join(sep)`. */
  function Join(parts: seq<string>, sep: string): string
    decreases |parts|
  {
    if |parts| == 0 then ""
    else if |parts| == 1 then parts[0]
    else parts[0] + sep + Join(parts[1..], sep)
  }

  /**
   * `Display for Lval`. Floating-point formatting is outside the model, so the
   * text of a `Float` is given by `showFloat`.
   */
  function Render(v: Lval, showFloat: string -> string): string
    decreases v
  {
    match v
    case Sexp(items) =>
      "(" + Join(seq(|items|, k requires 0 <= k < |items| => Render(items[k], showFloat)), " ") + ")"
    case Symbol(s) => s
    case String(s) => "\"" + s + "\""
    case Number(i) => IntToText(i as int)
    case Float(x) => showFloat(x)
  }

  /** `eval`: the evaluator returns a clone of the value it is given. */
  function Eval(l: Lval): (r: Lval)
    ensures r == l
  {
    l
  }
}
