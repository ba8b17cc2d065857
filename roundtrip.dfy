/**
 * `Display for Lval` (src/main.rs, lines 289-302) and the reader are
 * inverses on the values the reader can produce from their own rendering:
 * reading the rendering of such a value gives the value back.
 */
module RoundTrip {
  import opened Wrappers
  import opened Chars
  import opened TextScanner
  import opened Lexemes
  import opened Values
  import opened Grammar
  import opened Properties

  /** The text `r` occurs in `t` starting at position `j`. */
  predicate At(t: seq<char>, j: nat, r: seq<char>) {
    j + |r| <= |t| && forall k :: 0 <= k < |r| ==> t[j + k] == r[k]
  }

  lemma AtIndex(t: seq<char>, j: nat, r: seq<char>, k: nat)
    requires At(t, j, r) && k < |r|
    ensures j + k < |t| && t[j + k] == r[k]
  {
  }

  lemma AtSplit(t: seq<char>, j: nat, a: seq<char>, b: seq<char>)
    requires At(t, j, a + b)
    ensures At(t, j, a) && At(t, j + |a|, b)
  {
    forall k | 0 <= k < |a| ensures t[j + k] == a[k] {
      assert (a + b)[k] == a[k];
    }
    forall k | 0 <= k < |b| ensures t[j + |a| + k] == b[k] {
      assert t[j + (|a| + k)] == (a + b)[|a| + k];
    }
  }

  lemma AtSlice(t: seq<char>, j: nat, r: seq<char>)
    requires At(t, j, r)
    ensures t[j..j + |r|] == r
  {
    var slice := t[j..j + |r|];
    assert forall k :: 0 <= k < |r| ==> slice[k] == t[j + k];
  }

  /** A run of `p` in `r` is a run of `p` where `r` occurs, ending where the next character fails `p`. */
  lemma AtRun(t: seq<char>, j: nat, r: seq<char>, p: CharClass)
    requires At(t, j, r) && |r| > 0
    requires forall k :: 1 <= k < |r| ==> Matches(p, r[k])
    requires j + |r| == |t| || !Matches(p, t[j + |r|])
    ensures SkipRun(t, j + 1, p) == j + |r|
  {
    assert forall k :: j + 1 <= k < j + |r| ==> Matches(p, t[k]) by {
      forall k | j + 1 <= k < j + |r| ensures Matches(p, t[k]) {
        assert t[j + (k - j)] == r[k - j];
      }
    }
    RunEnd(t, j + 1, j + |r|, p);
  }

  /** The renderings of a list's elements, as `Display` joins them. */
  function Rendered(items: seq<Lval>, showFloat: string -> string): (parts: seq<string>)
    ensures |parts| == |items|
  {
    seq(|items|, k requires 0 <= k < |items| => Render(items[k], showFloat))
  }

  lemma RenderSexp(items: seq<Lval>, showFloat: string -> string)
    ensures Render(Sexp(items), showFloat) == "(" + Join(Rendered(items, showFloat), " ") + ")"
  {
  }

  /** Joining the renderings of a non-empty list peels off its first element. */
  lemma JoinRenderedCons(items: seq<Lval>, showFloat: string -> string)
    requires |items| > 0
    ensures |items| == 1 ==> Join(Rendered(items, showFloat), " ") == Render(items[0], showFloat)
    ensures |items| > 1 ==>
      Join(Rendered(items, showFloat), " ") == Render(items[0], showFloat) + " " + Join(Rendered(items[1..], showFloat), " ")
  {
    assert Rendered(items, showFloat)[1..] == Rendered(items[1..], showFloat);
  }

  /**
   * A value whose rendering reads back as itself: numbers are not negative
   * (a `-` starts a symbol), floats render as their own lexeme, symbols are
   * symbol tokens that do not start with `)`, strings are not empty and hold
   * no quote, and the last element of a list is not a symbol (it would
   * swallow the closing parenthesis).
   */
  ghost predicate Readable(v: Lval, showFloat: string -> string)
    decreases v
  {
    match v
    case Number(n) => n >= 0
    case Float(x) => showFloat(x) == x && IsFloatLexeme(x)
    case Symbol(a) => IsSymbolToken(a) && !IsClosedParen(a[0])
    case String(b) => |b| > 0 && forall k :: 0 <= k < |b| ==> !IsQuote(b[k])
    case Sexp(items) => AllReadable(items, showFloat) && (|items| > 0 ==> !items[|items| - 1].Symbol?)
  }

  /** Every element of `items` is readable. */
  ghost predicate AllReadable(items: seq<Lval>, showFloat: string -> string)
    decreases items
  {
    |items| > 0 ==> Readable(items[0], showFloat) && AllReadable(items[1..], showFloat)
  }

  lemma {:induction false} AllReadableElements(items: seq<Lval>, showFloat: string -> string)
    ensures AllReadable(items, showFloat) <==> forall k :: 0 <= k < |items| ==> Readable(items[k], showFloat)
    decreases items
  {
    if |items| > 0 {
      AllReadableElements(items[1..], showFloat);
      assert forall k :: 1 <= k < |items| ==> items[k] == items[1..][k - 1];
    }
  }

  /** What may follow the rendering of `v` without becoming part of it. */
  predicate Delimits(t: seq<char>, e: nat, v: Lval)
    requires e <= |t|
  {
    e == |t| || IsWhitespace(t[e]) || (IsClosedParen(t[e]) && !v.Symbol?)
  }

  /** The dispatch of `parse_internal`, one case at a time. */
  lemma DispatchNumber(t: seq<char>, j: nat)
    requires j < |t| && IsNumber(t[j])
    ensures !IsWhitespace(t[j]) && ValueAt(t, j) == NumberAt(t, j)
  {
  }

  lemma DispatchString(t: seq<char>, j: nat)
    requires j < |t| && IsQuote(t[j])
    ensures !IsWhitespace(t[j]) && ValueAt(t, j) == StringAt(t, j)
  {
  }

  lemma DispatchSexp(t: seq<char>, j: nat)
    requires j < |t| && IsOpenParen(t[j])
    ensures !IsWhitespace(t[j]) && ValueAt(t, j) == SexpAt(t, j)
  {
  }

  lemma IntegerValueAt(t: seq<char>, j: nat, e: nat, n: i32)
    requires j < |t| && IsNumber(t[j]) && SkipRun(t, j + 1, Digit) == e
    requires e == |t| || !IsPeriod(t[e])
    requires e <= |t| && n >= 0 && t[j..e] == Digits(n as int)
    ensures ValueAt(t, j) == Step(Ok(Number(n)), e)
  {
    NumberDigits(t, j);
  }

  lemma SymbolValueAt(t: seq<char>, j: nat, e: nat, a: string)
    requires j < |t| && IsSymbolChar(t[j]) && !IsQuote(t[j]) && !IsOpenParen(t[j]) && !IsNumber(t[j])
    requires SkipRun(t, j + 1, SymbolChar) == e && e <= |t| && t[j..e] == a
    ensures ValueAt(t, j) == Step(Ok(Symbol(a)), e)
  {
  }

  lemma StringValueAt(t: seq<char>, j: nat, e: nat, b: string)
    requires j + 1 < |t| && IsQuote(t[j]) && IsNotQuote(t[j + 1]) && SkipRun(t, j + 2, NotQuote) == e
    requires e < |t| && IsQuote(t[e]) && t[j + 1..e] == b
    ensures ValueAt(t, j) == Step(Ok(String(b)), e + 1)
  {
  }

  lemma FloatValueAt(t: seq<char>, j: nat, e: nat, x: string)
    requires j < |t| && IsNumber(t[j]) && FloatEnd(t, j) == Some(e) && t[j..e] == x
    ensures ValueAt(t, j) == Step(Ok(Float(x)), e)
  {
  }

  /** A delimiter is neither a digit nor a period, so it ends every number and float lexeme. */
  lemma DelimiterEndsNumber(t: seq<char>, e: nat, v: Lval)
    requires e <= |t| && Delimits(t, e, v)
    ensures e == |t| || (!IsNumber(t[e]) && !IsPeriod(t[e]))
  {
  }

  /** Only whitespace or the end of the text ends a symbol. */
  lemma DelimiterEndsSymbol(t: seq<char>, e: nat, a: string)
    requires e <= |t| && Delimits(t, e, Symbol(a))
    ensures e == |t| || !IsSymbolChar(t[e])
  {
  }

  /** The rendering of a readable value starts with a character that opens a value. */
  lemma RenderStart(v: Lval, showFloat: string -> string)
    requires Readable(v, showFloat)
    ensures |Render(v, showFloat)| > 0
    ensures !IsWhitespace(Render(v, showFloat)[0]) && !IsClosedParen(Render(v, showFloat)[0])
  {
    match v
    case Float(x) =>
      var d :| 0 < d < |x| - 1 && AllDigits(x[..d]) && IsPeriod(x[d]) && AllDigits(x[d + 1..]);
      assert x[..d][0] == x[0];
    case Number(n) =>
    case Symbol(a) =>
    case String(b) =>
    case Sexp(items) =>
  }

  lemma NumberRender(t: seq<char>, j: nat, n: i32)
    requires n >= 0 && At(t, j, Digits(n as int)) && Delimits(t, j + |Digits(n as int)|, Number(n))
    ensures j < |t| && !IsWhitespace(t[j])
    ensures ValueAt(t, j) == Step(Ok(Number(n)), j + |Digits(n as int)|)
  {
    var r := Digits(n as int);
    DelimiterEndsNumber(t, j + |r|, Number(n));
    AtIndex(t, j, r, 0);
    AtRun(t, j, r, Digit);
    AtSlice(t, j, r);
    IntegerValueAt(t, j, j + |r|, n);
  }

  lemma AtSub(t: seq<char>, j: nat, r: seq<char>, a: nat, b: nat)
    requires At(t, j, r) && a <= b <= |r|
    ensures At(t, j + a, r[a..b])
  {
    forall k | 0 <= k < b - a ensures t[j + a + k] == r[a..b][k] {
      assert t[j + (a + k)] == r[a + k];
    }
  }

  /** `scan_float` over a digit run of length `d`, a period and a second digit run. */
  lemma FloatPartsAt(t: seq<char>, j: nat, x: string, d: nat)
    requires 0 < d < |x| - 1 && AllDigits(x[..d]) && IsPeriod(x[d]) && AllDigits(x[d + 1..])
    requires At(t, j, x)
    requires j + |x| == |t| || !IsNumber(t[j + |x|])
    ensures IsNumber(x[0])
    ensures FloatEnd(t, j) == Some(j + |x|)
  {
    AtIndex(t, j, x, 0);
    AtIndex(t, j, x, d);
    AtIndex(t, j, x, d + 1);
    assert IsNumber(x[0]) by {
      assert x[..d][0] == x[0];
    }
    assert IsNumber(x[d + 1]) by {
      assert x[d + 1..][0] == x[d + 1];
    }
    assert SkipRun(t, j + 1, Digit) == j + d by {
      AtSub(t, j, x, 0, d);
      AtRun(t, j, x[0..d], Digit);
    }
    assert SkipRun(t, j + d + 2, Digit) == j + |x| by {
      AtSub(t, j, x, d + 1, |x|);
      AtRun(t, j + d + 1, x[d + 1..|x|], Digit);
    }
  }

  /** `scan_float` takes exactly a float lexeme that is not followed by a digit. */
  lemma FloatEndAt(t: seq<char>, j: nat, x: string, e: nat)
    requires IsFloatLexeme(x) && At(t, j, x) && e == j + |x|
    requires e == |t| || !IsNumber(t[e])
    ensures j < |t| && IsNumber(t[j]) && e <= |t|
    ensures FloatEnd(t, j) == Some(e) && t[j..e] == x
  {
    var d :| 0 < d < |x| - 1 && AllDigits(x[..d]) && IsPeriod(x[d]) && AllDigits(x[d + 1..]);
    FloatPartsAt(t, j, x, d);
    AtIndex(t, j, x, 0);
    AtSlice(t, j, x);
  }

  /** A float lexeme that no digit follows reads as that float. */
  lemma FloatLexemeAt(t: seq<char>, j: nat, x: string, e: nat)
    requires IsFloatLexeme(x) && At(t, j, x) && e == j + |x|
    requires e == |t| || !IsNumber(t[e])
    ensures j < |t| && IsNumber(t[j])
    ensures ValueAt(t, j) == Step(Ok(Float(x)), e)
  {
    FloatEndAt(t, j, x, e);
    FloatValueAt(t, j, e, x);
  }

  lemma FloatRender(t: seq<char>, j: nat, x: string)
    requires IsFloatLexeme(x) && At(t, j, x) && Delimits(t, j + |x|, Float(x))
    ensures j < |t| && IsNumber(t[j])
    ensures ValueAt(t, j) == Step(Ok(Float(x)), j + |x|)
  {
    DelimiterEndsNumber(t, j + |x|, Float(x));
    FloatLexemeAt(t, j, x, j + |x|);
  }

  lemma SymbolRender(t: seq<char>, j: nat, a: string)
    requires IsSymbolToken(a) && At(t, j, a) && Delimits(t, j + |a|, Symbol(a))
    ensures j < |t| && !IsWhitespace(t[j])
    ensures ValueAt(t, j) == Step(Ok(Symbol(a)), j + |a|)
  {
    SymbolTokenAt(t, j, a);
    SymbolValueAt(t, j, j + |a|, a);
  }

  /** Where a symbol token occurs before a delimiter, the symbol scan stops right after it. */
  lemma SymbolTokenAt(t: seq<char>, j: nat, a: string)
    requires IsSymbolToken(a) && At(t, j, a) && Delimits(t, j + |a|, Symbol(a))
    ensures j < |t| && t[j] == a[0] && j + |a| <= |t|
    ensures SkipRun(t, j + 1, SymbolChar) == j + |a| && t[j..j + |a|] == a
  {
    DelimiterEndsSymbol(t, j + |a|, a);
    AtIndex(t, j, a, 0);
    AtRun(t, j, a, SymbolChar);
    AtSlice(t, j, a);
  }

  lemma StringRender(t: seq<char>, j: nat, b: string)
    requires |b| > 0 && (forall k :: 0 <= k < |b| ==> !IsQuote(b[k]))
    requires At(t, j, "\"" + b + "\"")
    ensures j < |t| && !IsWhitespace(t[j])
    ensures ValueAt(t, j) == Step(Ok(String(b)), j + |b| + 2)
  {
    AtSplit(t, j, "\"" + b, "\"");
    AtSplit(t, j, "\"", b);
    AtIndex(t, j, "\"", 0);
    AtIndex(t, j + 1, b, 0);
    AtIndex(t, j + 1 + |b|, "\"", 0);
    DelimitersAreNotWhitespace(t[j]);
    AtRun(t, j + 1, b, NotQuote);
    AtSlice(t, j + 1, b);
    StringValueAt(t, j, j + 1 + |b|, b);
  }

  /** Reading a readable value from its rendering gives it back, and stops right after the rendering. */
  lemma {:induction false} ValueRender(t: seq<char>, j: nat, v: Lval, showFloat: string -> string)
    requires Readable(v, showFloat) && At(t, j, Render(v, showFloat))
    requires Delimits(t, j + |Render(v, showFloat)|, v)
    ensures j < |t| && !IsWhitespace(t[j])
    ensures ValueAt(t, j) == Step(Ok(v), j + |Render(v, showFloat)|)
    decreases v, 1
  {
    RenderStart(v, showFloat);
    AtIndex(t, j, Render(v, showFloat), 0);
    match v
    case Number(n) => NumberRender(t, j, n);
    case Float(x) => FloatRender(t, j, x);
    case Symbol(a) => SymbolRender(t, j, a);
    case String(b) => StringRender(t, j, b);
    case Sexp(items) => SexpRender(t, j, items, showFloat);
  }

  lemma {:induction false} SexpRender(t: seq<char>, j: nat, items: seq<Lval>, showFloat: string -> string)
    requires Readable(Sexp(items), showFloat) && At(t, j, Render(Sexp(items), showFloat))
    requires Delimits(t, j + |Render(Sexp(items), showFloat)|, Sexp(items))
    ensures j < |t| && IsOpenParen(t[j])
    ensures ValueAt(t, j) == Step(Ok(Sexp(items)), j + |Render(Sexp(items), showFloat)|)
    decreases Sexp(items), 0
  {
    var body := Join(Rendered(items, showFloat), " ");
    RenderSexp(items, showFloat);
    AtSplit(t, j, "(" + body, ")");
    AtSplit(t, j, "(", body);
    AtIndex(t, j, "(", 0);
    AtIndex(t, j + 1 + |body|, ")", 0);
    ItemsRender(t, j + 1, [], items, showFloat, true, j + 1 + |body|);
    assert [] + items == items;
    DispatchSexp(t, j);
  }

  /**
   * One element of a list: `parse_internal` reads it from its rendering and
   * skips the whitespace after it up to `m`.
   */
  lemma {:induction false} ElementRender(t: seq<char>, p: nat, acc: seq<Lval>, v: Lval, showFloat: string -> string, m: nat)
    requires Readable(v, showFloat) && At(t, p, Render(v, showFloat))
    requires Delimits(t, p + |Render(v, showFloat)|, v)
    requires p + |Render(v, showFloat)| <= m <= |t|
    requires forall k :: p + |Render(v, showFloat)| <= k < m ==> IsWhitespace(t[k])
    requires m == |t| || !IsWhitespace(t[m])
    ensures SexpItems(t, p, acc) == SexpItems(t, m, acc + [v])
    decreases v, 2
  {
    RenderStart(v, showFloat);
    AtIndex(t, p, Render(v, showFloat), 0);
    ValueRender(t, p, v, showFloat);
    RunEnd(t, p, p, Whitespace);
    RunEnd(t, p + |Render(v, showFloat)|, m, Whitespace);
    RunEnd(t, m, m, Whitespace);
    ItemsStep(t, p, acc, v, m);
  }

  /**
   * The loop of `parse_sexp` over the rendering of the elements `rest`,
   * joined by single spaces, after the elements `acc`: followed by `)` it
   * reads the whole list, and at the end of the text it fails with
   * `missing closing paren`.
   */
  lemma {:induction false} ItemsRender(t: seq<char>, p: nat, acc: seq<Lval>, rest: seq<Lval>,
                                       showFloat: string -> string, closed: bool, e: nat)
    requires AllReadable(rest, showFloat)
    requires closed && |rest| > 0 ==> !rest[|rest| - 1].Symbol?
    requires At(t, p, Join(Rendered(rest, showFloat), " "))
    requires e == p + |Join(Rendered(rest, showFloat), " ")|
    requires if closed then e < |t| && IsClosedParen(t[e]) else e == |t|
    ensures SexpItems(t, p, acc)
        == if closed then Step(Ok(Sexp(acc + rest)), e + 1)
           else Step(Err(ScannerError(MissingClosingParen)), |t|)
    decreases rest, 1
  {
    if rest == [] {
      assert acc + rest == acc;
    } else if |rest| == 1 {
      LastItemRender(t, p, acc, rest, showFloat, closed, e);
    } else {
      NextItemRender(t, p, acc, rest, showFloat, closed, e);
    }
  }

  /** The last element: its rendering is followed by `)` or by the end of the text. */
  lemma {:induction false} LastItemRender(t: seq<char>, p: nat, acc: seq<Lval>, rest: seq<Lval>,
                                          showFloat: string -> string, closed: bool, e: nat)
    requires |rest| == 1
    requires AllReadable(rest, showFloat)
    requires closed && |rest| > 0 ==> !rest[|rest| - 1].Symbol?
    requires At(t, p, Join(Rendered(rest, showFloat), " "))
    requires e == p + |Join(Rendered(rest, showFloat), " ")|
    requires if closed then e < |t| && IsClosedParen(t[e]) else e == |t|
    ensures SexpItems(t, p, acc)
        == if closed then Step(Ok(Sexp(acc + rest)), e + 1)
           else Step(Err(ScannerError(MissingClosingParen)), |t|)
    decreases rest, 0
  {
    var v := rest[0];
    var q := p + |Render(v, showFloat)|;
    JoinRenderedCons(rest, showFloat);
    assert acc + [v] + rest[1..] == acc + rest;
    ElementRender(t, p, acc, v, showFloat, q);
    ItemsRender(t, q, acc + [v], rest[1..], showFloat, closed, e);
  }

  /** An element followed by a space and the rendering of at least one more element. */
  lemma {:induction false} NextItemRender(t: seq<char>, p: nat, acc: seq<Lval>, rest: seq<Lval>,
                                          showFloat: string -> string, closed: bool, e: nat)
    requires |rest| > 1
    requires AllReadable(rest, showFloat)
    requires closed && |rest| > 0 ==> !rest[|rest| - 1].Symbol?
    requires At(t, p, Join(Rendered(rest, showFloat), " "))
    requires e == p + |Join(Rendered(rest, showFloat), " ")|
    requires if closed then e < |t| && IsClosedParen(t[e]) else e == |t|
    ensures SexpItems(t, p, acc)
        == if closed then Step(Ok(Sexp(acc + rest)), e + 1)
           else Step(Err(ScannerError(MissingClosingParen)), |t|)
    decreases rest, 0
  {
    var v := rest[0];
    var q := p + |Render(v, showFloat)|;
    assert acc + [v] + rest[1..] == acc + rest;
    SplitNext(t, p, rest, showFloat);
    ElementRender(t, p, acc, v, showFloat, q + 1);
    ItemsRender(t, q + 1, acc + [v], rest[1..], showFloat, closed, e);
  }

  /** The rendering of two or more elements: the first, a space, and the rendering of the others. */
  lemma SplitNext(t: seq<char>, p: nat, rest: seq<Lval>, showFloat: string -> string)
    requires |rest| > 1 && AllReadable(rest, showFloat)
    requires At(t, p, Join(Rendered(rest, showFloat), " "))
    ensures var q := p + |Render(rest[0], showFloat)|;
      && At(t, p, Render(rest[0], showFloat))
      && q < |t| && t[q] == ' '
      && At(t, q + 1, Join(Rendered(rest[1..], showFloat), " "))
      && q + 1 < |t| && !IsWhitespace(t[q + 1])
      && p + |Join(Rendered(rest, showFloat), " ")| == q + 1 + |Join(Rendered(rest[1..], showFloat), " ")|
  {
    var v := rest[0];
    var q := p + |Render(v, showFloat)|;
    JoinRenderedCons(rest, showFloat);
    var tail := Join(Rendered(rest[1..], showFloat), " ");
    AtSplit(t, p, Render(v, showFloat) + " ", tail);
    AtSplit(t, p, Render(v, showFloat), " ");
    AtIndex(t, q, " ", 0);
    TailStart(t, q + 1, rest[1..], showFloat);
  }

  /** One turn of the loop of `parse_sexp`: an element is read and the whitespace after it skipped. */
  lemma ItemsStep(t: seq<char>, p: nat, acc: seq<Lval>, v: Lval, m: nat)
    requires p < |t| && !IsClosedParen(t[p])
    requires ParseAt(t, p) == Step(Ok(v), m) && SkipRun(t, m, Whitespace) == m
    ensures SexpItems(t, p, acc) == SexpItems(t, m, acc + [v])
  {
  }

  /** The rendering of a non-empty list of readable elements starts with a character that opens a value. */
  lemma TailStart(t: seq<char>, p: nat, items: seq<Lval>, showFloat: string -> string)
    requires |items| > 0 && AllReadable(items, showFloat)
    requires At(t, p, Join(Rendered(items, showFloat), " "))
    ensures p < |t| && !IsWhitespace(t[p])
  {
    RenderStart(items[0], showFloat);
    JoinRenderedCons(items, showFloat);
    assert Join(Rendered(items, showFloat), " ")[0] == Render(items[0], showFloat)[0];
    AtIndex(t, p, Join(Rendered(items, showFloat), " "), 0);
  }

  /** Reading the rendering of a readable value gives the value back. */
  lemma ParseRender(v: Lval, showFloat: string -> string)
    requires Readable(v, showFloat)
    ensures Parse(Render(v, showFloat)) == Ok(v)
  {
    var t := Render(v, showFloat);
    ValueRender(t, 0, v, showFloat);
    RunEnd(t, 0, 0, Whitespace);
    RunEnd(t, |t|, |t|, Whitespace);
  }

  /** `r` followed by whitespace `w`: `r` occurs at the start and whitespace fills the rest. */
  lemma PaddedText(r: string, w: string)
    requires forall k :: 0 <= k < |w| ==> IsWhitespace(w[k])
    ensures At(r + w, 0, r)
    ensures |r| == |r + w| || IsWhitespace((r + w)[|r|])
    ensures SkipRun(r + w, |r|, Whitespace) == |r + w|
  {
    var t := r + w;
    forall k | 0 <= k < |r| ensures t[k] == r[k] {
    }
    assert forall k :: |r| <= k < |t| ==> IsWhitespace(t[k]) by {
      forall k | |r| <= k < |t| ensures IsWhitespace(t[k]) {
        assert t[k] == w[k - |r|];
      }
    }
    RunEnd(t, |r|, |t|, Whitespace);
  }

  /** Whitespace after the rendering of a readable value is skipped, and the value still spans the input. */
  lemma ParseRenderPadded(v: Lval, showFloat: string -> string, w: string)
    requires Readable(v, showFloat) && forall k :: 0 <= k < |w| ==> IsWhitespace(w[k])
    ensures Parse(Render(v, showFloat) + w) == Ok(v)
  {
    var r := Render(v, showFloat);
    PaddedText(r, w);
    ValueRender(r + w, 0, v, showFloat);
    RunEnd(r + w, 0, 0, Whitespace);
  }

  /** Reading the digits of a number above `i32::MAX` panics in the `unwrap` of `parse::<i32>`. */
  lemma OverflowPanics(n: nat)
    requires n > I32Max
    ensures Parse(Digits(n)) == Abort(IntOverflow(Digits(n)))
  {
    var t := Digits(n);
    assert forall k :: 1 <= k < |t| ==> IsNumber(t[k]);
    RunEnd(t, 1, |t|, Digit);
    assert t[0..|t|] == t;
    assert NumberAt(t, 0) == Step(Abort(IntOverflow(t)), |t|);
    DelimitersAreNotWhitespace(t[0]);
    DispatchNumber(t, 0);
    RunEnd(t, 0, 0, Whitespace);
  }

  /**
   * On its own, any symbol token reads back, even one that starts with `)`:
   * `Readable` excludes those only because inside a list they would be read
   * as the closing parenthesis.
   */
  lemma SymbolTokenReadsBack(a: string)
    requires IsSymbolToken(a)
    ensures Parse(a) == Ok(Symbol(a))
  {
    assert forall k :: 0 <= k < |a| ==> a[k] == a[k];
    SymbolRender(a, 0, a);
    RunEnd(a, 0, 0, Whitespace);
    RunEnd(a, |a|, |a|, Whitespace);
  }

  /** A negative number renders with a leading `-`, which starts a symbol: it reads back as that symbol. */
  lemma NegativeNumberReadsAsSymbol(n: i32, showFloat: string -> string)
    requires n < 0
    ensures Parse(Render(Number(n), showFloat)) == Ok(Symbol(IntToText(n as int)))
  {
    var a := IntToText(n as int);
    var d := Digits(-(n as int));
    assert a == "-" + d;
    forall k | 0 <= k < |a| ensures IsSymbolChar(a[k]) {
      if k > 0 {
        assert a[k] == d[k - 1];
        DelimitersAreNotWhitespace(a[k]);
      }
    }
    SymbolTokenReadsBack(a);
  }

  /**
   * A float whose display is a digit string, as `Display for f64` shows an
   * integral float such as `1.0` as `1`, reads back as a `Number`, or panics
   * when the digits overflow `i32`.
   */
  lemma IntegralFloatDisplay(x: string, showFloat: string -> string, n: nat)
    requires showFloat(x) == Digits(n)
    ensures n <= I32Max ==> Parse(Render(Float(x), showFloat)) == Ok(Number(n as i32))
    ensures n > I32Max ==> Parse(Render(Float(x), showFloat)) == Abort(IntOverflow(Digits(n)))
  {
    if n <= I32Max {
      assert Render(Number(n as i32), showFloat) == Digits(n);
      ParseRender(Number(n as i32), showFloat);
    } else {
      OverflowPanics(n);
    }
  }

  /** A list rendering that stops before its closing parenthesis reads as `missing closing paren`. */
  lemma UnclosedListRender(items: seq<Lval>, showFloat: string -> string, s: string)
    requires AllReadable(items, showFloat)
    requires s == "(" + Join(Rendered(items, showFloat), " ")
    ensures Parse(s) == Err(ScannerError(MissingClosingParen))
  {
    var body := Join(Rendered(items, showFloat), " ");
    AtSplit(s, 0, "(", body);
    AtIndex(s, 0, "(", 0);
    ItemsRender(s, 1, [], items, showFloat, false, |s|);
    UnclosedListParse(s);
  }

  /** A list whose loop runs to the end of the text makes `parse` fail with `missing closing paren`. */
  lemma UnclosedListParse(s: string)
    requires 0 < |s| && IsOpenParen(s[0])
    requires SexpItems(s, 1, []) == Step(Err(ScannerError(MissingClosingParen)), |s|)
    ensures Parse(s) == Err(ScannerError(MissingClosingParen))
  {
    RunEnd(s, 0, 0, Whitespace);
    RunEnd(s, |s|, |s|, Whitespace);
    DispatchSexp(s, 0);
  }
}
