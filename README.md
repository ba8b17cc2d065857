# A verified model of the `rusty` reader

`rusty` is a small Lisp read–eval–print loop. Its reader turns one line of
text into an `Lval` tree: a `Number` (an `i32`), a `Float`, a `Symbol`, a
`String`, or an `Sexp` holding a list of values. When the text cannot be
read, it reports one of the messages `out of bounds`, `must be string`,
`missing closing quote`, `missing closing paren` or `has more text "…"`.

The reader is a recursive descent over a cursor-based scanner. That scanner
comes from the `text_scanner` crate; this project defines the part of it the
reader uses. The model has three layers:

- **The scanner and its sub-scanners, as imperative code.**
  - `TextScanner.Scanner` is a class holding an immutable text and a cursor.
    Its methods are `PeekNth`, `AcceptIf`, `SkipWhile`, `HasRemainingText`
    and `RemainingText`.
  - The `Lexemes` module holds `scan_string`, `scan_float`, `scan_number`
    and `scan_symbol` as methods, plus the `scan_with` combinator. The
    combinator puts the cursor back when its sub-scanner fails.
  - The `Reader` module holds `parse`, `parse_internal`, `parse_string`,
    `parse_number`, `parse_symbol` and `parse_sexp`. `parse_sexp` keeps its
    `while let` loop.
  - Every `Reader` method is proved to leave the outcome and cursor that the
    reference definition gives. Every sub-scanner is proved to leave the
    cursor where a function on the text says it stops, whether it succeeds
    or fails.
- **A functional reference definition, `Grammar`.** For each parser it gives
  the outcome and the cursor position that parser leaves behind, for a given
  text and start position.
  - A panic, from an `unwrap` that fails, is a third outcome `Abort`, next to
    `Ok` and `Err`.
  - The `unwrap`s that can never fail are discharged by proof.
- **Properties of that definition**, stated as lemmas:
  - the quirks of the reader;
  - reading back the `Display` rendering of a value;
  - insensitivity to leading whitespace, on every input;
  - insensitivity to trailing whitespace, on every input that reads;
  - insensitivity to the width of the whitespace inside lists, at every
    depth (`Layout`);
  - the unit tests of `src/main.rs`, as lemmas on their inputs. The emoji
    test's literal is stated twice: as the ghost emoji U+1F47B it stands for,
    and as the four characters the file holds, which are that emoji's UTF-8
    bytes read as CP-1252.

The code decides a few cases in ways worth stating outright; the model
follows the code in each:

- **Not every failure is a returned error.** A list element that fails does
  not propagate its error: `parse_internal(scanner).unwrap()` panics. A digit
  run above `i32::MAX` panics too.
- **An empty string literal `""` is not an unterminated string.**
  `scan_string` needs one non-quote character, so the body scan fails. The
  closing quote is left unread, and `parse` then reports it as the trailing
  text `has more text "\""`.

- **Whitespace before `)` matters after a symbol.** `(a)` fails with
  `missing closing paren` but `(a )` reads. The symbol scanner takes every
  non-whitespace character, the closing parenthesis included.
- **Whitespace inside `()` matters.** `()` is the empty list, but `( )`
  fails with `missing closing paren`. The space is not `)`, so an element is
  read: `parse_internal` skips the space and reads `)` as a symbol. Elsewhere
  in a list, whitespace runs of any width between the elements, before `)`
  and after `(` read the same as single spaces.
- **Trailing whitespace matters after an error.** `"` fails with
  `must be string`, but `" ` fails with `missing closing quote`, because the
  space is a string body. After an input that reads, trailing whitespace
  changes nothing.

## Model

| member | source | states |
|---|---|---|
| Chars.IsWhitespace | src/main.rs:79 | `char::is_whitespace`: exactly the characters with the Unicode White_Space property |
| Chars.IsQuote | src/main.rs:96-98 | `is_quote`: exactly `"` |
| Chars.IsNotQuote | src/main.rs:100-102 | `is_not_quote`: every character but `"` |
| Chars.IsNumber | src/main.rs:104-106 | `is_number`: `is_digit(10)`, exactly the ten ASCII digits |
| Chars.IsPeriod | src/main.rs:108-110 | `is_period`: exactly `.` |
| Chars.IsOpenParen | src/main.rs:112-114 | `is_open_paren`: exactly `(` |
| Chars.IsClosedParen | src/main.rs:116-118 | `is_closed_paren`: exactly `)` |
| Chars.IsSymbolChar | src/main.rs:162-166 | the closure `scan_symbol` gives `accept_if` and `skip_while`: every character that is not whitespace |
| Chars.DelimitersAreNotWhitespace | src/main.rs:96-118 | a digit, quote, period or parenthesis is never whitespace, and so `scan_symbol` accepts it |
| TextScanner.SkipRun | src/main.rs:79 | the run that `skip_while` skips ends inside the text, at the end of the text or at a character that fails the predicate |
| TextScanner.SkipRunSpan | src/main.rs:79 | every character skipped satisfies the predicate |
| TextScanner.RunEnd | src/main.rs:79 | any end position with the run property is exactly the one `skip_while` finds |
| TextScanner.SkipFromInsideRun | src/main.rs:91 | skipping from inside a run stops at the same place; a second skip moves nothing |
| TextScanner.Scanner.constructor | src/main.rs:67 | a new scanner holds the text with its cursor at the start |
| TextScanner.Scanner.PeekNth | src/main.rs:80 | a character is returned exactly when one is there, and it is the one at the cursor; the cursor does not move |
| TextScanner.Scanner.AcceptIf | src/main.rs:128 | on a matching character, returns it and advances by one; otherwise fails and leaves the cursor where it was |
| TextScanner.Scanner.SkipWhile | src/main.rs:79 | moves the cursor over the maximal matching run and returns the slice it passed over |
| TextScanner.Scanner.HasRemainingText | src/main.rs:71 | true exactly when the remaining text is not empty |
| TextScanner.Scanner.RemainingText | src/main.rs:72 | the consumed text followed by the remaining text is the whole text |
| Lexemes.StringBodyEnd | src/main.rs:120-125 | the string body fails exactly at the end of the text or on a quote; otherwise it stops at the end of the text or at the next quote |
| Lexemes.NumberEnd | src/main.rs:147-151 | an integer lexeme fails exactly off a digit; otherwise it stops at the first non-digit |
| Lexemes.FloatEnd | src/main.rs:138-145 | a float lexeme takes at least three characters and stops at the first non-digit after the fraction |
| Lexemes.SymbolEnd | src/main.rs:162-166 | a symbol fails exactly at the end of the text or on whitespace; otherwise it stops at the end of the text or at whitespace |
| Lexemes.StringBodySpan | src/main.rs:122-123 | a string body holds no quote |
| Lexemes.NumberDigits | src/main.rs:148-149 | an integer lexeme is digits only |
| Lexemes.FloatShape | src/main.rs:139-143 | a float lexeme is digits, a period and digits |
| Lexemes.SymbolSpan | src/main.rs:163-164 | a symbol holds no whitespace |
| Lexemes.ScanString | src/main.rs:120-125 | `scan_string` succeeds exactly when a string body is there, and then leaves the cursor at its end; when it fails, at its first `accept_if`, the cursor has not moved |
| Lexemes.FloatStop | src/main.rs:138-145 | where `scan_float` gives up: at the start without a digit, after the digit run without a period, one past the period without a digit; past the start whenever a digit is there |
| Lexemes.ScanFloat | src/main.rs:138-145 | `scan_float` succeeds exactly when a float lexeme is there, and then leaves the cursor at its end; when it fails, the cursor is where it gave up (`FloatStop`) |
| Lexemes.ScanNumber | src/main.rs:147-151 | `scan_number` succeeds exactly when a digit is there, and then leaves the cursor after the digit run; when it fails, the cursor has not moved |
| Lexemes.ScanSymbol | src/main.rs:162-166 | `scan_symbol` succeeds exactly on a non-whitespace character, and then leaves the cursor after the non-whitespace run; when it fails, the cursor has not moved |
| Lexemes.LexemeEnd | src/main.rs:130-169 | the sub-scanner handed to `scan_with` (`scan_string`, `scan_float`, `scan_number`, `scan_symbol`): where it stops, past its start, and when it fails |
| Lexemes.ScanWith | src/main.rs:129-131 | `scan_with` returns exactly the consumed slice on success; on failure it returns nothing and restores the cursor |
| Values.ErrorText | src/main.rs:27-34 | every message is shown after the `scanner error: ` prefix |
| Values.DigitValue | src/main.rs:158 | the per-digit step of `from_str_radix` with radix 10: an ASCII digit's value is its place among `0` to `9` |
| Values.DigitChar | src/main.rs:298 | the digit character for a value below ten is a digit with that value |
| Values.Digits | src/main.rs:298 | the decimal text of a number is non-empty, all digits, without a leading zero, and reads back as the number |
| Values.HasMoreText | src/main.rs:72 | the `format!` of the trailing-text message: `has more text`, then the remaining text in double quotes |
| Values.DecimalValue | src/main.rs:158 | the value `i32::from_str_radix(s, 10)` reads from a digit string, before its range check; `Values.Digits` and `Values.DigitsOfDecimalValue` make it and the decimal display inverse |
| Values.DecimalValuePositive | src/main.rs:158 | a digit string that does not start with `0` has a positive value |
| Values.DigitsOfDecimalValue | src/main.rs:158 | the value read from a digit string without a leading zero displays as that same string |
| Values.IntToText | src/main.rs:298 | `Display for i32`: the decimal digits, after a `-` when negative |
| Values.Join | src/main.rs:293 | `join(" ")`: the parts with the separator between consecutive ones (see `RoundTrip.JoinRenderedCons`) |
| Values.Render | src/main.rs:289-302 | `Display for Lval`: a list in parentheses with its elements joined by spaces, a string in double quotes, a symbol as itself, a number in decimal, a float as `showFloat` shows it; `RoundTrip.ParseRender` proves `parse` inverts it |
| Values.Eval | src/main.rs:304-306 | `eval` returns the value it is given |
| Grammar.StringAt | src/main.rs:127-136 | `parse_string` advances; on success the value is exactly the text between the quotes; it fails only with `must be string` or `missing closing quote`, and never panics |
| Grammar.NumberAt | src/main.rs:153-160 | `parse_number` advances, never returns an error, and yields a `Float` or a `Number` |
| Grammar.SymbolAt | src/main.rs:168-171 | `parse_symbol` always succeeds, with exactly the text it consumed, and stops at whitespace or at the end of the text |
| Grammar.ParseAt | src/main.rs:78-94 | `parse_internal` never moves the cursor back, and strictly advances on success. Unless it panics it stops at the end or on non-whitespace. Its errors are the inner messages. It reports `out of bounds` exactly when only whitespace is left |
| Grammar.ValueAt | src/main.rs:81-89 | the dispatch on the first character advances, and its errors are inner messages other than `out of bounds` |
| Grammar.SexpAt | src/main.rs:173-190 | `parse_sexp` advances. On success it yields a list ending at a closing parenthesis. Its only error is `missing closing paren`, at the end of the text |
| Grammar.SexpItems | src/main.rs:176-189 | the element loop keeps every element already read, as a prefix of the list it returns |
| Grammar.Parse | src/main.rs:66-76 | the reference `parse`: a panic unwinds; otherwise any text after the value, and the whitespace after it, is reported as `has more text` with exactly that text; see `Properties.ParseErrors` and `Properties.ParsedValueSpansInput` |
| Reader.Parse | src/main.rs:66-76 | `parse` returns exactly the outcome of the reference definition |
| Reader.ParseInternal | src/main.rs:78-94 | `parse_internal` gives the reference outcome and leaves the cursor at the reference position |
| Reader.ParseString | src/main.rs:127-136 | the same for `parse_string`; its first `unwrap` never panics |
| Reader.ParseNumber | src/main.rs:153-160 | the same for `parse_number`; the `unwrap` of the integer scan never panics, and an overflow of `i32` panics |
| Reader.ParseSymbol | src/main.rs:168-171 | the same for `parse_symbol`; its `unwrap` never panics |
| Reader.ParseSexp | src/main.rs:173-190 | the same for `parse_sexp`, loop included; an element error panics through `unwrap` |
| Properties.StringHoldsNoQuote | src/main.rs:127-136 | a string value is the text between two quotes and holds no quote |
| Properties.StringErrorCases | src/main.rs:122-134 | `must be string` exactly when nothing or a second quote follows the opening quote; `missing closing quote` exactly when no quote follows the opening one before the end of the text |
| Properties.SymbolIsMaximalRun | src/main.rs:162-171 | a symbol is the maximal non-whitespace run from where it starts |
| Properties.ParseErrors | src/main.rs:66-76 | an error from `parse` is an inner message when the value reaches the end, and otherwise `has more text` with exactly the rest of the text |
| Properties.AllWhitespaceIsOutOfBounds | src/main.rs:79-80 | the input is empty or all whitespace exactly when `parse` reports `out of bounds` |
| Properties.NumberTokenCases | src/main.rs:138-160 | a digit-led token is a `Float` exactly when a period and a digit follow its digit run. Otherwise the same digits are read again, as a `Number` or as an `i32` overflow panic, leaving the period behind |
| Properties.TrailingTextOverrides | src/main.rs:71-73 | when text is left after the value, `parse` reports exactly that text, whatever the value or inner error was |
| Properties.ParsedValueSpansInput | src/main.rs:66-76 | `parse` succeeds only when the value and the whitespace after it span the whole input |
| Properties.ElementErrorPanics | src/main.rs:181 | an error from a list element panics through `unwrap` instead of being returned |
| Properties.OpenParenThenWhitespacePanics | src/main.rs:173-184 | `(` followed only by whitespace panics on the `out of bounds` of its first element |
| Properties.SymbolSwallowsClosingParen | src/main.rs:162-190 | a one-symbol list `(a)` fails with `missing closing paren`: the symbol takes the `)` |
| RoundTrip.RenderSexp | src/main.rs:292-294 | a list renders as `(`, its elements' renderings joined by single spaces, and `)` |
| RoundTrip.JoinRenderedCons | src/main.rs:293 | joining the renderings of a non-empty list peels off its first element |
| RoundTrip.AllReadableElements | src/main.rs:289-302 | a list is readable exactly when each of its elements is |
| RoundTrip.RenderStart | src/main.rs:289-302 | the rendering of a readable value is non-empty and opens with neither whitespace nor `)` |
| RoundTrip.NumberRender | src/main.rs:153-160 | a rendered non-negative `i32`, followed by a delimiter, reads back as that number |
| RoundTrip.FloatRender | src/main.rs:138-155 | a float lexeme followed by a delimiter reads back as that `Float` |
| RoundTrip.SymbolRender | src/main.rs:162-171 | a symbol token followed by whitespace or the end of the text reads back as that symbol |
| RoundTrip.StringRender | src/main.rs:127-136 | a non-empty quote-free string, rendered in quotes, reads back as that string |
| RoundTrip.ValueRender | src/main.rs:81-89 | reading a readable value from its rendering, anywhere in a text, gives it back and stops right after the rendering |
| RoundTrip.SexpRender | src/main.rs:173-190 | reading the rendering of a readable list gives the list back |
| RoundTrip.ElementRender | src/main.rs:181-183 | one turn of the element loop reads the rendered element and skips the whitespace after it |
| RoundTrip.ItemsRender | src/main.rs:176-189 | the element loop over rendered elements reads them all. Before a `)` it yields the list; at the end of the text it fails with `missing closing paren` |
| RoundTrip.ParseRender | src/main.rs:289-302 | `parse` of the rendering of a readable value gives the value back |
| RoundTrip.ParseRenderPadded | src/main.rs:91 | whitespace after the rendering of a readable value is skipped, and the value still parses |
| RoundTrip.OverflowPanics | src/main.rs:158 | the digits of any number above `i32::MAX` panic in `i32::from_str_radix(..).unwrap()` |
| RoundTrip.SymbolTokenReadsBack | src/main.rs:162-171 | on its own, every symbol token reads back as that symbol, one starting with `)` included |
| RoundTrip.NegativeNumberReadsAsSymbol | src/main.rs:289-302 | a negative number displays with a leading `-` and reads back as that text, a symbol, not as the number |
| RoundTrip.IntegralFloatDisplay | src/main.rs:153-160 | a float that displays as digits (as `1.0` displays as `1`) reads back as a `Number`, or panics when the digits overflow `i32` |
| RoundTrip.UnclosedListRender | src/main.rs:185-187 | a rendered list without its closing parenthesis fails with `missing closing paren` |
| Shifting.SkipRunShift | src/main.rs:79 | a skip over a text's tail is the skip over that tail, shifted by the prefix |
| Shifting.ParseAtShift | src/main.rs:78-94 | `parse_internal` over a text's tail gives what it gives on that tail alone, with every position shifted by the length of the prefix |
| Shifting.ValueAtShift | src/main.rs:81-89 | the same for the dispatch on the first character |
| Shifting.SexpAtShift | src/main.rs:173-190 | the same for `parse_sexp` |
| Shifting.SexpItemsShift | src/main.rs:176-189 | the same for its element loop |
| Shifting.ParseAtWithinLeadingRun | src/main.rs:79 | starting anywhere inside the leading whitespace reads the same |
| Shifting.ParseAtAfterWhitespace | src/main.rs:79 | reading after leading whitespace gives what reading without it gives, with every position shifted by the whitespace's length |
| Shifting.LeadingWhitespaceIgnored | src/main.rs:66-79 | whitespace in front of any input changes nothing `parse` returns, not even the text of an error |
| Padding.SkipRunInside | src/main.rs:79 | a skip that stops inside a text stops at the same place when whitespace follows the text |
| Padding.SkipWhitespacePadded | src/main.rs:91 | a whitespace skip that reaches the end of a text goes on over the whitespace after it |
| Padding.StringAtPadded | src/main.rs:127-136 | a string that reads is read the same with whitespace after the text |
| Padding.NumberAtPadded | src/main.rs:153-160 | `parse_number` gives the same outcome and end with whitespace after the text |
| Padding.SymbolAtPadded | src/main.rs:168-171 | `parse_symbol` gives the same outcome and end with whitespace after the text |
| Padding.ParseAtPadded | src/main.rs:78-94 | `parse_internal` that reads a value from a text reads it from the text followed by whitespace, stopping at the same place or, when it stopped at the end, at the new end |
| Padding.ValueAtPadded | src/main.rs:81-89 | the same for the dispatch on the first character |
| Padding.SexpAtPadded | src/main.rs:173-190 | a list that reads is read the same with whitespace after the text |
| Padding.SexpItemsPadded | src/main.rs:176-189 | the same for its element loop |
| Padding.ElementOutcome | src/main.rs:176-184 | in a list that reads, every element reads and stops before the end of the text |
| Padding.TrailingWhitespaceIgnored | src/main.rs:66-94 | whitespace after any input that reads changes nothing `parse` returns |
| Layout.ItemsStart | src/main.rs:176-178 | laid-out list elements start with a character that is neither whitespace nor `)`, so the loop reads an element there |
| Layout.LaidOutStart | src/main.rs:81-89 | a layout of a value starts with neither whitespace nor `)` |
| Layout.ElementStep | src/main.rs:176-183 | one turn of the element loop: the element read, then all the whitespace after it skipped |
| Layout.LeadingBlankItems | src/main.rs:78-94 | whitespace after `(` is skipped by the first element's `parse_internal` |
| Layout.LaidOutReads | src/main.rs:78-94 | reading any layout of a value gives the value back and stops right after the layout |
| Layout.ListLaidOutReads | src/main.rs:173-190 | the same for a list, with any whitespace after `(`, between the elements and before `)` |
| Layout.ItemsLaidOutReads | src/main.rs:176-189 | the element loop over laid-out elements reads them all and the closing `)` |
| Layout.LastLaidOutReads | src/main.rs:176-189 | the last element, followed by whitespace or directly by `)`, closes the list |
| Layout.NextLaidOutReads | src/main.rs:176-183 | an element, a whitespace run of any width, and the loop is at the next element |
| Layout.LaidOutParses | src/main.rs:66-94 | `parse` of a text holding a layout of a value, with only whitespace around it, gives the value |
| Layout.ReadableSpaceable | src/main.rs:289-302 | a value whose rendering reads back has every layout read back |
| Layout.RenderLaidOut | src/main.rs:289-302 | the `Display` rendering is itself a layout: single spaces between elements |
| Layout.RenderedItemsLaidOut | src/main.rs:292-294 | the elements' renderings joined by single spaces lay the elements out |
| Layout.RenderedLastLaidOut | src/main.rs:292-294 | a single readable element's rendering lays it out, with nothing after it before `)` |
| Layout.RenderedNextLaidOut | src/main.rs:292-294 | two or more renderings joined by single spaces: the first element, one space, then a layout of the others |
| Layout.SpacingIgnored | src/main.rs:173-190 | any layout of a readable value, whatever the width of its whitespace, parses exactly as its rendering does |
| Layout.BlankEmptyListIsUnclosed | src/main.rs:173-190 | `(`, any non-empty whitespace, `)` fails with `missing closing paren`: the `)` is read as a symbol |
| Examples.ItParsesAtoms | src/main.rs:204-207 | `val` reads as the symbol `val` |
| Examples.ItParsesAtomAsOperators | src/main.rs:209-212 | `+` reads as a symbol |
| Examples.ItParsesAtomAsEmoji | src/main.rs:214-217 | an emoji reads as a symbol |
| Examples.ItParsesAtomAsEmojiAsWritten | src/main.rs:214-217 | the test's literal as the file holds it, four characters that are not whitespace, reads as one symbol |
| Examples.ItParsesStrings | src/main.rs:219-222 | `"string"` reads as the string `string` |
| Examples.ItParsesNumbers | src/main.rs:224-227 | `42` reads as the number 42 |
| Examples.ItParsesFloats | src/main.rs:229-232 | `42.1` reads as a float with lexeme `42.1` |
| Examples.ItParsesSexps | src/main.rs:234-251 | `(+ 1 2)` and `(println "foo")` read as the expected lists |
| Examples.ItReturnsErrorOnUnclosedParen | src/main.rs:253-256 | `(+ 1 2` shows `scanner error: missing closing paren` |
| Examples.ItReturnsErrorOnMoreText | src/main.rs:258-261 | `15a` shows `scanner error: has more text "a"` |
| Examples.ItReturnsErrorOnMissingQuote | src/main.rs:263-266 | `"foo` shows `scanner error: missing closing quote` |
| Examples.ItReturnsErrorOnEmptyString | src/main.rs:268-271 | the empty input shows `scanner error: out of bounds` |
| Examples.ItParsesRecursively | src/main.rs:273-287 | `(+ 1 (- 2 1))` reads as the nested list |
| Examples.ItEvalsAtoms | src/main.rs:313-316 | evaluating the symbol `val` displays `val` |
| Examples.ItEvalsStrings | src/main.rs:318-321 | evaluating the string `foo` displays `"foo"` |
| Examples.ItEvalsNumbers | src/main.rs:323-326 | evaluating 42 displays `42` |
| Examples.ItEvalsFloats | src/main.rs:328-331 | evaluating the float `42.1` displays `42.1`, when its lexeme is how floats are shown |
| Examples.ItEvalsExpressions | src/main.rs:333-350 | the two test lists display as `(+ 1 2)` and `(println "foo")` |
| Examples.TrailingPeriodIsLeftBehind | src/main.rs:153-160 | `42.` reads `42` as a number and reports the period as trailing text |
| Examples.PeriodThenLetterIsLeftBehind | src/main.rs:153-160 | `4.a` reads `4` and reports `.a` as trailing text |
| Examples.EmptyStringLiteralIsRejected | src/main.rs:120-136 | `""` reports its closing quote as trailing text |
| Examples.OneSymbolListIsUnclosed | src/main.rs:162-190 | `(a)` fails with `missing closing paren` |
| Examples.SpaceBeforeClosingParenReads | src/main.rs:162-190 | `(a )` reads as the one-symbol list |
| Examples.EmptyListReads | src/main.rs:173-190 | `()` reads as the empty list |
| Examples.SpaceInEmptyListIsUnclosed | src/main.rs:173-190 | `( )` fails with `missing closing paren` |
| Examples.NestedUnclosedListPanics | src/main.rs:181 | `((a` panics on the inner list's `missing closing paren` |
| Examples.UnterminatedStringInListPanics | src/main.rs:181 | `("a` panics on the element's `missing closing quote` |
| Examples.ClosingParenAloneIsASymbol | src/main.rs:162-171 | `)` alone reads as a symbol |
| Examples.TrailingSpaceChangesStringError | src/main.rs:120-136 | `"` fails with `must be string` and `" ` with `missing closing quote` |
| Examples.I32Boundary | src/main.rs:158 | `2147483648` panics, and `2147483647` reads back |
| Examples.WhitespaceAroundValue | src/main.rs:79-91 | whitespace on both sides of `(+ 1 2)` is skipped |

## Left out

- `read` and `main` (src/main.rs, lines 54-64 and 352-367) are not modelled. They cover the prompt, standard input and output, the quit loop, and the `trim` of the input line. This is I/O; `Parse` is the entry point instead.
- The `IoError` variant, its display and its conversion (lines 22, 31 and 36-40) are not modelled, because only the input loop produces them. `ParseError` keeps only `ScannerError`; the conversions from `String` and `&str` (lines 42-52) are the messages placed in it.
- Floating point is not modelled.
  - A `Float` carries its lexeme (digits, a period, digits), never the `f64` that `s.parse::<f64>()` would give. That `unwrap` cannot fail on such a lexeme.
  - `Display` for a float is the parameter `showFloat`, and `Readable` asks that it show a float as its own lexeme. The ways `Display for f64` differs from the lexeme are outside the round trip. Among them: trailing zeros are lost (`42.10` is shown as `42.1`), leading zeros are lost (`007.5` as `7.5`), digits past the precision of `f64` are rounded (`0.10000000000000000001` as `0.1`), and an integral float is shown without a period (`1.0` as `1`), which reads back as a `Number`, or panics on `i32` overflow when large (`RoundTrip.IntegralFloatDisplay`).
- The `text_scanner` crate's own code is not modelled. The model implements only the behaviour the reader relies on: `peek_nth`, `accept_if`, `skip_while`, `scan_with`, `has_remaining_text` and `remaining_text`. Its `ScannerItem` ranges are reduced to the characters or slices the reader uses.
- Rust closures are first-order tags here, because Dafny methods are not values.
  - The predicates handed to the scanner are `CharClass` values.
  - The sub-scanner handed to `scan_with` is a `Lexeme` value.
- Deep nesting has no limit. A Rust stack overflow on very deep input is outside the model.
- RoundTrip.ParseRender: the round trip is proved only for readable values. Most excluded values do not read back in the source either: negative numbers (`RoundTrip.NegativeNumberReadsAsSymbol`), empty strings, strings with quotes, symbols that are not symbol tokens, and lists ending in a symbol. Symbols starting with `)` are excluded everywhere although only a list needs it: on their own they read back (`RoundTrip.SymbolTokenReadsBack`).
- Layout.LaidOut: a layout puts at least one whitespace character between two list elements. The reader also reads elements that follow one another directly when the first one ends in a closing character, as in `(()())` or `("a""b")`; those texts are not layouts.
