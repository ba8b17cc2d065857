/**
 * A read that succeeds never looks past the end of its text, except at the
 * whitespace the reader skips anyway: reading the same text followed by
 * whitespace gives the same value. Trailing whitespace after a value that
 * reads is therefore insignificant (src/main.rs, line 91).
 */
module Padding {
  import opened Wrappers
  import opened Chars
  import opened TextScanner
  import opened Lexemes
  import opened Values
  import opened Grammar
  import opened Properties
  import Shifting

  /** `t` is `s` followed by whitespace only. */
  predicate PaddedBy(t: seq<char>, s: seq<char>) {
    && |s| <= |t|
    && (forall k :: 0 <= k < |s| ==> t[k] == s[k])
    && (forall k :: |s| <= k < |t| ==> IsWhitespace(t[k]))
  }

  /** A position in `s`, carried over to `t`: the end of `s` becomes the end of `t`. */
  function Stretched(p: nat, s: seq<char>, t: seq<char>): nat {
    if p == |s| then |t| else p
  }

  /** A run that stops inside `s` stops at the same place in `t`. */
  lemma SkipRunInside(t: seq<char>, s: seq<char>, i: nat, q: CharClass)
    requires PaddedBy(t, s) && i <= |s| && SkipRun(s, i, q) < |s|
    ensures SkipRun(t, i, q) == SkipRun(s, i, q)
  {
    var e := SkipRun(s, i, q);
    SkipRunSpan(s, i, q);
    assert t[e] == s[e];
    RunEnd(t, i, e, q);
  }

  /** A run of characters that are never whitespace ends in `t` where it ends in `s`. */
  lemma SkipRunNonWhitespace(t: seq<char>, s: seq<char>, i: nat, q: CharClass)
    requires PaddedBy(t, s) && i <= |s| && (q == Digit || q == SymbolChar)
    ensures SkipRun(t, i, q) == SkipRun(s, i, q)
  {
    if SkipRun(s, i, q) < |s| {
      SkipRunInside(t, s, i, q);
    } else {
      SkipRunSpan(s, i, q);
      if |s| < |t| {
        assert IsWhitespace(t[|s|]);
        if IsNumber(t[|s|]) {
          DelimitersAreNotWhitespace(t[|s|]);
        }
      }
      RunEnd(t, i, |s|, q);
    }
  }

  /** Skipping whitespace in `t` goes on over the padding when it reaches the end of `s`. */
  lemma SkipWhitespacePadded(t: seq<char>, s: seq<char>, i: nat)
    requires PaddedBy(t, s) && i <= |s|
    ensures SkipRun(t, i, Whitespace) == Stretched(SkipRun(s, i, Whitespace), s, t)
  {
    if SkipRun(s, i, Whitespace) < |s| {
      SkipRunInside(t, s, i, Whitespace);
    } else {
      SkipRunSpan(s, i, Whitespace);
      RunEnd(t, i, |t|, Whitespace);
    }
  }

  lemma SlicePadded(t: seq<char>, s: seq<char>, i: nat, e: nat)
    requires PaddedBy(t, s) && i <= e <= |s|
    ensures t[i..e] == s[i..e]
  {
  }

  /** A string that reads ends at its closing quote, inside `s`. */
  lemma StringAtPadded(t: seq<char>, s: seq<char>, j: nat)
    requires PaddedBy(t, s) && j < |s| && IsQuote(s[j]) && StringAt(s, j).outcome.Ok?
    ensures t[j] == s[j] && StringAt(t, j) == StringAt(s, j)
  {
    assert t[j] == s[j] && t[j + 1] == s[j + 1];
    var e := SkipRun(s, j + 2, NotQuote);
    SkipRunInside(t, s, j + 2, NotQuote);
    assert t[e] == s[e];
    SlicePadded(t, s, j + 1, e);
  }

  /** Whitespace is neither a digit nor a period, so it ends every number and float lexeme. */
  lemma NumberAtPadded(t: seq<char>, s: seq<char>, j: nat)
    requires PaddedBy(t, s) && j < |s| && IsNumber(s[j])
    ensures t[j] == s[j] && NumberAt(t, j) == NumberAt(s, j)
  {
    assert t[j] == s[j];
    SkipRunNonWhitespace(t, s, j + 1, Digit);
    var d := SkipRun(s, j + 1, Digit);
    if d < |t| {
      if d < |s| {
        assert t[d] == s[d];
      } else {
        assert IsWhitespace(t[d]);
      }
    }
    if d + 1 < |t| {
      if d + 1 < |s| {
        assert t[d + 1] == s[d + 1];
        SkipRunNonWhitespace(t, s, d + 2, Digit);
      } else {
        assert IsWhitespace(t[d + 1]);
        if IsNumber(t[d + 1]) {
          DelimitersAreNotWhitespace(t[d + 1]);
        }
      }
    }
    assert FloatEnd(t, j) == FloatEnd(s, j);
    assert NumberEnd(t, j) == NumberEnd(s, j);
    match FloatEnd(s, j)
    case Some(e) =>
      SlicePadded(t, s, j, e);
    case None =>
      SlicePadded(t, s, j, NumberEnd(s, j).value);
  }

  lemma SymbolAtPadded(t: seq<char>, s: seq<char>, j: nat)
    requires PaddedBy(t, s) && j < |s| && IsSymbolChar(s[j])
    ensures t[j] == s[j] && SymbolAt(t, j) == SymbolAt(s, j)
  {
    assert t[j] == s[j];
    SkipRunNonWhitespace(t, s, j + 1, SymbolChar);
    SlicePadded(t, s, j, SymbolEnd(s, j).value);
  }

  /** `parse_internal` that reads a value from `s` reads it from `t` too, and stops at the stretched position. */
  lemma {:induction false} ParseAtPadded(t: seq<char>, s: seq<char>, i: nat)
    requires PaddedBy(t, s) && i <= |s| && ParseAt(s, i).outcome.Ok?
    ensures ParseAt(t, i) == Step(ParseAt(s, i).outcome, Stretched(ParseAt(s, i).pos, s, t))
    decreases |s| - i, 3
  {
    var j := SkipRun(s, i, Whitespace);
    SkipWhitespacePadded(t, s, i);
    if j < |s| {
      assert t[j] == s[j];
      var r := ValueAt(s, j);
      Shifting.ParseAtValue(s, i, j, r);
      ValueAtPadded(t, s, j);
      SkipWhitespacePadded(t, s, r.pos);
      Shifting.ParseAtValue(t, i, j, r);
    } else {
      Shifting.ParseAtEnd(s, i);
    }
  }

  lemma {:induction false} ValueAtPadded(t: seq<char>, s: seq<char>, j: nat)
    requires PaddedBy(t, s) && j < |s| && !IsWhitespace(s[j]) && ValueAt(s, j).outcome.Ok?
    ensures t[j] == s[j] && ValueAt(t, j) == ValueAt(s, j)
    decreases |s| - j, 2
  {
    assert t[j] == s[j];
    if IsQuote(s[j]) {
      StringAtPadded(t, s, j);
    } else if IsOpenParen(s[j]) {
      SexpAtPadded(t, s, j);
    } else if IsNumber(s[j]) {
      NumberAtPadded(t, s, j);
    } else {
      SymbolAtPadded(t, s, j);
    }
  }

  lemma {:induction false} SexpAtPadded(t: seq<char>, s: seq<char>, j: nat)
    requires PaddedBy(t, s) && j < |s| && IsOpenParen(s[j]) && SexpAt(s, j).outcome.Ok?
    ensures t[j] == s[j] && SexpAt(t, j) == SexpAt(s, j)
    decreases |s| - j, 1
  {
    assert t[j] == s[j];
    SexpItemsPadded(t, s, j + 1, []);
  }

  /** A list that reads is closed inside `s`, so the padding never reaches its loop. */
  lemma {:induction false} SexpItemsPadded(t: seq<char>, s: seq<char>, j: nat, acc: seq<Lval>)
    requires PaddedBy(t, s) && j <= |s| && SexpItems(s, j, acc).outcome.Ok?
    ensures SexpItems(t, j, acc) == SexpItems(s, j, acc)
    decreases |s| - j, 5
  {
    if j < |s| {
      assert t[j] == s[j];
      if !IsClosedParen(s[j]) {
        ElementPadded(t, s, j, acc);
      }
    }
  }

  lemma {:induction false} ElementPadded(t: seq<char>, s: seq<char>, j: nat, acc: seq<Lval>)
    requires PaddedBy(t, s) && j < |s| && !IsClosedParen(s[j]) && SexpItems(s, j, acc).outcome.Ok?
    ensures SexpItems(t, j, acc) == SexpItems(s, j, acc)
    decreases |s| - j, 4
  {
    assert t[j] == s[j];
    var e := ParseAt(s, j);
    ElementOutcome(s, j, acc, e);
    var v := e.outcome.value;
    var m := SkipRun(s, e.pos, Whitespace);
    var r := SexpItems(s, m, acc + [v]);
    Shifting.ItemsOkStep(s, j, acc, v, e.pos, m, r);
    ParseAtPadded(t, s, j);
    SkipWhitespacePadded(t, s, e.pos);
    SexpItemsPadded(t, s, m, acc + [v]);
    Shifting.ItemsOkStep(t, j, acc, v, e.pos, m, r);
  }

  /** In a list that reads, every element reads and is followed by more of the list. */
  lemma ElementOutcome(s: seq<char>, j: nat, acc: seq<Lval>, e: Step)
    requires j < |s| && !IsClosedParen(s[j]) && SexpItems(s, j, acc).outcome.Ok? && ParseAt(s, j) == e
    ensures e.outcome.Ok? && j < e.pos < |s| && SkipRun(s, e.pos, Whitespace) < |s|
  {
  }

  /** Whitespace after an input that reads changes nothing `parse` returns. */
  lemma TrailingWhitespaceIgnored(s: string, w: string)
    requires Parse(s).Ok? && forall k :: 0 <= k < |w| ==> IsWhitespace(w[k])
    ensures Parse(s + w) == Parse(s)
  {
    var t := s + w;
    assert forall k :: |s| <= k < |t| ==> t[k] == w[k - |s|];
    assert PaddedBy(t, s);
    ParsedValueSpansInput(s);
    ParseAtPadded(t, s, 0);
  }
}
