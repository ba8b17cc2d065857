/**
 * The reader never looks to the left of the position it starts at: reading
 * a text whose tail is another text gives the same outcome as reading that
 * other text, with every position shifted by the length of what comes before.
 * Leading whitespace is therefore insignificant (src/main.rs, line 79).
 */
module Shifting {
  import opened Wrappers
  import opened Chars
  import opened TextScanner
  import opened Lexemes
  import opened Values
  import opened Grammar
  import opened Properties

  /** `t` is `n` characters followed by `s`. */
  predicate EndsWith(t: seq<char>, s: seq<char>, n: nat) {
    |t| == n + |s| && forall k :: 0 <= k < |s| ==> t[n + k] == s[k]
  }

  function Shifted(st: Step, n: nat): Step {
    Step(st.outcome, n + st.pos)
  }

  function ShiftedEnd(e: Option<nat>, n: nat): Option<nat> {
    match e
    case None => None
    case Some(x) => Some(n + x)
  }

  lemma SkipRunShift(t: seq<char>, s: seq<char>, n: nat, i: nat, q: CharClass)
    requires EndsWith(t, s, n) && i <= |s|
    ensures SkipRun(t, n + i, q) == n + SkipRun(s, i, q)
  {
    var e := SkipRun(s, i, q);
    SkipRunSpan(s, i, q);
    assert forall k :: n + i <= k < n + e ==> Matches(q, t[k]) by {
      forall k | n + i <= k < n + e ensures Matches(q, t[k]) {
        assert t[n + (k - n)] == s[k - n];
      }
    }
    if e < |s| {
      assert t[n + e] == s[e];
    }
    RunEnd(t, n + i, n + e, q);
  }

  lemma SliceShift(t: seq<char>, s: seq<char>, n: nat, i: nat, e: nat)
    requires EndsWith(t, s, n) && i <= e <= |s|
    ensures t[n + i..n + e] == s[i..e]
  {
    var slice := t[n + i..n + e];
    assert forall k :: 0 <= k < e - i ==> slice[k] == s[i + k] by {
      forall k | 0 <= k < e - i ensures slice[k] == s[i + k] {
        assert slice[k] == t[n + (i + k)];
      }
    }
  }

  lemma StringBodyEndShift(t: seq<char>, s: seq<char>, n: nat, i: nat)
    requires EndsWith(t, s, n) && i <= |s|
    ensures StringBodyEnd(t, n + i) == ShiftedEnd(StringBodyEnd(s, i), n)
  {
    if i < |s| {
      assert t[n + i] == s[i];
      SkipRunShift(t, s, n, i + 1, NotQuote);
    }
  }

  lemma NumberEndShift(t: seq<char>, s: seq<char>, n: nat, i: nat)
    requires EndsWith(t, s, n) && i <= |s|
    ensures NumberEnd(t, n + i) == ShiftedEnd(NumberEnd(s, i), n)
  {
    if i < |s| {
      assert t[n + i] == s[i];
      SkipRunShift(t, s, n, i + 1, Digit);
    }
  }

  lemma FloatEndShift(t: seq<char>, s: seq<char>, n: nat, i: nat)
    requires EndsWith(t, s, n) && i <= |s|
    ensures FloatEnd(t, n + i) == ShiftedEnd(FloatEnd(s, i), n)
  {
    if i < |s| {
      assert t[n + i] == s[i];
      SkipRunShift(t, s, n, i + 1, Digit);
      var d := SkipRun(s, i + 1, Digit);
      if d + 1 < |s| {
        assert t[n + d] == s[d] && t[n + d + 1] == s[d + 1];
        SkipRunShift(t, s, n, d + 2, Digit);
      }
    }
  }

  lemma SymbolEndShift(t: seq<char>, s: seq<char>, n: nat, i: nat)
    requires EndsWith(t, s, n) && i <= |s|
    ensures SymbolEnd(t, n + i) == ShiftedEnd(SymbolEnd(s, i), n)
  {
    if i < |s| {
      assert t[n + i] == s[i];
      SkipRunShift(t, s, n, i + 1, SymbolChar);
    }
  }

  lemma StringAtShift(t: seq<char>, s: seq<char>, n: nat, j: nat)
    requires EndsWith(t, s, n) && j < |s| && IsQuote(s[j])
    ensures t[n + j] == s[j]
    ensures StringAt(t, n + j) == Shifted(StringAt(s, j), n)
  {
    assert t[n + j] == s[j];
    StringBodyEndShift(t, s, n, j + 1);
    match StringBodyEnd(s, j + 1)
    case None =>
    case Some(e) =>
      SliceShift(t, s, n, j + 1, e);
      if e < |s| {
        assert t[n + e] == s[e];
      }
  }

  lemma NumberAtShift(t: seq<char>, s: seq<char>, n: nat, j: nat)
    requires EndsWith(t, s, n) && j < |s| && IsNumber(s[j])
    ensures t[n + j] == s[j]
    ensures NumberAt(t, n + j) == Shifted(NumberAt(s, j), n)
  {
    assert t[n + j] == s[j];
    FloatEndShift(t, s, n, j);
    NumberEndShift(t, s, n, j);
    match FloatEnd(s, j)
    case Some(e) =>
      SliceShift(t, s, n, j, e);
    case None =>
      SliceShift(t, s, n, j, NumberEnd(s, j).value);
  }

  lemma SymbolAtShift(t: seq<char>, s: seq<char>, n: nat, j: nat)
    requires EndsWith(t, s, n) && j < |s| && IsSymbolChar(s[j])
    ensures t[n + j] == s[j]
    ensures SymbolAt(t, n + j) == Shifted(SymbolAt(s, j), n)
  {
    assert t[n + j] == s[j];
    SymbolEndShift(t, s, n, j);
    SliceShift(t, s, n, j, SymbolEnd(s, j).value);
  }

  lemma {:induction false} ParseAtShift(t: seq<char>, s: seq<char>, n: nat, i: nat)
    requires EndsWith(t, s, n) && i <= |s|
    ensures ParseAt(t, n + i) == Shifted(ParseAt(s, i), n)
    decreases |s| - i, 3
  {
    var j := SkipRun(s, i, Whitespace);
    if j < |s| {
      ValueAtShift(t, s, n, j);
      ParseAtValueShift(t, s, n, i, j);
    } else {
      ParseAtEndShift(t, s, n, i);
    }
  }

  /** `parse_internal` when only whitespace is left: `out of bounds` at the end of the text. */
  lemma ParseAtEnd(t: seq<char>, i: nat)
    requires i <= |t| && SkipRun(t, i, Whitespace) == |t|
    ensures ParseAt(t, i) == Step(Err(ScannerError(OutOfBounds)), |t|)
  {
  }

  /** `parse_internal` when a value starts at `j`: the value, then the whitespace after it, unless it panicked. */
  lemma ParseAtValue(t: seq<char>, i: nat, j: nat, r: Step)
    requires i <= |t| && SkipRun(t, i, Whitespace) == j && j < |t| && !IsWhitespace(t[j])
    requires ValueAt(t, j) == r
    ensures r.pos <= |t|
    ensures ParseAt(t, i) == if r.outcome.Abort? then r else Step(r.outcome, SkipRun(t, r.pos, Whitespace))
  {
  }

  /** One turn of `parse_internal` over a value that reads the same in `s` and, shifted, in `t`. */
  lemma ParseAtValueShift(t: seq<char>, s: seq<char>, n: nat, i: nat, j: nat)
    requires EndsWith(t, s, n) && i <= |s| && SkipRun(s, i, Whitespace) == j && j < |s| && !IsWhitespace(s[j])
    requires t[n + j] == s[j] && ValueAt(t, n + j) == Shifted(ValueAt(s, j), n)
    ensures ParseAt(t, n + i) == Shifted(ParseAt(s, i), n)
  {
    var r := ValueAt(s, j);
    SkipRunShift(t, s, n, i, Whitespace);
    SkipRunShift(t, s, n, r.pos, Whitespace);
    ParseAtValueStep(t, s, n, i, j, r);
  }

  lemma ParseAtValueStep(t: seq<char>, s: seq<char>, n: nat, i: nat, j: nat, r: Step)
    requires i <= |s| && |t| == n + |s| && SkipRun(s, i, Whitespace) == j && j < |s| && !IsWhitespace(s[j])
    requires SkipRun(t, n + i, Whitespace) == n + j && t[n + j] == s[j]
    requires ValueAt(s, j) == r && ValueAt(t, n + j) == Shifted(r, n)
    requires r.pos <= |s| && SkipRun(t, n + r.pos, Whitespace) == n + SkipRun(s, r.pos, Whitespace)
    ensures ParseAt(t, n + i) == Shifted(ParseAt(s, i), n)
  {
    ParseAtValue(s, i, j, r);
    ParseAtValue(t, n + i, n + j, Shifted(r, n));
  }

  /** `parse_internal` over whitespace only, in `s` and, shifted, in `t`. */
  lemma ParseAtEndShift(t: seq<char>, s: seq<char>, n: nat, i: nat)
    requires EndsWith(t, s, n) && i <= |s| && SkipRun(s, i, Whitespace) == |s|
    ensures ParseAt(t, n + i) == Shifted(ParseAt(s, i), n)
  {
    SkipRunShift(t, s, n, i, Whitespace);
    ParseAtEnd(s, i);
    ParseAtEnd(t, n + i);
  }

  lemma {:induction false} ValueAtShift(t: seq<char>, s: seq<char>, n: nat, j: nat)
    requires EndsWith(t, s, n) && j < |s| && !IsWhitespace(s[j])
    ensures t[n + j] == s[j]
    ensures ValueAt(t, n + j) == Shifted(ValueAt(s, j), n)
    decreases |s| - j, 2
  {
    assert t[n + j] == s[j];
    if IsQuote(s[j]) {
      StringAtShift(t, s, n, j);
    } else if IsOpenParen(s[j]) {
      SexpAtShift(t, s, n, j);
    } else if IsNumber(s[j]) {
      NumberAtShift(t, s, n, j);
    } else {
      SymbolAtShift(t, s, n, j);
    }
  }

  lemma {:induction false} SexpAtShift(t: seq<char>, s: seq<char>, n: nat, j: nat)
    requires EndsWith(t, s, n) && j < |s| && IsOpenParen(s[j])
    ensures t[n + j] == s[j]
    ensures SexpAt(t, n + j) == Shifted(SexpAt(s, j), n)
    decreases |s| - j, 1
  {
    assert t[n + j] == s[j];
    SexpItemsShift(t, s, n, j + 1, []);
  }

  lemma {:induction false} SexpItemsShift(t: seq<char>, s: seq<char>, n: nat, j: nat, acc: seq<Lval>)
    requires EndsWith(t, s, n) && j <= |s|
    ensures SexpItems(t, n + j, acc) == Shifted(SexpItems(s, j, acc), n)
    decreases |s| - j, 5
  {
    if j < |s| {
      assert t[n + j] == s[j];
      if !IsClosedParen(s[j]) {
        ElementShift(t, s, n, j, acc);
      }
    }
  }

  /** One list element read from the tail and from the text it ends, and the rest of the list after it. */
  lemma {:induction false} ElementShift(t: seq<char>, s: seq<char>, n: nat, j: nat, acc: seq<Lval>)
    requires EndsWith(t, s, n) && j < |s| && !IsClosedParen(s[j])
    ensures SexpItems(t, n + j, acc) == Shifted(SexpItems(s, j, acc), n)
    decreases |s| - j, 4
  {
    assert t[n + j] == s[j];
    ParseAtShift(t, s, n, j);
    var e := ParseAt(s, j);
    if e.outcome.Ok? {
      var m := SkipRun(s, e.pos, Whitespace);
      SkipRunShift(t, s, n, e.pos, Whitespace);
      SexpItemsShift(t, s, n, m, acc + [e.outcome.value]);
      ElementOkShift(t, s, n, j, acc, e.outcome.value, e.pos, m);
    } else {
      ElementFailShift(t, s, n, j, acc, e);
    }
  }

  lemma ElementOkShift(t: seq<char>, s: seq<char>, n: nat, j: nat, acc: seq<Lval>, v: Lval, p: nat, m: nat)
    requires j < |s| && n + j < |t| && t[n + j] == s[j] && !IsClosedParen(s[j])
    requires ParseAt(s, j) == Step(Ok(v), p) && ParseAt(t, n + j) == Step(Ok(v), n + p)
    requires p <= |s| && SkipRun(s, p, Whitespace) == m && SkipRun(t, n + p, Whitespace) == n + m
    requires SexpItems(t, n + m, acc + [v]) == Shifted(SexpItems(s, m, acc + [v]), n)
    ensures SexpItems(t, n + j, acc) == Shifted(SexpItems(s, j, acc), n)
  {
    ItemsOkStep(s, j, acc, v, p, m, SexpItems(s, m, acc + [v]));
    ItemsOkStep(t, n + j, acc, v, n + p, n + m, SexpItems(t, n + m, acc + [v]));
  }

  lemma ElementFailShift(t: seq<char>, s: seq<char>, n: nat, j: nat, acc: seq<Lval>, e: Step)
    requires j < |s| && n + j < |t| && t[n + j] == s[j] && !IsClosedParen(s[j])
    requires ParseAt(s, j) == e && !e.outcome.Ok? && ParseAt(t, n + j) == Shifted(e, n)
    ensures SexpItems(t, n + j, acc) == Shifted(SexpItems(s, j, acc), n)
  {
    ItemsFailStep(s, j, acc, e);
    ItemsFailStep(t, n + j, acc, Shifted(e, n));
  }

  /** A list element read, followed by whitespace, moves the list on to the next element. */
  lemma ItemsOkStep(t: seq<char>, q: nat, acc: seq<Lval>, v: Lval, p: nat, m: nat, r: Step)
    requires q < |t| && !IsClosedParen(t[q])
    requires ParseAt(t, q) == Step(Ok(v), p) && SkipRun(t, p, Whitespace) == m
    requires m <= |t| && SexpItems(t, m, acc + [v]) == r
    ensures SexpItems(t, q, acc) == r
  {
  }

  /** A list element that does not read ends the list at the element's position; an error becomes a panic. */
  lemma ItemsFailStep(t: seq<char>, p: nat, acc: seq<Lval>, st: Step)
    requires p < |t| && !IsClosedParen(t[p])
    requires ParseAt(t, p) == st && !st.outcome.Ok?
    ensures SexpItems(t, p, acc) == Step(if st.outcome.Err? then Abort(UnwrapOnErr(st.outcome.error)) else st.outcome, st.pos)
  {
  }

  /** Reading starts by skipping whitespace, so starting anywhere in that run reads the same. */
  lemma ParseAtWithinLeadingRun(t: seq<char>, i: nat, m: nat)
    requires i <= m <= |t|
    requires forall k :: i <= k < m ==> IsWhitespace(t[k])
    ensures ParseAt(t, i) == ParseAt(t, m)
  {
    SkipFromInsideRun(t, i, m, Whitespace);
  }

  /** Reading after leading whitespace is reading the rest, shifted by the whitespace's length. */
  lemma ParseAtAfterWhitespace(w: string, s: string)
    requires forall k :: 0 <= k < |w| ==> IsWhitespace(w[k])
    ensures ParseAt(w + s, 0) == Shifted(ParseAt(s, 0), |w|)
  {
    var t := w + s;
    assert EndsWith(t, s, |w|);
    assert forall k :: 0 <= k < |w| ==> t[k] == w[k];
    ParseAtWithinLeadingRun(t, 0, |w|);
    ParseAtShift(t, s, |w|, 0);
  }

  /** Whitespace in front of the input changes nothing, not even the text of an error. */
  lemma LeadingWhitespaceIgnored(w: string, s: string)
    requires forall k :: 0 <= k < |w| ==> IsWhitespace(w[k])
    ensures Parse(w + s) == Parse(s)
  {
    var t := w + s;
    ParseAtAfterWhitespace(w, s);
    var st := ParseAt(s, 0);
    if st.pos < |s| {
      assert EndsWith(t, s, |w|);
      SliceShift(t, s, |w|, st.pos, |s|);
      assert t[|w| + st.pos..] == s[st.pos..];
    }
  }
}
