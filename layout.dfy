/**
 * How much whitespace separates the elements of a list does not matter to
 * the reader: `parse_sexp` hands each element to `parse_internal`, which
 * skips the whitespace before it and after it, and the loop skips it again
 * (src/main.rs, lines 79, 91 and 183). A layout of a value is its rendering
 * with any whitespace runs between the elements of its lists, before their
 * `)` and, when a list is not empty, after its `(`, at every depth. Every layout of a value reads as that value,
 * and `Display` writes one of them. Whitespace inside an empty list is not a
 * layout: the reader reads `( )` as `(` and the symbol `)`.
 */
module Layout {
  import opened Wrappers
  import opened Chars
  import opened TextScanner
  import opened Values
  import opened Grammar
  import opened RoundTrip
  import Shifting

  /** `t[a..b]` is whitespace only. */
  predicate Blank(t: seq<char>, a: nat, b: nat)
    requires a <= b <= |t|
  {
    forall k :: a <= k < b ==> IsWhitespace(t[k])
  }

  /**
   * A value all of whose atoms read back from their rendering: a list only
   * needs readable elements, since its layout says what ends the last one.
   */
  ghost predicate Spaceable(v: Lval, showFloat: string -> string)
    decreases v
  {
    match v
    case Sexp(items) => forall k :: 0 <= k < |items| ==> Spaceable(items[k], showFloat)
    case _ => Readable(v, showFloat)
  }

  /**
   * `t[j..e]` lays out `v`: an atom as its rendering; a list as `(`, its
   * elements laid out with whitespace between them, and `)`. Whitespace may
   * follow the `(` of a list that is not empty.
   */
  ghost predicate LaidOut(t: seq<char>, j: nat, v: Lval, e: nat, showFloat: string -> string)
    decreases v, 1
  {
    && j < e <= |t|
    && match v
       case Sexp(items) =>
         && j + 1 < e && IsOpenParen(t[j]) && IsClosedParen(t[e - 1])
         && if items == [] then e == j + 2 else BodyLaidOut(t, j + 1, items, e - 1, showFloat)
       case _ => At(t, j, Render(v, showFloat)) && e == j + |Render(v, showFloat)|
  }

  /** `t[p..q]` is the inside of a list that is not empty: whitespace, then its elements laid out. */
  ghost predicate BodyLaidOut(t: seq<char>, p: nat, items: seq<Lval>, q: nat, showFloat: string -> string)
    decreases items, 1
  {
    q <= |t| && exists a :: p <= a < q && Blank(t, p, a) && ItemsLaidOut(t, a, items, q, showFloat)
  }

  /**
   * `t[p..q]` lays out the elements `items`, the first one starting at `p`:
   * each is followed by a non-empty whitespace run before the next, and the
   * last by any whitespace run. A symbol would swallow the `)`, so a last
   * symbol needs whitespace after it.
   */
  ghost predicate ItemsLaidOut(t: seq<char>, p: nat, items: seq<Lval>, q: nat, showFloat: string -> string)
    decreases items, 0
  {
    && p <= q <= |t|
    && if items == [] then p == q
       else
         exists b ::
           && p < b <= q && LaidOut(t, p, items[0], b, showFloat)
           && if |items| == 1 then Blank(t, b, q) && (b < q || !items[0].Symbol?)
              else exists a :: b < a < q && Blank(t, b, a) && ItemsLaidOut(t, a, items[1..], q, showFloat)
  }

  /** Laid-out elements start with a character that opens a value. */
  lemma ItemsStart(t: seq<char>, p: nat, items: seq<Lval>, q: nat, showFloat: string -> string)
    requires items != [] && forall k :: 0 <= k < |items| ==> Spaceable(items[k], showFloat)
    requires ItemsLaidOut(t, p, items, q, showFloat)
    ensures p < |t| && !IsWhitespace(t[p]) && !IsClosedParen(t[p])
  {
    var b :| p < b <= q && LaidOut(t, p, items[0], b, showFloat);
    LaidOutStart(t, p, items[0], b, showFloat);
  }

  /** A layout starts with a character that opens a value. */
  lemma LaidOutStart(t: seq<char>, j: nat, v: Lval, e: nat, showFloat: string -> string)
    requires Spaceable(v, showFloat) && LaidOut(t, j, v, e, showFloat)
    ensures j < |t| && !IsWhitespace(t[j]) && !IsClosedParen(t[j])
  {
    if v.Sexp? {
      DelimitersAreNotWhitespace(t[j]);
    } else {
      RenderStart(v, showFloat);
      AtIndex(t, j, Render(v, showFloat), 0);
    }
  }

  /** One turn of the loop of `parse_sexp`: the element read, then the whitespace after it up to `m`. */
  lemma ElementStep(t: seq<char>, p: nat, acc: seq<Lval>, v: Lval, b: nat, m: nat)
    requires p < |t| && !IsWhitespace(t[p]) && !IsClosedParen(t[p])
    requires ValueAt(t, p) == Step(Ok(v), b)
    requires b <= m <= |t| && Blank(t, b, m) && (m == |t| || !IsWhitespace(t[m]))
    ensures SexpItems(t, p, acc) == SexpItems(t, m, acc + [v])
  {
    RunEnd(t, p, p, Whitespace);
    Shifting.ParseAtValue(t, p, p, ValueAt(t, p));
    RunEnd(t, b, m, Whitespace);
    RunEnd(t, m, m, Whitespace);
    ItemsStep(t, p, acc, v, m);
  }

  /** Whitespace right after `(` is skipped by the first element's `parse_internal`. */
  lemma LeadingBlankItems(t: seq<char>, p: nat, a: nat, acc: seq<Lval>)
    requires p <= a < |t| && Blank(t, p, a) && !IsWhitespace(t[a]) && !IsClosedParen(t[a])
    ensures SexpItems(t, p, acc) == SexpItems(t, a, acc)
  {
    if p < a {
      if IsClosedParen(t[p]) {
        DelimitersAreNotWhitespace(t[p]);
      }
      Shifting.ParseAtWithinLeadingRun(t, p, a);
    }
  }

  /** Reading a layout of a value gives the value back, and stops right after the layout. */
  lemma {:induction false} LaidOutReads(t: seq<char>, j: nat, v: Lval, e: nat, showFloat: string -> string)
    requires Spaceable(v, showFloat) && LaidOut(t, j, v, e, showFloat) && Delimits(t, e, v)
    ensures !IsWhitespace(t[j])
    ensures ValueAt(t, j) == Step(Ok(v), e)
    decreases v, 2
  {
    LaidOutStart(t, j, v, e, showFloat);
    match v
    case Sexp(items) => ListLaidOutReads(t, j, items, e, showFloat);
    case _ => ValueRender(t, j, v, showFloat);
  }

  lemma {:induction false} ListLaidOutReads(t: seq<char>, j: nat, items: seq<Lval>, e: nat, showFloat: string -> string)
    requires Spaceable(Sexp(items), showFloat) && LaidOut(t, j, Sexp(items), e, showFloat)
    ensures !IsWhitespace(t[j])
    ensures ValueAt(t, j) == Step(Ok(Sexp(items)), e)
    decreases Sexp(items), 1
  {
    DispatchSexp(t, j);
    var p, q := j + 1, e - 1;
    if items != [] {
      var a :| p <= a < q && Blank(t, p, a) && ItemsLaidOut(t, a, items, q, showFloat);
      ItemsStart(t, a, items, q, showFloat);
      LeadingBlankItems(t, p, a, []);
      ItemsLaidOutReads(t, a, [], items, q, showFloat);
      assert [] + items == items;
    }
  }

  /** The loop of `parse_sexp` over a layout of the elements `rest`, after the elements `acc`, up to `)` at `q`. */
  lemma {:induction false} ItemsLaidOutReads(t: seq<char>, p: nat, acc: seq<Lval>, rest: seq<Lval>, q: nat,
                                            showFloat: string -> string)
    requires forall k :: 0 <= k < |rest| ==> Spaceable(rest[k], showFloat)
    requires ItemsLaidOut(t, p, rest, q, showFloat) && q < |t| && IsClosedParen(t[q])
    ensures SexpItems(t, p, acc) == Step(Ok(Sexp(acc + rest)), q + 1)
    decreases rest, 1
  {
    if rest == [] {
      assert acc + rest == acc;
    } else if |rest| == 1 {
      LastLaidOutReads(t, p, acc, rest, q, showFloat);
    } else {
      var a := NextLaidOutReads(t, p, acc, rest, q, showFloat);
      var acc', tail := acc + [rest[0]], rest[1..];
      FirstMoved(acc, rest);
      ItemsLaidOutReads(t, a, acc', tail, q, showFloat);
    }
  }

  /** Moving the first element of `rest` onto the end of `acc` keeps their concatenation. */
  lemma FirstMoved(acc: seq<Lval>, rest: seq<Lval>)
    requires rest != []
    ensures acc + [rest[0]] + rest[1..] == acc + rest
  {
    assert rest == [rest[0]] + rest[1..];
  }

  /** The last element, followed by whitespace or directly by `)`. */
  lemma {:induction false} LastLaidOutReads(t: seq<char>, p: nat, acc: seq<Lval>, rest: seq<Lval>, q: nat,
                                           showFloat: string -> string)
    requires |rest| == 1 && Spaceable(rest[0], showFloat)
    requires ItemsLaidOut(t, p, rest, q, showFloat) && q < |t| && IsClosedParen(t[q])
    ensures SexpItems(t, p, acc) == Step(Ok(Sexp(acc + rest)), q + 1)
    decreases rest, 0
  {
    var v := rest[0];
    var b :| p < b <= q && LaidOut(t, p, v, b, showFloat) && Blank(t, b, q) && (b < q || !v.Symbol?);
    LaidOutStart(t, p, v, b, showFloat);
    LaidOutReads(t, p, v, b, showFloat);
    DelimitersAreNotWhitespace(t[q]);
    ElementStep(t, p, acc, v, b, q);
    assert acc + [v] == acc + rest;
  }

  /** An element, then a non-empty whitespace run: the loop moves on to the next element, at `a`. */
  lemma {:induction false} NextLaidOutReads(t: seq<char>, p: nat, acc: seq<Lval>, rest: seq<Lval>, q: nat,
                                           showFloat: string -> string) returns (a: nat)
    requires |rest| > 1 && forall k :: 0 <= k < |rest| ==> Spaceable(rest[k], showFloat)
    requires ItemsLaidOut(t, p, rest, q, showFloat) && q < |t|
    ensures p < a < q && ItemsLaidOut(t, a, rest[1..], q, showFloat)
    ensures forall k :: 0 <= k < |rest[1..]| ==> Spaceable(rest[1..][k], showFloat)
    ensures SexpItems(t, p, acc) == SexpItems(t, a, acc + [rest[0]])
    decreases rest, 0
  {
    var b :| p < b <= q && LaidOut(t, p, rest[0], b, showFloat) &&
      exists a :: b < a < q && Blank(t, b, a) && ItemsLaidOut(t, a, rest[1..], q, showFloat);
    a :| b < a < q && Blank(t, b, a) && ItemsLaidOut(t, a, rest[1..], q, showFloat);
    ItemsStart(t, a, rest[1..], q, showFloat);
    LaidOutStart(t, p, rest[0], b, showFloat);
    LaidOutReads(t, p, rest[0], b, showFloat);
    ElementStep(t, p, acc, rest[0], b, a);
  }

  /** A text holding a layout of `v`, with only whitespace around it, reads as `v`. */
  lemma LaidOutParses(t: seq<char>, j: nat, v: Lval, e: nat, showFloat: string -> string)
    requires Spaceable(v, showFloat) && LaidOut(t, j, v, e, showFloat)
    requires Blank(t, 0, j) && Blank(t, e, |t|)
    ensures Parse(t) == Ok(v)
  {
    LaidOutStart(t, j, v, e, showFloat);
    LaidOutReads(t, j, v, e, showFloat);
    RunEnd(t, 0, j, Whitespace);
    RunEnd(t, e, |t|, Whitespace);
  }

  /** A value whose rendering reads back has every layout read back. */
  lemma {:induction false} ReadableSpaceable(v: Lval, showFloat: string -> string)
    requires Readable(v, showFloat)
    ensures Spaceable(v, showFloat)
    decreases v
  {
    if v.Sexp? {
      AllReadableElements(v.items, showFloat);
      forall k | 0 <= k < |v.items| ensures Spaceable(v.items[k], showFloat) {
        ReadableSpaceable(v.items[k], showFloat);
      }
    }
  }

  /** `Display` writes a layout: single spaces between elements and none after `(` or before `)`. */
  lemma {:induction false} RenderLaidOut(t: seq<char>, j: nat, v: Lval, showFloat: string -> string)
    requires Readable(v, showFloat) && At(t, j, Render(v, showFloat))
    ensures LaidOut(t, j, v, j + |Render(v, showFloat)|, showFloat)
    decreases v, 1
  {
    RenderStart(v, showFloat);
    if v.Sexp? {
      var items := v.items;
      var body := Join(Rendered(items, showFloat), " ");
      var e := j + |Render(v, showFloat)|;
      RenderSexp(items, showFloat);
      AtSplit(t, j, "(" + body, ")");
      AtSplit(t, j, "(", body);
      AtIndex(t, j, "(", 0);
      AtIndex(t, j + 1 + |body|, ")", 0);
      if items != [] {
        RenderedItemsLaidOut(t, j + 1, items, showFloat);
        assert Blank(t, j + 1, j + 1);
        assert BodyLaidOut(t, j + 1, items, e - 1, showFloat);
      } else {
        assert body == "";
      }
    }
  }

  /** The renderings of readable elements joined by single spaces lay the elements out. */
  lemma {:induction false} RenderedItemsLaidOut(t: seq<char>, p: nat, rest: seq<Lval>, showFloat: string -> string)
    requires |rest| > 0 && AllReadable(rest, showFloat) && !rest[|rest| - 1].Symbol?
    requires At(t, p, Join(Rendered(rest, showFloat), " "))
    ensures ItemsLaidOut(t, p, rest, p + |Join(Rendered(rest, showFloat), " ")|, showFloat)
    decreases rest, 1
  {
    if |rest| == 1 {
      RenderedLastLaidOut(t, p, rest, showFloat);
    } else {
      RenderedNextLaidOut(t, p, rest, showFloat);
    }
  }

  /** A single element, with nothing after its rendering. */
  lemma {:induction false} RenderedLastLaidOut(t: seq<char>, p: nat, rest: seq<Lval>, showFloat: string -> string)
    requires |rest| == 1 && Readable(rest[0], showFloat) && !rest[0].Symbol?
    requires At(t, p, Join(Rendered(rest, showFloat), " "))
    ensures ItemsLaidOut(t, p, rest, p + |Join(Rendered(rest, showFloat), " ")|, showFloat)
    decreases rest, 0
  {
    JoinRenderedCons(rest, showFloat);
    RenderLaidOut(t, p, rest[0], showFloat);
    var b := p + |Render(rest[0], showFloat)|;
    assert Blank(t, b, b);
  }

  /** Two or more elements: the first, one space, and the others. */
  lemma {:induction false} RenderedNextLaidOut(t: seq<char>, p: nat, rest: seq<Lval>, showFloat: string -> string)
    requires |rest| > 1 && AllReadable(rest, showFloat) && !rest[|rest| - 1].Symbol?
    requires At(t, p, Join(Rendered(rest, showFloat), " "))
    ensures ItemsLaidOut(t, p, rest, p + |Join(Rendered(rest, showFloat), " ")|, showFloat)
    decreases rest, 0
  {
    var tail := rest[1..];
    var b := p + |Render(rest[0], showFloat)|;
    var q := p + |Join(Rendered(rest, showFloat), " ")|;
    SplitNext(t, p, rest, showFloat);
    assert LaidOut(t, p, rest[0], b, showFloat) by {
      OthersReadable(rest, showFloat);
      RenderLaidOut(t, p, rest[0], showFloat);
    }
    assert ItemsLaidOut(t, b + 1, tail, q, showFloat) by {
      OthersReadable(rest, showFloat);
      RenderedItemsLaidOut(t, b + 1, tail, showFloat);
    }
    ItemsSpacedCons(t, p, rest, b, q, showFloat);
  }

  /** The elements after the first of a readable list's elements meet the same conditions. */
  lemma OthersReadable(rest: seq<Lval>, showFloat: string -> string)
    requires |rest| > 1 && AllReadable(rest, showFloat) && !rest[|rest| - 1].Symbol?
    ensures Readable(rest[0], showFloat) && AllReadable(rest[1..], showFloat) && !rest[1..][|rest| - 2].Symbol?
  {
    assert rest[1..][|rest| - 2] == rest[|rest| - 1];
  }

  /** A first element laid out from `p` to `b`, whitespace up to `a`, then a layout of the others. */
  lemma ItemsLaidOutCons(t: seq<char>, p: nat, rest: seq<Lval>, b: nat, a: nat, q: nat, showFloat: string -> string)
    requires |rest| > 1 && p < b < a < q <= |t|
    requires LaidOut(t, p, rest[0], b, showFloat) && Blank(t, b, a) && ItemsLaidOut(t, a, rest[1..], q, showFloat)
    ensures ItemsLaidOut(t, p, rest, q, showFloat)
  {
  }

  /** The same, with a single space between the first element and the others. */
  lemma ItemsSpacedCons(t: seq<char>, p: nat, rest: seq<Lval>, b: nat, q: nat, showFloat: string -> string)
    requires |rest| > 1 && p < b && b + 1 < q <= |t| && t[b] == ' '
    requires LaidOut(t, p, rest[0], b, showFloat) && ItemsLaidOut(t, b + 1, rest[1..], q, showFloat)
    ensures ItemsLaidOut(t, p, rest, q, showFloat)
  {
    assert Blank(t, b, b + 1);
    ItemsLaidOutCons(t, p, rest, b, b + 1, q, showFloat);
  }

  /**
   * Whitespace around and inside a readable value's lists, as any layout
   * places it, changes nothing: the text reads as the rendering does.
   */
  lemma SpacingIgnored(t: seq<char>, j: nat, v: Lval, e: nat, showFloat: string -> string)
    requires Readable(v, showFloat) && LaidOut(t, j, v, e, showFloat)
    requires Blank(t, 0, j) && Blank(t, e, |t|)
    ensures Parse(t) == Parse(Render(v, showFloat)) == Ok(v)
  {
    ReadableSpaceable(v, showFloat);
    LaidOutParses(t, j, v, e, showFloat);
    ParseRender(v, showFloat);
  }

  /** Whitespace alone between `(` and `)` is not an empty list: the `)` is read as a symbol. */
  lemma BlankEmptyListIsUnclosed(w: string)
    requires |w| > 0 && forall k :: 0 <= k < |w| ==> IsWhitespace(w[k])
    ensures Parse("(" + w + ")") == Err(ScannerError(MissingClosingParen))
  {
    var t := "(" + w + ")";
    var n := |w|;
    assert forall k :: 1 <= k < n + 1 ==> t[k] == w[k - 1];
    assert t[0] == '(' && t[n + 1] == ')' && |t| == n + 2;
    assert !IsClosedParen(t[1]) by {
      if IsClosedParen(t[1]) {
        DelimitersAreNotWhitespace(t[1]);
      }
    }
    RunEnd(t, 1, n + 1, Whitespace);
    RunEnd(t, n + 2, n + 2, SymbolChar);
    assert t[n + 1..n + 2] == ")";
    SymbolValueAt(t, n + 1, n + 2, ")");
    RunEnd(t, n + 2, n + 2, Whitespace);
    Shifting.ParseAtValue(t, 1, n + 1, ValueAt(t, n + 1));
    ItemsStep(t, 1, [], Symbol(")"), n + 2);
    DispatchSexp(t, 0);
    RunEnd(t, 0, 0, Whitespace);
    Shifting.ParseAtValue(t, 0, 0, ValueAt(t, 0));
  }
}
