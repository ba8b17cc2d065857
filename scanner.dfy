/**
 * The cursor-based scanner the reader is built on (the `text_scanner`
 * crate's `Scanner`): an immutable text and a cursor into it.
 */
module TextScanner {
  import opened Wrappers
  import opened Chars

  /**
   * The end of the maximal run of characters satisfying `p` that starts at `i`
   * (the run may be empty): the first position from `i` on that does not
   * satisfy `p`. `SkipRunSpan` states that everything before it does.
   */
  function SkipRun(t: seq<char>, i: nat, p: CharClass): (e: nat)
    requires i <= |t|
    ensures i <= e <= |t|
    ensures e == |t| || !Matches(p, t[e])
    decreases |t| - i
  {
    if i < |t| && Matches(p, t[i]) then SkipRun(t, i + 1, p) else i
  }

  /** Every character `skip_while` passes over satisfies its predicate. */
  lemma {:induction false} SkipRunSpan(t: seq<char>, i: nat, p: CharClass)
    requires i <= |t|
    ensures forall k :: i <= k < SkipRun(t, i, p) ==> Matches(p, t[k])
    decreases |t| - i
  {
    if i < |t| && Matches(p, t[i]) {
      SkipRunSpan(t, i + 1, p);
    }
  }

  /** A maximal run is determined by where it ends: any end with the run property is the one `skip_while` finds. */
  lemma {:induction false} RunEnd(t: seq<char>, i: nat, e: nat, p: CharClass)
    requires i <= e <= |t|
    requires forall k :: i <= k < e ==> Matches(p, t[k])
    requires e == |t| || !Matches(p, t[e])
    ensures SkipRun(t, i, p) == e
    decreases e - i
  {
    if i < e {
      RunEnd(t, i + 1, e, p);
    }
  }

  /** Starting a skip anywhere inside a run ends it at the same place; in particular a second skip does nothing. */
  lemma SkipFromInsideRun(t: seq<char>, i: nat, m: nat, p: CharClass)
    requires i <= |t| && i <= m <= SkipRun(t, i, p)
    ensures SkipRun(t, m, p) == SkipRun(t, i, p)
  {
    SkipRunSpan(t, i, p);
    RunEnd(t, m, SkipRun(t, i, p), p);
  }

  class Scanner {
    const text: seq<char>
    var cursor: nat

    ghost predicate Valid()
      reads this
    {
      cursor <= |text|
    }

    /** `Scanner::new`: the cursor starts at the beginning of the text. */
    constructor (s: seq<char>)
      ensures Valid() && text == s && cursor == 0
    {
      text := s;
      cursor := 0;
    }

    /** `peek_nth(n)`: the character `n` places after the cursor, if any; never moves the cursor. */
    method PeekNth(n: nat) returns (r: Option<char>)
      requires Valid()
      ensures r.Some? <==> cursor + n < |text|
      ensures r.Some? ==> r.value == text[cursor + n]
    {
      if cursor + n < |text| {
        r := Some(text[cursor + n]);
      } else {
        r := None;
      }
    }

    /** `accept_if(p)`: consume one character when it satisfies `p`; otherwise fail and stay put. */
    method AcceptIf(p: CharClass) returns (r: Option<char>)
      requires Valid()
      modifies this
      ensures Valid()
      ensures old(cursor) < |text| && Matches(p, text[old(cursor)]) ==>
        r == Some(text[old(cursor)]) && cursor == old(cursor) + 1
      ensures !(old(cursor) < |text| && Matches(p, text[old(cursor)])) ==>
        r == None && cursor == old(cursor)
    {
      if cursor < |text| && Matches(p, text[cursor]) {
        r := Some(text[cursor]);
        cursor := cursor + 1;
      } else {
        r := None;
      }
    }

    /** `skip_while(p)`: advance over the maximal run satisfying `p`; returns the skipped slice. */
    method SkipWhile(p: CharClass) returns (skipped: seq<char>)
      requires Valid()
      modifies this
      ensures Valid()
      ensures cursor == SkipRun(text, old(cursor), p)
      ensures skipped == text[old(cursor)..cursor]
    {
      var start := cursor;
      while cursor < |text| && Matches(p, text[cursor])
        invariant start <= cursor <= |text|
        invariant SkipRun(text, cursor, p) == SkipRun(text, start, p)
        decreases |text| - cursor
      {
        cursor := cursor + 1;
      }
      skipped := text[start..cursor];
    }

    /** `has_remaining_text()`: whether anything is left after the cursor. */
    function HasRemainingText(): (b: bool)
      reads this
      requires Valid()
      ensures b <==> RemainingText() != []
    {
      cursor < |text|
    }

    /** `remaining_text()`: the text after the cursor, which completes what was consumed. */
    function RemainingText(): (r: seq<char>)
      reads this
      requires Valid()
      ensures text[..cursor] + r == text
    {
      text[cursor..]
    }
  }
}
