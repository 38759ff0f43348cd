/**
 Lines and columns: `Position` of crates/sqlake-core/src/sql.rs.

 Both count in 32 bits and stop at the largest rather than wrap.
 */
module Positions {
  import opened Wrappers

  const MAX_U32: nat := 0xFFFF_FFFF

  datatype Position = Position(line: nat, column: nat)

  const FIRST := Position(1, 1)

  function SaturatingAdd(a: nat, b: nat): nat {
    if a + b > MAX_U32 then MAX_U32 else a + b
  }

  function SaturatingSub(a: nat, b: nat): nat {
    if a < b then 0 else a - b
  }

  function After(p: Position, c: char): Position {
    if c == '\n' then Position(SaturatingAdd(p.line, 1), 1)
    else Position(p.line, SaturatingAdd(p.column, 1))
  }

  /** The line and column one past the end of `text`. */
  function AfterText(text: string): Position {
    if text == "" then FIRST else After(AfterText(text[..|text| - 1]), text[|text| - 1])
  }

  /** A one-based character offset as a position; none for zero or past the end. */
  function OffsetIn(text: string, offset: nat): Option<Position> {
    if 1 <= offset <= |text| then Some(AfterText(text[..offset - 1])) else None
  }

  /** The last line break of the text. */
  predicate LastBreak(text: string, k: int) {
    0 <= k < |text| && text[k] == '\n' && forall j :: k < j < |text| ==> text[j] != '\n'
  }

  /**
   A position in plain terms: its line is one more than the line breaks before it,
   and its column counts from behind the last of them, or from the start.
   */
  ghost predicate CountsTo(before: string, p: Position) {
    && p.line == 1 + multiset(before)['\n']
    && ('\n' !in before ==> p.column == |before| + 1)
    && forall k :: LastBreak(before, k) ==> p.column == |before| - k
  }

  /** While the counts fit, they are plain ones. */
  lemma {:induction false} AfterTextCounts(text: string)
    requires |text| < MAX_U32
    ensures CountsTo(text, AfterText(text))
    ensures AfterText(text).line <= |text| + 1 && AfterText(text).column <= |text| + 1
  {
    if text != "" {
      var most, c := text[..|text| - 1], text[|text| - 1];
      AfterTextCounts(most);
      assert text == most + [c];
      BreaksMore(most, c);
    }
  }

  lemma BreaksMore(most: string, c: char)
    ensures multiset(most + [c])['\n'] == multiset(most)['\n'] + if c == '\n' then 1 else 0
    ensures '\n' in most + [c] <==> c == '\n' || '\n' in most
    ensures forall k :: LastBreak(most + [c], k) <==> if c == '\n' then k == |most| else LastBreak(most, k)
  {
    var text := most + [c];
    assert forall j :: 0 <= j < |most| ==> text[j] == most[j];
    assert text[|most|] == c;
    forall k
      ensures LastBreak(text, k) <==> if c == '\n' then k == |most| else LastBreak(most, k)
    {
      if c != '\n' && LastBreak(text, k) {
        assert forall j :: k < j < |most| ==> text[j] == most[j];
      }
    }
  }

  method OfOffset(text: string, offset: nat) returns (r: Option<Position>)
    requires offset <= MAX_U32
    ensures r == OffsetIn(text, offset)
    ensures r.Some? <==> 1 <= offset <= |text|
    ensures r.Some? && |text| < MAX_U32 ==> CountsTo(text[..offset - 1], r.value)
  {
    if 1 <= offset <= |text| && |text| < MAX_U32 {
      AfterTextCounts(text[..offset - 1]);
    }
    hide CountsTo;
    var at := FIRST;
    var seen := 0;
    while seen < |text|
      invariant seen <= |text|
      invariant at == AfterText(text[..seen])
      invariant 1 <= offset ==> seen < offset
    {
      if seen + 1 == offset {
        return Some(at);
      }
      assert text[..seen + 1][..seen] == text[..seen];
      at := After(at, text[seen]);
      seen := seen + 1;
    }
    r := None;
  }

  /** A position counted from a statement that starts at `start`, counted from the text around it. */
  function InSource(start: Position, at: Position): Position {
    if at.line == 1 then
      Position(start.line, SaturatingAdd(start.column, SaturatingSub(at.column, 1)))
    else
      Position(SaturatingAdd(start.line, SaturatingSub(at.line, 1)), at.column)
  }

  lemma {:induction false} AfterTextBounds(text: string)
    requires |text| < MAX_U32
    ensures 1 <= AfterText(text).line <= |text| + 1
    ensures 1 <= AfterText(text).column <= |text| + 1
  {
    if text != "" { AfterTextBounds(text[..|text| - 1]); }
  }

  /** Counting on from the end of `before` is counting through both. */
  lemma {:induction false} AfterTextJoin(before: string, text: string)
    requires |before| + |text| < MAX_U32
    ensures AfterText(before + text) == InSource(AfterText(before), AfterText(text))
  {
    if text == "" {
      assert before + text == before;
      AfterTextBounds(before);
    } else {
      var most := text[..|text| - 1];
      assert (before + text)[..|before + text| - 1] == before + most;
      AfterTextJoin(before, most);
      AfterTextBounds(before);
      AfterTextBounds(most);
    }
  }

  /**
   An error the server places in the statement it was sent lands on the same
   character of the text the statement was taken from. Any offset that can be
   given at all is small enough for lines and columns not to stop short.
   */
  lemma ErrorsLandInTheSource(source: string, dropped: nat, kept: string, k: nat)
    requires dropped + |kept| <= |source| && source[dropped..dropped + |kept|] == kept
    requires dropped + k <= MAX_U32
    ensures 1 <= k <= |kept| ==>
              && OffsetIn(kept, k).Some? && OffsetIn(source, dropped + k).Some?
              && InSource(AfterText(source[..dropped]), OffsetIn(kept, k).value) == OffsetIn(source, dropped + k).value
    ensures !(1 <= k <= |kept|) ==> OffsetIn(kept, k).None?
  {
    if 1 <= k <= |kept| {
      assert source[..dropped + k - 1] == source[..dropped] + kept[..k - 1];
      AfterTextJoin(source[..dropped], kept[..k - 1]);
    }
  }
}
