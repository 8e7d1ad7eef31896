/** Source positions as plain character offsets (src/main/lox/Offset.kt). */
module Offset {

  /** A cursor into the source text; Kotlin's `Int`, so it may be negative. */
  datatype Offset = Offset(offset: int) {
    /** Moving past one character adds one, whatever the character is. */
    function Increment(lastChar: char): (r: Offset)
      ensures r.offset == offset + 1
    {
      Offset(offset + 1)
    }
  }

  /** A half-open span `[start, end)` of the source. */
  datatype Position = Position(start: Offset, end: Offset)

  function StartLocation(): (r: Offset)
    ensures r.offset == 0
  {
    Offset(0)
  }

  /** `String.at(Offset)`: the character at the cursor; Kotlin throws outside the string. */
  function At(s: string, loc: Offset): (c: char)
    requires 0 <= loc.offset < |s|
    ensures c == s[loc.offset]
  {
    s[loc.offset]
  }

  /** `String.at(Position)`: `substring(start, end)`; Kotlin throws unless `0 <= start <= end <= length`. */
  function AtSpan(s: string, pos: Position): (r: string)
    requires 0 <= pos.start.offset <= pos.end.offset <= |s|
    ensures |r| == pos.end.offset - pos.start.offset
    ensures forall k :: 0 <= k < |r| ==> r[k] == s[pos.start.offset + k]
  {
    s[pos.start.offset..pos.end.offset]
  }

  /** An empty span at one cursor. */
  function Point(loc: Offset): (p: Position)
    ensures p.start == p.end == loc
  {
    Position(loc, loc)
  }

  /** The text of a point span is empty. */
  lemma PointIsEmpty(s: string, loc: Offset)
    requires 0 <= loc.offset <= |s|
    ensures AtSpan(s, Point(loc)) == ""
  {
  }

  /** Two adjacent spans spell out the span they cover together. */
  lemma {:induction false} AdjacentSpans(s: string, a: Offset, b: Offset, c: Offset)
    requires 0 <= a.offset <= b.offset <= c.offset <= |s|
    ensures AtSpan(s, Position(a, b)) + AtSpan(s, Position(b, c)) == AtSpan(s, Position(a, c))
  {
    assert s[a.offset..c.offset] == s[a.offset..b.offset] + s[b.offset..c.offset];
  }
}
