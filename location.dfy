/**
 * Source positions with line and column bookkeeping (src/main/lox/Location.kt). This file and
 * Offset.kt give competing definitions of the same names; the scanner of this model uses the
 * offset-only ones, so this module stands on its own.
 */
module Location {
  import ErrorReporter

  datatype Location = Location(line: int, col: int, offset: int) {
    /**
     * `increment`, as written: the offset grows by one; the column resets to 0 after a newline
     * and grows by one otherwise; the line stays put after a newline and grows by one otherwise.
     */
    function Increment(lastChar: char): (r: Location)
      ensures r.offset == offset + 1
      ensures lastChar == '\n' ==> r.col == 0 && r.line == line
      ensures lastChar != '\n' ==> r.col == col + 1 && r.line == line + 1
    {
      Location(if lastChar == '\n' then line else line + 1,
               if lastChar == '\n' then 0 else col + 1,
               offset + 1)
    }

    /** `increment` with the line update the column update implies: a newline starts the next line. */
    function IncrementIntended(lastChar: char): (r: Location)
      ensures r.offset == offset + 1
      ensures lastChar == '\n' ==> r.col == 0 && r.line == line + 1
      ensures lastChar != '\n' ==> r.col == col + 1 && r.line == line
    {
      Location(if lastChar == '\n' then line + 1 else line,
               if lastChar == '\n' then 0 else col + 1,
               offset + 1)
    }
  }

  datatype Position = Position(start: Location, end: Location)

  function StartLocation(): (r: Location)
    ensures r.line == 1 && r.col == 0 && r.offset == 0
  {
    Location(1, 0, 0)
  }

  /** `String.at(Location)`: the character at the cursor's offset. */
  function At(s: string, loc: Location): (c: char)
    requires 0 <= loc.offset < |s|
    ensures c == s[loc.offset]
  {
    s[loc.offset]
  }

  /** `String.at(Position)`: the text of `[start.offset, end.offset)`. */
  function AtSpan(s: string, pos: Position): (r: string)
    requires 0 <= pos.start.offset <= pos.end.offset <= |s|
    ensures |r| == pos.end.offset - pos.start.offset
    ensures forall k :: 0 <= k < |r| ==> r[k] == s[pos.start.offset + k]
  {
    s[pos.start.offset..pos.end.offset]
  }

  function Point(loc: Location): (p: Position)
    ensures p.start == p.end == loc
  {
    Position(loc, loc)
  }

  /** The text of a point span is empty. */
  lemma PointIsEmpty(s: string, loc: Location)
    requires 0 <= loc.offset <= |s|
    ensures AtSpan(s, Point(loc)) == ""
  {
  }

  /** The cursor after consuming `t` from the start location with the code as written. */
  function AdvanceAsWritten(t: string): Location
  {
    if t == [] then StartLocation() else AdvanceAsWritten(t[..|t| - 1]).Increment(t[|t| - 1])
  }

  /** The cursor after consuming `t` from the start location with the intended line update. */
  function Advance(t: string): Location
  {
    if t == [] then StartLocation() else Advance(t[..|t| - 1]).IncrementIntended(t[|t| - 1])
  }

  /** As written, two characters on the first line leave the cursor on line 3. */
  lemma LineCountInverted()
    ensures AdvanceAsWritten("ab").line == 3
    ensures ErrorReporter.Newlines("ab") == 0
  {
    assert "ab"[..1] == "a";
    assert "a"[..0] == "";
  }

  /**
   * With the intended update the cursor that consumed `t` is on line 1 + (newlines in `t`), its
   * column counts the characters since the last newline, and its offset is `|t|`.
   */
  lemma {:induction false} AdvanceCountsLines(t: string)
    ensures Advance(t).line == 1 + ErrorReporter.Newlines(t)
    ensures Advance(t).col == ErrorReporter.CharsAfterNewline(t)
    ensures Advance(t).offset == |t|
  {
    if t != [] {
      AdvanceCountsLines(t[..|t| - 1]);
    }
  }

  /**
   * The intended cursor agrees with `within`: for an offset `k` in the source, `within` reports the
   * cursor's line and column just before `s[k]` (column minus one), except that at a newline it
   * reports the next line and column -1.
   */
  lemma AdvanceAgreesWithWithin(s: string, k: nat)
    requires k < |s|
    ensures s[k] != '\n' ==>
      1 + ErrorReporter.Newlines(ErrorReporter.Scanned(s, k)) == Advance(s[..k]).line &&
      ErrorReporter.CharsAfterNewline(ErrorReporter.Scanned(s, k)) - 1 == Advance(s[..k]).col
    ensures s[k] == '\n' ==>
      1 + ErrorReporter.Newlines(ErrorReporter.Scanned(s, k)) == Advance(s[..k]).line + 1 &&
      ErrorReporter.CharsAfterNewline(ErrorReporter.Scanned(s, k)) - 1 == -1
  {
    AdvanceCountsLines(s[..k]);
    assert ErrorReporter.Scanned(s, k)[..k] == s[..k];
  }
}
