/** The error sink and the offset-to-line/column computation (src/main/lox/ErrorReporter.kt). */
module ErrorReporter {
  import opened Wrappers
  import opened Offset

  /** A 1-based line and a column (the column counts from -1, see `Within`). */
  datatype Location = Location(line: int, col: int)

  /** A static or runtime error: a span of the source and a message. */
  datatype LoxError = LoxError(position: Position, message: string)

  /** Number of newline characters in `t`. */
  function Newlines(t: string): nat
  {
    if t == [] then 0 else Newlines(t[..|t| - 1]) + (if t[|t| - 1] == '\n' then 1 else 0)
  }

  /** Number of characters after the last newline of `t` (all of them when there is none). */
  function CharsAfterNewline(t: string): nat
  {
    if t == [] then 0 else if t[|t| - 1] == '\n' then 0 else CharsAfterNewline(t[..|t| - 1]) + 1
  }

  /** The characters `within` scans for an offset: indices `0..offset` inclusive, none when it is negative. */
  function Scanned(source: string, offset: int): (t: string)
    requires offset < |source|
    ensures |t| == if offset < 0 then 0 else offset + 1
  {
    if offset < 0 then [] else source[..offset + 1]
  }

  /**
   * `within`: line and column of an offset. An offset at or past the end of the source is an error;
   * otherwise the line is one more than the newlines among the scanned characters and the column is
   * the number of characters after the last of them, minus one.
   */
  method Within(offset: Offset, source: string) returns (r: Result<Location, string>)
    ensures offset.offset >= |source| <==> r.Err?
    ensures r.Err? ==> r.error == "offset should be within the length of the file."
    ensures r.Ok? ==> r.value.line == 1 + Newlines(Scanned(source, offset.offset))
    ensures r.Ok? ==> r.value.col == CharsAfterNewline(Scanned(source, offset.offset)) - 1
  {
    if offset.offset >= |source| {
      return Err("offset should be within the length of the file.");
    }
    var line := 1;
    var col := -1;
    var i := 0;
    while i <= offset.offset
      invariant 0 <= i <= if offset.offset < 0 then 0 else offset.offset + 1
      invariant line == 1 + Newlines(source[..i])
      invariant col == CharsAfterNewline(source[..i]) - 1
    {
      assert source[..i + 1][..i] == source[..i];
      if source[i] == '\n' {
        line := line + 1;
        col := -1;
      } else {
        col := col + 1;
      }
      i := i + 1;
    }
    return Ok(Location(line, col));
  }

  /** The column `within` reports for a newline character is -1. */
  lemma WithinColumnAtNewline(source: string, k: nat)
    requires k < |source| && source[k] == '\n'
    ensures CharsAfterNewline(Scanned(source, k)) - 1 == -1
  {
    assert Scanned(source, k)[|Scanned(source, k)| - 1] == '\n';
  }

  /** The line and column `within` reports lie within the scanned prefix. */
  lemma {:induction false} WithinBounds(t: string)
    ensures Newlines(t) <= |t|
    ensures CharsAfterNewline(t) <= |t|
    ensures Newlines(t) + CharsAfterNewline(t) <= |t|
  {
    if t != [] {
      WithinBounds(t[..|t| - 1]);
    }
  }

  function StartOf(e: LoxError): int
  {
    e.position.start.offset
  }

  /**
   * An error survives de-duplication unless it starts at most one offset after the start of the
   * error just before it in the list (kept or dropped); the first error is compared with -2.
   */
  predicate Kept(errs: seq<LoxError>, i: nat)
    requires i < |errs|
  {
    StartOf(errs[i]) > (if i == 0 then -2 else StartOf(errs[i - 1])) + 1
  }

  /** The kept errors among the first `n`, in order. */
  function KeptPrefix(errs: seq<LoxError>, n: nat): seq<LoxError>
    requires n <= |errs|
  {
    if n == 0 then [] else KeptPrefix(errs, n - 1) + (if Kept(errs, n - 1) then [errs[n - 1]] else [])
  }

  /** The indices of the kept errors among the first `n`, in order. */
  function KeptIndices(errs: seq<LoxError>, n: nat): seq<nat>
    requires n <= |errs|
  {
    if n == 0 then [] else KeptIndices(errs, n - 1) + (if Kept(errs, n - 1) then [n - 1] else [])
  }

  function Deduplicated(errs: seq<LoxError>): seq<LoxError>
  {
    KeptPrefix(errs, |errs|)
  }

  /**
   * The de-duplicated list is an order-preserving subsequence of the input: it picks the input at
   * strictly increasing indices, and an index is picked exactly when its error is `Kept`.
   */
  lemma {:induction false} DeduplicatedIsSubsequence(errs: seq<LoxError>, n: nat)
    requires n <= |errs|
    ensures |KeptIndices(errs, n)| == |KeptPrefix(errs, n)|
    ensures forall j :: 0 <= j < |KeptIndices(errs, n)| ==>
      KeptIndices(errs, n)[j] < n && KeptPrefix(errs, n)[j] == errs[KeptIndices(errs, n)[j]]
    ensures forall j, k :: 0 <= j < k < |KeptIndices(errs, n)| ==>
      KeptIndices(errs, n)[j] < KeptIndices(errs, n)[k]
    ensures forall i :: 0 <= i < n ==> (i in KeptIndices(errs, n) <==> Kept(errs, i))
  {
    if n > 0 {
      DeduplicatedIsSubsequence(errs, n - 1);
    }
  }

  /** The first error is always kept when its offset is not negative (offsets produced by the scanner never are). */
  lemma {:induction false} FirstErrorKept(errs: seq<LoxError>, n: nat)
    requires 0 < n <= |errs| && StartOf(errs[0]) >= 0
    ensures |KeptPrefix(errs, n)| > 0 && KeptPrefix(errs, n)[0] == errs[0]
  {
    if n > 1 {
      FirstErrorKept(errs, n - 1);
    }
  }

  /** The sink: parse errors and runtime errors are kept in two separate append-only lists. */
  class ErrorReporter {
    const source: string
    var parseErrors: seq<LoxError>
    var runtimeErrors: seq<LoxError>

    constructor(source: string)
      ensures this.source == source && parseErrors == [] && runtimeErrors == []
      ensures !HadError() && !HadRuntimeError()
    {
      this.source := source;
      parseErrors := [];
      runtimeErrors := [];
    }

    predicate HadError()
      reads this
    {
      |parseErrors| != 0
    }

    predicate HadRuntimeError()
      reads this
    {
      |runtimeErrors| != 0
    }

    /** Appends to the runtime list only; `HadError` is unaffected. */
    method RuntimeError(error: LoxError)
      modifies this`runtimeErrors
      ensures runtimeErrors == old(runtimeErrors) + [error]
      ensures parseErrors == old(parseErrors)
      ensures HadRuntimeError() && HadError() == old(HadError())
    {
      runtimeErrors := runtimeErrors + [error];
    }

    /** Appends exactly one error to the parse list, after which `HadError` holds. */
    method ParseError(position: Position, message: string)
      modifies this`parseErrors
      ensures parseErrors == old(parseErrors) + [LoxError(position, message)]
      ensures runtimeErrors == old(runtimeErrors)
      ensures HadError() && HadRuntimeError() == old(HadRuntimeError())
    {
      parseErrors := parseErrors + [LoxError(position, message)];
    }

    /** `deduplicateErrors`: one pass over the parse errors remembering the previous start offset. */
    method DeduplicateErrors() returns (result: seq<LoxError>)
      ensures result == Deduplicated(parseErrors)
      ensures |result| <= |parseErrors|
    {
      var lastOffset := -2;
      result := [];
      var i := 0;
      while i < |parseErrors|
        invariant 0 <= i <= |parseErrors|
        invariant result == KeptPrefix(parseErrors, i)
        invariant |result| <= i
        invariant lastOffset == if i == 0 then -2 else StartOf(parseErrors[i - 1])
      {
        var error := parseErrors[i];
        if error.position.start.offset > lastOffset + 1 {
          result := result + [error];
        }
        lastOffset := error.position.start.offset;
        i := i + 1;
      }
    }
  }
}
