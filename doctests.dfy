/** `get_doctests_indexes`: where the first doctest block of a docstring
    begins and ends. */
module Doctests {
  import opened Text

  // ---------------------------------------------------------------------
  // `get_doctests_indexes`.

  predicate IsDoctestLine(line: string) {
    StartsWith(Strip(line), ">>>")
  }

  /** The first block of doctest lines: it starts at the first line whose
      stripped text starts with `>>>` and runs to the last line before the
      next blank one. */
  method GetDoctestsIndexes(data: string) returns (start: int, end: int)
    ensures DoctestBlock(SplitLines(data), start, end)
  {
    var datalst := SplitLines(data);
    ghost var doc := seq(|datalst|, k requires 0 <= k < |datalst| => IsDoctestLine(datalst[k]));
    ghost var blanks := seq(|datalst|, k requires 0 <= k < |datalst| => IsBlank(datalst[k]));
    start, end := DoctestScan(datalst, doc, blanks);
    DoctestFlags(datalst, doc, blanks, start, end);
  }

  /** (-1, -1) exactly when no line starts a doctest; otherwise the block
      from the first such line to the line before the next blank one (or the
      last line). */
  predicate DoctestBlock(lines: seq<string>, start: int, end: int) {
    && (start == -1 <==> forall k {:trigger IsDoctestLine(lines[k])} :: 0 <= k < |lines| ==> !IsDoctestLine(lines[k]))
    && (start == -1 ==> end == -1)
    && (start != -1 ==>
          && 0 <= start <= end < |lines|
          && IsDoctestLine(lines[start])
          && (forall k {:trigger IsDoctestLine(lines[k])} :: 0 <= k < start ==> !IsDoctestLine(lines[k]))
          && (forall k {:trigger IsBlank(lines[k])} :: start <= k <= end ==> !IsBlank(lines[k]))
          && (end + 1 == |lines| || IsBlank(lines[end + 1])))
  }

  lemma DoctestFlags(lines: seq<string>, doc: seq<bool>, blanks: seq<bool>, start: int, end: int)
    requires |doc| == |lines| && |blanks| == |lines|
    requires forall k :: 0 <= k < |lines| ==> doc[k] == IsDoctestLine(lines[k]) && blanks[k] == IsBlank(lines[k])
    requires start == -1 <==> forall k :: 0 <= k < |lines| ==> !doc[k]
    requires start == -1 ==> end == -1
    requires start != -1 ==>
      && 0 <= start <= end < |lines|
      && doc[start]
      && (forall k :: 0 <= k < start ==> !doc[k])
      && (forall k :: start <= k <= end ==> !blanks[k])
      && (end + 1 == |lines| || blanks[end + 1])
    ensures DoctestBlock(lines, start, end)
  {
    assert (start == -1 <==> forall k {:trigger IsDoctestLine(lines[k])} :: 0 <= k < |lines| ==> !IsDoctestLine(lines[k])) by {
      if start != -1 {
        assert IsDoctestLine(lines[start]);
      }
    }
  }

  /** The loop of `get_doctests_indexes`, over the lines and (for the proof)
      which of them start a doctest and which are blank. */
  method DoctestScan(lines: seq<string>, ghost doc: seq<bool>, ghost blanks: seq<bool>) returns (start: int, end: int)
    requires |doc| == |lines| && |blanks| == |lines|
    requires forall k :: 0 <= k < |lines| ==> doc[k] == IsDoctestLine(lines[k]) && blanks[k] == IsBlank(lines[k])
    ensures start == -1 <==> forall k :: 0 <= k < |lines| ==> !doc[k]
    ensures start == -1 ==> end == -1
    ensures start != -1 ==>
      && 0 <= start <= end < |lines|
      && doc[start]
      && (forall k :: 0 <= k < start ==> !doc[k])
      && (forall k :: start <= k <= end ==> !blanks[k])
      && (end + 1 == |lines| || blanks[end + 1])
  {
    start, end := -1, -1;
    var i := 0;
    while i < |lines|
      invariant 0 <= i <= |lines|
      invariant start == -1 ==> end == -1 && forall k :: 0 <= k < i ==> !doc[k]
      invariant start != -1 ==>
        && 0 <= start <= end && end == i - 1
        && doc[start]
        && (forall k :: 0 <= k < start ==> !doc[k])
        && (forall k :: start <= k <= end ==> !blanks[k])
    {
      var blank, doctest := LineKind(lines[i]);
      if start > -1 {
        if blank {
          break;
        }
        end := i;
      } else if doctest {
        start := i;
        end := i;
      }
      i := i + 1;
    }
  }

  /** Whether a line is blank and whether it starts a doctest, once stripped. */
  method LineKind(line: string) returns (blank: bool, doctest: bool)
    ensures blank == IsBlank(line) && doctest == IsDoctestLine(line)
  {
    var stripped := Strip(line);
    blank := stripped == "";
    doctest := StartsWith(stripped, ">>>");
  }
}
