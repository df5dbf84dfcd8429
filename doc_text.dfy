/** The text steps of `DocString`: the input docstring without its
    delimiters, the indentation of the output, the cleaned lines every
    extractor reads, the excision of doctests and the current description
    (`__init__`, `_extract_docs_doctest`, `__extract_current_desc`). */
module DocText {
  import opened Wrappers
  import opened Text
  import opened Utils
  import opened Styles
  import opened SectionTools
  import opened Doctests
  import GroupScan
  import KeyScan

  // ---------------------------------------------------------------------
  // The raw docstring and the output indentation.

  predicate OpensQuoted(s: string) {
    StartsWith(s, TripleDouble) || StartsWith(s, TripleSingle)
  }

  predicate ClosesQuoted(s: string) {
    EndsWith(s, TripleDouble) || EndsWith(s, TripleSingle)
  }

  /** One opening and one closing triple quote removed. */
  function Unquote(s: string): (r: string)
    ensures |r| <= |s|
    ensures !OpensQuoted(s) && !ClosesQuoted(s) ==> r == s
  {
    var t := if OpensQuoted(s) then s[3..] else s;
    if ClosesQuoted(t) then t[..|t| - 3] else t
  }

  /** The docstring with its surrounding whitespace, one opening and one
      closing triple quote removed. */
  function StripDelimiters(raw: string): (r: string)
    ensures |r| <= |Strip(raw)|
    ensures !OpensQuoted(Strip(raw)) && !ClosesQuoted(Strip(raw)) ==> r == Strip(raw)
  {
    Unquote(Strip(raw))
  }

  lemma Unquoted(q1: string, body: string, q2: string)
    requires q1 == TripleDouble || q1 == TripleSingle
    requires q2 == TripleDouble || q2 == TripleSingle
    ensures Unquote(q1 + body + q2) == body
  {
    var w := q1 + body + q2;
    assert w[..3] == q1;
    var t := w[3..];
    assert t == body + q2;
    assert t[|t| - 3..] == q2;
    assert t[..|t| - 3] == body;
  }

  lemma QuotedTrimmed(q1: string, body: string, q2: string)
    requires q1 == TripleDouble || q1 == TripleSingle
    requires q2 == TripleDouble || q2 == TripleSingle
    ensures Trimmed(q1 + body + q2)
  {
    var w := q1 + body + q2;
    assert w[0] == q1[0] && w[|w| - 1] == q2[2];
  }

  /** Whatever stands between the two triple quotes is recovered, however
      the docstring is padded. */
  lemma StripDelimitersWrapped(a: string, q1: string, body: string, q2: string, b: string)
    requires AllSpace(a) && AllSpace(b)
    requires q1 == TripleDouble || q1 == TripleSingle
    requires q2 == TripleDouble || q2 == TripleSingle
    ensures StripDelimiters(a + (q1 + body + q2) + b) == body
  {
    QuotedTrimmed(q1, body, q2);
    StripPadded(a, q1 + body + q2, b);
    Unquoted(q1, body, q2);
  }

  /** `docs['out']['spaces']`: one indentation level deeper than the
      element: a tab when the element is indented with tabs, four spaces
      when its indentation is a multiple of four, two otherwise. */
  function OutSpaces(spaces: string): (r: string)
    ensures StartsWith(r, spaces) && |r| > |spaces|
    ensures '\t' in spaces ==> r[|spaces|..] == "\t"
    ensures '\t' !in spaces && |spaces| % 4 == 0 ==> r[|spaces|..] == "    "
    ensures '\t' !in spaces && |spaces| % 4 != 0 ==> r[|spaces|..] == "  "
  {
    var extra := if '\t' in spaces then "\t" else if |spaces| % 4 == 0 || spaces == "" then "    " else "  ";
    assert (spaces + extra)[..|spaces|] == spaces && (spaces + extra)[|spaces|..] == extra;
    spaces + extra
  }

  // ---------------------------------------------------------------------
  // The cleaned text: every line right-stripped, then the output
  // indentation removed once.

  function CleanLine(line: string, spaces: string): string {
    ReplaceFirst(RStrip(line), spaces, "")
  }

  function CleanLines(lines: seq<string>, spaces: string): (r: seq<string>)
    ensures |r| == |lines| && forall k :: 0 <= k < |lines| ==> r[k] == CleanLine(lines[k], spaces)
  {
    seq(|lines|, k requires 0 <= k < |lines| => CleanLine(lines[k], spaces))
  }

  /** `'\n'.join([d.rstrip().replace(spaces, '', 1) for d in raw.splitlines()])`. */
  function Cleaned(raw: string, spaces: string): string {
    Join("\n", CleanLines(SplitLines(raw), spaces))
  }

  /** Cleaning stays within the line. */
  lemma CleanLineOneLine(line: string, spaces: string)
    requires '\n' !in line
    ensures '\n' !in CleanLine(line, spaces)
  {
    var r := RStrip(line);
    assert forall k :: 0 <= k < |r| ==> r[k] == line[k];
    var i := Find(r, spaces);
    if i >= 0 {
      assert CleanLine(line, spaces) == r[..i] + r[i + |spaces|..];
    }
  }

  /** Joining lines with newlines and splitting again gives the lines back,
      except that a last empty line is lost. */
  lemma {:induction false} SplitJoin(parts: seq<string>)
    requires forall k :: 0 <= k < |parts| ==> '\n' !in parts[k]
    ensures SplitLines(Join("\n", parts)) ==
      if parts != [] && parts[|parts| - 1] == [] then parts[..|parts| - 1] else parts
  {
    if |parts| == 1 {
      if parts[0] != [] {
        SplitLinesOne(parts[0]);
      }
    } else if |parts| > 1 {
      var rest := parts[1..];
      SplitJoin(rest);
      SplitLinesCons(parts[0], Join("\n", rest));
      assert Join("\n", parts) == parts[0] + "\n" + Join("\n", rest);
      if parts[|parts| - 1] == [] {
        assert [parts[0]] + rest[..|rest| - 1] == parts[..|parts| - 1];
      } else {
        assert [parts[0]] + rest == parts;
      }
    }
  }

  /** The cleaned text has the cleaned lines, one per input line, up to a
      last empty one. */
  lemma CleanedLines(raw: string, spaces: string)
    ensures var c := CleanLines(SplitLines(raw), spaces);
      SplitLines(Cleaned(raw, spaces)) == if c != [] && c[|c| - 1] == [] then c[..|c| - 1] else c
  {
    var lines := SplitLines(raw);
    var c := CleanLines(lines, spaces);
    forall k | 0 <= k < |c| ensures '\n' !in c[k] {
      CleanLineOneLine(lines[k], spaces);
    }
    SplitJoin(c);
  }

  /** The first lines of a text, joined again, are a prefix of it. */
  lemma {:induction false} JoinedLinesPrefix(d: string, k: nat)
    requires k <= |SplitLines(d)|
    ensures StartsWith(d, Join("\n", SplitLines(d)[..k]))
    decreases |d|
  {
    if k > 0 {
      var i := FindChar(d, '\n');
      if i < 0 {
        OneLinePrefix(d, k);
      } else {
        var line, rest := d[..i], d[i + 1..];
        CutAtChar(d, i);
        SplitLinesCons(line, rest);
        if k > 1 {
          JoinedLinesPrefix(rest, k - 1);
        }
        ConsPrefix(line, rest, k);
      }
    }
  }

  lemma OneLinePrefix(d: string, k: nat)
    requires FindChar(d, '\n') < 0 && 0 < k <= |SplitLines(d)|
    ensures StartsWith(d, Join("\n", SplitLines(d)[..k]))
  {
    assert SplitLines(d) == [d];
    assert SplitLines(d)[..k] == [d];
  }

  /** A text is the part before a character, the character and the rest. */
  lemma CutAtChar(d: string, i: nat)
    requires i < |d|
    ensures d == d[..i] + [d[i]] + d[i + 1..]
  {
  }

  /** The induction step: one more line in front of the text and of the
      joined prefix. */
  lemma ConsPrefix(line: string, rest: string, k: nat)
    requires 1 <= k <= 1 + |SplitLines(rest)|
    requires k > 1 ==> StartsWith(rest, Join("\n", SplitLines(rest)[..k - 1]))
    ensures StartsWith(line + "\n" + rest, Join("\n", ([line] + SplitLines(rest))[..k]))
  {
    var lines := [line] + SplitLines(rest);
    if k == 1 {
      assert lines[..1] == [line];
    } else {
      var tail := SplitLines(rest)[..k - 1];
      assert lines[..k] == [line] + tail;
      JoinCons("\n", line, tail);
      PrefixExtend(line + "\n", rest, Join("\n", tail));
    }
  }

  /** Joining a first part onto at least one more. */
  lemma JoinCons(sep: string, x: string, tail: seq<string>)
    requires tail != []
    ensures Join(sep, [x] + tail) == x + sep + Join(sep, tail)
  {
    assert ([x] + tail)[1..] == tail;
  }

  /** A prefix stays a prefix behind a common head. */
  lemma PrefixExtend(a: string, b: string, j: string)
    requires StartsWith(b, j)
    ensures StartsWith(a + b, a + j)
  {
    assert (a + b)[..|a + j|] == a + b[..|j|];
  }

  // ---------------------------------------------------------------------
  // Doctests.

  /** The first doctest line at or after `i`, `|lines|` when there is none. */
  function FirstDoctestFrom(lines: seq<string>, i: nat): (r: nat)
    requires i <= |lines|
    ensures i <= r <= |lines|
    ensures forall k {:trigger IsDoctestLine(lines[k])} :: i <= k < r ==> !IsDoctestLine(lines[k])
    ensures r < |lines| ==> IsDoctestLine(lines[r])
    decreases |lines| - i
  {
    if i == |lines| || IsDoctestLine(lines[i]) then i else FirstDoctestFrom(lines, i + 1)
  }

  /** The last line of the block of non-blank lines that starts at `k`. */
  function BlockEndFrom(lines: seq<string>, k: nat): (r: nat)
    requires k < |lines|
    ensures k <= r < |lines|
    ensures forall j {:trigger IsBlank(lines[j])} :: k < j <= r ==> !IsBlank(lines[j])
    ensures r + 1 == |lines| || IsBlank(lines[r + 1])
    decreases |lines| - k
  {
    if k + 1 == |lines| || IsBlank(lines[k + 1]) then k else BlockEndFrom(lines, k + 1)
  }

  /** `get_doctests_indexes` as a function of the lines. */
  function DoctestIndexes(lines: seq<string>): (r: (int, int))
    ensures r.0 == -1 <==> FirstDoctestFrom(lines, 0) == |lines|
    ensures r.0 == -1 ==> r.1 == -1
    ensures r.0 != -1 ==> 0 <= r.0 <= r.1 < |lines|
  {
    var s := FirstDoctestFrom(lines, 0);
    if s == |lines| then (-1, -1) else (s as int, BlockEndFrom(lines, s) as int)
  }

  /** The function meets the scanner's contract. */
  lemma DoctestIndexesBlock(lines: seq<string>)
    ensures DoctestBlock(lines, DoctestIndexes(lines).0, DoctestIndexes(lines).1)
  {
    var s := FirstDoctestFrom(lines, 0);
    if s < |lines| {
      var t := Strip(lines[s]);
      assert t[..3] == ">>>";
      assert !IsBlank(lines[s]);
    }
  }

  lemma {:induction false} FirstDoctestAt(lines: seq<string>, i: nat, s: nat)
    requires i <= s <= |lines|
    requires forall k {:trigger IsDoctestLine(lines[k])} :: i <= k < s ==> !IsDoctestLine(lines[k])
    requires s < |lines| ==> IsDoctestLine(lines[s])
    ensures FirstDoctestFrom(lines, i) == s
    decreases s - i
  {
    if i < s {
      FirstDoctestAt(lines, i + 1, s);
    }
  }

  lemma {:induction false} BlockEndAt(lines: seq<string>, k: nat, e: nat)
    requires k <= e < |lines|
    requires forall j {:trigger IsBlank(lines[j])} :: k < j <= e ==> !IsBlank(lines[j])
    requires e + 1 == |lines| || IsBlank(lines[e + 1])
    ensures BlockEndFrom(lines, k) == e
    decreases e - k
  {
    if k < e {
      BlockEndAt(lines, k + 1, e);
    }
  }

  /** The indexes the scanner returns are determined by the lines: its
      contract has exactly one solution. */
  lemma DoctestIndexesUnique(lines: seq<string>, start: int, end: int)
    requires DoctestBlock(lines, start, end)
    ensures (start, end) == DoctestIndexes(lines)
  {
    if start == -1 {
      FirstDoctestAt(lines, 0, |lines|);
    } else {
      FirstDoctestAt(lines, 0, start);
      BlockEndAt(lines, start, end);
    }
  }

  /** The lines without the block `s..e`. */
  function Splice(lines: seq<string>, s: nat, e: nat): (r: seq<string>)
    requires s <= e < |lines|
    ensures |r| == |lines| - (e - s + 1)
  {
    lines[..s] + lines[e + 1..]
  }

  /** The doctest buffer with one more block: a newline between blocks, and
      a newline after the block. */
  function AddTests(tests: string, block: seq<string>): (r: string)
    ensures EndsWithNewline(r)
    ensures StartsWith(r, tests)
  {
    var head := if tests != "" then tests + "\n" else tests;
    var r := head + Join("\n", block) + "\n";
    assert r[..|tests|] == tests;
    r
  }

  /** Removing a block leaves fewer lines. */
  lemma SpliceFewer(lines: seq<string>, s: nat, e: nat)
    requires s <= e < |lines|
    requires forall k :: 0 <= k < |lines| ==> '\n' !in lines[k]
    ensures |SplitLines(Join("\n", Splice(lines, s, e)))| < |lines|
  {
    var sp := Splice(lines, s, e);
    forall k | 0 <= k < |sp| ensures '\n' !in sp[k] {
      if k < s {
        assert sp[k] == lines[k];
      } else {
        assert sp[k] == lines[k + e - s + 1];
      }
    }
    SplitJoin(sp);
  }

  /** One turn of the loop of `_extract_docs_doctest`: the first doctest
      block moves from the docstring to the doctest buffer, and the
      docstring is rejoined without it. */
  function ExciseFirst(data: string, tests: string): (r: (string, string))
    requires DoctestIndexes(SplitLines(data)).0 != -1
    ensures StartsWith(r.1, tests) && EndsWithNewline(r.1)
  {
    var lines := SplitLines(data);
    var ix := DoctestIndexes(lines);
    ExciseAt(lines, ix.0, ix.1, tests)
  }

  /** The lines `s..e` moved from the text to the doctest buffer. */
  function ExciseAt(lines: seq<string>, s: nat, e: nat, tests: string): (r: (string, string))
    requires s <= e < |lines|
    ensures StartsWith(r.1, tests) && EndsWithNewline(r.1)
  {
    (Join("\n", Splice(lines, s, e)), AddTests(tests, lines[s..e + 1]))
  }

  /** Each turn removes at least one line, so the loop ends. */
  lemma ExciseFewer(data: string, tests: string)
    requires DoctestIndexes(SplitLines(data)).0 != -1
    ensures |SplitLines(ExciseFirst(data, tests).0)| < |SplitLines(data)|
  {
    var lines := SplitLines(data);
    var ix := DoctestIndexes(lines);
    SpliceFewer(lines, ix.0, ix.1);
  }

  /** The whole loop: blocks are moved until none is left. */
  function Excision(data: string, tests: string): (r: (string, string))
    decreases |SplitLines(data)|
  {
    if DoctestIndexes(SplitLines(data)).0 == -1 then (data, tests)
    else
      var n := ExciseFirst(data, tests);
      ExciseFewer(data, tests);
      Excision(n.0, n.1)
  }

  /** No line of the text starts a doctest. */
  predicate NoDoctest(d: string) {
    var lines := SplitLines(d);
    forall k {:trigger IsDoctestLine(lines[k])} :: 0 <= k < |lines| ==> !IsDoctestLine(lines[k])
  }

  lemma NoDoctestWhenNone(d: string)
    requires DoctestIndexes(SplitLines(d)).0 == -1
    ensures NoDoctest(d)
  {
    var lines := SplitLines(d);
    assert FirstDoctestFrom(lines, 0) == |lines|;
  }

  /** Once the loop stops, no line of the docstring starts a doctest. */
  lemma {:induction false} ExcisionClean(data: string, tests: string)
    ensures NoDoctest(Excision(data, tests).0)
    decreases |SplitLines(data)|
  {
    if DoctestIndexes(SplitLines(data)).0 != -1 {
      var n := ExciseFirst(data, tests);
      ExciseFewer(data, tests);
      ExcisionClean(n.0, n.1);
    } else {
      NoDoctestWhenNone(data);
    }
  }

  /** The doctest buffer only grows, and once it holds a block it ends
      with a newline. */
  lemma ExcisionTests(data: string, tests: string)
    ensures StartsWith(Excision(data, tests).1, tests)
    ensures var t := Excision(data, tests).1;
      EndsWithNewline(tests) ==> EndsWithNewline(t)
  {
    ExcisionPrefix(data, tests);
    if EndsWithNewline(tests) {
      ExcisionNewline(data, tests);
    }
  }

  lemma {:induction false} ExcisionPrefix(data: string, tests: string)
    ensures StartsWith(Excision(data, tests).1, tests)
    decreases |SplitLines(data)|
  {
    if DoctestIndexes(SplitLines(data)).0 != -1 {
      var n := ExciseFirst(data, tests);
      ExciseFewer(data, tests);
      ExcisionPrefix(n.0, n.1);
      ExcisionStep(data, tests);
      PrefixTrans(Excision(n.0, n.1).1, n.1, tests);
    }
  }

  lemma {:induction false} ExcisionNewline(data: string, tests: string)
    requires EndsWithNewline(tests)
    ensures EndsWithNewline(Excision(data, tests).1)
    decreases |SplitLines(data)|
  {
    if DoctestIndexes(SplitLines(data)).0 != -1 {
      var n := ExciseFirst(data, tests);
      ExciseFewer(data, tests);
      ExcisionNewline(n.0, n.1);
      ExcisionStep(data, tests);
    }
  }

  /** A non-empty text whose last character is a line break. */
  predicate EndsWithNewline(t: string) {
    t != [] && t[|t| - 1] == '\n'
  }

  /** One turn of the excision. */
  lemma ExcisionStep(data: string, tests: string)
    requires DoctestIndexes(SplitLines(data)).0 != -1
    ensures Excision(data, tests) == Excision(ExciseFirst(data, tests).0, ExciseFirst(data, tests).1)
  {
  }

  lemma PrefixTrans(a: string, b: string, c: string)
    requires StartsWith(a, b) && StartsWith(b, c)
    ensures StartsWith(a, c)
  {
    assert a[..|c|] == a[..|b|][..|c|];
  }

  /** The buffer receives text exactly when the docstring has a doctest
      line: then it ends with a newline; otherwise nothing changes. */
  lemma ExcisionFound(data: string, tests: string)
    ensures var lines := SplitLines(data);
      (exists k {:trigger IsDoctestLine(lines[k])} :: 0 <= k < |lines| && IsDoctestLine(lines[k])) ==>
        EndsWithNewline(Excision(data, tests).1)
    ensures var lines := SplitLines(data);
      (forall k {:trigger IsDoctestLine(lines[k])} :: 0 <= k < |lines| ==> !IsDoctestLine(lines[k])) ==> Excision(data, tests) == (data, tests)
  {
    var lines := SplitLines(data);
    if exists k {:trigger IsDoctestLine(lines[k])} :: 0 <= k < |lines| && IsDoctestLine(lines[k]) {
      var k :| 0 <= k < |lines| && IsDoctestLine(lines[k]);
      DoctestLineFound(lines, k);
      var n := ExciseFirst(data, tests);
      ExcisionNewline(n.0, n.1);
      ExcisionStep(data, tests);
    } else {
      FirstDoctestAt(lines, 0, |lines|);
    }
  }

  /** A doctest line anywhere means the scanner finds a block. */
  lemma DoctestLineFound(lines: seq<string>, k: nat)
    requires k < |lines| && IsDoctestLine(lines[k])
    ensures DoctestIndexes(lines).0 != -1
  {
    assert FirstDoctestFrom(lines, 0) <= k;
  }

  // ---------------------------------------------------------------------
  // The current description: the text up to the first element of the
  // input style.

  /** `get_group_index` as a function of the lines. */
  function GroupIndexOf(lines: seq<string>): int {
    var li := GroupScan.GroupLine(lines);
    if li == -1 then -1 else GroupScan.LineStart(lines, li)
  }

  /** The length of the text before the first section header, -1 without
      one. */
  function SectionOffset(t: Tools, lines: seq<string>): int {
    var ln := SectionStart(t, Norms(lines));
    if ln == -1 then -1 else |Join("\n", lines[..ln])|
  }

  /** Where the description ends, by input style; the tag-style table has
      no entry for any other style name (a `KeyError`). */
  function DescIndex(style: string, data: string): Result<int> {
    if style == "groups" then Ok(GroupIndexOf(SplitLines(data)))
    else if style == "google" then Ok(SectionOffset(GoogleTools(), SplitLines(data)))
    else if style == "numpydoc" then Ok(SectionOffset(NumpyTools(), SplitLines(data)))
    else if style == "unknown" then Ok(-1)
    else match StyleOf(style)
      case None => Err("KeyError: " + style)
      case Some(s) => Ok(KeyScan.ElemIndex(data, s, true))
  }

  /** The text before the index: nothing at 0, everything at -1. */
  function CutAt(data: string, idx: int): string {
    if idx == 0 then "" else if idx == -1 then data else Slice(data, 0, idx)
  }

  /** `__extract_current_desc` on the cleaned text. */
  function CurrentDesc(style: string, data: string): Result<string> {
    match DescIndex(style, data)
    case Err(m) => Err(m)
    case Ok(idx) => Ok(CutAt(data, idx))
  }

  /** In a section dialect, the description is the text of the lines
      before the first section header; all of it when there is none. */
  lemma SectionDescription(t: Tools, data: string)
    ensures var lines := SplitLines(data);
      var ln := SectionStart(t, Norms(lines));
      CutAt(data, SectionOffset(t, lines)) == if ln == -1 then data else Join("\n", lines[..ln])
  {
    var lines := SplitLines(data);
    var ln := SectionStart(t, Norms(lines));
    if ln != -1 {
      assert |Norms(lines)| == |lines|;
      JoinedLinesPrefix(data, ln);
      var j := Join("\n", lines[..ln]);
      assert data[..|j|] == j;
    }
  }

  /** Without any element marker of the style, the whole text is the
      description. */
  lemma UnknownStyleDescription(data: string)
    ensures CurrentDesc("unknown", data) == Ok(data)
  {
  }

  /** The loop of `_extract_docs_doctest`: while a doctest block is found,
      it is appended to the buffer and cut out of the docstring. */
  method MoveDoctests(data0: string, tests0: string) returns (found: bool, data: string, tests: string)
    ensures (data, tests) == Excision(data0, tests0)
    ensures found <==> DoctestIndexes(SplitLines(data0)).0 != -1
  {
    data, tests := data0, tests0;
    found := false;
    var start, end := Doctests.GetDoctestsIndexes(data);
    DoctestIndexesUnique(SplitLines(data), start, end);
    while start != -1
      invariant Excision(data, tests) == Excision(data0, tests0)
      invariant (start, end) == DoctestIndexes(SplitLines(data))
      invariant found || data == data0
      invariant found ==> DoctestIndexes(SplitLines(data0)).0 != -1
      decreases |SplitLines(data)|
    {
      found := true;
      ghost var before := (data, tests);
      ExciseFewer(data, tests);
      data, tests := CutBlock(data, tests, start, end);
      assert (data, tests) == ExciseFirst(before.0, before.1);
      assert Excision(before.0, before.1) == Excision(data, tests);
      start, end := Doctests.GetDoctestsIndexes(data);
      DoctestIndexesUnique(SplitLines(data), start, end);
    }
    assert !found ==> DoctestIndexes(SplitLines(data0)).0 == start;
  }

  /** One turn of that loop: the block moves to the buffer, a newline
      between blocks. */
  method CutBlock(data: string, tests: string, start: nat, end: nat) returns (rest: string, moved: string)
    requires start <= end < |SplitLines(data)|
    ensures (rest, moved) == ExciseAt(SplitLines(data), start, end, tests)
  {
    var datalst := SplitLines(data);
    moved := tests;
    if moved != "" {
      moved := moved + "\n";
    }
    moved := moved + Join("\n", datalst[start..end + 1]) + "\n";
    rest := Join("\n", datalst[..start] + datalst[end + 1..]);
    assert datalst[..start] + datalst[end + 1..] == Splice(datalst, start, end);
  }
}
