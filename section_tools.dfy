/** The two section dialects: numpydoc (a header line underlined with dashes)
    and Google (a `Header:` line). Each is described by its table of section
    names, its headers and its optional and excluded sections; on top of that
    sit the section scanners and the column-aligned list parsers. */
module SectionTools {
  import opened Wrappers
  import opened Text
  import opened Utils

  datatype Dialect = Numpy | Google

  /** `DocToolsBase` with the tables of one dialect. Tables are ordered
      association lists, as Python dicts keep insertion order. */
  datatype Tools = Tools(
    dialect: Dialect,
    optional: seq<string>,
    excluded: seq<string>,
    opt: seq<(string, string)>,
    headers: seq<(string, string)>)

  function NumpyTools(): Tools {
    Tools(
      Numpy,
      ["raise", "also", "ref", "note", "other", "example", "method", "attr"],
      [],
      [("also", "see also"), ("attr", "attributes"), ("example", "examples"),
       ("method", "methods"), ("note", "notes"), ("other", "other parameters"),
       ("param", "parameters"), ("raise", "raises"), ("ref", "references"),
       ("return", "returns")],
      [("param", "Parameters"), ("return", "Returns"), ("raise", "Raises")])
  }

  /** The Google default for optional sections is the string `('raise')`, not a
      one-element tuple, so `list()` turns it into its five characters. */
  function GoogleTools(): Tools {
    Tools(
      Google,
      ["r", "a", "i", "s", "e"],
      [],
      [("attr", "attributes"), ("param", "args"), ("raise", "raises"),
       ("return", "returns"), ("yield", "yields")],
      [("param", "Args"), ("return", "Returns"), ("raise", "Raises")])
  }

  /** The numpydoc keywords the style detector looks for. */
  function NumpyKeywords(): seq<string> {
    [":math:", ".. math::", "see also", ".. image::"]
  }

  function Keys(m: seq<(string, string)>): (r: seq<string>)
    ensures |r| == |m| && forall i :: 0 <= i < |m| ==> r[i] == m[i].0
  {
    seq(|m|, i requires 0 <= i < |m| => m[i].0)
  }

  function Values(m: seq<(string, string)>): (r: seq<string>)
    ensures |r| == |m| && forall i :: 0 <= i < |m| ==> r[i] == m[i].1
  {
    seq(|m|, i requires 0 <= i < |m| => m[i].1)
  }

  /** Dictionary lookup: the value of the first entry with this key. */
  function Lookup(m: seq<(string, string)>, k: string): (r: Option<string>)
    ensures r.Some? <==> k in Keys(m)
    ensures r.Some? ==> (k, r.value) in m
  {
    if m == [] then None
    else if m[0].0 == k then Some(m[0].1)
    else
      assert Keys(m) == [m[0].0] + Keys(m[1..]);
      Lookup(m[1..], k)
  }

  /** `get_mandatory_sections`: the table keys, in order, that are neither
      optional nor excluded. */
  function GetMandatorySections(t: Tools): (r: seq<string>)
    ensures forall s :: s in r ==> s in Keys(t.opt) && s !in t.optional && s !in t.excluded
    ensures forall s :: s in Keys(t.opt) && s !in t.optional && s !in t.excluded ==> s in r
  {
    Mandatory(Keys(t.opt), t.optional, t.excluded)
  }

  function Mandatory(ks: seq<string>, optional: seq<string>, excluded: seq<string>): (r: seq<string>)
    ensures forall s :: s in r ==> s in ks && s !in optional && s !in excluded
    ensures forall s :: s in ks && s !in optional && s !in excluded ==> s in r
  {
    if ks == [] then []
    else
      (if ks[0] !in optional && ks[0] !in excluded then [ks[0]] else [])
      + Mandatory(ks[1..], optional, excluded)
  }

  /** Because of the string default, Google treats `raise` as mandatory. */
  lemma GoogleRaiseIsMandatory()
    ensures "raise" in GetMandatorySections(GoogleTools())
  {
    var t := GoogleTools();
    assert Keys(t.opt)[2] == "raise";
    forall j | 0 <= j < |t.optional| ensures t.optional[j] != "raise" {
      assert |t.optional[j]| == 1;
    }
  }

  /** For numpydoc the parameters and returns sections are mandatory and the
      raises section is not. */
  lemma NumpyMandatorySections()
    ensures "param" in GetMandatorySections(NumpyTools())
    ensures "return" in GetMandatorySections(NumpyTools())
    ensures "raise" !in GetMandatorySections(NumpyTools())
  {
    var t := NumpyTools();
    var ks := Keys(t.opt);
    assert ks[6] == "param" && ks[9] == "return";
    assert t.optional[0] == "raise";
    assert "param" !in t.optional by {
      forall j | 0 <= j < |t.optional| ensures t.optional[j] != "param" {
        assert t.optional[j][0] != 'p';
      }
    }
    assert "return" !in t.optional by {
      forall j | 0 <= j < |t.optional| ensures t.optional[j] != "return" {
        assert |t.optional[j]| != 6 || t.optional[j][0] == 'm';
      }
    }
  }

  // ---------------------------------------------------------------------
  // Section headers.

  /** `get_key_section_header` of the base class: the header text, or '' for
      a key without one. */
  function HeaderText(t: Tools, key: string): string {
    Lookup(t.headers, key).GetOr("")
  }

  /** `get_key_section_header`: numpydoc underlines the header with as many
      dashes; Google appends a colon. */
  function GetKeySectionHeader(t: Tools, key: string, spaces: string): (r: string)
    ensures t.dialect == Numpy ==>
      r == spaces + HeaderText(t, key) + "\n" + spaces + Repeat('-', |HeaderText(t, key)|) + "\n"
    ensures t.dialect == Google ==> r == spaces + HeaderText(t, key) + ":\n"
  {
    var h := HeaderText(t, key);
    match t.dialect
    case Numpy => spaces + h + "\n" + spaces + Repeat('-', |h|) + "\n"
    case Google => spaces + h + ":\n"
  }

  /** The words a header line may consist of, ignoring case and surrounding
      whitespace. */
  function HeaderWords(t: Tools): (r: seq<string>)
    ensures |r| == |t.opt|
  {
    match t.dialect
    case Numpy => Values(t.opt)
    case Google => seq(|t.opt|, i requires 0 <= i < |t.opt| => t.opt[i].1 + ":")
  }

  /** The header words as the normalised lines are compared with them. */
  function HeaderNames(t: Tools): seq<string> {
    LowerAll(HeaderWords(t))
  }

  predicate IsHeaderLine(t: Tools, line: string) {
    InAlone(HeaderWords(t), line)
  }

  /** `line.strip() and isin_alone(['-' * len(line.strip())], line)`; the
      stripped line has the length of its normalised form. */
  predicate IsUnderline(line: string) {
    Norm(line) != [] && InAlone([Repeat('-', |Norm(line)|)], line)
  }

  /** The underline test as the numpydoc scan evaluates it. */
  method IsUnderlineLine(line: string) returns (b: bool)
    ensures b == IsUnderline(line)
  {
    var s := Strip(line);
    NormIsLowerStrip(line);
    if s == [] {
      return false;
    }
    b := IsinAlone([Repeat('-', |s|)], line);
  }

  /** A non-empty run of dashes. */
  predicate IsDashRun(s: string) {
    s != [] && forall k :: 0 <= k < |s| ==> s[k] == '-'
  }

  /** An underline is exactly a line whose normalised text is a run of dashes. */
  lemma UnderlineIsDashes(line: string)
    ensures IsUnderline(line) <==> IsDashRun(Norm(line))
  {
    var n := Norm(line);
    var d := Repeat('-', |n|);
    assert Lower(d) == d;
    assert LowerAll([d]) == [d];
    if IsDashRun(n) {
      assert n == d;
    }
  }

  /** Lower-casing makes no dash, so the stripped line itself is the run of
      dashes. */
  lemma DashRunOfStrip(line: string)
    ensures IsDashRun(Norm(line)) <==> IsDashRun(Strip(line))
  {
    NormIsLowerStrip(line);
    var s := Strip(line);
    if IsDashRun(Norm(line)) {
      forall k | 0 <= k < |s| ensures s[k] == '-' {
        assert ToLower(s[k]) == '-';
      }
    }
  }

  /** The underline test on line `i`, read on the normalised lines. */
  lemma UnderlineAt(lines: seq<string>, i: nat)
    requires i < |lines|
    ensures IsUnderline(lines[i]) <==> IsDashRun(Norms(lines)[i])
  {
    NormsIndex(lines, i);
    UnderlineIsDashes(lines[i]);
  }

  /** `isin_alone` of the header words on line `i`. */
  method HeaderTest(t: Tools, lines: seq<string>, i: nat) returns (b: bool)
    requires i < |lines|
    ensures b <==> Norms(lines)[i] in HeaderNames(t)
  {
    b := IsinAlone(HeaderWords(t), lines[i]);
    HeaderAt(t, lines, i);
  }

  /** The underline test on line `i`. */
  method UnderlineTest(lines: seq<string>, i: nat) returns (b: bool)
    requires i < |lines|
    ensures b <==> IsDashRun(Norms(lines)[i])
  {
    b := IsUnderlineLine(lines[i]);
    UnderlineAt(lines, i);
  }

  /** The header test on line `i`, read on the normalised lines. */
  lemma HeaderAt(t: Tools, lines: seq<string>, i: nat)
    requires i < |lines|
    ensures IsHeaderLine(t, lines[i]) <==> Norms(lines)[i] in HeaderNames(t)
  {
    NormsIndex(lines, i);
  }

  /** A section starts at line `i` of the normalised lines: a header, and for
      numpydoc a run of dashes right after it, unless the header is the
      last line. */
  predicate StartsSection(t: Tools, norms: seq<string>, i: nat)
    requires i < |norms|
  {
    norms[i] in HeaderNames(t)
    && (t.dialect == Numpy ==> i + 1 == |norms| || IsDashRun(norms[i + 1]))
  }

  /** The first section start at or after `i`, or -1. */
  function SectionStartFrom(t: Tools, norms: seq<string>, i: nat): (r: int)
    requires i <= |norms|
    ensures r == -1 || i <= r < |norms|
    ensures r >= 0 ==> StartsSection(t, norms, r)
    ensures forall k :: i <= k < |norms| && (r == -1 || k < r) ==> !StartsSection(t, norms, k)
    decreases |norms| - i
  {
    if i == |norms| then -1
    else if StartsSection(t, norms, i) then i
    else SectionStartFrom(t, norms, i + 1)
  }

  /** `get_next_section_start_line` on the normalised lines: the first
      section start, or -1. */
  function SectionStart(t: Tools, norms: seq<string>): (r: int)
    ensures r == -1 || 0 <= r < |norms|
    ensures r >= 0 ==> StartsSection(t, norms, r)
    ensures forall k :: 0 <= k < |norms| && (r == -1 || k < r) ==> !StartsSection(t, norms, k)
  {
    SectionStartFrom(t, norms, 0)
  }

  /** `get_next_section_start_line`, in the dialect's own form. */
  method GetNextSectionStartLine(t: Tools, lines: seq<string>) returns (start: int)
    ensures start == SectionStart(t, Norms(lines))
  {
    if t.dialect == Google {
      start := GoogleSectionStartLine(t, lines);
    } else {
      start := NumpySectionStartLine(t, lines);
    }
  }

  /** The Google scan: the first line that is a header word and a colon. */
  method GoogleSectionStartLine(t: Tools, lines: seq<string>) returns (start: int)
    requires t.dialect == Google
    ensures start == SectionStart(t, Norms(lines))
  {
    ghost var norms := Norms(lines);
    var i := 0;
    while i < |lines|
      invariant 0 <= i <= |lines|
      invariant forall k :: 0 <= k < i ==> !StartsSection(t, norms, k)
    {
      var found := HeaderTest(t, lines, i);
      if found {
        SectionStartIsFirst(t, norms, i);
        return i;
      }
      i := i + 1;
    }
    return -1;
  }

  /** The numpydoc scan: a header word followed by an underline, or a header
      word on the last line. */
  method NumpySectionStartLine(t: Tools, lines: seq<string>) returns (start: int)
    requires t.dialect == Numpy
    ensures start == SectionStart(t, Norms(lines))
  {
    ghost var norms := Norms(lines);
    start := -1;
    var i := 0;
    while i < |lines|
      invariant 0 <= i <= |lines|
      invariant start == (if i > 0 && norms[i - 1] in HeaderNames(t) then i - 1 else -1)
      invariant forall k :: 0 <= k < i - 1 ==> !StartsSection(t, norms, k)
    {
      if start != -1 {
        var dashes := UnderlineTest(lines, i);
        if dashes {
          SectionStartIsFirst(t, norms, i - 1);
          return;
        }
        assert !StartsSection(t, norms, i - 1);
        start := -1;
      } else if i > 0 {
        assert !StartsSection(t, norms, i - 1);
      }
      var header := HeaderTest(t, lines, i);
      if header {
        start := i;
      }
      i := i + 1;
    }
    if start != -1 {
      SectionStartIsFirst(t, norms, start);
    }
  }

  /** A section start with none before it is the first one. */
  lemma SectionStartIsFirst(t: Tools, norms: seq<string>, i: nat)
    requires i < |norms| && StartsSection(t, norms, i)
    requires forall k :: 0 <= k < i ==> !StartsSection(t, norms, k)
    ensures SectionStart(t, norms) == i
  {
  }

  /** `get_next_section_lines`: the first section start and the start of the
      section after it, the latter counted from the line after the first. */
  function NextSectionLines(t: Tools, norms: seq<string>): (r: (int, int))
    ensures r.0 == SectionStart(t, norms)
    ensures r.0 == -1 ==> r.1 == -1
    ensures r.0 >= 0 ==> r.1 == SectionStart(t, norms[r.0 + 1..])
  {
    var start := SectionStart(t, norms);
    if start == -1 then (-1, -1) else (start, SectionStart(t, norms[start + 1..]))
  }

  lemma StartsSectionShift(t: Tools, norms: seq<string>, a: nat, j: nat)
    requires a + j < |norms|
    ensures StartsSection(t, norms[a..], j) <==> StartsSection(t, norms, a + j)
  {
    assert norms[a..][j] == norms[a + j];
    if a + j + 1 < |norms| {
      assert norms[a..][j + 1] == norms[a + j + 1];
    }
  }

  /** A section start of the suffix from `a` is the first section start of
      the whole list at or after `a`. */
  lemma SectionStartSuffix(t: Tools, norms: seq<string>, a: nat)
    requires a <= |norms|
    ensures var s := SectionStart(t, norms[a..]);
      (s == -1 ==> forall k :: a <= k < |norms| ==> !StartsSection(t, norms, k))
      && (s >= 0 ==> StartsSection(t, norms, a + s)
                     && forall k :: a <= k < a + s ==> !StartsSection(t, norms, k))
  {
    var s := SectionStart(t, norms[a..]);
    if s >= 0 {
      StartsSectionShift(t, norms, a, s);
      forall k | a <= k < a + s ensures !StartsSection(t, norms, k) {
        StartsSectionShift(t, norms, a, k - a);
      }
    } else {
      forall k | a <= k < |norms| ensures !StartsSection(t, norms, k) {
        StartsSectionShift(t, norms, a, k - a);
      }
    }
  }

  /** The section start is the first element of a suffix that begins at one. */
  lemma SectionStartAtHead(t: Tools, norms: seq<string>, a: nat)
    requires a < |norms| && StartsSection(t, norms, a)
    ensures SectionStart(t, norms[a..]) == 0
  {
    StartsSectionShift(t, norms, a, 0);
  }

  // ---------------------------------------------------------------------
  // Locating the section of a given key.

  /** The line a key's section starts with, as normalised: its name in the
      table followed, for Google, by a colon. */
  function KeyTarget(t: Tools, key: string): string
    requires Lookup(t.opt, key).Some?
  {
    Lookup(t.opt, key).value + (if t.dialect == Google then ":" else "")
  }

  predicate IsKeyLine(t: Tools, norms: seq<string>, target: string, i: nat)
    requires i < |norms|
  {
    StartsSection(t, norms, i) && norms[i] == target
  }

  /** `lines[i].strip().lower() == target`. */
  method NormalizedIs(lines: seq<string>, i: nat, target: string) returns (b: bool)
    requires i < |lines|
    ensures b <==> Norms(lines)[i] == target
  {
    NormIsLowerStrip(lines[i]);
    NormsIndex(lines, i);
    b := Lower(Strip(lines[i])) == target;
  }

  /** The first section start at or after `i` that reads `target`, or -1. */
  function KeyLineFrom(t: Tools, norms: seq<string>, target: string, i: nat): (r: int)
    requires i <= |norms|
    ensures r == -1 || i <= r < |norms|
    ensures r >= 0 ==> IsKeyLine(t, norms, target, r)
    ensures forall k :: i <= k < |norms| && (r == -1 || k < r) ==> !IsKeyLine(t, norms, target, k)
    decreases |norms| - i
  {
    if i == |norms| then -1
    else if IsKeyLine(t, norms, target, i) then i
    else KeyLineFrom(t, norms, target, i + 1)
  }

  lemma KeyLineIsFirst(t: Tools, norms: seq<string>, target: string, init: nat, start: nat)
    requires init + start < |norms| && StartsSection(t, norms, init + start)
    requires norms[init + start] == target
    requires forall k :: 0 <= k < init ==> !IsKeyLine(t, norms, target, k)
    requires forall k :: init <= k < init + start ==> !StartsSection(t, norms, k)
    ensures KeyLineFrom(t, norms, target, 0) == init + start
  {
    var r := KeyLineFrom(t, norms, target, 0);
    assert IsKeyLine(t, norms, target, init + start);
    assert r != -1 && r <= init + start;
    assert IsKeyLine(t, norms, target, r);
    assert r >= init;
    assert StartsSection(t, norms, r);
  }

  /** A section start that does not read `target` extends the prefix
      without key lines by the lines scanned. */
  lemma KeyLineSkip(t: Tools, norms: seq<string>, target: string, init: nat, start: nat)
    requires init + start < |norms|
    requires norms[init + start] != target
    requires forall k :: 0 <= k < init ==> !IsKeyLine(t, norms, target, k)
    requires forall k :: init <= k < init + start ==> !StartsSection(t, norms, k)
    ensures forall k :: 0 <= k < init + start + 1 ==> !IsKeyLine(t, norms, target, k)
  {
  }

  lemma KeyLineNone(t: Tools, norms: seq<string>, target: string, init: nat)
    requires init <= |norms|
    requires forall k :: 0 <= k < init ==> !IsKeyLine(t, norms, target, k)
    requires forall k :: init <= k < |norms| ==> !StartsSection(t, norms, k)
    ensures KeyLineFrom(t, norms, target, 0) == -1
  {
  }

  /** The line where the section of `key` starts, or -1. */
  function SectionKeyLine(t: Tools, norms: seq<string>, key: string): int
    requires Lookup(t.opt, key).Some?
  {
    KeyLineFrom(t, norms, KeyTarget(t, key), 0)
  }

  /** `get_next_section_start_line(data[init:])`, read on the whole list. */
  method NextSectionStartFrom(t: Tools, lines: seq<string>, init: nat) returns (start: int)
    requires init <= |lines|
    ensures start == -1 || (0 <= start && init + start < |lines|)
    ensures start == -1 ==> forall k :: init <= k < |lines| ==> !StartsSection(t, Norms(lines), k)
    ensures start >= 0 ==> StartsSection(t, Norms(lines), init + start)
    ensures start >= 0 ==> forall k :: init <= k < init + start ==> !StartsSection(t, Norms(lines), k)
  {
    start := GetNextSectionStartLine(t, lines[init..]);
    NormsSuffix(lines, init);
    SectionStartSuffix(t, Norms(lines), init);
  }

  /** `get_section_key_line`: hops from section start to section start until
      one carries the key's name. A key missing from the table is a
      `KeyError` in the source. */
  method GetSectionKeyLine(t: Tools, lines: seq<string>, key: string) returns (r: int)
    requires Lookup(t.opt, key).Some?
    ensures r == SectionKeyLine(t, Norms(lines), key)
  {
    ghost var norms := Norms(lines);
    var target := KeyTarget(t, key);
    var init := 0;
    while true
      invariant 0 <= init <= |lines|
      invariant forall k :: 0 <= k < init ==> !IsKeyLine(t, norms, target, k)
      decreases |lines| - init
    {
      var start := NextSectionStartFrom(t, lines, init);
      if start == -1 {
        KeyLineNone(t, norms, target, init);
        return -1;
      }
      var matches := NormalizedIs(lines, init + start, target);
      if matches {
        KeyLineIsFirst(t, norms, target, init, start);
        return init + start;
      }
      KeyLineSkip(t, norms, target, init, start);
      init := init + start + 1;
    }
  }
}
