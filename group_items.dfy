/** The groups-style extractors of `DocString`: the lines of a group, and
    the two regular expressions that read a parameter or an exception from
    one of its lines, `^\W*(\w+)[\W\s]+(\w[\s\w]+)` (with `[\w.]+` for
    exceptions), falling back to `^\W*(\w+)\W*`, written as scanners. */
module GroupItems {
  import opened Wrappers
  import opened Text
  import opened Styles
  import opened GroupScan
  import DocText
  import ListKey
  import Strategy

  // ---------------------------------------------------------------------
  // Character classes and maximal runs.

  datatype CharClass = NameChars(dotted: bool) | NonWord | WordOrSpace

  predicate InClass(c: char, cl: CharClass) {
    match cl
    case NameChars(dotted) => IsWordChar(c) || (dotted && c == '.')
    case NonWord => !IsWordChar(c)
    case WordOrSpace => IsWordChar(c) || IsSpace(c)
  }

  /** The end of the longest run of the class that starts at `i`. */
  function RunEnd(t: string, i: nat, cl: CharClass): (r: nat)
    requires i <= |t|
    ensures i <= r <= |t|
    ensures forall k :: i <= k < r ==> InClass(t[k], cl)
    ensures r < |t| ==> !InClass(t[r], cl)
    decreases |t| - i
  {
    if i == |t| || !InClass(t[i], cl) then i else RunEnd(t, i + 1, cl)
  }

  lemma {:induction false} RunEndAt(t: string, i: nat, j: nat, cl: CharClass)
    requires i <= j <= |t|
    requires forall k :: i <= k < j ==> InClass(t[k], cl)
    requires j < |t| ==> !InClass(t[j], cl)
    ensures RunEnd(t, i, cl) == j
    decreases j - i
  {
    if i < j {
      RunEndAt(t, i + 1, j, cl);
    }
  }

  // ---------------------------------------------------------------------
  // The first expression. Its only choices are where the name starts
  // (`^\W*` may stop before dots) and where it ends (`[\w.]+` may give
  // dots back); the regex engine tries the longest of each first.

  /** `[\W\s]+(\w[\s\w]+)` at `j`: a non-empty run of non-word characters,
      then a word character and at least one more word or space
      character; the description is the longest such run. */
  function Tail(t: string, j: nat): (r: Option<string>)
    requires j <= |t|
    ensures r.Some? ==> |r.value| >= 2 && IsWordChar(r.value[0])
  {
    var c := RunEnd(t, j, NonWord);
    if c > j && c < |t| && RunEnd(t, c + 1, WordOrSpace) > c + 1 then
      Some(t[c..RunEnd(t, c + 1, WordOrSpace)])
    else None
  }

  /** The name `t[s..e]` for `e` from `l` down to `s + 1`: the first end at
      which the tail matches. */
  function ByLength(t: string, s: nat, l: nat): (r: Option<(string, string)>)
    requires s <= l <= |t|
    ensures r.Some? ==> r.value.0 != []
    decreases l
  {
    if l <= s then None
    else match Tail(t, l)
      case Some(d) => Some((t[s..l], d))
      case None => ByLength(t, s, l - 1)
  }

  /** Name starts from `s` down to the beginning of the line. */
  function ByStart(t: string, s: nat, dotted: bool): (r: Option<(string, string)>)
    requires s <= |t|
    ensures r.Some? ==> r.value.0 != []
    decreases s
  {
    var here := if s < |t| && InClass(t[s], NameChars(dotted)) then ByLength(t, s, RunEnd(t, s, NameChars(dotted))) else None;
    if here.Some? then here
    else if s == 0 then None
    else ByStart(t, s - 1, dotted)
  }

  /** The first expression on the stripped line: the name and the
      description groups. `^\W*` can reach at most the first word character. */
  function FirstMatch(t: string, dotted: bool): (r: Option<(string, string)>)
    ensures r.Some? ==> r.value.0 != []
  {
    ByStart(t, RunEnd(t, 0, NonWord), dotted)
  }

  /** The fallback `^\W*(\w+)\W*`: the first run of word characters. */
  function SecondMatch(t: string): (r: Option<string>)
    ensures r.Some? ==> IsWord(r.value)
  {
    var w := RunEnd(t, 0, NonWord);
    if w < |t| then
      var e := RunEnd(t, w, NameChars(false));
      assert e > w;
      Some(t[w..e])
    else None
  }

  /** One line of a group: the name and description the two expressions
      read, or nothing when the line has no word character. A name is never
      empty, so the source's `if param` keeps every match. */
  function GroupEntry(line: string, dotted: bool): (r: Option<(string, string)>)
  {
    var t := Strip(line);
    match FirstMatch(t, dotted)
    case Some(m) => Some((Strip(m.0), Strip(m.1)))
    case None =>
      match SecondMatch(t)
      case Some(n) => Some((Strip(n), ""))
      case None => None
  }

  /** The first expression with plain word names picks the first word of
      the line: no shorter name and no earlier start can match. */
  lemma {:induction false} WordNameByLength(t: string, s: nat, l: nat)
    requires s < l <= |t|
    requires forall k :: s < k < l ==> IsWordChar(t[k])
    ensures ByLength(t, s, l) == match Tail(t, l) case Some(d) => Some((t[s..l], d)) case None => None
    decreases l
  {
    if l - 1 > s {
      assert IsWordChar(t[l - 1]);
      assert RunEnd(t, l - 1, NonWord) == l - 1;
      assert Tail(t, l - 1).None?;
      WordNameByLength(t, s, l - 1);
    }
  }

  lemma {:induction false} WordNameByStart(t: string, s: nat)
    requires s <= |t|
    requires forall k :: 0 <= k < s ==> !IsWordChar(t[k])
    ensures ByStart(t, s, false) ==
      if s < |t| && IsWordChar(t[s]) then ByLength(t, s, RunEnd(t, s, NameChars(false))) else None
    decreases s
  {
    if s > 0 {
      WordNameByStart(t, s - 1);
    }
  }

  // ---------------------------------------------------------------------
  // Reading a well-formed line back.

  /** A non-empty run of word characters. */
  predicate IsWord(w: string) {
    w != [] && forall k :: 0 <= k < |w| ==> IsWordChar(w[k])
  }

  /** A name the first expression reads whole: it starts with a word
      character and holds only name characters. */
  predicate IsName(w: string, dotted: bool) {
    w != [] && IsWordChar(w[0]) && forall k :: 0 <= k < |w| ==> InClass(w[k], NameChars(dotted))
  }

  /** A non-empty run of non-word characters that does not continue the
      name before it. */
  predicate IsSeparator(w: string, dotted: bool) {
    w != [] && (dotted ==> w[0] != '.') && forall k :: 0 <= k < |w| ==> !IsWordChar(w[k])
  }

  /** What `\w[\s\w]+` matches in full. */
  predicate IsDescription(d: string) {
    |d| >= 2 && IsWordChar(d[0]) && forall k :: 0 <= k < |d| ==> IsWordChar(d[k]) || IsSpace(d[k])
  }

  /** A group line `name: words`: the name, a separator of non-word
      characters and a description of words and spaces (at least two
      characters, as the expression demands) is read back exactly, whatever
      the indentation; a dotted exception name such as `os.error` is kept
      whole. */
  lemma ReadNamedLine(pad: string, name: string, sep: string, desc: string, dotted: bool)
    requires AllSpace(pad) && IsName(name, dotted) && IsSeparator(sep, dotted)
    requires IsDescription(desc) && !IsSpace(desc[|desc| - 1])
    ensures GroupEntry(pad + name + sep + desc, dotted) == Some((name, desc))
  {
    NamedPieces(pad, name, sep, desc, dotted);
    EntryOf(pad + name + sep + desc, name + sep + desc, name, desc, dotted);
  }

  /** The facts `EntryOf` needs for a well-formed group line. */
  lemma NamedPieces(pad: string, name: string, sep: string, desc: string, dotted: bool)
    requires AllSpace(pad) && IsName(name, dotted) && IsSeparator(sep, dotted)
    requires IsDescription(desc) && !IsSpace(desc[|desc| - 1])
    ensures Strip(pad + name + sep + desc) == name + sep + desc
    ensures FirstMatch(name + sep + desc, dotted) == Some((name, desc))
    ensures Strip(name) == name && Strip(desc) == desc
  {
    StripNamed(pad, name, sep, desc, dotted);
    NamedParts(name, sep, desc, dotted);
    NameTrimmed(name, dotted);
    WordNotSpace(desc[0]);
    StripUnchanged(desc);
  }

  lemma StripNamed(pad: string, name: string, sep: string, desc: string, dotted: bool)
    requires AllSpace(pad) && IsName(name, dotted) && |desc| >= 2 && !IsSpace(desc[|desc| - 1])
    ensures Strip(pad + name + sep + desc) == name + sep + desc
  {
    var t := name + sep + desc;
    assert pad + name + sep + desc == pad + t;
    WordNotSpace(name[0]);
    assert t[0] == name[0] && t[|t| - 1] == desc[|desc| - 1];
    PadStrip(pad, t);
  }

  /** `GroupEntry` when the first expression reads a trimmed name and
      description from the stripped line. */
  lemma EntryOf(line: string, t: string, n: string, d: string, dotted: bool)
    requires Strip(line) == t && FirstMatch(t, dotted) == Some((n, d))
    requires Strip(n) == n && Strip(d) == d
    ensures GroupEntry(line, dotted) == Some((n, d))
  {
  }

  lemma PadStrip(pad: string, t: string)
    requires AllSpace(pad) && Trimmed(t)
    ensures Strip(pad + t) == t
  {
    assert pad + t == pad + t + "";
    StripPadded(pad, t, "");
  }

  /** `ReadNamedLine` on the stripped line. */
  lemma NamedParts(name: string, sep: string, desc: string, dotted: bool)
    requires IsName(name, dotted) && IsSeparator(sep, dotted) && IsDescription(desc)
    ensures FirstMatch(name + sep + desc, dotted) == Some((name, desc))
  {
    var t := name + sep + desc;
    var n := |name|;
    var c := n + |sep|;
    assert t[..n] == name && t[n..c] == sep && t[c..] == desc;
    forall k | 0 <= k < n ensures InClass(t[k], NameChars(dotted)) {
      assert t[k] == t[..n][k];
    }
    forall k | n <= k < c ensures !IsWordChar(t[k]) {
      assert t[k] == t[n..c][k - n];
    }
    forall k | c <= k < |t| ensures IsWordChar(t[k]) || IsSpace(t[k]) {
      assert t[k] == t[c..][k - c];
    }
    assert t[0] == name[0] && t[n] == sep[0] && t[c] == desc[0];
    NamedTail(t, n, c, dotted);
  }

  /** The core of `ReadNamedLine` on the stripped line `t`: a name
      `t[..n]`, a non-word separator `t[n..c]`, a description `t[c..]`.
      The longest name and the first start already match. */
  lemma NamedTail(t: string, n: nat, c: nat, dotted: bool)
    requires 0 < n < c && c + 1 < |t|
    requires IsWordChar(t[0]) && forall k :: 0 <= k < n ==> InClass(t[k], NameChars(dotted))
    requires !InClass(t[n], NameChars(dotted))
    requires forall k :: n <= k < c ==> !IsWordChar(t[k])
    requires IsWordChar(t[c])
    requires forall k :: c < k < |t| ==> IsWordChar(t[k]) || IsSpace(t[k])
    ensures FirstMatch(t, dotted) == Some((t[..n], t[c..]))
  {
    RunEndAt(t, 0, 0, NonWord);
    RunEndAt(t, 0, n, NameChars(dotted));
    RunEndAt(t, n, c, NonWord);
    RunEndAt(t, c + 1, |t|, WordOrSpace);
    assert RunEnd(t, n, NonWord) == c && RunEnd(t, c + 1, WordOrSpace) == |t|;
    assert t[c..|t|] == t[c..];
    assert Tail(t, n) == Some(t[c..]);
    assert t[0..n] == t[..n];
  }

  lemma WordNotSpace(c: char)
    requires IsWordChar(c)
    ensures !IsSpace(c)
  {
  }

  lemma WordsTrimmed(w: string)
    requires IsWord(w)
    ensures Strip(w) == w
  {
    WordNotSpace(w[0]);
    WordNotSpace(w[|w| - 1]);
    StripUnchanged(w);
  }

  lemma NameTrimmed(w: string, dotted: bool)
    requires IsName(w, dotted)
    ensures Strip(w) == w
  {
    WordNotSpace(w[0]);
    assert InClass(w[|w| - 1], NameChars(dotted));
    StripUnchanged(w);
  }

  /** A line holding only a word name keeps the name and no description. */
  lemma ReadBareName(pad: string, name: string)
    requires AllSpace(pad) && IsWord(name)
    ensures GroupEntry(pad + name, false) == Some((name, ""))
  {
    WordsTrimmed(name);
    PadStrip(pad, name);
    BareWord(name);
  }

  /** The first expression fails on a lone word, the second takes it. */
  lemma BareWord(name: string)
    requires IsWord(name)
    ensures FirstMatch(name, false).None? && SecondMatch(name) == Some(name)
  {
    RunEndAt(name, 0, 0, NonWord);
    RunEndAt(name, 0, |name|, NameChars(false));
    WordNameByStart(name, 0);
    WordNameByLength(name, 0, |name|);
    assert Tail(name, |name|).None?;
    assert name[0..|name|] == name;
  }

  /** A read name is a run of name characters of the line. */
  lemma EntryNameChars(line: string, dotted: bool)
    requires GroupEntry(line, dotted).Some?
    ensures GroupEntry(line, dotted).value.0 != []
  {
    var t := Strip(line);
    match FirstMatch(t, dotted)
    case Some(m) =>
      NoSpaceInName(t, dotted);
      StripUnchanged(m.0);
    case None =>
      var n := SecondMatch(t).value;
      WordsTrimmed(n);
  }

  /** The name of the first expression has no whitespace at its ends. */
  lemma NoSpaceInName(t: string, dotted: bool)
    requires FirstMatch(t, dotted).Some?
    ensures var n := FirstMatch(t, dotted).value.0; n != [] && !IsSpace(n[0]) && !IsSpace(n[|n| - 1])
  {
    NameRun(t, RunEnd(t, 0, NonWord), dotted);
  }

  lemma {:induction false} NameRun(t: string, s: nat, dotted: bool)
    requires s <= |t| && ByStart(t, s, dotted).Some?
    ensures var n := ByStart(t, s, dotted).value.0; n != [] && !IsSpace(n[0]) && !IsSpace(n[|n| - 1])
    decreases s
  {
    var here := if s < |t| && InClass(t[s], NameChars(dotted)) then ByLength(t, s, RunEnd(t, s, NameChars(dotted))) else None;
    if here.Some? {
      var l := RunEnd(t, s, NameChars(dotted));
      LengthRun(t, s, l, dotted);
    } else {
      NameRun(t, s - 1, dotted);
    }
  }

  lemma {:induction false} LengthRun(t: string, s: nat, l: nat, dotted: bool)
    requires s <= l <= |t|
    requires forall k :: s <= k < l ==> InClass(t[k], NameChars(dotted))
    requires ByLength(t, s, l).Some?
    ensures var n := ByLength(t, s, l).value.0; n != [] && !IsSpace(n[0]) && !IsSpace(n[|n| - 1])
    decreases l
  {
    if Tail(t, l).None? {
      LengthRun(t, s, l - 1, dotted);
    } else {
      assert ByLength(t, s, l).value.0 == t[s..l];
      assert InClass(t[s], NameChars(dotted)) && InClass(t[l - 1], NameChars(dotted));
    }
  }

  // ---------------------------------------------------------------------
  // The lines of a group.

  /** The lines after the last header line of the group `k`, cut as
      `UntilGroup` cuts them; nothing when the group is absent. */
  function GroupSection(data: string, k: GroupKey): (r: Option<seq<string>>)
  {
    SectionOf(SplitLines(data), k)
  }

  /** `GroupSection` on the lines of the cleaned text. */
  function SectionOf(lines: seq<string>, k: GroupKey): (r: Option<seq<string>>)
  {
    var idx := LastGroupLine(lines, k);
    if idx < 0 then None else Some(UntilGroup(lines[idx + 1..]))
  }

  /** The lines before the group line of the rest, which is the smallest,
      over the three groups, of each group's last header line there (so a
      header line that its group repeats later is passed over). The source rejoins the
      rest and splits it again, which only drops a last empty line
      (`UntilGroupRejoined`). */
  function UntilGroup(rest: seq<string>): (r: seq<string>)
  {
    var end := GroupLine(DropLastEmpty(rest));
    rest[..if end == -1 then |rest| else end]
  }

  function DropLastEmpty(rest: seq<string>): (r: seq<string>)
    ensures |r| <= |rest| && r == rest[..|r|]
  {
    if rest != [] && rest[|rest| - 1] == [] then rest[..|rest| - 1] else rest
  }

  /** Splitting the rejoined rest gives the same lines as dropping its last
      empty line. */
  lemma UntilGroupRejoined(rest: seq<string>)
    requires forall i :: 0 <= i < |rest| ==> '\n' !in rest[i]
    ensures SplitLines(Join("\n", rest)) == DropLastEmpty(rest)
  {
    DocText.SplitJoin(rest);
  }

  /** A header line of some group. */
  predicate IsGroupHeader(line: string) {
    exists j :: 0 <= j < 3 && GroupAt(GroupKeys[j], line)
  }

  /** The kept lines are a prefix of the rest that ends at a header line,
      or all of the rest when it holds no header line. */
  lemma UntilGroupSpec(rest: seq<string>)
    ensures var r := UntilGroup(rest);
      && |r| <= |rest| && r == rest[..|r|]
      && (|r| < |rest| ==> IsGroupHeader(rest[|r|]))
      && ((forall i {:trigger IsGroupHeader(rest[i])} :: 0 <= i < |rest| ==> !IsGroupHeader(rest[i])) ==> r == rest)
  {
    var rl := DropLastEmpty(rest);
    GroupLineIsMin(rl);
    var end := GroupLine(rl);
    if end != -1 {
      var j :| 0 <= j < 3 && LastGroupLine(rl, GroupKeys[j]) == end;
      LastGroupLineSpec(rl, GroupKeys[j]);
      assert rest[end] == rl[end];
      assert IsGroupHeader(rest[end]);
    }
  }

  /** Nothing exactly when no line opens the group. */
  lemma SectionAbsent(lines: seq<string>, k: GroupKey)
    ensures SectionOf(lines, k).None? ==> forall i {:trigger GroupAt(k, lines[i])} :: 0 <= i < |lines| ==> !GroupAt(k, lines[i])
    ensures (forall i {:trigger GroupAt(k, lines[i])} :: 0 <= i < |lines| ==> !GroupAt(k, lines[i])) ==> SectionOf(lines, k).None?
  {
    LastGroupLineSpec(lines, k);
  }

  /** Otherwise the group's last header line is found, no later line opens
      the group, and the section is the rest after it cut by `UntilGroup`. */
  lemma SectionHeader(lines: seq<string>, k: GroupKey)
    requires SectionOf(lines, k).Some?
    ensures var idx := LastGroupLine(lines, k);
      && 0 <= idx && GroupAt(k, lines[idx]) && (forall i {:trigger GroupAt(k, lines[i])} :: idx < i < |lines| ==> !GroupAt(k, lines[i]))
      && SectionOf(lines, k).value == UntilGroup(lines[idx + 1..])
  {
    LastGroupLineSpec(lines, k);
  }

  /** The lines kept after the header line `idx`: a prefix of the ones
      right after it that stops, if at all, at a header line of some group,
      and all of them when no header line follows. */
  lemma RestLines(lines: seq<string>, idx: nat)
    requires idx < |lines|
    ensures var ls := UntilGroup(lines[idx + 1..]);
      && idx + 1 + |ls| <= |lines| && ls == lines[idx + 1..idx + 1 + |ls|]
      && (idx + 1 + |ls| < |lines| ==> IsGroupHeader(lines[idx + 1 + |ls|]))
      && ((forall i {:trigger IsGroupHeader(lines[i])} :: idx < i < |lines| ==> !IsGroupHeader(lines[i])) ==> ls == lines[idx + 1..])
  {
    var rest := lines[idx + 1..];
    UntilGroupSpec(rest);
    RestFacts(lines, idx + 1, rest, UntilGroup(rest));
  }

  /** `RestLines` for any prefix `ls` of `rest == lines[a..]` with the
      facts of `UntilGroupSpec`. */
  lemma RestFacts(lines: seq<string>, a: nat, rest: seq<string>, ls: seq<string>)
    requires a <= |lines| && rest == lines[a..]
    requires |ls| <= |rest| && ls == rest[..|ls|]
    requires |ls| < |rest| ==> IsGroupHeader(rest[|ls|])
    requires (forall i {:trigger IsGroupHeader(rest[i])} :: 0 <= i < |rest| ==> !IsGroupHeader(rest[i])) ==> ls == rest
    ensures a + |ls| <= |lines| && ls == lines[a..a + |ls|]
    ensures a + |ls| < |lines| ==> IsGroupHeader(lines[a + |ls|])
    ensures (forall i {:trigger IsGroupHeader(lines[i])} :: a <= i < |lines| ==> !IsGroupHeader(lines[i])) ==> ls == lines[a..]
  {
    assert lines[a..a + |ls|] == ls;
    if |ls| < |rest| {
      assert lines[a + |ls|] == rest[|ls|];
    }
    if forall i {:trigger IsGroupHeader(lines[i])} :: a <= i < |lines| ==> !IsGroupHeader(lines[i]) {
      forall i | 0 <= i < |rest| ensures !IsGroupHeader(rest[i]) {
        assert rest[i] == lines[a + i];
      }
    }
  }

  /** The entries that the lines yield, in line order. */
  function Entries(lines: seq<string>, dotted: bool): (r: seq<(string, string)>)
    ensures |r| <= |lines|
    decreases |lines|
  {
    if lines == [] then []
    else
      var front := Entries(lines[..|lines| - 1], dotted);
      match GroupEntry(lines[|lines| - 1], dotted)
      case Some(e) => front + [e]
      case None => front
  }

  /** The loop over the lines of a group. */
  method ScanEntries(lines: seq<string>, dotted: bool) returns (r: seq<(string, string)>)
    ensures r == Entries(lines, dotted)
  {
    r := [];
    for i := 0 to |lines|
      invariant r == Entries(lines[..i], dotted)
    {
      assert lines[..i + 1][..i] == lines[..i];
      var e := GroupEntry(lines[i], dotted);
      if e.Some? {
        r := r + [e.value];
      }
    }
    assert lines[..|lines|] == lines;
  }

  /** Every entry names a parameter: no empty name is ever kept. */
  lemma {:induction false} EntriesNamed(lines: seq<string>, dotted: bool)
    ensures forall k :: 0 <= k < |Entries(lines, dotted)| ==> Entries(lines, dotted)[k].0 != []
    decreases |lines|
  {
    if lines != [] {
      EntriesNamed(lines[..|lines| - 1], dotted);
      var last := lines[|lines| - 1];
      if GroupEntry(last, dotted).Some? {
        EntryNameChars(last, dotted);
      }
    }
  }

  /** The entries of the group `k` of the cleaned text. */
  function GroupEntries(data: string, k: GroupKey, dotted: bool): seq<(string, string)> {
    match GroupSection(data, k)
    case None => []
    case Some(ls) => Entries(ls, dotted)
  }

  /** The shared loop of `_extract_groupstyle_docs_params` and
      `_extract_groupstyle_docs_raises`: find the group's header line, cut
      the rest as `UntilGroup` does, read each line. */
  method ExtractGroupEntries(data: string, k: GroupKey, dotted: bool) returns (r: seq<(string, string)>)
    ensures r == GroupEntries(data, k, dotted)
  {
    var section := FindSection(data, k);
    if section.Some? {
      r := ScanEntries(section.value, dotted);
    } else {
      r := [];
    }
  }

  /** The header line search and the cut, as the three extractors do them. */
  method FindSection(data: string, k: GroupKey) returns (section: Option<seq<string>>)
    ensures section == GroupSection(data, k)
  {
    var idx := GetGroupKeyLine(data, k);
    section := SectionAt(SplitLines(data), k, idx);
  }

  method SectionAt(lines: seq<string>, k: GroupKey, idx: int) returns (section: Option<seq<string>>)
    requires forall i :: 0 <= i < |lines| ==> '\n' !in lines[i]
    requires idx == LastGroupLine(lines, k)
    ensures section == SectionOf(lines, k)
  {
    if idx >= 0 {
      RestNoNewline(lines, idx + 1);
      var ls := CutSection(lines[idx + 1..]);
      SectionOfSome(lines, k, idx, ls);
      section := Some(ls);
    } else {
      SectionOfNone(lines, k);
      section := None;
    }
  }

  lemma SectionOfSome(lines: seq<string>, k: GroupKey, idx: nat, ls: seq<string>)
    requires idx == LastGroupLine(lines, k) && ls == UntilGroup(lines[idx + 1..])
    ensures SectionOf(lines, k) == Some(ls)
  {
  }

  lemma SectionOfNone(lines: seq<string>, k: GroupKey)
    requires LastGroupLine(lines, k) < 0
    ensures SectionOf(lines, k) == None
  {
  }

  lemma RestNoNewline(lines: seq<string>, a: nat)
    requires a <= |lines| && forall i :: 0 <= i < |lines| ==> '\n' !in lines[i]
    ensures forall i :: 0 <= i < |lines[a..]| ==> '\n' !in lines[a..][i]
  {
    forall i | 0 <= i < |lines[a..]| ensures '\n' !in lines[a..][i] {
      assert lines[a..][i] == lines[a + i];
    }
  }

  /** The lines up to the group line of the rejoined rest. */
  method CutSection(lines: seq<string>) returns (section: seq<string>)
    requires forall i :: 0 <= i < |lines| ==> '\n' !in lines[i]
    ensures section == UntilGroup(lines)
  {
    var end := GetGroupLine(Join("\n", lines));
    UntilGroupRejoined(lines);
    end := if end != -1 then end else |lines|;
    section := lines[..end];
  }

  /** A group parameter has no type: the source stores `''`. */
  function AsParams(es: seq<(string, string)>): (r: seq<ListKey.Entry>)
    ensures |r| == |es|
    ensures forall i :: 0 <= i < |es| ==> r[i] == ListKey.Entry(Some(es[i].0), es[i].1, Some(""))
  {
    seq(|es|, i requires 0 <= i < |es| => ListKey.Entry(Some(es[i].0), es[i].1, Some("")))
  }

  function AsRaises(es: seq<(string, string)>): (r: seq<Strategy.RaiseItem>)
    ensures |r| == |es|
    ensures forall i :: 0 <= i < |es| ==> r[i] == (Some(es[i].0), es[i].1)
  {
    seq(|es|, i requires 0 <= i < |es| => (Some(es[i].0), es[i].1))
  }

  /** `_extract_groupstyle_docs_params` on the cleaned text. */
  method ExtractGroupParams(data: string) returns (params: seq<ListKey.Entry>)
    ensures params == AsParams(GroupEntries(data, GParam, false))
  {
    var es := ExtractGroupEntries(data, GParam, false);
    params := AsParams(es);
  }

  /** `_extract_groupstyle_docs_raises`: exception names may be dotted. */
  method ExtractGroupRaises(data: string) returns (raises: seq<Strategy.RaiseItem>)
    ensures raises == AsRaises(GroupEntries(data, GRaise, true))
  {
    var es := ExtractGroupEntries(data, GRaise, true);
    raises := AsRaises(es);
  }

  /** `_extract_groupstyle_docs_return`: the group's lines joined and
      stripped, when the group is present. */
  function GroupReturn(data: string): Option<string> {
    match GroupSection(data, GReturn)
    case None => None
    case Some(ls) => Some(RStrip(Strip(Join("\n", ls))))
  }

  method ExtractGroupReturn(data: string) returns (ret: Option<string>)
    ensures ret == GroupReturn(data)
  {
    var section := FindSection(data, GReturn);
    if section.Some? {
      var text := Strip(Join("\n", section.value));
      ret := Some(RStrip(text));
    } else {
      ret := None;
    }
  }

  /** The return text is the stripped section: the final `rstrip` changes
      nothing, and there is a text exactly when a return header exists. */
  lemma GroupReturnStripped(data: string)
    ensures GroupReturn(data).Some? <==> GroupSection(data, GReturn).Some?
    ensures GroupReturn(data).Some? ==> GroupReturn(data).value == Strip(Join("\n", GroupSection(data, GReturn).value))
  {
    match GroupSection(data, GReturn)
    case None =>
    case Some(ls) => RStripUnchanged(Strip(Join("\n", ls)));
  }
}
