/** The scanners of the "groups" style: the line and the offset of the
    last header line of a group, and of the group line of a docstring: the
    smallest of the three groups' last header lines. */
module GroupScan {
  import opened Text
  import opened Utils
  import opened Styles

  // ---------------------------------------------------------------------
  // The groups-style scanners.

  predicate GroupAt(k: GroupKey, line: string) {
    InStart(Many(GroupWords(k)), line)
  }

  /** Which lines open a group of this key. */
  function Hits(lines: seq<string>, k: GroupKey): (r: seq<bool>)
    ensures |r| == |lines| && forall i :: 0 <= i < |lines| ==> r[i] == GroupAt(k, lines[i])
  {
    seq(|lines|, i requires 0 <= i < |lines| => GroupAt(k, lines[i]))
  }

  /** The index of the last true entry, else -1. */
  function LastTrue(b: seq<bool>): (r: int)
    ensures -1 <= r < |b|
    ensures r == -1 <==> forall i :: 0 <= i < |b| ==> !b[i]
    ensures r >= 0 ==> b[r] && forall i :: r < i < |b| ==> !b[i]
  {
    if b == [] then -1
    else if b[|b| - 1] then |b| - 1
    else LastTrue(b[..|b| - 1])
  }

  /** `get_group_key_line`: the LAST line that opens a group of this key. */
  function LastGroupLine(lines: seq<string>, k: GroupKey): (r: int)
    ensures -1 <= r < |lines|
  {
    LastTrue(Hits(lines, k))
  }

  /** -1 exactly when no line opens a group of the key; otherwise a line that
      opens one with none after it. */
  lemma LastGroupLineSpec(lines: seq<string>, k: GroupKey)
    ensures var r := LastGroupLine(lines, k);
      && (r == -1 <==> forall i {:trigger GroupAt(k, lines[i])} :: 0 <= i < |lines| ==> !GroupAt(k, lines[i]))
      && (r >= 0 ==> GroupAt(k, lines[r]) && forall i {:trigger GroupAt(k, lines[i])} :: r < i < |lines| ==> !GroupAt(k, lines[i]))
  {
    var h := Hits(lines, k);
    assert forall i :: 0 <= i < |lines| ==> h[i] == GroupAt(k, lines[i]);
  }

  method GetGroupKeyLine(data: string, k: GroupKey) returns (idx: int)
    ensures idx == LastGroupLine(SplitLines(data), k)
  {
    idx := -1;
    var lines := SplitLines(data);
    ghost var h := Hits(lines, k);
    for i := 0 to |lines|
      invariant idx == LastTrue(h[..i])
    {
      var hit := IsinStart(Many(GroupWords(k)), lines[i]);
      assert hit == h[i];
      assert h[..i + 1][..i] == h[..i];
      if hit {
        idx := i;
      }
    }
    assert h[..|lines|] == h;
  }

  /** The character offset at which line `li` starts: every earlier line and its newline. */
  function LineStart(lines: seq<string>, li: nat): nat
    requires li <= |lines|
  {
    if li == 0 then 0 else LineStart(lines, li - 1) + |lines[li - 1]| + 1
  }

  lemma {:induction false} LineStartTail(lines: seq<string>, li: nat)
    requires 0 < li <= |lines|
    ensures LineStart(lines, li) == |lines[0]| + 1 + LineStart(lines[1..], li - 1)
  {
    if li > 1 {
      LineStartTail(lines, li - 1);
    }
  }

  /** The first line of a text and the rest of the text after its newline. */
  lemma SplitLinesHead(s: string) returns (i: nat)
    requires s != [] && '\n' in s
    ensures i < |s| && s[i] == '\n'
    ensures SplitLines(s) == [s[..i]] + SplitLines(s[i + 1..])
  {
    i := FindChar(s, '\n');
  }

  /** `LineStart` is where the line sits in the text it was split from. */
  lemma {:induction false} LineStartIsOffset(s: string, li: nat)
    requires li < |SplitLines(s)|
    ensures var lines := SplitLines(s);
      LineStart(lines, li) + |lines[li]| <= |s| &&
      s[LineStart(lines, li)..LineStart(lines, li) + |lines[li]|] == lines[li]
    decreases |s|
  {
    var lines := SplitLines(s);
    if '\n' !in s {
      assert FindChar(s, '\n') == -1;
      assert lines == [s];
    } else if li > 0 {
      var i := SplitLinesHead(s);
      LineStartLater(s, i, li);
    }
  }

  lemma {:induction false} LineStartLater(s: string, i: nat, li: nat)
    requires i < |s| && SplitLines(s) == [s[..i]] + SplitLines(s[i + 1..])
    requires 0 < li < |SplitLines(s)|
    ensures var lines := SplitLines(s);
      LineStart(lines, li) + |lines[li]| <= |s| &&
      s[LineStart(lines, li)..LineStart(lines, li) + |lines[li]|] == lines[li]
    decreases |s|, 0
  {
    var lines := SplitLines(s);
    var rest := s[i + 1..];
    LinesAfterHead(s, i, li);
    LineStartIsOffset(rest, li - 1);
    var o := LineStart(SplitLines(rest), li - 1);
    Shifted(s, rest, lines[li], i, o, LineStart(lines, li));
  }

  /** A piece of the rest after index `i` is the same piece of the text,
      shifted by `i + 1`. */
  lemma Shifted(s: string, rest: string, piece: string, i: nat, o: nat, at: nat)
    requires i < |s| && rest == s[i + 1..] && o + |piece| <= |rest| && rest[o..o + |piece|] == piece
    requires at == i + 1 + o
    ensures at + |piece| <= |s| && s[at..at + |piece|] == piece
  {
    SliceShift(s, i + 1, o, |piece|);
  }

  /** Line `li` of the text is line `li - 1` of the rest after the first
      newline, shifted by the first line and its newline. */
  lemma LinesAfterHead(s: string, i: nat, li: nat)
    requires i < |s| && SplitLines(s) == [s[..i]] + SplitLines(s[i + 1..])
    requires 0 < li < |SplitLines(s)|
    ensures var lines := SplitLines(s); var rl := SplitLines(s[i + 1..]);
      && li - 1 < |rl| && lines[li] == rl[li - 1]
      && LineStart(lines, li) == i + 1 + LineStart(rl, li - 1)
  {
    var lines := SplitLines(s);
    assert lines[1..] == SplitLines(s[i + 1..]);
    LineStartTail(lines, li);
  }

  lemma SliceShift(s: string, a: nat, o: nat, l: nat)
    requires a + o + l <= |s|
    ensures s[a..][o..o + l] == s[a + o..a + o + l]
  {
  }

  /** The summing loop of `get_group_key_index` and `get_group_index`. */
  method OffsetOf(lines: seq<string>, li: nat) returns (idx: nat)
    requires li <= |lines|
    ensures idx == LineStart(lines, li)
  {
    idx := 0;
    for j := 0 to li
      invariant idx == LineStart(lines, j)
    {
      idx := idx + |lines[j]| + 1;
    }
  }

  /** `get_group_key_index`. */
  method GetGroupKeyIndex(data: string, k: GroupKey) returns (idx: int)
    ensures var li := LastGroupLine(SplitLines(data), k);
      idx == (if li == -1 then -1 else LineStart(SplitLines(data), li))
  {
    idx := -1;
    var li := GetGroupKeyLine(data, k);
    if li != -1 {
      idx := OffsetOf(SplitLines(data), li);
    }
  }

  /** The update of `get_group_line`: take `i` when it is a smaller found
      line, or when nothing was found yet. */
  function MinFound(idx: int, i: int): int {
    if (i < idx && i != -1) || idx == -1 then i else idx
  }

  function MinFoundOver(vals: seq<int>): int {
    if vals == [] then -1 else MinFound(MinFoundOver(vals[..|vals| - 1]), vals[|vals| - 1])
  }

  /** The fold is the minimum of the values other than -1, and -1 when all are -1. */
  lemma {:induction false} MinFoundOverMin(vals: seq<int>)
    requires forall j :: 0 <= j < |vals| ==> vals[j] >= -1
    ensures var r := MinFoundOver(vals);
      && (r == -1 <==> forall j :: 0 <= j < |vals| ==> vals[j] == -1)
      && (r != -1 ==> r in vals)
      && (forall j :: 0 <= j < |vals| && vals[j] != -1 ==> r <= vals[j])
  {
    if vals != [] {
      var front := vals[..|vals| - 1];
      MinFoundOverMin(front);
      assert forall j :: 0 <= j < |front| ==> front[j] == vals[j];
      assert vals == front + [vals[|vals| - 1]];
    }
  }

  /** The key lines of the three groups, in table order. */
  function GroupLines(lines: seq<string>): (r: seq<int>)
    ensures |r| == 3 && forall j :: 0 <= j < 3 ==> r[j] == LastGroupLine(lines, GroupKeys[j])
  {
    seq(3, j requires 0 <= j < 3 => LastGroupLine(lines, GroupKeys[j]))
  }

  /** `get_group_line`: the smallest of the keys' lines that were found. */
  function GroupLine(lines: seq<string>): (r: int)
    ensures -1 <= r < |lines|
  {
    var v := GroupLines(lines);
    MinFoundOverMin(v);
    MinFoundOver(v)
  }

  /** -1 exactly when no key opens a group, otherwise the smallest line at
      which some key (last) opens one. */
  lemma GroupLineIsMin(lines: seq<string>)
    ensures var r := GroupLine(lines);
      && (r == -1 <==> forall j :: 0 <= j < 3 ==> LastGroupLine(lines, GroupKeys[j]) == -1)
      && (r != -1 ==> exists j :: 0 <= j < 3 && LastGroupLine(lines, GroupKeys[j]) == r)
      && (forall j :: 0 <= j < 3 && LastGroupLine(lines, GroupKeys[j]) != -1 ==> r <= LastGroupLine(lines, GroupKeys[j]))
  {
    MinFoundOverMin(GroupLines(lines));
  }

  method GetGroupLine(data: string) returns (idx: int)
    ensures idx == GroupLine(SplitLines(data))
  {
    idx := -1;
    ghost var v := GroupLines(SplitLines(data));
    for j := 0 to |GroupKeys|
      invariant idx == MinFoundOver(v[..j])
    {
      idx := GroupStep(data, v, j, idx);
      assert v[..j + 1][..j] == v[..j];
    }
    assert v[..3] == v;
  }

  /** One turn of the loop of `get_group_line`, on the key of index `j`. */
  method GroupStep(data: string, ghost v: seq<int>, j: nat, idx: int) returns (r: int)
    requires j < 3 && v == GroupLines(SplitLines(data))
    ensures r == MinFound(idx, v[j])
  {
    var i := GetGroupKeyLine(data, GroupKeys[j]);
    r := idx;
    if (i < idx && i != -1) || idx == -1 {
      r := i;
    }
  }

  /** `get_group_index`. */
  method GetGroupIndex(data: string) returns (idx: int)
    ensures var li := GroupLine(SplitLines(data));
      idx == (if li == -1 then -1 else LineStart(SplitLines(data), li))
  {
    idx := -1;
    var li := GetGroupLine(data);
    if li != -1 {
      idx := OffsetOf(SplitLines(data), li);
    }
  }
}
