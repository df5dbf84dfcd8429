/** `get_key_index` and `get_elem_index`: the offset of the first marker
    of a tag style, as written and as intended. */
module KeyScan {
  import opened Text
  import opened Styles

  // ---------------------------------------------------------------------
  // `get_key_index` and `get_elem_index`.

  /** The text before index `i`, once its trailing spaces and tabs are
      dropped, neither ends with a newline nor is blank: an occurrence at `i`
      does not start a line. */
  predicate MidLine(data: string, i: nat)
    requires i <= |data|
  {
    !EndsWith(RStripChars(data[..i], {' ', '\t'}), "\n") && |Strip(data[..i])| > 0
  }

  /** The text the marker is searched in: for the reST return marker, every
      `:return:` is first rewritten as `:returns:`. */
  function KeyData(data: string, key: string): string {
    if StartsWith(key, ":returns") then Replace(data, ":return:", ":returns:") else data
  }

  /** The `while loop:` of `get_key_index` as written, from the state
      (data, ini, idx): the final `idx` and the length of the final `data`.
      After an occurrence in mid-line the text is cut after it and `ini` is
      SET to the cut, not added to the previous one. */
  function KeyScanAsWritten(data: string, key: string, starting: bool, ini: nat, idx: int): (int, nat)
    requires key != ""
    decreases |data|
  {
    var i := Find(data, key);
    if i == -1 then (idx, |data|)
    else if starting && MidLine(data, i) then KeyScanAsWritten(data[i + 1..], key, starting, i + 1, idx)
    else (ini + i, |data|)
  }

  /** `get_key_index` as written. The final test compares with the length of
      the CUT text, so a marker never found at a line start gives the length
      of the whole text rather than -1. */
  function KeyIndexAsWritten(data0: string, key: string, starting: bool): (r: int)
    requires key != ""
    ensures Find(KeyData(data0, key), key) == -1 ==> r == -1
    ensures !starting ==> r == Find(KeyData(data0, key), key)
    ensures var data := KeyData(data0, key); var i := Find(data, key);
      starting && i >= 0 && !MidLine(data, i) ==> r == i
  {
    var data := KeyData(data0, key);
    var last := if Find(data, key) >= 0 then KeyScanAsWritten(data, key, starting, 0, |data|) else (|data|, |data|);
    if last.0 == last.1 then -1 else last.0
  }

  /** `find` of a pattern that occurs at `i` and not before. */
  lemma FindAt(s: string, sub: string, i: nat)
    requires OccursAt(s, sub, i)
    requires forall k :: 0 <= k < i ==> !OccursAt(s, sub, k)
    ensures Find(s, sub) == i
  {
  }

  /** A pattern cannot occur where its first character does not. */
  lemma NoOccurBefore(s: string, sub: string, i: nat)
    requires |sub| > 0 && i <= |s| && sub[0] !in s[..i]
    ensures forall k :: 0 <= k < i ==> !OccursAt(s, sub, k)
  {
    forall k | 0 <= k < i ensures !OccursAt(s, sub, k) {
      assert s[..i][k] == s[k];
    }
  }

  /** `find` on a suffix, from an occurrence in the whole text with no
      earlier first character after the cut. */
  lemma FindInSuffix(data: string, key: string, from: nat, i: nat)
    requires key != "" && from + i + |key| <= |data|
    requires data[from + i..from + i + |key|] == key && key[0] !in data[from..from + i]
    ensures Find(data[from..], key) == i
  {
    var t := data[from..];
    assert t[..i] == data[from..from + i];
    NoOccurBefore(t, key, i);
    assert t[i..i + |key|] == data[from + i..from + i + |key|];
    FindAt(t, key, i);
  }

  /** After two markers in mid-line, the offset of the third is off by the
      length of the text before the first cut. */
  lemma KeyIndexCounterexample()
    ensures KeyIndexAsWritten("x @param @param\n@param", "@param", true) == 13
    ensures KeyIndex("x @param @param\n@param", "@param", true) == 16
  {
    var s := "x @param @param\n@param";
    var key := "@param";
    assert KeyData(s, key) == s;
    Occurrences(s, key);
    MidAt2(s);
    MidInCut3(s);
    NotMidInCut10(s);
    AsWrittenChain(s, key);
    CorrectedSteps(s, key);
  }

  /** Where the markers of the counterexample are. */
  lemma Marks(s: string)
    requires s == "x @param @param\n@param"
    ensures |s| == 22
    ensures s[2..8] == "@param" && s[9..15] == "@param" && s[16..22] == "@param"
    ensures '@' !in s[0..2] && '@' !in s[3..9] && '@' !in s[10..16]
  {
  }

  lemma MidAt2(s: string)
    requires s == "x @param @param\n@param"
    ensures MidLine(s, 2)
  {
    assert s[..2] == "x ";
    MidAfter("x ", 'x');
  }

  lemma MidAt9(s: string)
    requires s == "x @param @param\n@param"
    ensures MidLine(s, 9)
  {
    assert s[..9] == "x @param ";
    MidAfter("x @param ", 'x');
  }

  lemma NotMidAt16(s: string)
    requires s == "x @param @param\n@param"
    ensures !MidLine(s, 16)
  {
    assert s[15] == '\n';
    BeforeNewline(s, 16);
  }

  lemma MidInCut3(s: string)
    requires s == "x @param @param\n@param"
    ensures MidLine(s[3..], 6)
  {
    assert s[3..9] == "param ";
    PrefixOfSuffix(s, 3, 6);
    MidAfter("param ", 'p');
  }

  lemma NotMidInCut10(s: string)
    requires s == "x @param @param\n@param"
    ensures !MidLine(s[10..], 6)
  {
    assert s[15] == '\n';
    assert s[10..][5] == s[15];
    BeforeNewline(s[10..], 6);
  }

  /** A text that starts with a visible character and ends with one space
      after a character other than a blank or a newline is in mid-line. */
  lemma MidAfter(t: string, c: char)
    requires |t| >= 2 && t[0] == c && !IsSpace(c) && t[|t| - 1] == ' '
    requires t[|t| - 2] !in {' ', '\t', '\n'}
    ensures MidLine(t, |t|)
  {
    assert t[..|t|] == t;
    var u := t[..|t| - 1];
    assert RStripChars(t, {' ', '\t'}) == RStripChars(u, {' ', '\t'}) == u;
    StripBlankIffAllSpace(t);
  }

  lemma PrefixOfSuffix(s: string, a: nat, i: nat)
    requires a + i <= |s|
    ensures s[a..][..i] == s[a..a + i]
  {
  }

  /** A position right after a newline is not in mid-line. */
  lemma BeforeNewline(t: string, i: nat)
    requires 0 < i <= |t| && t[i - 1] == '\n'
    ensures !MidLine(t, i)
  {
    assert t[..i][i - 1] == '\n';
    assert RStripChars(t[..i], {' ', '\t'}) == t[..i];
  }

  /** Where `find` stops on the counterexample and on its two cuts. */
  lemma Occurrences(s: string, key: string)
    requires s == "x @param @param\n@param" && key == "@param"
    ensures Find(s, key) == 2 && Find(s[3..], key) == 6 && Find(s[10..], key) == 6
    ensures s[3..][7..] == s[10..]
  {
    Marks(s);
    assert s[0..] == s;
    FindInSuffix(s, key, 0, 2);
    FindInSuffix(s, key, 3, 6);
    FindInSuffix(s, key, 10, 6);
    assert s[3..][7..] == s[10..];
  }

  /** The three turns of the as-written loop on the counterexample, from the
      facts about its three occurrences. */
  lemma AsWrittenChain(s: string, key: string)
    requires key != "" && |s| == 22
    requires Find(s, key) == 2 && MidLine(s, 2)
    requires Find(s[3..], key) == 6 && MidLine(s[3..], 6) && s[3..][7..] == s[10..]
    requires Find(s[10..], key) == 6 && !MidLine(s[10..], 6)
    ensures KeyScanAsWritten(s, key, true, 0, 22) == (13, 12)
  {
    ScanCut(s, key, 0, 22, 2);
    ScanCut(s[3..], key, 3, 22, 6);
    ScanStop(s[10..], key, 7, 22, 6);
  }

  /** An occurrence in mid-line: the as-written scan goes on after it. */
  lemma ScanCut(d: string, key: string, ini: nat, idx: int, i: nat)
    requires key != "" && Find(d, key) == i && MidLine(d, i)
    ensures KeyScanAsWritten(d, key, true, ini, idx) == KeyScanAsWritten(d[i + 1..], key, true, i + 1, idx)
  {
  }

  /** An occurrence at a line start: the as-written scan stops there. */
  lemma ScanStop(d: string, key: string, ini: nat, idx: int, i: nat)
    requires key != "" && Find(d, key) == i && !MidLine(d, i)
    ensures KeyScanAsWritten(d, key, true, ini, idx) == (ini + i, |d|)
  {
  }

  lemma CorrectedSteps(s: string, key: string)
    requires s == "x @param @param\n@param" && key == "@param"
    ensures KeyIndex(s, key, true) == 16
  {
    assert KeyData(s, key) == s;
    var q := QualFlags(s, key, true);
    Marks(s);
    MidAt2(s);
    MidAt9(s);
    NotMidAt16(s);
    NoOccurBetween(s, key, 0, 2);
    NoOccurBetween(s, key, 3, 9);
    NoOccurBetween(s, key, 10, 16);
    QualNone(s, key, true, 0, 2);
    QualNone(s, key, true, 3, 9);
    QualNone(s, key, true, 10, 16);
    QualAt(s, key, true, 2);
    QualAt(s, key, true, 9);
    QualAt(s, key, true, 16);
    SkipTo(q, 0, 2);
    SkipTo(q, 3, 9);
    SkipTo(q, 10, 16);
  }

  /** A pattern cannot occur between `a` and `b` when its first character
      does not. */
  lemma NoOccurBetween(s: string, sub: string, a: nat, b: nat)
    requires |sub| > 0 && a <= b <= |s| && sub[0] !in s[a..b]
    ensures forall k :: a <= k < b ==> !OccursAt(s, sub, k)
  {
    forall k | a <= k < b ensures !OccursAt(s, sub, k) {
      assert s[a..b][k - a] == s[k];
    }
  }

  /** An occurrence of the marker that the loop stops at: at a line start,
      or anywhere without `starting`. */
  predicate Qualifies(data: string, key: string, starting: bool, k: nat)
    requires k <= |data|
  {
    OccursAt(data, key, k) && !(starting && MidLine(data, k))
  }

  /** Which positions of the text qualify. */
  function QualFlags(data: string, key: string, starting: bool): (r: seq<bool>)
    ensures |r| == |data| + 1
  {
    QualsFrom(data, key, starting, 0)
  }

  function QualsFrom(data: string, key: string, starting: bool, from: nat): (r: seq<bool>)
    requires from <= |data| + 1
    ensures |r| == |data| + 1 - from
    decreases |data| + 1 - from
  {
    if from > |data| then [] else [Qualifies(data, key, starting, from)] + QualsFrom(data, key, starting, from + 1)
  }

  lemma {:induction false} QualsFromAt(data: string, key: string, starting: bool, from: nat, k: nat)
    requires from <= k <= |data|
    ensures QualsFrom(data, key, starting, from)[k - from] == Qualifies(data, key, starting, k)
    decreases k - from
  {
    if from < k {
      QualsFromAt(data, key, starting, from + 1, k);
    }
  }

  /** The flag at `k` is the test at `k`. */
  lemma QualAt(data: string, key: string, starting: bool, k: nat)
    requires k <= |data|
    ensures QualFlags(data, key, starting)[k] == Qualifies(data, key, starting, k)
  {
    QualsFromAt(data, key, starting, 0, k);
  }

  /** The flags of a stretch without an occurrence are unset. */
  lemma QualNone(data: string, key: string, starting: bool, a: nat, b: nat)
    requires a <= b <= |data| + 1
    requires forall k :: a <= k < b ==> !OccursAt(data, key, k)
    ensures forall k :: a <= k < b ==> !QualFlags(data, key, starting)[k]
  {
    forall k | a <= k < b ensures !QualFlags(data, key, starting)[k] {
      QualAt(data, key, starting, k);
    }
  }

  /** The first set flag at or after `from`, else -1. */
  function FirstFrom(q: seq<bool>, from: nat): int
    requires from <= |q|
    decreases |q| - from
  {
    if from == |q| then -1
    else if q[from] then from
    else FirstFrom(q, from + 1)
  }

  /** `get_key_index` as intended: the first occurrence of the marker (that
      starts a line, with `starting`), else -1. */
  function KeyIndex(data0: string, key: string, starting: bool): int {
    var data := KeyData(data0, key);
    FirstFrom(QualFlags(data, key, starting), 0)
  }

  /** Unset flags do not change the result. */
  lemma {:induction false} SkipNone(q: seq<bool>, a: nat, b: nat)
    requires a <= b <= |q|
    requires forall k :: a <= k < b ==> !q[k]
    ensures FirstFrom(q, a) == FirstFrom(q, b)
    decreases b - a
  {
    if a < b {
      SkipNone(q, a + 1, b);
    }
  }

  /** The result is set, and no flag before it is. */
  lemma {:induction false} FirstFromSpec(q: seq<bool>, from: nat)
    requires from <= |q|
    ensures var r := FirstFrom(q, from);
      && (r == -1 ==> forall k :: from <= k < |q| ==> !q[k])
      && (r != -1 ==> from <= r < |q| && q[r] && forall k :: from <= k < r ==> !q[k])
    decreases |q| - from
  {
    if from < |q| && !q[from] {
      FirstFromSpec(q, from + 1);
    }
  }

  /** The corrected `get_key_index`: -1 exactly when every occurrence is in
      mid-line (with `starting`) or there is none; otherwise the first
      occurrence that qualifies. */
  lemma KeyIndexSpec(data0: string, key: string, starting: bool)
    ensures var data := KeyData(data0, key); var r := KeyIndex(data0, key, starting);
      && (r == -1 <==> forall k :: 0 <= k <= |data| && OccursAt(data, key, k) ==> starting && MidLine(data, k))
      && (r != -1 ==>
            && OccursAt(data, key, r) && (!starting || !MidLine(data, r))
            && forall k :: 0 <= k < r && OccursAt(data, key, k) ==> starting && MidLine(data, k))
  {
    var data := KeyData(data0, key);
    var q := QualFlags(data, key, starting);
    var r := KeyIndex(data0, key, starting);
    FirstFromSpec(q, 0);
    forall k | 0 <= k <= |data| && k < (if r == -1 then |data| + 1 else r)
      ensures OccursAt(data, key, k) ==> starting && MidLine(data, k)
    {
      QualAt(data, key, starting, k);
    }
    if r != -1 {
      QualAt(data, key, starting, r);
    }
  }

  lemma OccursInSuffix(s: string, sub: string, from: nat, k: nat)
    requires from <= |s|
    ensures OccursAt(s[from..], sub, k) <==> OccursAt(s, sub, from + k)
  {
    if OccursAt(s, sub, from + k) {
      assert s[from..][k..k + |sub|] == s[from + k..from + k + |sub|];
    }
  }

  /** What `find` on the suffix from `from` says about the whole text. */
  lemma FindFrom(data: string, key: string, from: nat)
    requires from <= |data|
    ensures var i := Find(data[from..], key);
      && (i == -1 ==> forall k :: from <= k <= |data| ==> !OccursAt(data, key, k))
      && (i != -1 ==> (0 <= i && from + i <= |data| && OccursAt(data, key, from + i)
            && forall k :: from <= k < from + i ==> !OccursAt(data, key, k)))
  {
    forall k | from <= k <= |data|
      ensures OccursAt(data[from..], key, k - from) <==> OccursAt(data, key, k)
    {
      OccursInSuffix(data, key, from, k - from);
    }
  }

  /** The corrected loop of `get_key_index`. */
  method GetKeyIndex(data0: string, key: string, starting: bool) returns (idx: int)
    requires key != ""
    ensures idx == KeyIndex(data0, key, starting)
  {
    var text := data0;
    if StartsWith(key, ":returns") {
      text := Replace(text, ":return:", ":returns:");
    }
    assert text == KeyData(data0, key);
    idx := ScanKey(text, key, starting);
  }

  /** The `while loop:` of the corrected `get_key_index` on the searched
      text. */
  method ScanKey(text: string, key: string, starting: bool) returns (idx: int)
    requires key != ""
    ensures idx == FirstFrom(QualFlags(text, key, starting), 0)
  {
    ghost var q := QualFlags(text, key, starting);
    var data := text;
    idx := -1;
    var ini := 0;
    var loop := true;
    while loop
      invariant ini <= |text| && data == text[ini..]
      invariant loop ==> idx == -1 && FirstFrom(q, ini) == FirstFrom(q, 0)
      invariant !loop ==> idx == FirstFrom(q, 0)
      decreases |data|, if loop then 1 else 0
    {
      var i := Find(data, key);
      KeyStep(text, key, starting, ini, i);
      if i != -1 {
        var stop := Stops(text, key, starting, ini + i);
        if stop {
          idx := ini + i;
          loop := false;
        } else {
          ini := ini + i + 1;
          data := text[ini..];
        }
      } else {
        loop := false;
      }
    }
  }

  /** The test of the loop body on an occurrence: it ends the loop unless
      `starting` is set and the occurrence is in mid-line. */
  method Stops(text: string, key: string, starting: bool, k: nat) returns (stop: bool)
    requires k <= |text|
    ensures stop == QualFlags(text, key, starting)[k]
  {
    var inMid := MidLine(text, k);
    stop := OccursAt(text, key, k) && !(starting && inMid);
    QualAt(text, key, starting, k);
  }

  /** One turn of the corrected loop: `find` from `ini` either shows there
      is no further occurrence, or leaves the decision to the flag of the
      next one. */
  lemma KeyStep(text: string, key: string, starting: bool, ini: nat, i: int)
    requires key != "" && ini <= |text| && i == Find(text[ini..], key)
    ensures i == -1 ==> FirstFrom(QualFlags(text, key, starting), ini) == -1
    ensures i != -1 ==> 0 <= i && ini + i + 1 <= |text| && OccursAt(text, key, ini + i)
    ensures i != -1 ==>
      var q := QualFlags(text, key, starting);
      FirstFrom(q, ini) == if q[ini + i] then ini + i else FirstFrom(q, ini + i + 1)
  {
    var q := QualFlags(text, key, starting);
    FindFrom(text, key, ini);
    if i == -1 {
      QualNone(text, key, starting, ini, |q|);
      SkipNone(q, ini, |q|);
    } else {
      QualNone(text, key, starting, ini, ini + i);
      SkipTo(q, ini, ini + i);
    }
  }

  /** Unset flags up to `b` leave the decision to the flag at `b`. */
  lemma SkipTo(q: seq<bool>, a: nat, b: nat)
    requires a <= b < |q|
    requires forall k :: a <= k < b ==> !q[k]
    ensures FirstFrom(q, a) == if q[b] then b else FirstFrom(q, b + 1)
  {
    SkipNone(q, a, b);
  }

  /** The fold of `get_elem_index` over the keys' indexes: the smallest one
      found below the length `n` of the text, starting from `n`. */
  function ElemFold(vals: seq<int>, n: nat): int {
    if vals == [] then n
    else
      var idx := ElemFold(vals[..|vals| - 1], n);
      var i := vals[|vals| - 1];
      if i < idx && i != -1 then i else idx
  }

  lemma {:induction false} ElemFoldMin(vals: seq<int>, n: nat)
    ensures var m := ElemFold(vals, n);
      && m <= n
      && (m == n || (m != -1 && m in vals))
      && (m == n <==> forall j :: 0 <= j < |vals| ==> vals[j] == -1 || vals[j] >= n)
      && forall j :: 0 <= j < |vals| && vals[j] != -1 ==> m <= vals[j]
  {
    if vals != [] {
      var front := vals[..|vals| - 1];
      ElemFoldMin(front, n);
      assert forall j :: 0 <= j < |front| ==> front[j] == vals[j];
      assert vals == front + [vals[|vals| - 1]];
    }
  }

  /** The end of the fold: -1 exactly when no index is found within the
      length `n`; otherwise the smallest of the found indexes. */
  function ElemIndexOf(vals: seq<int>, n: nat): (r: int)
    ensures r == -1 <==> forall j :: 0 <= j < |vals| ==> vals[j] == -1 || vals[j] >= n
    ensures r != -1 ==> r < n && r in vals
    ensures forall j :: 0 <= j < |vals| && vals[j] != -1 ==> r <= vals[j]
  {
    ElemFoldMin(vals, n);
    var m := ElemFold(vals, n);
    if m == n then -1 else m
  }

  /** The index of every key's marker, in table order. */
  function KeyIndexes(data: string, s: TagStyle, starting: bool): (r: seq<int>)
    ensures |r| == |TagKeys|
  {
    seq(|TagKeys|, j requires 0 <= j < |TagKeys| => KeyIndex(data, TagName(TagKeys[j], s), starting))
  }

  /** `get_elem_index`: the first marker of any key, else -1. */
  function ElemIndex(data: string, s: TagStyle, starting: bool): int {
    ElemIndexOf(KeyIndexes(data, s, starting), |data|)
  }

  method GetElemIndex(data: string, s: TagStyle, starting: bool) returns (idx: int)
    ensures idx == ElemIndex(data, s, starting)
  {
    idx := |data|;
    ghost var v := KeyIndexes(data, s, starting);
    for j := 0 to |TagKeys|
      invariant idx == ElemFold(v[..j], |data|)
    {
      var i := GetKeyIndex(data, TagName(TagKeys[j], s), starting);
      assert i == v[j];
      assert v[..j + 1][..j] == v[..j];
      if i < idx && i != -1 {
        idx := i;
      }
    }
    assert v[..|TagKeys|] == v;
    if idx == |data| {
      idx := -1;
    }
  }
}
