/** The string primitives of Python that the converter relies on, written out
    over `seq<char>`: whitespace stripping, case mapping, searching, counting,
    replacing, `splitlines`, `split` and `join`, and Python's clamping slices.
    Whitespace and word characters are the ASCII ones; `splitlines` breaks at
    '\n' only. */
module Text {

  /** Python's `str.isspace` restricted to ASCII. */
  predicate IsSpace(c: char) {
    c == ' ' || c == '\t' || c == '\n' || c == '\r' || c == '\U{0B}' || c == '\U{0C}'
    || ('\U{1C}' <= c <= '\U{1F}')
  }

  /** The regular-expression class `\w` restricted to ASCII. */
  predicate IsWordChar(c: char) {
    ('a' <= c <= 'z') || ('A' <= c <= 'Z') || ('0' <= c <= '9') || c == '_'
  }

  predicate IsUpper(c: char) { 'A' <= c <= 'Z' }

  predicate IsLower(c: char) { 'a' <= c <= 'z' }

  function ToLower(c: char): (r: char)
    ensures !IsUpper(r)
    ensures !IsUpper(c) ==> r == c
    ensures IsSpace(r) <==> IsSpace(c)
  {
    if IsUpper(c) then (c as int + 32) as char else c
  }

  function ToUpper(c: char): (r: char)
    ensures !IsLower(r)
    ensures !IsLower(c) ==> r == c
  {
    if IsLower(c) then (c as int - 32) as char else c
  }

  function Lower(s: string): (r: string)
    ensures |r| == |s|
    ensures forall i :: 0 <= i < |s| ==> r[i] == ToLower(s[i])
  {
    seq(|s|, i requires 0 <= i < |s| => ToLower(s[i]))
  }

  function Upper(s: string): (r: string)
    ensures |r| == |s|
    ensures forall i :: 0 <= i < |s| ==> r[i] == ToUpper(s[i])
  {
    seq(|s|, i requires 0 <= i < |s| => ToUpper(s[i]))
  }

  predicate AllSpace(s: string) {
    forall i :: 0 <= i < |s| ==> IsSpace(s[i])
  }

  /** `str.lstrip()`: the suffix left after dropping leading whitespace. */
  function LStrip(s: string): (r: string)
    ensures |r| <= |s| && r == s[|s| - |r|..]
    ensures r == [] || !IsSpace(r[0])
  {
    s[LeadingCount(s, 0)..]
  }

  /** The index of the first non-whitespace character at or after `i`. */
  function LeadingCount(s: string, i: nat): (n: nat)
    requires i <= |s|
    ensures i <= n <= |s|
    ensures n == |s| || !IsSpace(s[n])
    decreases |s| - i
  {
    if i < |s| && IsSpace(s[i]) then LeadingCount(s, i + 1) else i
  }

  lemma {:induction false} LeadingCountSpaces(s: string, i: nat)
    requires i <= |s|
    ensures forall k :: i <= k < LeadingCount(s, i) ==> IsSpace(s[k])
    decreases |s| - i
  {
    if i < |s| && IsSpace(s[i]) {
      LeadingCountSpaces(s, i + 1);
    }
  }

  /** What `lstrip` drops is whitespace only. */
  lemma LStripDropsSpace(s: string)
    ensures AllSpace(s[..|s| - |LStrip(s)|])
  {
    LeadingCountSpaces(s, 0);
  }

  /** `str.rstrip()`: the prefix left after dropping trailing whitespace. */
  function RStrip(s: string): (r: string)
    ensures |r| <= |s| && r == s[..|r|]
    ensures r == [] || !IsSpace(r[|r| - 1])
  {
    s[..TrailingStart(s, |s|)]
  }

  /** The end of the text once the whitespace before index `j` is dropped. */
  function TrailingStart(s: string, j: nat): (n: nat)
    requires j <= |s|
    ensures n <= j
    ensures n == 0 || !IsSpace(s[n - 1])
  {
    if j > 0 && IsSpace(s[j - 1]) then TrailingStart(s, j - 1) else j
  }

  lemma {:induction false} TrailingStartSpaces(s: string, j: nat)
    requires j <= |s|
    ensures forall k :: TrailingStart(s, j) <= k < j ==> IsSpace(s[k])
  {
    if j > 0 && IsSpace(s[j - 1]) {
      TrailingStartSpaces(s, j - 1);
    }
  }

  /** What `rstrip` drops is whitespace only. */
  lemma RStripDropsSpace(s: string)
    ensures AllSpace(s[|RStrip(s)|..])
  {
    TrailingStartSpaces(s, |s|);
  }

  /** `str.strip()`: neither end of the result is whitespace. */
  function Strip(s: string): (r: string)
    ensures |r| <= |s|
    ensures r == [] || (!IsSpace(r[0]) && !IsSpace(r[|r| - 1]))
  {
    var l := LStrip(s);
    var r := RStrip(l);
    assert r == [] || r[0] == l[0];
    r
  }

  /** `str.rstrip(chars)` for an explicit set of characters. */
  function RStripChars(s: string, cs: set<char>): (r: string)
    ensures |r| <= |s| && r == s[..|r|]
    ensures r == [] || r[|r| - 1] !in cs
  {
    if s != [] && s[|s| - 1] in cs then RStripChars(s[..|s| - 1], cs) else s
  }

  predicate IsBlank(s: string) {
    Strip(s) == []
  }

  predicate StartsWith(s: string, p: string) {
    |p| <= |s| && s[..|p|] == p
  }

  predicate EndsWith(s: string, p: string) {
    |p| <= |s| && s[|s| - |p|..] == p
  }

  predicate OccursAt(s: string, sub: string, i: int) {
    0 <= i && i + |sub| <= |s| && s[i..i + |sub|] == sub
  }

  /** Python's `sub in s`. */
  predicate Contains(s: string, sub: string) {
    exists i :: 0 <= i <= |s| && OccursAt(s, sub, i)
  }

  /** `str.find`: the first index at which `sub` occurs, else -1. */
  function Find(s: string, sub: string): (r: int)
    ensures -1 <= r <= |s|
    ensures r >= 0 ==> OccursAt(s, sub, r)
    ensures r >= 0 ==> forall k :: 0 <= k < r ==> !OccursAt(s, sub, k)
    ensures r == -1 ==> forall k :: !OccursAt(s, sub, k)
  {
    if |sub| > |s| then -1
    else if s[..|sub|] == sub then 0
    else
      var t := Find(s[1..], sub);
      assert forall k :: 1 <= k ==> (OccursAt(s, sub, k) <==> OccursAt(s[1..], sub, k - 1));
      if t < 0 then -1 else t + 1
  }

  lemma FindContains(s: string, sub: string)
    ensures Contains(s, sub) <==> Find(s, sub) >= 0
  {
    if Find(s, sub) >= 0 {
      assert OccursAt(s, sub, Find(s, sub));
    }
  }

  /** `str.rfind` of one character: the last index holding `c`, else -1. */
  function RFindChar(s: string, c: char): (r: int)
    ensures -1 <= r < |s|
    ensures r >= 0 ==> s[r] == c && forall k :: r < k < |s| ==> s[k] != c
    ensures r == -1 ==> forall k :: 0 <= k < |s| ==> s[k] != c
  {
    if s == [] then -1
    else if s[|s| - 1] == c then |s| - 1
    else RFindChar(s[..|s| - 1], c)
  }

  /** `str.find` of one character. */
  function FindChar(s: string, c: char): (r: int)
    ensures -1 <= r < |s|
    ensures r >= 0 ==> s[r] == c && forall k :: 0 <= k < r ==> s[k] != c
    ensures r == -1 ==> forall k :: 0 <= k < |s| ==> s[k] != c
  {
    if s == [] then -1
    else if s[0] == c then 0
    else
      var t := FindChar(s[1..], c);
      if t < 0 then -1 else t + 1
  }

  /** `str.count`: non-overlapping occurrences, scanning left to right. */
  function Count(s: string, sub: string): nat
    decreases |s|
  {
    if |sub| == 0 then |s| + 1
    else if |s| < |sub| then 0
    else if s[..|sub|] == sub then 1 + Count(s[|sub|..], sub)
    else Count(s[1..], sub)
  }

  /** `str.replace(pat, rep)` for a non-empty `pat`. */
  function Replace(s: string, pat: string, rep: string): string
    requires |pat| > 0
    decreases |s|
  {
    if |s| < |pat| then s
    else if s[..|pat|] == pat then rep + Replace(s[|pat|..], pat, rep)
    else [s[0]] + Replace(s[1..], pat, rep)
  }

  /** `str.replace(pat, rep, 1)`. */
  function ReplaceFirst(s: string, pat: string, rep: string): string {
    var i := Find(s, pat);
    if i < 0 then s else s[..i] + rep + s[i + |pat|..]
  }

  /** `str.splitlines()` with '\n' as the only line break. */
  function SplitLines(s: string): (r: seq<string>)
    ensures forall k :: 0 <= k < |r| ==> '\n' !in r[k]
    decreases |s|
  {
    if s == [] then []
    else
      var i := FindChar(s, '\n');
      if i < 0 then [s] else [s[..i]] + SplitLines(s[i + 1..])
  }

  /** Text that does not end with a line break has a non-empty last line. */
  lemma {:induction false} SplitLinesLast(s: string)
    requires s != [] && s[|s| - 1] != '\n'
    ensures SplitLines(s) != [] && SplitLines(s)[|SplitLines(s)| - 1] != []
    decreases |s|
  {
    var i := FindChar(s, '\n');
    if i >= 0 {
      var rest := s[i + 1..];
      assert rest != [];
      assert rest[|rest| - 1] == s[|s| - 1];
      SplitLinesLast(rest);
    }
  }

  /** `sep.join(parts)`. */
  function Join(sep: string, parts: seq<string>): string {
    if |parts| == 0 then ""
    else if |parts| == 1 then parts[0]
    else parts[0] + sep + Join(sep, parts[1..])
  }

  /** `s.split(c)` for a one-character separator. */
  function Split(s: string, c: char): (r: seq<string>)
    ensures |r| >= 1
    ensures forall k :: 0 <= k < |r| ==> c !in r[k]
    decreases |s|
  {
    var i := FindChar(s, c);
    if i < 0 then [s] else [s[..i]] + Split(s[i + 1..], c)
  }

  /** `s.split(c, 1)`. */
  function SplitOnce(s: string, c: char): (r: seq<string>)
    ensures |r| == 1 || |r| == 2
    ensures |r| == 1 <==> c !in s
    ensures |r| == 1 ==> r[0] == s
    ensures |r| == 2 ==> c !in r[0] && s == r[0] + [c] + r[1]
  {
    var i := FindChar(s, c);
    if i < 0 then [s] else [s[..i], s[i + 1..]]
  }

  /** Index of the first whitespace character, or |s|. */
  function SpaceIndex(s: string): (r: nat)
    ensures r <= |s|
    ensures forall k :: 0 <= k < r ==> !IsSpace(s[k])
    ensures r < |s| ==> IsSpace(s[r])
  {
    if s == [] || IsSpace(s[0]) then 0 else 1 + SpaceIndex(s[1..])
  }

  /** `str.split()` with no argument: the maximal runs of non-whitespace. */
  function SplitWs(s: string): (r: seq<string>)
    decreases |s|
  {
    var t := LStrip(s);
    if t == [] then []
    else
      var i := SpaceIndex(t);
      [t[..i]] + SplitWs(t[i..])
  }

  function Repeat(c: char, n: nat): (r: string)
    ensures |r| == n && forall k :: 0 <= k < n ==> r[k] == c
  {
    seq(n, _ => c)
  }

  /** Index normalisation of a Python slice bound. */
  function Clamp(i: int, n: nat): (r: nat)
    ensures r <= n
    ensures 0 <= i <= n ==> r == i
  {
    if i < 0 then (if i + n < 0 then 0 else i + n) else if i > n then n else i
  }

  /** Python's `s[i:j]`, negative and out-of-range bounds included. */
  function Slice<T>(s: seq<T>, i: int, j: int): (r: seq<T>)
    ensures 0 <= i <= j <= |s| ==> r == s[i..j]
    ensures |r| <= |s|
  {
    var a := Clamp(i, |s|);
    var b := Clamp(j, |s|);
    if a < b then s[a..b] else []
  }

  /** Python's `s[i:]`. */
  function SliceFrom<T>(s: seq<T>, i: int): (r: seq<T>)
    ensures 0 <= i <= |s| ==> r == s[i..]
    ensures i > |s| ==> r == []
  {
    Slice(s, i, |s|)
  }

  // ---------------------------------------------------------------------
  // Facts about the primitives used across the model.

  lemma StripBlankIffAllSpace(s: string)
    ensures Strip(s) == [] <==> AllSpace(s)
  {
    var l := LStrip(s);
    LStripDropsSpace(s);
    RStripDropsSpace(l);
    assert s[..|s| - |l|] + l == s;
    assert l[|RStrip(l)|..] == l ==> l == [];
  }

  lemma {:induction false} JoinLines(parts: seq<string>)
    requires forall k :: 0 <= k < |parts| ==> '\n' !in parts[k]
    requires parts == [] || parts[|parts| - 1] != []
    ensures SplitLines(Join("\n", parts)) == parts
  {
    if |parts| == 0 {
    } else if |parts| == 1 {
      assert FindChar(parts[0], '\n') == -1;
    } else {
      var s := Join("\n", parts);
      var rest := Join("\n", parts[1..]);
      assert s == parts[0] + "\n" + rest;
      assert s[|parts[0]|] == '\n';
      assert FindChar(s, '\n') == |parts[0]|;
      assert s[..|parts[0]|] == parts[0];
      assert s[|parts[0]| + 1..] == rest;
      JoinLines(parts[1..]);
      assert rest != [] by {
        JoinNonEmpty(parts[1..]);
      }
    }
  }

  lemma {:induction false} JoinNonEmpty(parts: seq<string>)
    requires parts != [] && parts[|parts| - 1] != []
    ensures Join("\n", parts) != []
  {
    if |parts| > 1 {
      JoinNonEmpty(parts[1..]);
    }
  }

  /** Deleting every occurrence of a pattern only removes characters. */
  lemma {:induction false} DeleteKeepsChars(s: string, pat: string, x: char)
    requires |pat| > 0 && x in Replace(s, pat, "")
    ensures x in s
    decreases |s|
  {
    if |s| < |pat| {
    } else if s[..|pat|] == pat {
      assert Replace(s, pat, "") == Replace(s[|pat|..], pat, "");
      DeleteKeepsChars(s[|pat|..], pat, x);
    } else {
      var t := Replace(s[1..], pat, "");
      assert Replace(s, pat, "") == [s[0]] + t;
      if x != s[0] {
        DeleteKeepsChars(s[1..], pat, x);
      }
    }
  }

  /** Deleting a one-character pattern leaves none of it. */
  lemma {:induction false} DeleteChar(s: string, c: char)
    ensures c !in Replace(s, [c], "")
    decreases |s|
  {
    if |s| >= 1 {
      if s[..1] == [c] {
        assert Replace(s, [c], "") == Replace(s[1..], [c], "");
      } else {
        assert Replace(s, [c], "") == [s[0]] + Replace(s[1..], [c], "");
      }
      DeleteChar(s[1..], c);
    }
  }

  /** A non-empty run of non-whitespace characters. */
  predicate IsWord(w: string) {
    w != [] && forall i :: 0 <= i < |w| ==> !IsSpace(w[i])
  }

  /** Text with no whitespace at either end is its own `strip()`. */
  lemma StripUnchanged(s: string)
    requires s != [] && !IsSpace(s[0]) && !IsSpace(s[|s| - 1])
    ensures Strip(s) == s
  {
    assert LeadingCount(s, 0) == 0;
    assert LStrip(s) == s;
    assert TrailingStart(s, |s|) == |s|;
  }

  /** One leading space is dropped by `strip()`. */
  lemma StripSpaceBefore(s: string)
    requires s != [] && !IsSpace(s[0]) && !IsSpace(s[|s| - 1])
    ensures Strip(" " + s) == s
  {
    var t := " " + s;
    assert LeadingCount(t, 1) == 1;
    assert LeadingCount(t, 0) == 1;
    assert t[1..] == s;
    assert TrailingStart(s, |s|) == |s|;
  }

  lemma {:induction false} SpaceIndexWord(w: string, rest: string)
    requires forall i :: 0 <= i < |w| ==> !IsSpace(w[i])
    requires rest == [] || IsSpace(rest[0])
    ensures SpaceIndex(w + rest) == |w|
    decreases |w|
  {
    if w == [] {
      assert w + rest == rest;
    } else {
      assert (w + rest)[1..] == w[1..] + rest;
      SpaceIndexWord(w[1..], rest);
    }
  }

  /** `split()` yields words only. */
  lemma {:induction false} SplitWsWords(s: string)
    ensures forall k :: 0 <= k < |SplitWs(s)| ==> IsWord(SplitWs(s)[k])
    decreases |s|
  {
    var t := LStrip(s);
    if t != [] {
      var i := SpaceIndex(t);
      SplitWsWords(t[i..]);
      assert SplitWs(s) == [t[..i]] + SplitWs(t[i..]);
    }
  }

  /** A character in neither the separator nor the parts is not in the join. */
  lemma {:induction false} JoinWithout(sep: string, parts: seq<string>, c: char)
    requires c !in sep
    requires forall k :: 0 <= k < |parts| ==> c !in parts[k]
    ensures c !in Join(sep, parts)
  {
    if |parts| > 1 {
      JoinWithout(sep, parts[1..], c);
    }
  }

  /** Text ending with a non-space is its own `rstrip()`. */
  lemma RStripUnchanged(s: string)
    requires s == [] || !IsSpace(s[|s| - 1])
    ensures RStrip(s) == s
  {
  }

  /** `rstrip()` keeps a prefix that ends with a non-space. */
  lemma RStripKeepsPrefix(s: string, p: string)
    requires StartsWith(s, p) && (p == [] || !IsSpace(p[|p| - 1]))
    ensures StartsWith(RStrip(s), p)
  {
    TrailingStartSpaces(s, |s|);
    if p != [] {
      assert s[|p| - 1] == p[|p| - 1];
    }
    assert RStrip(s)[..|p|] == s[..|p|];
  }

  /** A word splits into itself. */
  lemma SplitWsOne(w: string)
    requires IsWord(w)
    ensures SplitWs(w) == [w]
  {
    assert LeadingCount(w, 0) == 0;
    assert LStrip(w) == w;
    SpaceIndexWord(w, []);
    assert w + [] == w;
    assert w[|w|..] == [];
  }

  /** A word after one space splits into itself. */
  lemma SplitWsSpaced(b: string)
    requires IsWord(b)
    ensures SplitWs(" " + b) == [b]
  {
    var u := " " + b;
    assert LeadingCount(u, 1) == 1;
    assert LeadingCount(u, 0) == 1;
    assert u[1..] == b;
    assert LStrip(u) == b;
    SplitWsOne(b);
    assert LStrip(b) == b;
  }

  /** Splitting text that starts with a word followed by whitespace. */
  lemma SplitWsFirst(a: string, rest: string)
    requires IsWord(a) && rest != [] && IsSpace(rest[0])
    ensures SplitWs(a + rest) == [a] + SplitWs(rest)
  {
    var t := a + rest;
    assert t[0] == a[0];
    assert LeadingCount(t, 0) == 0;
    assert LStrip(t) == t;
    SpaceIndexWord(a, rest);
    assert t[..|a|] == a;
    assert t[|a|..] == rest;
  }

  /** Two words separated by one space split into the two words. */
  lemma SplitWsTwo(a: string, b: string)
    requires IsWord(a) && IsWord(b)
    ensures SplitWs(a + " " + b) == [a, b]
  {
    assert a + " " + b == a + (" " + b);
    SplitWsTwoAt(a, b, a + (" " + b));
  }

  lemma SplitWsTwoAt(a: string, b: string, t: string)
    requires IsWord(a) && IsWord(b) && t == a + (" " + b)
    ensures SplitWs(t) == [a, b]
  {
    SplitWsFirst(a, " " + b);
    SplitWsSpaced(b);
  }

  lemma {:induction false} FindCharAfter(x: string, rest: string, c: char)
    requires c !in x && rest != [] && rest[0] == c
    ensures FindChar(x + rest, c) == |x|
    decreases |x|
  {
    if x == [] {
      assert x + rest == rest;
    } else {
      assert (x + rest)[1..] == x[1..] + rest;
      FindCharAfter(x[1..], rest, c);
    }
  }

  /** Splitting once at the first separator. */
  lemma SplitOnceAt(x: string, y: string, c: char)
    requires c !in x
    ensures SplitOnce(x + [c] + y, c) == [x, y]
  {
    var s := x + [c] + y;
    FindCharAfter(x, [c] + y, c);
    assert x + ([c] + y) == s;
    assert s[..|x|] == x && s[|x| + 1..] == y;
  }

  /** Replacing the first occurrence of a prefix drops the prefix. */
  lemma ReplacePrefix(s: string, p: string)
    requires StartsWith(s, p)
    ensures ReplaceFirst(s, p, "") == s[|p|..]
  {
    assert Find(s, p) == 0;
  }

  /** Concatenation regrouped, for proofs that append piece by piece. */
  lemma Assoc(a: string, b: string, c: string)
    ensures a + b + c == a + (b + c)
  {
  }

  /** Text that is whitespace-free at both ends. */
  predicate Trimmed(s: string) {
    s != [] && !IsSpace(s[0]) && !IsSpace(s[|s| - 1])
  }

  lemma {:induction false} LeadingCountTo(s: string, i: nat, n: nat)
    requires i <= n < |s| && !IsSpace(s[n])
    requires forall k :: i <= k < n ==> IsSpace(s[k])
    ensures LeadingCount(s, i) == n
    decreases n - i
  {
    if i < n {
      LeadingCountTo(s, i + 1, n);
    }
  }

  lemma {:induction false} TrailingStartTo(s: string, j: nat, n: nat)
    requires 0 < n <= j <= |s| && !IsSpace(s[n - 1])
    requires forall k :: n <= k < j ==> IsSpace(s[k])
    ensures TrailingStart(s, j) == n
    decreases j - n
  {
    if n < j {
      TrailingStartTo(s, j - 1, n);
    }
  }

  /** `strip()` removes whitespace padding on both sides and nothing else. */
  lemma StripPadded(a: string, t: string, b: string)
    requires AllSpace(a) && AllSpace(b) && Trimmed(t)
    ensures Strip(a + t + b) == t
  {
    var s := a + t + b;
    LeadingCountTo(s, 0, |a|);
    assert LStrip(s) == t + b;
    TrailingStartTo(t + b, |t + b|, |t|);
    assert (t + b)[..|t|] == t;
  }

  /** A line without a line break is one line. */
  lemma SplitLinesOne(s: string)
    requires s != [] && '\n' !in s
    ensures SplitLines(s) == [s]
  {
    assert FindChar(s, '\n') < 0;
  }

  /** A line without a line break, then a line break, is the first line. */
  lemma SplitLinesCons(line: string, rest: string)
    requires '\n' !in line
    ensures SplitLines(line + "\n" + rest) == [line] + SplitLines(rest)
  {
    var s := line + "\n" + rest;
    FindCharAfter(line, "\n" + rest, '\n');
    assert line + ("\n" + rest) == s;
    assert s[..|line|] == line && s[|line| + 1..] == rest;
  }

  /** `strip()` adds no character. */
  lemma StripKeepsOutChar(s: string, c: char)
    requires c !in s
    ensures c !in Strip(s)
  {
    var l := LStrip(s);
    assert forall k :: 0 <= k < |l| ==> l[k] == s[|s| - |l| + k];
    var r := RStrip(l);
    assert forall k :: 0 <= k < |r| ==> r[k] == l[k];
  }

  /** Text with a non-space character is not blank. */
  lemma NotBlankAt(s: string, i: nat)
    requires i < |s| && !IsSpace(s[i])
    ensures !IsBlank(s)
  {
    StripBlankIffAllSpace(s);
  }
}
