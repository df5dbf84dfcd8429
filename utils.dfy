/** Line predicates shared by the style detector and the section scanners,
    leading-indent extraction, and the normalisation of default values taken
    from a signature. */
module Utils {
  import opened Wrappers
  import opened Text

  // ---------------------------------------------------------------------
  // Specifications of the three line predicates.

  /** A line as `isin_alone` compares it: stripped and lower-cased
      (`NormIsLowerStrip`), computed in one pass over the kept range. */
  function Norm(line: string): (r: string)
    ensures |r| <= |line|
  {
    var a := LeadingCount(line, 0);
    var b := TrailingStart(line, |line|);
    if a < b then LowerRange(line, a, b) else []
  }

  /** The characters `s[a..b]`, lower-cased. */
  function LowerRange(s: string, a: nat, b: nat): (r: string)
    requires a <= b <= |s|
    ensures |r| == b - a
    decreases b - a
  {
    if a == b then [] else [ToLower(s[a])] + LowerRange(s, a + 1, b)
  }

  lemma {:induction false} LowerRangeIsLower(s: string, a: nat, b: nat)
    requires a <= b <= |s|
    ensures LowerRange(s, a, b) == Lower(s[a..b])
    decreases b - a
  {
    if a < b {
      LowerRangeIsLower(s, a + 1, b);
      assert Lower(s[a..b]) == [ToLower(s[a])] + Lower(s[a + 1..b]);
    }
  }

  /** Dropping trailing whitespace from a suffix stops where it stops on the
      whole text, or at the start of the suffix. */
  lemma {:induction false} TrailingStartSuffix(s: string, a: nat, j: nat)
    requires a <= j <= |s|
    ensures TrailingStart(s[a..], j - a) == if TrailingStart(s, j) <= a then 0 else TrailingStart(s, j) - a
  {
    if j > a {
      assert s[a..][j - a - 1] == s[j - 1];
      if IsSpace(s[j - 1]) {
        TrailingStartSuffix(s, a, j - 1);
      }
    }
  }

  /** `Norm` is Python's `line.strip().lower()`. */
  lemma NormIsLowerStrip(line: string)
    ensures Norm(line) == Lower(Strip(line))
  {
    var a := LeadingCount(line, 0);
    var b := TrailingStart(line, |line|);
    var l := line[a..];
    assert LStrip(line) == l;
    TrailingStartSuffix(line, a, |line|);
    var e := TrailingStart(l, |l|);
    assert Strip(line) == l[..e];
    if a < b {
      assert l[..e] == line[a..b];
      LowerRangeIsLower(line, a, b);
    }
  }

  /** The normalised form of every line. */
  function Norms(lines: seq<string>): (r: seq<string>)
    ensures |r| == |lines|
  {
    if lines == [] then [] else [Norm(lines[0])] + Norms(lines[1..])
  }

  lemma {:induction false} NormsIndex(lines: seq<string>, k: nat)
    requires k < |lines|
    ensures Norms(lines)[k] == Norm(lines[k])
  {
    if k > 0 {
      NormsIndex(lines[1..], k - 1);
    }
  }

  lemma {:induction false} NormsSuffix(lines: seq<string>, a: nat)
    requires a <= |lines|
    ensures Norms(lines[a..]) == Norms(lines)[a..]
  {
    if a > 0 {
      NormsSuffix(lines[1..], a - 1);
      assert lines[1..][a - 1..] == lines[a..];
    }
  }

  function LowerAll(words: seq<string>): (r: seq<string>)
    ensures |r| == |words| && forall k :: 0 <= k < |words| ==> r[k] == Lower(words[k])
  {
    seq(|words|, k requires 0 <= k < |words| => Lower(words[k]))
  }

  /** `e` equals the stripped line when both are lower-cased. */
  predicate AloneMatch(e: string, line: string) {
    Norm(line) == Lower(e)
  }

  /** The lower-cased, left-stripped line starts with `e`; `e` itself is not lower-cased. */
  predicate StartMatch(e: string, line: string) {
    StartsWith(Lower(LStrip(line)), e)
  }

  /** `e` occurs in the lower-cased line; `e` itself is not lower-cased. */
  predicate InMatch(e: string, line: string) {
    Contains(Lower(line), e)
  }

  predicate InAlone(elems: seq<string>, line: string) {
    Norm(line) in LowerAll(elems)
  }

  /** The argument of `isin_start` is either one string or a list of strings. */
  datatype Elems = One(s: string) | Many(items: seq<string>)

  function AsList(elems: Elems): (r: seq<string>)
    ensures elems.One? ==> r == [elems.s]
    ensures elems.Many? ==> r == elems.items
  {
    match elems
    case One(s) => [s]
    case Many(items) => items
  }

  predicate InStart(elems: Elems, line: string) {
    InStartList(AsList(elems), line)
  }

  predicate InStartList(l: seq<string>, line: string) {
    exists k :: 0 <= k < |l| && StartMatch(l[k], line)
  }

  predicate InAny(elems: seq<string>, line: string) {
    exists k :: 0 <= k < |elems| && InMatch(elems[k], line)
  }

  // ---------------------------------------------------------------------
  // The predicates as the source computes them: a scan that stops at the
  // first element that matches.

  /** `isin_alone`. */
  method IsinAlone(elems: seq<string>, line: string) returns (found: bool)
    ensures found <==> InAlone(elems, line)
  {
    var low := Lower(Strip(line));
    NormIsLowerStrip(line);
    var i := 0;
    while i < |elems|
      invariant 0 <= i <= |elems|
      invariant forall k :: 0 <= k < i ==> low != Lower(elems[k])
    {
      if low == Lower(elems[i]) {
        return true;
      }
      i := i + 1;
    }
    return false;
  }

  /** `isin_start`: a single string is wrapped into a one-element list first. */
  method IsinStart(elems: Elems, line: string) returns (found: bool)
    ensures found <==> InStart(elems, line)
  {
    var list := AsList(elems);
    var low := Lower(LStrip(line));
    var i := 0;
    while i < |list|
      invariant 0 <= i <= |list|
      invariant forall k :: 0 <= k < i ==> !StartsWith(low, list[k])
    {
      if StartsWith(low, list[i]) {
        assert InStartList(list, line);
        return true;
      }
      i := i + 1;
    }
    assert !InStartList(list, line);
    return false;
  }

  /** `isin`. */
  method Isin(elems: seq<string>, line: string) returns (found: bool)
    ensures found <==> InAny(elems, line)
  {
    var i := 0;
    while i < |elems|
      invariant 0 <= i <= |elems|
      invariant forall k :: 0 <= k < i ==> !InMatch(elems[k], line)
    {
      FindContains(Lower(line), elems[i]);
      if Find(Lower(line), elems[i]) >= 0 {
        return true;
      }
      i := i + 1;
    }
    return false;
  }

  /** `isin_alone` holds exactly when some element matches the line. */
  lemma InAloneSome(elems: seq<string>, line: string)
    ensures InAlone(elems, line) <==> exists k :: 0 <= k < |elems| && AloneMatch(elems[k], line)
  {
    if InAlone(elems, line) {
      var k :| 0 <= k < |elems| && LowerAll(elems)[k] == Norm(line);
      assert AloneMatch(elems[k], line);
    }
  }

  /** An element holding an upper-case letter never starts a line for
      `isin_start`, since only the line is lower-cased. */
  lemma StartMatchNeedsLowerElement(e: string, line: string, j: nat)
    requires j < |e| && IsUpper(e[j])
    ensures !StartMatch(e, line)
  {
    var l := Lower(LStrip(line));
    if |e| <= |l| {
      assert l[..|e|][j] != e[j];
    }
  }

  /** Matching ignores the case of the line, for any element. */
  lemma AloneMatchIgnoresLineCase(e: string, line: string)
    ensures AloneMatch(e, Lower(line)) <==> AloneMatch(e, line)
  {
    NormIsLowerStrip(line);
    NormIsLowerStrip(Lower(line));
    LowerStrip(line);
    LowerIdempotent(Strip(line));
  }

  lemma LowerIdempotent(s: string)
    ensures Lower(Lower(s)) == Lower(s)
  {
  }

  /** Lower-casing commutes with stripping, as no letter is whitespace. */
  lemma {:induction false} LowerStrip(s: string)
    ensures Strip(Lower(s)) == Lower(Strip(s))
  {
    LowerLStrip(s);
    LowerRStrip(LStrip(s));
  }

  lemma LowerLStrip(s: string)
    ensures LStrip(Lower(s)) == Lower(LStrip(s))
  {
    LowerLeadingCount(s, 0);
    var n := LeadingCount(s, 0);
    assert Lower(s)[n..] == Lower(s[n..]);
  }

  lemma LowerRStrip(s: string)
    ensures RStrip(Lower(s)) == Lower(RStrip(s))
  {
    LowerTrailingStart(s, |s|);
    var n := TrailingStart(s, |s|);
    assert Lower(s)[..n] == Lower(s[..n]);
  }

  lemma {:induction false} LowerLeadingCount(s: string, i: nat)
    requires i <= |s|
    ensures LeadingCount(Lower(s), i) == LeadingCount(s, i)
    decreases |s| - i
  {
    if i < |s| {
      assert Lower(s)[i] == ToLower(s[i]);
      LowerLeadingCount(s, i + 1);
    }
  }

  lemma {:induction false} LowerTrailingStart(s: string, j: nat)
    requires j <= |s|
    ensures TrailingStart(Lower(s), j) == TrailingStart(s, j)
  {
    if j > 0 {
      assert Lower(s)[j - 1] == ToLower(s[j - 1]);
      LowerTrailingStart(s, j - 1);
    }
  }

  // ---------------------------------------------------------------------

  /** `get_leading_spaces`: the longest all-whitespace prefix. */
  function GetLeadingSpaces(data: string): (r: string)
    ensures |r| <= |data| && r == data[..|r|]
    ensures AllSpace(r)
    ensures |r| == |data| || !IsSpace(data[|r|])
  {
    var t := LStrip(data);
    LStripDropsSpace(data);
    assert data == data[..|data| - |t|] + t;
    data[..|data| - |t|]
  }

  const TripleDouble: string := "\"\"\""
  const TripleSingle: string := "'''"

  /** `normalize_default_value`. `None` and the empty string are falsy and
      returned as they are. */
  function NormalizeDefaultValue(v: Option<string>): (r: Option<string>)
    ensures v == None || v == Some("") ==> r == v
    ensures v.Some? ==> r.Some? && |r.value| <= |v.value|
    ensures v.Some? && v.value != "" && !IsTripleQuoted(v.value) ==>
              r == Some(Replace(Replace(v.value, TripleDouble, "'"), TripleSingle, "'"))
  {
    match v
    case None => None
    case Some(s) =>
      if s == "" then v
      else if IsTripleQuoted(s) then Some("'" + Slice(s, 3, -3) + "'")
      else
        ReplaceNotLonger(s, TripleDouble, "'");
        ReplaceNotLonger(Replace(s, TripleDouble, "'"), TripleSingle, "'");
        Some(Replace(Replace(s, TripleDouble, "'"), TripleSingle, "'"))
  }

  /** Starts and ends with the same triple quote (the two may overlap). */
  predicate IsTripleQuoted(s: string) {
    (StartsWith(s, TripleDouble) && EndsWith(s, TripleDouble))
    || (StartsWith(s, TripleSingle) && EndsWith(s, TripleSingle))
  }

  /** A value wrapped in triple quotes keeps exactly its inner text, now
      wrapped in single quotes. */
  lemma NormalizeTripleQuoted(inner: string, q: string)
    requires q == TripleDouble || q == TripleSingle
    ensures NormalizeDefaultValue(Some(q + inner + q)) == Some("'" + inner + "'")
  {
    var s := q + inner + q;
    assert StartsWith(s, q) && EndsWith(s, q);
    assert s[3..|s| - 3] == inner;
  }

  /** Replacing by something no longer never lengthens the text. */
  lemma {:induction false} ReplaceNotLonger(s: string, pat: string, rep: string)
    requires |pat| > 0 && |rep| <= |pat|
    ensures |Replace(s, pat, rep)| <= |s|
    decreases |s|
  {
    if |s| < |pat| {
    } else if s[..|pat|] == pat {
      ReplaceNotLonger(s[|pat|..], pat, rep);
    } else {
      ReplaceNotLonger(s[1..], pat, rep);
    }
  }

  /** The leading whitespace of an indented line is its indentation. */
  lemma LeadingSpacesOf(sp: string, t: string)
    requires AllSpace(sp) && t != [] && !IsSpace(t[0])
    ensures GetLeadingSpaces(sp + t) == sp
  {
    var s := sp + t;
    var r := GetLeadingSpaces(s);
    assert s[..|sp|] == sp;
  }
}
