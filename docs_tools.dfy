/** `DocsTools`: the marker tables of the tag styles (javadoc, reST and the
    C-like `\param` style) and of the "groups" style, the style detector, the
    line and index scanners used to cut a docstring into parts, and the
    line-by-line parser of tag-style parameters. */
module Styles {
  import opened Wrappers
  import opened Text
  import opened Utils
  import opened SectionTools

  // ---------------------------------------------------------------------
  // The tag table (`_set_available_styles`).

  /** The tag styles, in the order of the `tagstyles` list. */
  datatype TagStyle = Javadoc | ReST | CStyle

  const TagStyles: seq<TagStyle> := [Javadoc, ReST, CStyle]

  function StyleName(s: TagStyle): string {
    match s
    case Javadoc => "javadoc"
    case ReST => "reST"
    case CStyle => "cstyle"
  }

  /** The tag style with this name, if it is one. */
  function StyleOf(name: string): (r: Option<TagStyle>)
    ensures r.Some? ==> StyleName(r.value) == name
    ensures r.None? ==> forall s: TagStyle :: StyleName(s) != name
  {
    if name == "javadoc" then Some(Javadoc)
    else if name == "reST" then Some(ReST)
    else if name == "cstyle" then Some(CStyle)
    else None
  }

  /** The keys of the tag table, in order. */
  const TagKeys: seq<string> := ["param", "type", "returns", "return", "rtype", "raise"]

  function Prefix(s: TagStyle): string {
    match s
    case Javadoc => "@"
    case ReST => ":"
    case CStyle => "\\"
  }

  function TagSep(s: TagStyle): string {
    match s
    case Javadoc => ":"
    case ReST => ":"
    case CStyle => " "
  }

  /** The marker of a key in a style: the style's prefix and then the key,
      except that reST spells `return` and `raise` as `:returns` and `:raises`. */
  function TagName(key: string, s: TagStyle): string {
    if s == ReST && key == "return" then ":returns"
    else if s == ReST && key == "raise" then ":raises"
    else Prefix(s) + key
  }

  /** Every marker starts with its style's prefix and names its key. */
  lemma TagNameShape(key: string, s: TagStyle)
    requires key in TagKeys
    ensures StartsWith(TagName(key, s), Prefix(s))
    ensures StartsWith(TagName(key, s)[|Prefix(s)|..], key)
    ensures TagName(key, s) == Prefix(s) + key <==> !(s == ReST && (key == "return" || key == "raise"))
  {
    var n := TagName(key, s);
    if s == ReST && key == "return" {
      assert n[1..][..6] == key;
      assert |Prefix(s) + key| == 7 && |n| == 8;
    } else if s == ReST && key == "raise" {
      assert n[1..][..5] == key;
      assert |Prefix(s) + key| == 6 && |n| == 7;
    } else {
      assert n[|Prefix(s)|..] == key;
    }
  }

  /** In reST the `return` and `returns` keys share one marker, so a reST
      `:returns` is counted twice by the detector. */
  lemma ReSTReturnMarkers()
    ensures TagName("return", ReST) == TagName("returns", ReST)
    ensures TagName("return", Javadoc) != TagName("returns", Javadoc)
  {
    assert |TagName("return", Javadoc)| == 7;
  }

  /** The keys of the groups table, in order. */
  datatype GroupKey = GParam | GReturn | GRaise

  const GroupKeys: seq<GroupKey> := [GParam, GReturn, GRaise]

  /** The words that open a groups-style section of each key. */
  function GroupWords(k: GroupKey): seq<string> {
    match k
    case GParam => ["params", "args", "parameters", "arguments"]
    case GReturn => ["returns", "return"]
    case GRaise => ["raises", "exceptions", "raise", "exception"]
  }

  // ---------------------------------------------------------------------
  // `get_key` and `get_sep`: the marker or separator of a key in the input or
  // output style. A style or key missing from the table is Python's
  // `KeyError`, modelled as `Err`.

  /** `target` chooses the output style when it is "out" and the input style
      otherwise. */
  function Target(styleIn: string, styleOut: string, target: string): string {
    if target == "out" then styleOut else styleIn
  }

  function KeyOf(key: string, style: string): (r: Result<string>)
    ensures r.Ok? <==> key in TagKeys && StyleOf(style).Some?
    ensures r.Ok? ==> r.value == TagName(key, StyleOf(style).value)
  {
    if key !in TagKeys then Err("KeyError")
    else match StyleOf(style)
      case None => Err("KeyError")
      case Some(s) => Ok(TagName(key, s))
  }

  /** The section styles have no separator. */
  function SepOf(key: string, style: string): (r: Result<string>)
    ensures style == "numpydoc" || style == "google" ==> r == Ok("")
    ensures style != "numpydoc" && style != "google" ==>
      (r.Ok? <==> key in TagKeys && StyleOf(style).Some?)
    ensures style != "numpydoc" && style != "google" && r.Ok? ==>
      r.value == TagSep(StyleOf(style).value)
  {
    if style == "numpydoc" || style == "google" then Ok("")
    else if key !in TagKeys then Err("KeyError")
    else match StyleOf(style)
      case None => Err("KeyError")
      case Some(s) => Ok(TagSep(s))
  }

  // ---------------------------------------------------------------------
  // Style detection.

  /** The number of occurrences of the markers of `keys` in `data`. */
  function MarkerCount(data: string, s: TagStyle, keys: seq<string>): nat {
    if keys == [] then 0
    else MarkerCount(data, s, keys[..|keys| - 1]) + Count(data, TagName(keys[|keys| - 1], s))
  }

  function TagCount(data: string, s: TagStyle): nat {
    MarkerCount(data, s, TagKeys)
  }

  /** Python's `max` over the counts in table order: the first maximal one. */
  function Best(c: seq<nat>): (r: nat)
    requires |c| == 3
    ensures r < 3
    ensures forall k :: 0 <= k < 3 ==> c[k] <= c[r]
    ensures forall k :: 0 <= k < r ==> c[k] < c[r]
  {
    if c[0] >= c[1] && c[0] >= c[2] then 0
    else if c[1] >= c[2] then 1
    else 2
  }

  /** The counters of the line scan that decides between the section styles
      when no tag marker occurs. */
  datatype Tally = Tally(groups: nat, google: nat, numpy: nat, sep: nat)

  /** A line that, stripped, is a non-empty run of dashes. */
  predicate IsSepLine(line: string) {
    Strip(line) != "" && InAlone([Repeat('-', |Strip(line)|)], line)
  }

  /** The number of entries of `lists` that `isin_start` accepts for the line. */
  function StartCount(lists: seq<Elems>, line: string): nat {
    if lists == [] then 0
    else StartCount(lists[..|lists| - 1], line) + (if InStart(lists[|lists| - 1], line) then 1 else 0)
  }

  function GroupLists(): seq<Elems> {
    [Many(GroupWords(GParam)), Many(GroupWords(GReturn)), Many(GroupWords(GRaise))]
  }

  /** A section table's values, each matched as a single string. */
  function ValueLists(t: Tools): (r: seq<Elems>)
    ensures |r| == |t.opt| && forall k :: 0 <= k < |r| ==> r[k] == One(t.opt[k].1)
  {
    seq(|t.opt|, k requires 0 <= k < |t.opt| => One(t.opt[k].1))
  }

  /** What one line adds to the counters. */
  function LineTally(line: string): Tally {
    var sep := IsSepLine(line);
    Tally(
      StartCount(GroupLists(), line),
      StartCount(ValueLists(GoogleTools()), line),
      StartCount(ValueLists(NumpyTools()), line)
        + (if !sep && InAny(NumpyKeywords(), line) then 1 else 0),
      if sep then 1 else 0)
  }

  function Add(a: Tally, b: Tally): Tally {
    Tally(a.groups + b.groups, a.google + b.google, a.numpy + b.numpy, a.sep + b.sep)
  }

  function TallyOf(lines: seq<string>): Tally {
    if lines == [] then Tally(0, 0, 0, 0)
    else Add(TallyOf(lines[..|lines| - 1]), LineTally(lines[|lines| - 1]))
  }

  /** The fallback decision. It never answers "unknown": when the Google count
      is below the groups count, the groups count is positive. */
  function Decide(c: Tally): (r: string)
    ensures r == "numpydoc" <==> c.numpy > 0 && c.sep > 0
    ensures r == "google" <==> !(c.numpy > 0 && c.sep > 0) && c.google >= c.groups
    ensures r == "groups" <==> !(c.numpy > 0 && c.sep > 0) && c.google < c.groups
    ensures r != "unknown"
  {
    if c.numpy > 0 && c.sep > 0 then "numpydoc"
    else if c.google >= c.groups then "google"
    else if c.groups > 0 then "groups"
    else "unknown"
  }

  function TagCounts(data: string): (r: seq<nat>)
    ensures |r| == 3 && forall k :: 0 <= k < 3 ==> r[k] == TagCount(data, TagStyles[k])
  {
    [TagCount(data, Javadoc), TagCount(data, ReST), TagCount(data, CStyle)]
  }

  /** `autodetect_style`. */
  function DetectStyle(data: string): string {
    var c := TagCounts(data);
    var b := Best(c);
    if c[b] > 0 then StyleName(TagStyles[b])
    else Decide(TallyOf(SplitLines(Strip(data))))
  }

  /** When a tag marker occurs, the detected style is the tag style with the
      largest count, the first one in table order among equals. */
  lemma DetectTagStyle(data: string, s: TagStyle)
    requires TagCount(data, s) > 0
    ensures StyleOf(DetectStyle(data)).Some?
    ensures var d := StyleOf(DetectStyle(data)).value;
      && (forall t: TagStyle :: TagCount(data, t) <= TagCount(data, d))
      && (forall k, j :: 0 <= k < j < 3 && TagStyles[j] == d ==> TagCount(data, TagStyles[k]) < TagCount(data, d))
  {
    var c := TagCounts(data);
    var b := Best(c);
    assert s == TagStyles[0] || s == TagStyles[1] || s == TagStyles[2];
    assert c[b] > 0;
    var d := TagStyles[b];
    assert StyleOf(StyleName(d)) == Some(d);
    forall t: TagStyle ensures TagCount(data, t) <= TagCount(data, d) {
      assert t == TagStyles[0] || t == TagStyles[1] || t == TagStyles[2];
    }
  }

  /** Without tag markers the detector picks a section style (never
      "unknown"), numpydoc exactly when a numpydoc line and a dash line were
      both counted. */
  lemma DetectSectionStyle(data: string)
    requires forall s: TagStyle :: TagCount(data, s) == 0
    ensures DetectStyle(data) == Decide(TallyOf(SplitLines(Strip(data))))
    ensures DetectStyle(data) in ["numpydoc", "google", "groups"]
  {
    var c := TagCounts(data);
    assert c[Best(c)] == 0 by {
      assert TagStyles[Best(c)] in TagStyles;
    }
  }

  /** The detector never answers "unknown". */
  lemma DetectNeverUnknown(data: string)
    ensures DetectStyle(data) != "unknown"
  {
    var c := TagCounts(data);
    var b := Best(c);
    if c[b] > 0 {
      assert TagStyles[b] in TagStyles;
    }
  }

  /** `DocsTools`: the input and output style names. The section tables are
      the constants `NumpyTools()` and `GoogleTools()`. */
  class DocsTools {
    var styleIn: string
    var styleOut: string

    constructor(styleIn: string, styleOut: string)
      ensures this.styleIn == styleIn && this.styleOut == styleOut
    {
      this.styleIn := styleIn;
      this.styleOut := styleOut;
    }

    method SetInputStyle(style: string)
      modifies this
      ensures styleIn == style && styleOut == old(styleOut)
    {
      styleIn := style;
    }

    /** `get_key`. */
    function GetKey(key: string, target: string): (r: Result<string>)
      reads this
      ensures r == KeyOf(key, Target(styleIn, styleOut, target))
    {
      KeyOf(key, Target(styleIn, styleOut, target))
    }

    /** `get_sep`. */
    function GetSep(key: string, target: string): (r: Result<string>)
      reads this
      ensures r == SepOf(key, Target(styleIn, styleOut, target))
    {
      SepOf(key, Target(styleIn, styleOut, target))
    }

    /** `autodetect_style`: counts the markers of every tag style, and when
        none occurs scans the lines of the stripped text; stores the result
        as the input style. */
    method AutodetectStyle(data: string) returns (detected: string)
      modifies this
      ensures detected == DetectStyle(data)
      ensures styleIn == detected && styleOut == old(styleOut)
    {
      detected := Detect(data);
      styleIn := detected;
    }
  }

  /** The counting part of `autodetect_style`. */
  method Detect(data: string) returns (detected: string)
    ensures detected == DetectStyle(data)
  {
    var counts: seq<nat> := [];
    for si := 0 to 3
      invariant |counts| == si
      invariant forall k :: 0 <= k < si ==> counts[k] == TagCount(data, TagStyles[k])
    {
      var n := CountMarkers(data, TagStyles[si]);
      counts := counts + [n];
    }
    assert counts == TagCounts(data);
    var fkey := Best(counts);
    if counts[fkey] > 0 {
      detected := StyleName(TagStyles[fkey]);
    } else {
      var tally := ScanLines(SplitLines(Strip(data)));
      detected := Decide(tally);
    }
  }

  /** The inner loop of the detector: the summed counts of one style's markers. */
  method CountMarkers(data: string, s: TagStyle) returns (n: nat)
    ensures n == TagCount(data, s)
  {
    n := 0;
    for j := 0 to |TagKeys|
      invariant n == MarkerCount(data, s, TagKeys[..j])
    {
      assert TagKeys[..j + 1][..j] == TagKeys[..j];
      n := n + Count(data, TagName(TagKeys[j], s));
    }
    assert TagKeys[..|TagKeys|] == TagKeys;
  }

  /** The line scan of the detector. */
  method ScanLines(lines: seq<string>) returns (c: Tally)
    ensures c == TallyOf(lines)
  {
    c := Tally(0, 0, 0, 0);
    for i := 0 to |lines|
      invariant c == TallyOf(lines[..i])
    {
      var here := CountLine(lines[i]);
      assert lines[..i + 1][..i] == lines[..i];
      c := Add(c, here);
    }
    assert lines[..|lines|] == lines;
  }

  /** The counters one line of the scan increments. */
  method CountLine(line: string) returns (t: Tally)
    ensures t == LineTally(line)
  {
    var groups := CountStarts(GroupLists(), line);
    var google := CountStarts(ValueLists(GoogleTools()), line);
    var numpy := CountStarts(ValueLists(NumpyTools()), line);
    var sep := 0;
    var stripped := Strip(line);
    var dashes := false;
    if stripped != "" {
      dashes := IsinAlone([Repeat('-', |stripped|)], line);
    }
    if dashes {
      sep := 1;
    } else {
      var kw := Isin(NumpyKeywords(), line);
      if kw {
        numpy := numpy + 1;
      }
    }
    t := Tally(groups, google, numpy, sep);
  }

  /** How many entries of `lists` accept the line, testing each with `isin_start`. */
  method CountStarts(lists: seq<Elems>, line: string) returns (n: nat)
    ensures n == StartCount(lists, line)
  {
    n := 0;
    for k := 0 to |lists|
      invariant n == StartCount(lists[..k], line)
    {
      assert lists[..k + 1][..k] == lists[..k];
      var hit := IsinStart(lists[k], line);
      if hit {
        n := n + 1;
      }
    }
    assert lists[..|lists|] == lists;
  }

  /** A line drawn as a numpydoc separator is, stripped, a non-empty run of dashes. */
  lemma SepLineIsDashes(line: string)
    ensures IsSepLine(line) <==> Strip(line) != "" && forall k :: 0 <= k < |Strip(line)| ==> Strip(line)[k] == '-'
  {
    var t := Strip(line);
    var d := Repeat('-', |t|);
    NormIsLowerStrip(line);
    assert Lower(d) == d;
    assert LowerAll([d]) == [d];
    if Lower(t) == d {
      forall k | 0 <= k < |t| ensures t[k] == '-' {
        assert ToLower(t[k]) == '-';
      }
    }
    if forall k :: 0 <= k < |t| ==> t[k] == '-' {
      assert t == d;
    }
  }

}
