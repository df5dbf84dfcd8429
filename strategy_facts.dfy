/** Properties of the format strategies: the shape of what each renderer
    writes, and parameter lines written by one dialect's renderer read back
    by the same dialect's parser. */
module StrategyFacts {
  import opened Wrappers
  import opened Text
  import opened Utils
  import opened Styles
  import opened SectionTools
  import opened ListKey
  import TP = TagParams
  import opened Strategy

  // ---------------------------------------------------------------------
  // `with_space`

  /** A one-line text is left as it is: only later lines are prefixed. */
  lemma WithSpaceOneLine(s: string, prefix: string, indentEmpty: bool, keep: bool)
    requires '\n' !in s
    ensures WithSpace(s, prefix, indentEmpty, keep) == s
  {
    if s != [] {
      SplitLinesOne(s);
      assert Indented([s], prefix, indentEmpty, keep) == [s];
    }
  }

  /** A one-line description is rendered stripped, whatever the prefix. */
  lemma OneLineDescription(s: string, prefix: string, indentEmpty: bool, keep: bool)
    requires '\n' !in s && Trimmed(s)
    ensures Strip(WithSpace(s, prefix, indentEmpty, keep)) == s
  {
    WithSpaceOneLine(s, prefix, indentEmpty, keep);
    StripUnchanged(s);
  }

  // ---------------------------------------------------------------------
  // The tag styles

  /** Markers are single-line text. */
  lemma MarkerOneLine(key: string, ts: TagStyle)
    requires '\n' !in key
    ensures '\n' !in TagName(key, ts)
  {
  }

  /** A word holds no line break, since a line break is whitespace. */
  lemma WordOneLine(w: string)
    requires IsWord(w)
    ensures '\n' !in w
  {
  }

  /** The parameter line as the tag styles write it, under the conditions of
      the read-back below. */
  lemma TagParamIsLine(c: Config, sp: string, ts: TagStyle, p: OutParam)
    requires TagSep(ts) == ":"
    requires Strip(WithSpace(p.desc, sp, c.indentEmptyLines, true)) == p.desc
    requires DefaultNote(c, p) == "" && !(c.typeTags && Filled(p.ptype))
    ensures TagParam(c, sp, ts, p) == sp + TagName("param", ts) + " " + p.name + ": " + p.desc + "\n"
  {
    ColonOutSep(ts);
  }

  /** With a colon separator the tag styles write `: ` after a name. */
  lemma ColonOutSep(ts: TagStyle)
    requires TagSep(ts) == ":"
    ensures OutSep(ts) == ": "
  {
  }

  lemma TagLineShape(sp: string, m: string, n: string, d: string)
    ensures sp + m + " " + n + ": " + d + "\n" == (sp + TP.ParamLine(m, "", n, d)) + "\n" + ""
  {
  }

  /** The tag-style parser strips a param line first, so indentation does
      not change what it reads from it. */
  lemma StepIndented(ts: TagStyle, st: TP.State, sp: string, l: string)
    requires AllSpace(sp) && Trimmed(l) && TP.IsParamLine(ts, l)
    ensures TP.Step(ts, st, sp + l) == TP.Step(ts, st, l)
  {
    StripPadded(sp, l, "");
    assert sp + l + "" == sp + l;
    StripUnchanged(l);
  }

  /** A param line holds no line break. */
  lemma ParamLineOneLine(ts: TagStyle, nm: string, desc: string)
    requires TP.IsName(nm) && '\n' !in desc
    ensures '\n' !in TP.ParamLine(TagName("param", ts), "", nm, desc)
  {
    MarkerOneLine("param", ts);
    WordOneLine(nm);
  }

  /** With a colon separator, a parameter with a one-line description, no
      default note and no type line is written as one param line; the
      tag-style parser reads that line back, recording the name with the
      description. */
  lemma TagParamReadBack(c: Config, sp: string, ts: TagStyle, p: OutParam, st: TP.State)
    requires TagSep(ts) == ":" && AllSpace(sp) && '\n' !in sp
    requires TP.IsName(p.name) && Trimmed(p.desc) && '\n' !in p.desc
    requires DefaultNote(c, p) == "" && !(c.typeTags && Filled(p.ptype))
    ensures var line := sp + TP.ParamLine(TagName("param", ts), "", p.name, p.desc);
      && SplitLines(TagParam(c, sp, ts, p)) == [line]
      && var r := TP.Step(ts, st, line);
         && TP.Get(r.ret, p.name).Some?
         && TP.Get(r.ret, p.name).value.desc == Some(p.desc)
  {
    var marker := TagName("param", ts);
    var pl := TP.ParamLine(marker, "", p.name, p.desc);
    OneLineDescription(p.desc, sp, c.indentEmptyLines, true);
    TagParamIsLine(c, sp, ts, p);
    TagLineShape(sp, marker, p.name, p.desc);
    ParamLineOneLine(ts, p.name, p.desc);
    SplitLinesCons(sp + pl, "");
    TP.ParamMarkerShape(ts);
    TP.ParamLineAfter(marker, "", p.name, p.desc);
    StepIndented(ts, st, sp, pl);
    TP.ParseParamLine(ts, st, "", p.name, p.desc);
  }

  /** The type line is written exactly when type tags are on and the
      parameter has a non-empty type. */
  lemma TagTypeLineWritten(c: Config, sp: string, ts: TagStyle, p: OutParam)
    ensures TagTypeLine(c, sp, ts, p) != "" <==> c.typeTags && Filled(p.ptype)
  {
  }

  /** With no return description, a known return type and type tags off,
      the tag styles still write an empty return line, even when empty
      sections are skipped. */
  lemma TypeOnlyReturnLine(c: Config, sp: string, style: string, rd: RetDesc, rtype: Option<string>,
                           ps: seq<OutParam>)
    requires StyleOf(style).Some? && !Truthy(rd) && Filled(rtype) && !c.typeTags
    ensures var ts := StyleOf(style).value;
      TagReturnSection(c, sp, style, rd, rtype, ps)
        == Ok((if ps == [] then "\n" else "") + sp + TagName("return", ts) + OutSep(ts) + "\n")
  {
    var ts := StyleOf(style).value;
    var nl := if ps == [] then "\n" else "";
    assert !(Truthy(rd) && rd.Items?);
    assert TagReturnLine(c, sp, ts, rd, rtype, nl) == nl + sp + TagName("return", ts) + OutSep(ts) + "\n";
    assert TagRtypeLine(c, sp, ts, rtype, nl) == "";
    var line := TagReturnLine(c, sp, ts, rd, rtype, nl);
    assert line + "" == line;
    assert TagReturnSection(c, sp, style, rd, rtype, ps)
      == Ok(TagReturnLine(c, sp, ts, rd, rtype, nl) + TagRtypeLine(c, sp, ts, rtype, nl));
  }

  // ---------------------------------------------------------------------
  // Google

  /** The parameter line as Google writes it, under the conditions of the
      read-back below. */
  lemma GoogleParamIsLine(c: Config, sp: string, p: OutParam)
    requires Trimmed(p.desc) && '\n' !in p.desc && DefaultNote(c, p) == ""
    ensures GoogleParam(c, sp, p) == sp + Indent(c) + p.name + GoogleType(p) + ": " + p.desc + "\n"
  {
    var w := Strip(WithSpace(p.desc, sp, c.indentEmptyLines, false));
    OneLineDescription(p.desc, sp, c.indentEmptyLines, false);
    var head := sp + Indent(c) + p.name + GoogleType(p) + ": ";
    assert GoogleParam(c, sp, p) == head + w + DefaultNote(c, p) + "\n";
    NoNote(head, w, DefaultNote(c, p));
  }

  /** An empty default note adds nothing to a parameter line. */
  lemma NoNote(head: string, desc: string, note: string)
    requires note == ""
    ensures head + desc + note + "\n" == head + desc + "\n"
  {
  }

  lemma GoogleLineShape(a: string, b: string, n: string, t: string, d: string)
    ensures a + b + n + t + ": " + d + "\n" == ((a + b) + (n + t) + ": " + d) + "\n" + ""
  {
  }

  /** The fields of an indented `key: description` line. */
  lemma GoogleHeadOf(pad: string, key: string, desc: string)
    requires AllSpace(pad) && ':' !in pad && Trimmed(key) && ':' !in key && Trimmed(desc)
    ensures ':' in pad + key + ": " + desc
    ensures GoogleHead(pad + key + ": " + desc) == (GoogleSplitKey(key).0, GoogleSplitKey(key).1, desc)
  {
    var x := pad + key;
    assert pad + key + ": " + desc == x + [':'] + (" " + desc);
    assert ':' !in x;
    SplitOnceAt(x, " " + desc, ':');
    StripPadded(pad, key, "");
    assert pad + key + "" == x;
    StripSpaceBefore(desc);
  }

  /** The Google key text of a parameter: its name, then its type in
      parentheses when it has one. */
  lemma GoogleKeyOf(p: OutParam)
    requires TP.IsName(p.name) && '(' !in p.name && ',' !in p.name && ')' !in p.name
    requires Filled(p.ptype) ==> Trimmed(p.ptype.value) && ':' !in p.ptype.value && ',' !in p.ptype.value
                                 && ')' !in p.ptype.value
    ensures var key := p.name + GoogleType(p);
      && Trimmed(key) && ':' !in key
      && GoogleSplitKey(key) == (p.name, if Filled(p.ptype) then p.ptype else None)
  {
    if Filled(p.ptype) {
      var opt := if p.default.Some? then ", optional" else "";
      TypedKeyShape(p.name, p.ptype.value, opt);
      RestsValid(opt);
      TypedKey(p.name, p.ptype.value, opt + ")");
    } else {
      assert p.name + GoogleType(p) == p.name;
    }
  }

  lemma TypedKeyShape(name: string, ty: string, opt: string)
    ensures name + (" (" + ty + opt + ")") == (name + " ") + "(" + ty + (opt + ")")
  {
  }

  /** `name (type...)` splits into the name and the type. */
  lemma TypedKey(name: string, ty: string, rest: string)
    requires TP.IsName(name) && '(' !in name && ',' !in name && ')' !in name
    requires Trimmed(ty) && ':' !in ty && ',' !in ty && ')' !in ty
    requires ValidRest(rest)
    ensures var key := (name + " ") + "(" + ty + rest;
      && Trimmed(key) && ':' !in key
      && GoogleSplitKey(key) == (name, Some(ty))
  {
    TypedKeyTrimmed(name, ty, rest);
    TypedKeyNoColon(name, ty, rest);
    TypedKeySplit(name, ty, rest);
  }

  lemma TypedKeyTrimmed(name: string, ty: string, rest: string)
    requires TP.IsName(name) && ValidRest(rest)
    ensures Trimmed((name + " ") + "(" + ty + rest)
  {
    var key := (name + " ") + "(" + ty + rest;
    assert key[0] == name[0] && !IsSpace(name[0]);
    assert key[|key| - 1] == rest[|rest| - 1] == ')';
    assert !IsSpace(')');
  }

  lemma TypedKeyNoColon(name: string, ty: string, rest: string)
    requires TP.IsName(name) && ':' !in ty && ValidRest(rest)
    ensures ':' !in (name + " ") + "(" + ty + rest
  {
    var n := name + " ";
    assert ':' !in n;
    NotInConcat(n, "(", ':');
    NotInConcat(n + "(", ty, ':');
    NotInConcat(n + "(" + ty, rest, ':');
  }

  lemma TypedKeySplit(name: string, ty: string, rest: string)
    requires TP.IsName(name) && '(' !in name && ',' !in name && ')' !in name
    requires Trimmed(ty) && ',' !in ty && ')' !in ty
    requires ValidRest(rest)
    ensures GoogleSplitKey((name + " ") + "(" + ty + rest) == (name, Some(ty))
  {
    var n := name + " ";
    GoogleTypedKey(n, ty, rest);
    StripPadded("", name, " ");
    assert "" + name + " " == n;
    StripUnchanged(ty);
  }

  lemma NotInConcat(a: string, b: string, x: char)
    requires x !in a && x !in b
    ensures x !in a + b
  {
  }

  /** What follows the type in a Google key: `, optional)` or `)`. */
  predicate ValidRest(rest: string) {
    && rest != [] && rest[|rest| - 1] == ')' && ':' !in rest && ')' in rest
    && (rest[0] == ',' || (rest[0] == ')' && ',' !in rest))
  }

  lemma RestsValid(opt: string)
    requires opt == ", optional" || opt == ""
    ensures ValidRest(opt + ")")
  {
    if opt == "" {
      assert opt + ")" == ")";
    } else {
      assert opt + ")" == ", optional)";
    }
  }

  /** `name (type, optional): description`, read back: a parameter with a
      one-line description and no default note is one line, and the Google
      list parser recovers its name, its description and, when it has one,
      its type. */
  lemma GoogleParamReadBack(c: Config, sp: string, p: OutParam, spaces: string)
    requires AllSpace(sp) && '\n' !in sp && ':' !in sp
    requires TP.IsName(p.name) && '(' !in p.name && ',' !in p.name && ')' !in p.name
    requires Filled(p.ptype) ==> Trimmed(p.ptype.value) && ':' !in p.ptype.value && ',' !in p.ptype.value
                                 && ')' !in p.ptype.value && '\n' !in p.ptype.value
    requires Trimmed(p.desc) && '\n' !in p.desc
    requires DefaultNote(c, p) == ""
    ensures GoogleList(spaces, SplitLines(GoogleParam(c, sp, p)))
      == [Entry(Some(p.name), p.desc, if Filled(p.ptype) then p.ptype else None)]
  {
    var pad := sp + Indent(c);
    var key := p.name + GoogleType(p);
    var line := pad + key + ": " + p.desc;
    GoogleParamIsLine(c, sp, p);
    GoogleLineShape(sp, Indent(c), p.name, GoogleType(p), p.desc);
    GoogleKeyOf(p);
    GoogleHeadOf(pad, key, p.desc);
    WordOneLine(p.name);
    GoogleTypeOneLine(p);
    assert '\n' !in Indent(c);
    NotInConcat(sp, Indent(c), '\n');
    NotInConcat(p.name, GoogleType(p), '\n');
    GoogleLineOf(spaces, pad, key, p.desc);
  }

  lemma GoogleTypeOneLine(p: OutParam)
    requires Filled(p.ptype) ==> '\n' !in p.ptype.value
    ensures '\n' !in GoogleType(p)
  {
    if Filled(p.ptype) {
      var opt := if p.default.Some? then ", optional" else "";
      assert '\n' !in opt;
      NotInConcat(" (", p.ptype.value, '\n');
      NotInConcat(" (" + p.ptype.value, opt, '\n');
      NotInConcat(" (" + p.ptype.value + opt, ")", '\n');
    }
  }

  /** One Google line `pad key: desc` is one element of the list. */
  lemma GoogleLineOf(spaces: string, pad: string, key: string, desc: string)
    requires '\n' !in pad && '\n' !in key && '\n' !in desc
    requires key != [] && !IsSpace(key[0])
    ensures var line := pad + key + ": " + desc;
      var h := GoogleHead(line);
      GoogleList(spaces, SplitLines(line + "\n" + "")) == [Entry(Some(h.0), h.2, h.1)]
  {
    var line := pad + key + ": " + desc;
    NotInConcat(pad, key, '\n');
    NotInConcat(pad + key, ": ", '\n');
    NotInConcat(pad + key + ": ", desc, '\n');
    SplitLinesCons(line, "");
    assert SplitLines("") == [];
    assert line[|pad|] == key[0];
    NotBlankAt(line, |pad|);
    assert line[|pad + key|] == ':';
    GoogleOneLine(spaces, line);
  }

  /** The Google type marker: nothing without a type, otherwise the type in
      parentheses, ending in `, optional)` exactly when there is a default. */
  lemma GoogleTypeShape(p: OutParam)
    ensures GoogleType(p) == "" <==> !Filled(p.ptype)
    ensures Filled(p.ptype) ==>
      StartsWith(GoogleType(p), " (" + p.ptype.value)
      && EndsWith(GoogleType(p), if p.default.Some? then ", optional)" else ")")
  {
    if Filled(p.ptype) {
      var head := " (" + p.ptype.value;
      var tail := if p.default.Some? then ", optional)" else ")";
      assert GoogleType(p) == head + tail;
      assert (head + tail)[..|head|] == head;
      assert (head + tail)[|head + tail| - |tail|..] == tail;
    }
  }

  // ---------------------------------------------------------------------
  // numpydoc

  /** `name : type` and the indented description, read back: the numpydoc
      list parser recovers the name, the type (an empty one when the
      parameter has none) and the description, which keeps the extra
      indentation of the description line. */
  lemma NumpyParamReadBack(c: Config, sp: string, p: OutParam)
    requires AllSpace(sp) && '\n' !in sp && ':' !in sp && c.numOfSpaces > 0
    requires TP.IsName(p.name)
    requires Filled(p.ptype) ==> Trimmed(p.ptype.value) && '\n' !in p.ptype.value
    requires Trimmed(p.desc) && '\n' !in p.desc
    requires DefaultNote(c, p) == ""
    ensures NumpyList(sp, SplitLines(NumpyParam(c, sp, p)))
      == [Entry(Some(p.name), Indent(c) + p.desc, Some(if Filled(p.ptype) then p.ptype.value else ""))]
  {
    var ind := Indent(c);
    var nt := NumpyType(p);
    var l1 := sp + p.name + " :" + nt;
    var l2 := sp + ind + p.desc;
    NumpyParamIsText(c, sp, p);
    NumpyTextShape(sp, p.name, nt, ind, p.desc);
    assert '\n' !in nt && '\n' !in ind;
    WordOneLine(p.name);
    NumpyLinesOf(l1, l2);
    NumpyHeadOf(sp, p.name, nt);
    NumpyTypeText(p);
    NumpyDescOf(sp, ind, p.desc);
    assert l2[|sp + ind|] == p.desc[0];
    NotBlankAt(l2, |sp + ind|);
    NumpyTwoLines(sp, l1, l2);
  }

  /** An element line followed by one deeper, non-blank line is one element
      whose description is that line's continuation text. */
  lemma NumpyTwoLines(sp: string, l1: string, l2: string)
    requires IsBaseLine(sp, l1) && !IsBaseLine(sp, l2) && !IsBlank(l2)
    ensures var h := NumpyHead(l1);
      NumpyList(sp, [l1, l2]) == [Entry(h.0, ContText(sp, l2), h.1)]
  {
    NumpyOneElement(sp, l1, [l2]);
    assert [l1] + [l2] == [l1, l2];
    assert [l2][..0] == [];
    assert ContLines(sp, [l2]) == [ContText(sp, l2)];
  }

  /** The two lines of a numpydoc parameter, under the conditions of the
      read-back above. */
  lemma NumpyParamIsText(c: Config, sp: string, p: OutParam)
    requires Trimmed(p.desc) && '\n' !in p.desc && DefaultNote(c, p) == ""
    ensures NumpyParam(c, sp, p) == sp + p.name + " :" + NumpyType(p) + "\n" + sp + Indent(c) + p.desc + "\n"
  {
    var w := Strip(WithSpace(p.desc, sp + Indent(c), c.indentEmptyLines, false));
    OneLineDescription(p.desc, sp + Indent(c), c.indentEmptyLines, false);
    var head := sp + p.name + " :" + NumpyType(p) + "\n" + sp + Indent(c);
    assert NumpyParam(c, sp, p) == head + w + DefaultNote(c, p) + "\n";
    NoNote(head, w, DefaultNote(c, p));
  }

  lemma NumpyTextShape(sp: string, n: string, t: string, ind: string, d: string)
    ensures sp + n + " :" + t + "\n" + sp + ind + d + "\n"
      == (sp + n + " :" + t) + "\n" + ((sp + ind + d) + "\n" + "")
  {
  }

  lemma NumpyLinesOf(l1: string, l2: string)
    requires '\n' !in l1 && '\n' !in l2
    ensures SplitLines(l1 + "\n" + (l2 + "\n" + "")) == [l1, l2]
  {
    SplitLinesCons(l1, l2 + "\n" + "");
    SplitLinesCons(l2, "");
  }

  /** The type text read back: the type itself, or empty without one. */
  lemma NumpyTypeText(p: OutParam)
    requires Filled(p.ptype) ==> Trimmed(p.ptype.value)
    ensures Strip(NumpyType(p)) == if Filled(p.ptype) then p.ptype.value else ""
  {
    if Filled(p.ptype) {
      StripSpaceBefore(p.ptype.value);
    }
  }

  /** An element line `name :type` at the list's indentation. */
  lemma NumpyHeadOf(sp: string, name: string, nt: string)
    requires AllSpace(sp) && ':' !in sp && TP.IsName(name)
    ensures IsBaseLine(sp, sp + name + " :" + nt)
    ensures NumpyHead(sp + name + " :" + nt) == (Some(name), Some(Strip(nt)))
  {
    NumpyHeadBase(sp, name, nt);
    NumpyHeadFields(sp, name, nt);
  }

  lemma NumpyHeadBase(sp: string, name: string, nt: string)
    requires AllSpace(sp) && TP.IsName(name)
    ensures IsBaseLine(sp, sp + name + " :" + nt)
  {
    var l1 := sp + name + " :" + nt;
    LeadingSpacesOf(sp, name + " :" + nt);
    assert sp + (name + " :" + nt) == l1;
    assert l1[|sp|] == name[0];
    NotBlankAt(l1, |sp|);
  }

  lemma NumpyHeadFields(sp: string, name: string, nt: string)
    requires AllSpace(sp) && ':' !in sp && TP.IsName(name)
    ensures NumpyHead(sp + name + " :" + nt) == (Some(name), Some(Strip(nt)))
  {
    var x := sp + name + " ";
    assert sp + name + " :" + nt == x + [':'] + nt;
    assert ':' !in x;
    SplitOnceAt(x, nt, ':');
    StripPadded(sp, name, " ");
  }

  /** A description line indented deeper than the list loses the list's
      indentation once. */
  lemma NumpyDescOf(sp: string, ind: string, d: string)
    requires AllSpace(sp) && AllSpace(ind) && ind != [] && Trimmed(d)
    ensures !IsBaseLine(sp, sp + ind + d)
    ensures ContText(sp, sp + ind + d) == ind + d
  {
    NumpyDescDeeper(sp, ind, d);
    DropPrefix(sp, ind + d);
    assert sp + ind + d == sp + (ind + d);
    ReplacePrefix(sp + ind + d, sp);
  }

  /** The description line's indentation is the list's and then some. */
  lemma NumpyDescDeeper(sp: string, ind: string, d: string)
    requires AllSpace(sp) && AllSpace(ind) && ind != [] && Trimmed(d)
    ensures |GetLeadingSpaces(sp + ind + d)| > |sp|
  {
    AllSpaceJoin(sp, ind);
    LeadingSpacesOf(sp + ind, d);
  }

  lemma AllSpaceJoin(a: string, b: string)
    requires AllSpace(a) && AllSpace(b)
    ensures AllSpace(a + b)
  {
  }

  lemma DropPrefix(a: string, b: string)
    ensures StartsWith(a + b, a) && (a + b)[|a|..] == b
  {
    assert (a + b)[..|a|] == a;
  }

  /** A single return without a type is written with the placeholder `type`
      on its first line and the description on the second. */
  lemma NumpyPlaceholderType(c: Config, sp: string, s: string, rtype: Option<string>)
    requires !Filled(rtype) && '\n' !in sp && '\n' !in s
    ensures SplitLines(NumpySingleReturn(c, sp, s, rtype)) == [sp + "type", sp + Indent(c) + Strip(s)]
  {
    WithSpaceOneLine(s, sp + Indent(c), c.indentEmptyLines, false);
    NumpyPlaceholderText(c, sp, s, rtype);
    StripKeepsOutChar(s, '\n');
    IndentedOneLine(c, sp, Strip(s));
    NumpyLinesOf(sp + "type", sp + Indent(c) + Strip(s));
  }

  lemma NumpyPlaceholderText(c: Config, sp: string, s: string, rtype: Option<string>)
    requires !Filled(rtype) && WithSpace(s, sp + Indent(c), c.indentEmptyLines, false) == s
    ensures NumpySingleReturn(c, sp, s, rtype) == (sp + "type") + "\n" + ((sp + Indent(c) + Strip(s)) + "\n" + "")
  {
  }

  lemma IndentedOneLine(c: Config, sp: string, t: string)
    requires '\n' !in sp && '\n' !in t
    ensures '\n' !in sp + Indent(c) + t
  {
  }

  /** The numpydoc raises section: with no raises it is empty or a bare line
      break; otherwise it fails exactly when an exception has no name, and
      holds the header and every raise in order when none is unnamed. The
      header is written only when there are raises, since `raise` is an
      optional numpydoc section. */
  lemma NumpyRaisesGate(c: Config, sp: string, rs: seq<RaiseItem>)
    ensures rs == [] ==> NumpyRaisesSection(c, sp, rs) == Ok(if c.skipEmpty then "" else "\n")
    ensures rs != [] ==> (NumpyRaisesSection(c, sp, rs).Err? <==> Unnamed(rs))
    ensures rs != [] && !Unnamed(rs) ==>
      NumpyRaisesSection(c, sp, rs)
        == Ok("\n" + GetKeySectionHeader(NumpyTools(), "raise", sp) + NumpyRaises(c, sp, rs) + "\n")
  {
    NumpyRaiseHeader(rs);
    NumpyRaiseListIs(c, sp, rs);
  }

  /** numpydoc writes the raises header exactly when there are raises. */
  lemma NumpyRaiseHeader(rs: seq<RaiseItem>)
    ensures "raise" !in NumpyTools().excluded
    ensures RaiseHeader(NumpyTools(), rs) <==> rs != []
  {
    var t := NumpyTools();
    NumpyMandatorySections();
    assert t.optional[0] == "raise";
  }

  // ---------------------------------------------------------------------
  // The groups strategy

  /** The groups strategy renders nothing. */
  lemma GroupsRendersNothing(st: FormatStrategy, ps: seq<OutParam>, rd: RetDesc, rtype: Option<string>,
                             rs: seq<RaiseItem>)
    requires st.kind == GroupsKind
    ensures ParamsSection(st, ps) == Ok("")
    ensures ReturnSection(st, rd, rtype, ps) == Ok("")
    ensures RaisesSection(st, rs, ps, rd) == Ok("")
  {
  }
}
