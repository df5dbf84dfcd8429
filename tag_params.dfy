/** The line-by-line parser of tag-style parameters (`__parse_param`,
    `__parse_param_type` and `_extra_tagstyle_elements`): every `param` and
    `type` line opens an element and fills the entry of its parameter in an
    insertion-ordered table; other lines continue the open element's
    description; `return`, `raise` and `rtype` lines close it. */
module TagParams {
  import opened Wrappers
  import opened Text
  import opened Styles

  // ---------------------------------------------------------------------
  // The result table: an insertion-ordered dictionary from parameter names
  // to their entries.

  /** `{'type': ..., 'type_in_param': ..., 'description': ...}`. */
  datatype Entry = Entry(typ: Option<string>, typeInParam: Option<string>, desc: Option<string>)

  /** The entry a newly seen parameter gets. */
  const Fresh: Entry := Entry(None, None, None)

  datatype Item = Item(name: string, entry: Entry)

  type Table = seq<Item>

  function Names(t: Table): (r: seq<string>)
    ensures |r| == |t| && forall k :: 0 <= k < |t| ==> r[k] == t[k].name
  {
    if t == [] then [] else [t[0].name] + Names(t[1..])
  }

  predicate Distinct(names: seq<string>) {
    forall i, j :: 0 <= i < j < |names| ==> names[i] != names[j]
  }

  /** `ret.get(name)`. */
  function Get(t: Table, n: string): (r: Option<Entry>)
    ensures r.Some? <==> n in Names(t)
  {
    if t == [] then None
    else if t[0].name == n then Some(t[0].entry)
    else Get(t[1..], n)
  }

  /** The entry of `n`, a fresh one when `n` is not in the table yet. */
  function Lookup(t: Table, n: string): Entry {
    Get(t, n).GetOr(Fresh)
  }

  /** `ret[n] = e`: the entry of `n` becomes `e` and no other entry
      changes. */
  function Upsert(t: Table, n: string, e: Entry): (r: Table)
    ensures Get(r, n) == Some(e)
    ensures forall m :: m != n ==> Get(r, m) == Get(t, m)
  {
    if t == [] then [Item(n, e)]
    else if t[0].name == n then
      var r := [Item(n, e)] + t[1..];
      assert r[1..] == t[1..];
      r
    else
      var rest := Upsert(t[1..], n, e);
      var r := [t[0]] + rest;
      assert r[1..] == rest && r[0] == t[0];
      r
  }

  /** A known name keeps its place; a new name is appended at the end. */
  lemma {:induction false} UpsertNames(t: Table, n: string, e: Entry)
    ensures n in Names(t) ==> Names(Upsert(t, n, e)) == Names(t)
    ensures n !in Names(t) ==> Names(Upsert(t, n, e)) == Names(t) + [n]
  {
    var r := Upsert(t, n, e);
    if t != [] {
      assert Names(t) == [t[0].name] + Names(t[1..]);
      if t[0].name == n {
        assert r[1..] == t[1..];
        assert Names(r) == [n] + Names(t[1..]);
      } else {
        var rest := Upsert(t[1..], n, e);
        UpsertNames(t[1..], n, e);
        assert r[1..] == rest;
        assert Names(r) == [t[0].name] + Names(rest);
        if n !in Names(t) {
          assert [t[0].name] + (Names(t[1..]) + [n]) == Names(t) + [n];
        }
      }
    }
  }

  lemma UpsertKeepsDistinct(t: Table, n: string, e: Entry)
    requires Distinct(Names(t))
    ensures Distinct(Names(Upsert(t, n, e)))
  {
    UpsertNames(t, n, e);
  }

  // ---------------------------------------------------------------------
  // The parser state.

  /** The `nature` of a `ParsedElement`. */
  datatype Nature = ParamNature | TypeNature | RaiseReturn

  /** A `ParsedElement`; its name is `None` when it could not be read. */
  datatype Element = Element(nature: Nature, name: Option<string>)

  /** The table so far and `current_element` (`None` before the first
      element). */
  datatype State = State(ret: Table, cur: Option<Element>)

  /** A state the parser can reach: the names are distinct and a named open
      element has its entry. */
  predicate Wf(st: State) {
    Distinct(Names(st.ret))
    && (st.cur.Some? && st.cur.value.name.Some? ==> st.cur.value.name.value in Names(st.ret))
  }

  // ---------------------------------------------------------------------
  // `__parse_param` and `__parse_param_type`.

  /** The text after the marker, stripped (markers are removed once). */
  function AfterMarker(striped: string, marker: string): string {
    Strip(ReplaceFirst(striped, marker, ""))
  }

  /** The name and type read from the part before the colon of a param
      line: one token is the name, two are the type and the name, anything
      else yields no name (""). Tokens are the whitespace-separated runs,
      which are never empty, so an empty part also yields no name. */
  function NameAndType(part: string): (r: (string, string))
    ensures var toks := SplitWs(part);
      && (|toks| == 1 ==> r == (toks[0], ""))
      && (|toks| == 2 ==> r == (toks[1], toks[0]))
      && (|toks| != 1 && |toks| != 2 ==> r == ("", ""))
  {
    var toks := SplitWs(part);
    if |toks| == 1 then (toks[0], "")
    else if |toks| == 2 then (toks[1], toks[0])
    else ("", "")
  }

  /** `__parse_param`. */
  function ParseParam(striped: string, marker: string, ret: Table): (r: State)
    ensures var line := AfterMarker(striped, marker);
      var parts := SplitOnce(line, ':');
      var nt := if |parts| == 2 then NameAndType(parts[0]) else ("", "");
      && (nt.0 == "" ==> r == State(ret, Some(Element(ParamNature, None))))
      && (nt.0 != "" ==>
            && r.cur == Some(Element(ParamNature, Some(nt.0)))
            && Get(r.ret, nt.0).Some?
            && r.ret == Upsert(ret, nt.0, Get(r.ret, nt.0).value)
            && Get(r.ret, nt.0).value.typ == Lookup(ret, nt.0).typ
            && Get(r.ret, nt.0).value.typeInParam
               == (if nt.1 != "" then Some(nt.1) else Lookup(ret, nt.0).typeInParam)
            && Get(r.ret, nt.0).value.desc
               == (if parts[1] != "" then Some(Strip(parts[1])) else Lookup(ret, nt.0).desc))
  {
    var line := AfterMarker(striped, marker);
    var parts := SplitOnce(line, ':');
    var nt := if |parts| == 2 then NameAndType(parts[0]) else ("", "");
    if nt.0 == "" then State(ret, Some(Element(ParamNature, None)))
    else
      var e := Lookup(ret, nt.0);
      var e1 := if nt.1 != "" then e.(typeInParam := Some(nt.1)) else e;
      var e2 := if parts[1] != "" then e1.(desc := Some(Strip(parts[1]))) else e1;
      State(Upsert(ret, nt.0, e2), Some(Element(ParamNature, Some(nt.0))))
  }

  /** `__parse_param_type`. */
  function ParseType(striped: string, marker: string, ret: Table): (r: State)
    ensures var line := AfterMarker(striped, marker);
      var parts := SplitOnce(line, ':');
      var name := if |parts| == 2 then Strip(parts[0]) else "";
      && (name == "" ==> r == State(ret, Some(Element(TypeNature, None))))
      && (name != "" ==>
            && r.cur == Some(Element(TypeNature, Some(name)))
            && Get(r.ret, name).Some?
            && r.ret == Upsert(ret, name, Get(r.ret, name).value)
            && Get(r.ret, name).value.typ
               == (if Strip(parts[1]) != "" then Some(Strip(parts[1])) else Lookup(ret, name).typ)
            && Get(r.ret, name).value.typeInParam == Lookup(ret, name).typeInParam
            && Get(r.ret, name).value.desc == Lookup(ret, name).desc)
  {
    var line := AfterMarker(striped, marker);
    var parts := SplitOnce(line, ':');
    var name := if |parts| == 2 then Strip(parts[0]) else "";
    if name == "" then State(ret, Some(Element(TypeNature, None)))
    else
      var e := Lookup(ret, name);
      var ty := Strip(parts[1]);
      var e1 := if ty != "" then e.(typ := Some(ty)) else e;
      State(Upsert(ret, name, e1), Some(Element(TypeNature, Some(name))))
  }

  // ---------------------------------------------------------------------
  // `_extra_tagstyle_elements`: one step per line.

  /** The `return` and `raise` markers without their last character, so that
      the optional plural `s` is not required. */
  function Cut(marker: string): string {
    if marker == [] then [] else marker[..|marker| - 1]
  }

  predicate IsParamLine(s: TagStyle, striped: string) {
    StartsWith(striped, TagName("param", s))
  }

  predicate IsTypeLine(s: TagStyle, striped: string) {
    StartsWith(striped, TagName("type", s))
  }

  predicate IsCloseLine(s: TagStyle, striped: string) {
    StartsWith(striped, Cut(TagName("raise", s)))
    || StartsWith(striped, Cut(TagName("return", s)))
    || StartsWith(striped, TagName("rtype", s))
  }

  /** A line that is none of the markers, checked in the source's order. */
  predicate IsContinuation(s: TagStyle, line: string) {
    var striped := Strip(line);
    !IsParamLine(s, striped) && !IsTypeLine(s, striped) && !IsCloseLine(s, striped)
  }

  /** Appends `"\n" + line` to the description of `n`, `None` counting as "". */
  function AppendDesc(ret: Table, n: string, line: string): Table {
    var e := Lookup(ret, n);
    Upsert(ret, n, e.(desc := Some(e.desc.GetOr("") + "\n" + line)))
  }

  /** The loop body as written: a continuation line after a param or type
      line whose name could not be read looks up `ret[None]`, which raises
      `KeyError`. */
  function StepAsWritten(s: TagStyle, st: State, line: string): (r: Result<State>)
    ensures r.Err? <==>
      (IsContinuation(s, line) && st.cur.Some? && st.cur.value.nature != RaiseReturn
       && st.cur.value.name.None?)
  {
    var striped := Strip(line);
    if IsParamLine(s, striped) then Ok(ParseParam(striped, TagName("param", s), st.ret))
    else if IsTypeLine(s, striped) then Ok(ParseType(striped, TagName("type", s), st.ret))
    else if IsCloseLine(s, striped) then Ok(State(st.ret, Some(Element(RaiseReturn, None))))
    else match st.cur
      case None => Ok(st)
      case Some(el) =>
        if el.nature == RaiseReturn then Ok(st)
        else if el.name.None? then Err("KeyError")
        else Ok(st.(ret := AppendDesc(st.ret, el.name.value, line)))
  }

  /** The loop body as intended: a continuation of an element without a
      name is skipped. */
  function Step(s: TagStyle, st: State, line: string): (r: State)
    ensures StepAsWritten(s, st, line).Ok? ==> r == StepAsWritten(s, st, line).value
    ensures StepAsWritten(s, st, line).Err? ==> r == st
  {
    var striped := Strip(line);
    if IsParamLine(s, striped) then ParseParam(striped, TagName("param", s), st.ret)
    else if IsTypeLine(s, striped) then ParseType(striped, TagName("type", s), st.ret)
    else if IsCloseLine(s, striped) then State(st.ret, Some(Element(RaiseReturn, None)))
    else match st.cur
      case None => st
      case Some(el) =>
        if el.nature == RaiseReturn || el.name.None? then st
        else st.(ret := AppendDesc(st.ret, el.name.value, line))
  }

  const Init: State := State([], None)

  /** The state after the given lines. */
  function Elements(s: TagStyle, lines: seq<string>): State
    decreases |lines|
  {
    if lines == [] then Init
    else Step(s, Elements(s, lines[..|lines| - 1]), lines[|lines| - 1])
  }

  /** The as-written loop: the first `KeyError` ends it. */
  function ElementsAsWritten(s: TagStyle, lines: seq<string>): Result<State>
    decreases |lines|
  {
    if lines == [] then Ok(Init)
    else match ElementsAsWritten(s, lines[..|lines| - 1])
      case Err(m) => Err(m)
      case Ok(st) => StepAsWritten(s, st, lines[|lines| - 1])
  }

  /** `_extra_tagstyle_elements` (corrected): the table built from the lines
      of `data`. */
  method ExtractTagstyleElements(data: string, s: TagStyle) returns (ret: Table)
    ensures ret == Elements(s, SplitLines(data)).ret
    ensures Distinct(Names(ret))
  {
    var lines := SplitLines(data);
    var st := Init;
    for i := 0 to |lines|
      invariant st == Elements(s, lines[..i])
    {
      assert lines[..i + 1][..i] == lines[..i];
      st := Step(s, st, lines[i]);
    }
    assert lines[..|lines|] == lines;
    ElementsWf(s, lines);
    ret := st.ret;
  }

  // ---------------------------------------------------------------------
  // Properties.

  /** A param line as the tag styles write it: the marker, a space, an
      optional type and a space, the name, a colon, a space and the
      description. */
  function ParamLine(marker: string, ty: string, nm: string, desc: string): string {
    marker + " " + ParamBody(ty, nm) + ": " + desc
  }

  function ParamBody(ty: string, nm: string): string {
    if ty == "" then nm else ty + " " + nm
  }

  predicate IsName(w: string) {
    IsWord(w) && ':' !in w
  }

  predicate IsDescription(desc: string) {
    desc != [] && !IsSpace(desc[0]) && !IsSpace(desc[|desc| - 1])
  }

  lemma BodyShape(ty: string, nm: string)
    requires IsName(nm) && (ty == "" || IsName(ty))
    ensures ParamBody(ty, nm) != [] && !IsSpace(ParamBody(ty, nm)[0]) && ':' !in ParamBody(ty, nm)
  {
  }

  /** The param marker of every tag style starts with a non-space. */
  lemma ParamMarkerShape(s: TagStyle)
    ensures TagName("param", s) != [] && !IsSpace(TagName("param", s)[0])
  {
  }

  /** A param line is itself once stripped, is a param line, and leaves the
      body, the colon and the description once its marker is removed. */
  lemma ParamLineAfter(marker: string, ty: string, nm: string, desc: string)
    requires marker != [] && !IsSpace(marker[0])
    requires IsName(nm) && (ty == "" || IsName(ty)) && IsDescription(desc)
    ensures var line := ParamLine(marker, ty, nm, desc);
      && Strip(line) == line
      && StartsWith(line, marker)
      && AfterMarker(line, marker) == ParamBody(ty, nm) + ": " + desc
  {
    var body := ParamBody(ty, nm);
    var line := ParamLine(marker, ty, nm, desc);
    var after := body + ": " + desc;
    BodyShape(ty, nm);
    assert line == marker + (" " + after);
    assert line[0] == marker[0];
    assert line[|line| - 1] == desc[|desc| - 1];
    StripUnchanged(line);
    assert line[..|marker|] == marker;
    ReplacePrefix(line, marker);
    assert line[|marker|..] == " " + after;
    assert after[0] == body[0];
    assert after[|after| - 1] == desc[|desc| - 1];
    StripSpaceBefore(after);
  }

  lemma ColonSpace(x: string, y: string)
    ensures x + ": " + y == x + [':'] + (" " + y)
  {
    assert ": " == [':'] + " ";
  }

  /** A param line with one token before the colon records only the name
      (the type it carried before is kept), one with two tokens records the
      type and the name; the description is the text after the colon. */
  lemma ParseParamLine(s: TagStyle, st: State, ty: string, nm: string, desc: string)
    requires IsName(nm) && (ty == "" || IsName(ty)) && IsDescription(desc)
    ensures var r := Step(s, st, ParamLine(TagName("param", s), ty, nm, desc));
      && r.cur == Some(Element(ParamNature, Some(nm)))
      && Get(r.ret, nm).Some?
      && Get(r.ret, nm).value.desc == Some(desc)
      && Get(r.ret, nm).value.typeInParam
         == (if ty == "" then Lookup(st.ret, nm).typeInParam else Some(ty))
      && Get(r.ret, nm).value.typ == Lookup(st.ret, nm).typ
  {
    var marker := TagName("param", s);
    var line := ParamLine(marker, ty, nm, desc);
    ParamMarkerShape(s);
    ParamLineAfter(marker, ty, nm, desc);
    BodyShape(ty, nm);
    SplitOnceAt(ParamBody(ty, nm), " " + desc, ':');
    ColonSpace(ParamBody(ty, nm), desc);
    if ty == "" {
      SplitWsOne(nm);
    } else {
      SplitWsTwo(ty, nm);
    }
    StripSpaceBefore(desc);
    assert Step(s, st, line) == ParseParam(line, marker, st.ret);
  }

  /** Every step keeps a reachable state reachable. */
  lemma StepWf(s: TagStyle, st: State, line: string)
    requires Wf(st)
    ensures Wf(Step(s, st, line))
  {
    var striped := Strip(line);
    if IsParamLine(s, striped) {
      ParseParamWf(striped, TagName("param", s), st.ret);
    } else if IsTypeLine(s, striped) {
      ParseTypeWf(striped, TagName("type", s), st.ret);
    } else if !IsCloseLine(s, striped) && st.cur.Some? && st.cur.value.nature != RaiseReturn
              && st.cur.value.name.Some? {
      AppendDescWf(st, line);
    }
  }

  lemma ParseParamWf(striped: string, marker: string, ret: Table)
    requires Distinct(Names(ret))
    ensures Wf(ParseParam(striped, marker, ret))
  {
    var r := ParseParam(striped, marker, ret);
    if r.cur.value.name.Some? {
      UpsertKeepsDistinct(ret, r.cur.value.name.value, Get(r.ret, r.cur.value.name.value).value);
    }
  }

  lemma ParseTypeWf(striped: string, marker: string, ret: Table)
    requires Distinct(Names(ret))
    ensures Wf(ParseType(striped, marker, ret))
  {
    var r := ParseType(striped, marker, ret);
    if r.cur.value.name.Some? {
      UpsertKeepsDistinct(ret, r.cur.value.name.value, Get(r.ret, r.cur.value.name.value).value);
    }
  }

  lemma AppendDescWf(st: State, line: string)
    requires Wf(st) && st.cur.Some? && st.cur.value.name.Some?
    ensures Wf(st.(ret := AppendDesc(st.ret, st.cur.value.name.value, line)))
  {
    var n := st.cur.value.name.value;
    var e := Lookup(st.ret, n);
    UpsertKeepsDistinct(st.ret, n, e.(desc := Some(e.desc.GetOr("") + "\n" + line)));
  }

  lemma {:induction false} ElementsWf(s: TagStyle, lines: seq<string>)
    ensures Wf(Elements(s, lines))
    decreases |lines|
  {
    if lines != [] {
      ElementsWf(s, lines[..|lines| - 1]);
      StepWf(s, Elements(s, lines[..|lines| - 1]), lines[|lines| - 1]);
    }
  }

  /** A continuation line appends a newline and the whole (unstripped)
      line to the description of the open named param or type element, and
      changes nothing else. */
  lemma ContinuationAppends(s: TagStyle, st: State, line: string, n: string)
    requires Wf(st) && IsContinuation(s, line)
    requires st.cur.Some? && st.cur.value.nature != RaiseReturn && st.cur.value.name == Some(n)
    ensures Step(s, st, line).cur == st.cur
    ensures Names(Step(s, st, line).ret) == Names(st.ret)
    ensures Get(Step(s, st, line).ret, n).Some?
    ensures Get(Step(s, st, line).ret, n).value
         == Get(st.ret, n).value.(desc := Some(Get(st.ret, n).value.desc.GetOr("") + "\n" + line))
    ensures forall m :: m != n ==> Get(Step(s, st, line).ret, m) == Get(st.ret, m)
  {
    var e := Lookup(st.ret, n);
    UpsertNames(st.ret, n, e.(desc := Some(e.desc.GetOr("") + "\n" + line)));
  }

  /** A `return`, `raise` or `rtype` line closes the open element: the table
      is unchanged, and continuation lines after it change nothing. */
  lemma CloseLineCloses(s: TagStyle, st: State, close: string, more: string)
    requires IsCloseLine(s, Strip(close)) && !IsParamLine(s, Strip(close)) && !IsTypeLine(s, Strip(close))
    requires IsContinuation(s, more)
    ensures Step(s, st, close) == State(st.ret, Some(Element(RaiseReturn, None)))
    ensures Step(s, Step(s, st, close), more) == Step(s, st, close)
  {
  }

  lemma NamelessAfter(marker: string, d: string)
    requires marker != [] && !IsSpace(marker[0]) && IsDescription(d)
    ensures var line := marker + " " + ": " + d;
      && Strip(line) == line && StartsWith(line, marker)
      && AfterMarker(line, marker) == [':'] + (" " + d)
  {
    var after := ": " + d;
    var line := marker + " " + ": " + d;
    Regroup(marker, d);
    assert line[0] == marker[0];
    assert line[|line| - 1] == d[|d| - 1];
    StripUnchanged(line);
    assert line[..|marker|] == marker;
    ReplacePrefix(line, marker);
    assert line[|marker|..] == " " + after;
    assert after[|after| - 1] == d[|d| - 1];
    StripSpaceBefore(after);
    ColonFirst(d);
  }

  lemma Regroup(marker: string, d: string)
    ensures marker + " " + ": " + d == marker + (" " + (": " + d))
  {
  }

  lemma ColonFirst(d: string)
    ensures ": " + d == [':'] + (" " + d)
  {
    assert ": " == [':'] + " ";
  }

  /** A param line with nothing before its colon opens an element without
      a name. */
  lemma NamelessLine(s: TagStyle, d: string)
    requires IsDescription(d)
    ensures var line := TagName("param", s) + " " + ": " + d;
      && Strip(line) == line && IsParamLine(s, line)
      && ParseParam(line, TagName("param", s), []) == State([], Some(Element(ParamNature, None)))
  {
    ParamMarkerShape(s);
    NamelessAfter(TagName("param", s), d);
    assert SplitOnce([':'] + (" " + d), ':') == ["", " " + d];
    assert SplitWs("") == [];
  }

  /** A nameless param line followed by a continuation line: the loop as
      written fails with `KeyError`, the corrected loop skips the
      continuation. */
  lemma NamelessThenContinuation(s: TagStyle, d: string, more: string)
    requires IsDescription(d) && IsContinuation(s, more)
    ensures var first := TagName("param", s) + " " + ": " + d;
      && ElementsAsWritten(s, [first, more]).Err?
      && Elements(s, [first, more]) == State([], Some(Element(ParamNature, None)))
  {
    var first := TagName("param", s) + " " + ": " + d;
    var st1 := State([], Some(Element(ParamNature, None)));
    NamelessLine(s, d);
    assert Step(s, Init, first) == st1;
    assert StepAsWritten(s, Init, first) == Ok(st1);
    SkipNameless(s, st1, more);
    FirstOfTwo(first, more);
    assert Elements(s, [first]) == st1;
    assert ElementsAsWritten(s, [first]) == Ok(st1);
  }

  /** A continuation of an element without a name: `KeyError` as written,
      skipped by the corrected step. */
  lemma SkipNameless(s: TagStyle, st: State, line: string)
    requires IsContinuation(s, line)
    requires st.cur.Some? && st.cur.value.nature != RaiseReturn && st.cur.value.name.None?
    ensures StepAsWritten(s, st, line).Err?
    ensures Step(s, st, line) == st
  {
  }

  lemma FirstOfTwo(a: string, b: string)
    ensures [a, b][..1] == [a] && [a][..0] == []
  {
  }

  /** The input "@param : d" then "more" in javadoc style. */
  lemma NamelessParamCounterexample()
    ensures ElementsAsWritten(Javadoc, ["@param : d", "more"]).Err?
    ensures Elements(Javadoc, ["@param : d", "more"]) == State([], Some(Element(ParamNature, None)))
  {
    MoreIsContinuation();
    assert IsDescription("d");
    assert "@param : d" == TagName("param", Javadoc) + " " + ": " + "d";
    NamelessThenContinuation(Javadoc, "d", "more");
  }

  lemma MoreIsContinuation()
    ensures IsContinuation(Javadoc, "more")
  {
    StripUnchanged("more");
  }

  /** The loop as written and as corrected agree on every input the
      as-written loop completes. */
  lemma {:induction false} AsWrittenAgrees(s: TagStyle, lines: seq<string>)
    ensures ElementsAsWritten(s, lines).Ok? ==> ElementsAsWritten(s, lines).value == Elements(s, lines)
    decreases |lines|
  {
    if lines != [] {
      AsWrittenAgrees(s, lines[..|lines| - 1]);
    }
  }
}
