/** The format strategies of the comment builder: one renderer per output
    dialect for the parameters, return and raises sections (numpydoc, Google,
    the tag styles, and "groups", which renders nothing), and the factory
    that picks one from the output style's name. */
module Strategy {
  import opened Wrappers
  import opened Text
  import opened Styles
  import opened SectionTools
  import opened ListKey

  // ---------------------------------------------------------------------
  // The data the renderers read.

  /** The options of the comment builder and its strategies
      (`CommentBuilderConfig`). */
  datatype Config = Config(
    spaces: string,
    quotes: string,
    beforeLim: string,
    numOfSpaces: nat,
    skipEmpty: bool,
    firstLine: bool,
    trailingSpace: string,
    descriptionOnNewLine: bool,
    showDefaultValue: bool,
    indentEmptyLines: bool,
    typeTags: bool,
    outputStyle: string)

  /** One merged parameter `(name, description, type, default)`. */
  datatype OutParam = OutParam(name: string, desc: string, ptype: Option<string>, default: Option<string>)

  /** The return description: none, a text, or a list of
      `(name, description, type)` elements from a section dialect. */
  datatype RetDesc = NoReturn | Text(text: string) | Items(items: seq<Entry>)

  /** One raised exception `(name, description)`. */
  type RaiseItem = (Option<string>, string)

  /** Python truthiness of the return description. */
  predicate Truthy(rd: RetDesc) {
    (rd.Text? && rd.text != "") || (rd.Items? && rd.items != [])
  }

  /** Python truthiness of an optional string. */
  predicate Filled(o: Option<string>) {
    o.Some? && o.value != ""
  }

  function Indent(c: Config): (r: string)
    ensures |r| == c.numOfSpaces && AllSpace(r)
  {
    Repeat(' ', c.numOfSpaces)
  }

  // ---------------------------------------------------------------------
  // `with_space`: the first line is kept, every later line is prefixed.
  // The tag styles keep the line as it is; the section dialects drop its
  // leading whitespace. A blank line becomes empty unless empty lines are
  // indented too.

  function IndentLine(line: string, prefix: string, indentEmpty: bool, keep: bool): string {
    if keep then
      if IsBlank(line) && !indentEmpty then "" else prefix + line
    else
      var stripped := LStrip(line);
      if stripped == "" && !indentEmpty then "" else prefix + stripped
  }

  function Indented(lines: seq<string>, prefix: string, indentEmpty: bool, keep: bool): (r: seq<string>)
    ensures |r| == |lines|
    ensures forall k :: 0 <= k < |r| ==>
      r[k] == (if k == 0 then lines[0] else IndentLine(lines[k], prefix, indentEmpty, keep))
  {
    seq(|lines|, k requires 0 <= k < |lines| =>
      if k == 0 then lines[0] else IndentLine(lines[k], prefix, indentEmpty, keep))
  }

  function WithSpace(s: string, prefix: string, indentEmpty: bool, keep: bool): string {
    Join("\n", Indented(SplitLines(s), prefix, indentEmpty, keep))
  }

  /** One later line of `with_space`. */
  method IndentLineOf(l: string, prefix: string, indentEmpty: bool, keep: bool) returns (line: string)
    ensures line == IndentLine(l, prefix, indentEmpty, keep)
  {
    if keep {
      line := if IsBlank(l) && !indentEmpty then "" else prefix + l;
    } else {
      var stripped := LStrip(l);
      line := if stripped == "" && !indentEmpty then "" else prefix + stripped;
    }
  }

  /** The nested `with_space` helper of the renderers. */
  method WithSpaceOf(s: string, prefix: string, indentEmpty: bool, keep: bool) returns (r: string)
    ensures r == WithSpace(s, prefix, indentEmpty, keep)
  {
    var all := SplitLines(s);
    var lines: seq<string> := [];
    for i := 0 to |all|
      invariant |lines| == i
      invariant forall k :: 0 <= k < i ==> lines[k] == Indented(all, prefix, indentEmpty, keep)[k]
    {
      var line := all[i];
      if i > 0 {
        line := IndentLineOf(all[i], prefix, indentEmpty, keep);
      }
      lines := lines + [line];
    }
    assert lines == Indented(all, prefix, indentEmpty, keep);
    r := Join("\n", lines);
  }

  // ---------------------------------------------------------------------
  // The default value note shared by all parameter renderers.

  /** `(Default value = X)`, appended only when the option is on, a default
      exists and the description does not mention a default; it is preceded
      by a space only when the description is not blank. */
  function DefaultNote(c: Config, p: OutParam): (r: string)
    ensures r != "" <==> c.showDefaultValue && p.default.Some? && !Contains(Lower(p.desc), "default")
    ensures r != "" ==>
      r == (if Strip(p.desc) != "" then " " else "") + "(Default value = " + p.default.value + ")"
  {
    if c.showDefaultValue && !Contains(Lower(p.desc), "default") && p.default.Some? then
      (if Strip(p.desc) != "" then " " else "") + "(Default value = " + p.default.value + ")"
    else ""
  }

  // ---------------------------------------------------------------------
  // numpydoc

  function NumpyType(p: OutParam): string {
    if Filled(p.ptype) then " " + p.ptype.value else ""
  }

  /** `name : type`, then the description indented one level deeper. */
  function NumpyParam(c: Config, sp: string, p: OutParam): string {
    sp + p.name + " :" + NumpyType(p) + "\n"
    + sp + Indent(c) + Strip(WithSpace(p.desc, sp + Indent(c), c.indentEmptyLines, false))
    + DefaultNote(c, p) + "\n"
  }

  function NumpyParams(c: Config, sp: string, ps: seq<OutParam>): string {
    if ps == [] then "" else NumpyParams(c, sp, ps[..|ps| - 1]) + NumpyParam(c, sp, ps[|ps| - 1])
  }

  function NumpyParamsSection(c: Config, sp: string, ps: seq<OutParam>): string {
    if c.skipEmpty && ps == [] then "\n"
    else "\n" + GetKeySectionHeader(NumpyTools(), "param", sp) + NumpyParams(c, sp, ps)
  }

  /** `NumpydocStrategy.format_params_section`. */
  method FormatNumpyParams(c: Config, sp: string, ps: seq<OutParam>) returns (raw: string)
    ensures raw == NumpyParamsSection(c, sp, ps)
  {
    raw := "\n";
    if c.skipEmpty && ps == [] {
      return;
    }
    raw := raw + GetKeySectionHeader(NumpyTools(), "param", sp);
    ghost var head := raw;
    for k := 0 to |ps|
      invariant raw == head + NumpyParams(c, sp, ps[..k])
    {
      var item := NumpyParamOf(c, sp, ps[k]);
      NumpyParamsSnoc(c, sp, ps, k);
      Assoc(head, NumpyParams(c, sp, ps[..k]), item);
      raw := raw + item;
    }
    assert ps[..|ps|] == ps;
  }

  /** The loop body for one parameter. */
  method NumpyParamOf(c: Config, sp: string, p: OutParam) returns (item: string)
    ensures item == NumpyParam(c, sp, p)
  {
    var indent := Indent(c);
    var d := WithSpaceOf(p.desc, sp + indent, c.indentEmptyLines, false);
    item := sp + p.name + " :" + NumpyType(p) + "\n" + sp + indent + Strip(d) + DefaultNote(c, p) + "\n";
  }

  lemma NumpyParamsSnoc(c: Config, sp: string, ps: seq<OutParam>, k: nat)
    requires k < |ps|
    ensures NumpyParams(c, sp, ps[..k + 1]) == NumpyParams(c, sp, ps[..k]) + NumpyParam(c, sp, ps[k])
  {
    assert ps[..k + 1][..k] == ps[..k];
  }

  /** One element of a list of returns: `name : type` (or just the type)
      and the indented description. */
  function NumpyReturnItem(c: Config, sp: string, e: Entry): string {
    sp + (if Filled(e.key) then e.key.value + " : " else "") + e.ptype.GetOr("") + "\n"
    + sp + Indent(c) + Strip(WithSpace(e.desc, sp + Indent(c), c.indentEmptyLines, false)) + "\n"
  }

  function NumpyReturnItems(c: Config, sp: string, es: seq<Entry>): string {
    if es == [] then "" else NumpyReturnItems(c, sp, es[..|es| - 1]) + NumpyReturnItem(c, sp, es[|es| - 1])
  }

  /** The placeholder type of a single numpydoc return. */
  function NumpyReturnType(rtype: Option<string>): string {
    if Filled(rtype) then rtype.value else "type"
  }

  function NumpyReturnSection(c: Config, sp: string, rd: RetDesc, rtype: Option<string>): string {
    if c.skipEmpty && !Truthy(rd) then ""
    else
      var head := "\n" + GetKeySectionHeader(NumpyTools(), "return", sp);
      match rd
      case Items(es) => head + NumpyReturnItems(c, sp, es)
      case Text(s) => head + NumpySingleReturn(c, sp, s, rtype)
      case NoReturn => head
  }

  /** A single return: the type, or the placeholder, then the description. */
  function NumpySingleReturn(c: Config, sp: string, s: string, rtype: Option<string>): string {
    sp + NumpyReturnType(rtype) + "\n"
    + sp + Indent(c) + Strip(WithSpace(s, sp + Indent(c), c.indentEmptyLines, false)) + "\n"
  }

  /** `NumpydocStrategy.format_return_section`. */
  method FormatNumpyReturn(c: Config, sp: string, rd: RetDesc, rtype: Option<string>) returns (raw: string)
    ensures raw == NumpyReturnSection(c, sp, rd, rtype)
  {
    if c.skipEmpty && !Truthy(rd) {
      return "";
    }
    var head := "\n" + GetKeySectionHeader(NumpyTools(), "return", sp);
    match rd {
      case Items(es) =>
        var items := FormatNumpyReturnItems(c, sp, es);
        raw := head + items;
      case Text(s) =>
        var item := NumpySingleReturnOf(c, sp, s, rtype);
        raw := head + item;
      case NoReturn =>
        raw := head;
    }
  }

  /** The loop of `format_return_section` over a list of returns. */
  method FormatNumpyReturnItems(c: Config, sp: string, es: seq<Entry>) returns (raw: string)
    ensures raw == NumpyReturnItems(c, sp, es)
  {
    raw := "";
    for k := 0 to |es|
      invariant raw == NumpyReturnItems(c, sp, es[..k])
    {
      var item := NumpyReturnItemOf(c, sp, es[k]);
      NumpyReturnItemsSnoc(c, sp, es, k);
      raw := raw + item;
    }
    assert es[..|es|] == es;
  }

  method NumpyReturnItemOf(c: Config, sp: string, e: Entry) returns (item: string)
    ensures item == NumpyReturnItem(c, sp, e)
  {
    var indent := Indent(c);
    var d := WithSpaceOf(e.desc, sp + indent, c.indentEmptyLines, false);
    item := sp + (if Filled(e.key) then e.key.value + " : " else "") + e.ptype.GetOr("") + "\n"
      + sp + indent + Strip(d) + "\n";
  }

  method NumpySingleReturnOf(c: Config, sp: string, s: string, rtype: Option<string>) returns (item: string)
    ensures item == NumpySingleReturn(c, sp, s, rtype)
  {
    var indent := Indent(c);
    var t := if Filled(rtype) then rtype.value else "type";
    var d := WithSpaceOf(s, sp + indent, c.indentEmptyLines, false);
    item := sp + t + "\n" + sp + indent + Strip(d) + "\n";
  }

  lemma NumpyReturnItemsSnoc(c: Config, sp: string, es: seq<Entry>, k: nat)
    requires k < |es|
    ensures NumpyReturnItems(c, sp, es[..k + 1]) == NumpyReturnItems(c, sp, es[..k]) + NumpyReturnItem(c, sp, es[k])
  {
    assert es[..k + 1][..k] == es[..k];
  }

  /** Whether a section dialect writes the raises header: `raise` is
      mandatory, or there are raises and `raise` is optional. */
  predicate RaiseHeader(t: Tools, rs: seq<RaiseItem>) {
    "raise" in GetMandatorySections(t) || (rs != [] && "raise" in t.optional)
  }

  predicate Unnamed(rs: seq<RaiseItem>) {
    exists k :: 0 <= k < |rs| && rs[k].0.None?
  }

  function NumpyRaise(c: Config, sp: string, p: RaiseItem): string {
    sp + p.0.GetOr("") + "\n"
    + sp + Indent(c) + Strip(WithSpace(p.1, sp + Indent(c), c.indentEmptyLines, false)) + "\n"
  }

  function NumpyRaises(c: Config, sp: string, rs: seq<RaiseItem>): string {
    if rs == [] then "" else NumpyRaises(c, sp, rs[..|rs| - 1]) + NumpyRaise(c, sp, rs[|rs| - 1])
  }

  /** The raises one after another, or `None` once one has no name. */
  function NumpyRaiseList(c: Config, sp: string, rs: seq<RaiseItem>): Option<string> {
    if rs == [] then Some("")
    else match NumpyRaiseList(c, sp, rs[..|rs| - 1])
      case None => None
      case Some(x) => if rs[|rs| - 1].0.None? then None else Some(x + NumpyRaise(c, sp, rs[|rs| - 1]))
  }

  /** Once the list stops, it stays stopped. */
  lemma {:induction false} NumpyRaiseListStop(c: Config, sp: string, rs: seq<RaiseItem>, n: nat)
    requires 0 < n <= |rs| && NumpyRaiseList(c, sp, rs[..n]).None?
    ensures NumpyRaiseList(c, sp, rs).None?
    decreases |rs| - n
  {
    if n < |rs| {
      assert rs[..n + 1][..n] == rs[..n];
      NumpyRaiseListStop(c, sp, rs, n + 1);
    } else {
      assert rs[..n] == rs;
    }
  }

  /** The list stops exactly when some exception has no name, and otherwise
      holds every raise in order. */
  lemma {:induction false} NumpyRaiseListIs(c: Config, sp: string, rs: seq<RaiseItem>)
    ensures NumpyRaiseList(c, sp, rs).None? <==> Unnamed(rs)
    ensures NumpyRaiseList(c, sp, rs).Some? ==> NumpyRaiseList(c, sp, rs).value == NumpyRaises(c, sp, rs)
  {
    if rs != [] {
      var init := rs[..|rs| - 1];
      NumpyRaiseListIs(c, sp, init);
      assert forall k :: 0 <= k < |init| ==> init[k] == rs[k];
      if Unnamed(init) {
        var k :| 0 <= k < |init| && init[k].0.None?;
        assert rs[k].0.None?;
      }
      if rs[|rs| - 1].0.None? {
        assert Unnamed(rs);
      }
    }
  }

  /** An exception without a name cannot be concatenated: Python's
      `TypeError`. */
  function NumpyRaisesSection(c: Config, sp: string, rs: seq<RaiseItem>): Result<string> {
    var t := NumpyTools();
    if c.skipEmpty && rs == [] then Ok("")
    else if "raise" in t.excluded then Ok("")
    else if !RaiseHeader(t, rs) then Ok("\n")
    else match NumpyRaiseList(c, sp, rs)
      case None => Err("TypeError")
      case Some(x) => Ok("\n" + GetKeySectionHeader(t, "raise", sp) + x + "\n")
  }

  /** `NumpydocStrategy.format_raises_section`. */
  method FormatNumpyRaises(c: Config, sp: string, rs: seq<RaiseItem>) returns (r: Result<string>)
    ensures r == NumpyRaisesSection(c, sp, rs)
  {
    var t := NumpyTools();
    if c.skipEmpty && rs == [] {
      return Ok("");
    }
    if "raise" in t.excluded {
      return Ok("");
    }
    if !RaiseHeader(t, rs) {
      return Ok("\n");
    }
    var items := FormatNumpyRaiseList(c, sp, rs);
    if items.None? {
      return Err("TypeError");
    }
    return Ok("\n" + GetKeySectionHeader(t, "raise", sp) + items.value + "\n");
  }

  /** The loop of `format_raises_section`: it stops at the first exception
      without a name. */
  method FormatNumpyRaiseList(c: Config, sp: string, rs: seq<RaiseItem>) returns (r: Option<string>)
    ensures r == NumpyRaiseList(c, sp, rs)
  {
    var raw := "";
    for k := 0 to |rs|
      invariant NumpyRaiseList(c, sp, rs[..k]) == Some(raw)
    {
      assert rs[..k + 1][..k] == rs[..k];
      if rs[k].0.None? {
        NumpyRaiseListStop(c, sp, rs, k + 1);
        return None;
      }
      var item := NumpyRaiseOf(c, sp, rs[k]);
      raw := raw + item;
    }
    assert rs[..|rs|] == rs;
    return Some(raw);
  }

  method NumpyRaiseOf(c: Config, sp: string, p: RaiseItem) returns (item: string)
    ensures item == NumpyRaise(c, sp, p)
  {
    var indent := Indent(c);
    var d := WithSpaceOf(p.1, sp + indent, c.indentEmptyLines, false);
    item := sp + p.0.GetOr("") + "\n" + sp + indent + Strip(d) + "\n";
  }


  // ---------------------------------------------------------------------
  // Google

  /** ` (type)`, or ` (type, optional)` when there is a default; nothing
      without a type. */
  function GoogleType(p: OutParam): string {
    if Filled(p.ptype) then " (" + p.ptype.value + (if p.default.Some? then ", optional" else "") + ")"
    else ""
  }

  /** `name (type, optional): description`. */
  function GoogleParam(c: Config, sp: string, p: OutParam): string {
    sp + Indent(c) + p.name + GoogleType(p) + ": "
    + Strip(WithSpace(p.desc, sp, c.indentEmptyLines, false)) + DefaultNote(c, p) + "\n"
  }

  function GoogleParams(c: Config, sp: string, ps: seq<OutParam>): string {
    if ps == [] then "" else GoogleParams(c, sp, ps[..|ps| - 1]) + GoogleParam(c, sp, ps[|ps| - 1])
  }

  function GoogleParamsSection(c: Config, sp: string, ps: seq<OutParam>): string {
    if c.skipEmpty && ps == [] then "\n"
    else "\n" + GetKeySectionHeader(GoogleTools(), "param", sp) + GoogleParams(c, sp, ps)
  }

  /** `GoogleStrategy.format_params_section`. */
  method FormatGoogleParams(c: Config, sp: string, ps: seq<OutParam>) returns (raw: string)
    ensures raw == GoogleParamsSection(c, sp, ps)
  {
    raw := "\n";
    if c.skipEmpty && ps == [] {
      return;
    }
    raw := raw + GetKeySectionHeader(GoogleTools(), "param", sp);
    ghost var head := raw;
    for k := 0 to |ps|
      invariant raw == head + GoogleParams(c, sp, ps[..k])
    {
      var item := GoogleParamOf(c, sp, ps[k]);
      GoogleParamsSnoc(c, sp, ps, k);
      Assoc(head, GoogleParams(c, sp, ps[..k]), item);
      raw := raw + item;
    }
    assert ps[..|ps|] == ps;
  }

  lemma GoogleParamsSnoc(c: Config, sp: string, ps: seq<OutParam>, k: nat)
    requires k < |ps|
    ensures GoogleParams(c, sp, ps[..k + 1]) == GoogleParams(c, sp, ps[..k]) + GoogleParam(c, sp, ps[k])
  {
    assert ps[..k + 1][..k] == ps[..k];
  }

  /** The loop body for one parameter. */
  method GoogleParamOf(c: Config, sp: string, p: OutParam) returns (item: string)
    ensures item == GoogleParam(c, sp, p)
  {
    var d := WithSpaceOf(p.desc, sp, c.indentEmptyLines, false);
    item := sp + Indent(c) + p.name + GoogleType(p) + ": " + Strip(d) + DefaultNote(c, p) + "\n";
  }

  function GoogleReturnItem(c: Config, sp: string, e: Entry): string {
    sp + Indent(c) + e.ptype.GetOr("") + ": "
    + Strip(WithSpace(e.desc, sp + Indent(c), c.indentEmptyLines, false)) + "\n"
  }

  function GoogleReturnItems(c: Config, sp: string, es: seq<Entry>): string {
    if es == [] then "" else GoogleReturnItems(c, sp, es[..|es| - 1]) + GoogleReturnItem(c, sp, es[|es| - 1])
  }

  function GoogleReturnSection(c: Config, sp: string, rd: RetDesc, rtype: Option<string>): string {
    if c.skipEmpty && !Truthy(rd) then ""
    else
      var head := "\n" + GetKeySectionHeader(GoogleTools(), "return", sp);
      match rd
      case Items(es) => head + GoogleReturnItems(c, sp, es)
      case Text(s) => head + GoogleSingleReturn(c, sp, s, rtype)
      case NoReturn => head
  }

  /** A single return: `type: description`, or the description alone. */
  function GoogleSingleReturn(c: Config, sp: string, s: string, rtype: Option<string>): string {
    sp + Indent(c) + (if Filled(rtype) then rtype.value + ": " else "")
    + Strip(WithSpace(s, sp + Indent(c), c.indentEmptyLines, false)) + "\n"
  }

  /** `GoogleStrategy.format_return_section`. */
  method FormatGoogleReturn(c: Config, sp: string, rd: RetDesc, rtype: Option<string>) returns (raw: string)
    ensures raw == GoogleReturnSection(c, sp, rd, rtype)
  {
    if c.skipEmpty && !Truthy(rd) {
      return "";
    }
    var head := "\n" + GetKeySectionHeader(GoogleTools(), "return", sp);
    match rd {
      case Items(es) =>
        var items := FormatGoogleReturnItems(c, sp, es);
        raw := head + items;
      case Text(s) =>
        var item := GoogleSingleReturnOf(c, sp, s, rtype);
        raw := head + item;
      case NoReturn =>
        raw := head;
    }
  }

  /** The loop of `format_return_section` over a list of returns. */
  method FormatGoogleReturnItems(c: Config, sp: string, es: seq<Entry>) returns (raw: string)
    ensures raw == GoogleReturnItems(c, sp, es)
  {
    raw := "";
    for k := 0 to |es|
      invariant raw == GoogleReturnItems(c, sp, es[..k])
    {
      var item := GoogleReturnItemOf(c, sp, es[k]);
      GoogleReturnItemsSnoc(c, sp, es, k);
      raw := raw + item;
    }
    assert es[..|es|] == es;
  }

  method GoogleReturnItemOf(c: Config, sp: string, e: Entry) returns (item: string)
    ensures item == GoogleReturnItem(c, sp, e)
  {
    var indent := Indent(c);
    var d := WithSpaceOf(e.desc, sp + indent, c.indentEmptyLines, false);
    item := sp + indent + e.ptype.GetOr("") + ": " + Strip(d) + "\n";
  }

  method GoogleSingleReturnOf(c: Config, sp: string, s: string, rtype: Option<string>) returns (item: string)
    ensures item == GoogleSingleReturn(c, sp, s, rtype)
  {
    var indent := Indent(c);
    var d := WithSpaceOf(s, sp + indent, c.indentEmptyLines, false);
    item := sp + indent + (if Filled(rtype) then rtype.value + ": " else "") + Strip(d) + "\n";
  }

  lemma GoogleReturnItemsSnoc(c: Config, sp: string, es: seq<Entry>, k: nat)
    requires k < |es|
    ensures GoogleReturnItems(c, sp, es[..k + 1]) == GoogleReturnItems(c, sp, es[..k]) + GoogleReturnItem(c, sp, es[k])
  {
    assert es[..k + 1][..k] == es[..k];
  }

  function GoogleRaise(c: Config, sp: string, p: RaiseItem): string {
    sp + Indent(c) + (if p.0.Some? then p.0.value + ": " else "") + (if p.1 != "" then Strip(p.1) else "") + "\n"
  }

  function GoogleRaises(c: Config, sp: string, rs: seq<RaiseItem>): string {
    if rs == [] then "" else GoogleRaises(c, sp, rs[..|rs| - 1]) + GoogleRaise(c, sp, rs[|rs| - 1])
  }

  function GoogleRaisesSection(c: Config, sp: string, rs: seq<RaiseItem>): string {
    var t := GoogleTools();
    if c.skipEmpty && rs == [] then ""
    else if "raise" in t.excluded then ""
    else if !RaiseHeader(t, rs) then "\n"
    else "\n" + GetKeySectionHeader(t, "raise", sp) + GoogleRaises(c, sp, rs) + "\n"
  }

  /** `GoogleStrategy.format_raises_section`. */
  method FormatGoogleRaises(c: Config, sp: string, rs: seq<RaiseItem>) returns (raw: string)
    ensures raw == GoogleRaisesSection(c, sp, rs)
  {
    var t := GoogleTools();
    if c.skipEmpty && rs == [] {
      return "";
    }
    if "raise" in t.excluded {
      return "";
    }
    if !RaiseHeader(t, rs) {
      return "\n";
    }
    var items := FormatGoogleRaiseList(c, sp, rs);
    raw := "\n" + GetKeySectionHeader(t, "raise", sp) + items + "\n";
  }

  /** The loop of `format_raises_section`. */
  method FormatGoogleRaiseList(c: Config, sp: string, rs: seq<RaiseItem>) returns (raw: string)
    ensures raw == GoogleRaises(c, sp, rs)
  {
    raw := "";
    for k := 0 to |rs|
      invariant raw == GoogleRaises(c, sp, rs[..k])
    {
      var item := GoogleRaiseOf(c, sp, rs[k]);
      GoogleRaisesSnoc(c, sp, rs, k);
      raw := raw + item;
    }
    assert rs[..|rs|] == rs;
  }

  method GoogleRaiseOf(c: Config, sp: string, p: RaiseItem) returns (item: string)
    ensures item == GoogleRaise(c, sp, p)
  {
    item := sp + Indent(c) + (if p.0.Some? then p.0.value + ": " else "")
      + (if p.1 != "" then Strip(p.1) else "") + "\n";
  }

  lemma GoogleRaisesSnoc(c: Config, sp: string, rs: seq<RaiseItem>, k: nat)
    requires k < |rs|
    ensures GoogleRaises(c, sp, rs[..k + 1]) == GoogleRaises(c, sp, rs[..k]) + GoogleRaise(c, sp, rs[k])
  {
    assert rs[..k + 1][..k] == rs[..k];
  }

  // ---------------------------------------------------------------------
  // The tag styles (javadoc, reST, `\param`). The markers and the separator
  // come from the output style; an output style missing from the tag table
  // is Python's `KeyError`.

  /** The output separator: one space is added unless it is a space. */
  function OutSep(ts: TagStyle): string {
    var s := TagSep(ts);
    if s != " " then s + " " else s
  }

  /** The type line of a parameter, written only with type tags on and a
      non-empty type. */
  function TagTypeLine(c: Config, sp: string, ts: TagStyle, p: OutParam): string {
    if c.typeTags && Filled(p.ptype) then
      "\n" + sp + TagName("type", ts) + " " + p.name + OutSep(ts) + p.ptype.value
    else ""
  }

  /** `:param name: description`, the default note, and the type line. */
  function TagParam(c: Config, sp: string, ts: TagStyle, p: OutParam): string {
    sp + TagName("param", ts) + " " + p.name + OutSep(ts)
    + Strip(WithSpace(p.desc, sp, c.indentEmptyLines, true)) + DefaultNote(c, p)
    + TagTypeLine(c, sp, ts, p) + "\n"
  }

  function TagParams(c: Config, sp: string, ts: TagStyle, ps: seq<OutParam>): string {
    if ps == [] then "" else TagParams(c, sp, ts, ps[..|ps| - 1]) + TagParam(c, sp, ts, ps[|ps| - 1])
  }

  function TagParamsSection(c: Config, sp: string, style: string, ps: seq<OutParam>): Result<string> {
    if c.skipEmpty && ps == [] then Ok("\n")
    else match StyleOf(style)
      case None => Err("KeyError")
      case Some(ts) => Ok("\n" + TagParams(c, sp, ts, ps))
  }

  /** `DefaultStrategy.format_params_section`. */
  method FormatTagParams(c: Config, sp: string, style: string, ps: seq<OutParam>) returns (r: Result<string>)
    ensures r == TagParamsSection(c, sp, style, ps)
  {
    var raw := "\n";
    if c.skipEmpty && ps == [] {
      return Ok(raw);
    }
    var found := StyleOf(style);
    if found.None? {
      return Err("KeyError");
    }
    var ts := found.value;
    ghost var head := raw;
    for k := 0 to |ps|
      invariant raw == head + TagParams(c, sp, ts, ps[..k])
    {
      var item := TagParamOf(c, sp, ts, ps[k]);
      TagParamsSnoc(c, sp, ts, ps, k);
      Assoc(head, TagParams(c, sp, ts, ps[..k]), item);
      raw := raw + item;
    }
    assert ps[..|ps|] == ps;
    return Ok(raw);
  }

  method TagParamOf(c: Config, sp: string, ts: TagStyle, p: OutParam) returns (item: string)
    ensures item == TagParam(c, sp, ts, p)
  {
    var sep := OutSep(ts);
    var d := WithSpaceOf(p.desc, sp, c.indentEmptyLines, true);
    item := sp + TagName("param", ts) + " " + p.name + sep + Strip(d) + DefaultNote(c, p)
      + TagTypeLine(c, sp, ts, p) + "\n";
  }

  lemma TagParamsSnoc(c: Config, sp: string, ts: TagStyle, ps: seq<OutParam>, k: nat)
    requires k < |ps|
    ensures TagParams(c, sp, ts, ps[..k + 1]) == TagParams(c, sp, ts, ps[..k]) + TagParam(c, sp, ts, ps[k])
  {
    assert ps[..k + 1][..k] == ps[..k];
  }

  /** The return line: with a description, or empty when only a return type
      is known and type tags are off. */
  function TagReturnLine(c: Config, sp: string, ts: TagStyle, rd: RetDesc, rtype: Option<string>, nl: string): string
    requires !(Truthy(rd) && rd.Items?)
  {
    if Truthy(rd) then
      nl + sp + TagName("return", ts) + OutSep(ts)
      + Strip(WithSpace(RStrip(rd.text), sp, c.indentEmptyLines, true)) + "\n"
    else if Filled(rtype) && !c.typeTags then
      nl + sp + TagName("return", ts) + OutSep(ts) + "\n"
    else ""
  }

  function TagRtypeLine(c: Config, sp: string, ts: TagStyle, rtype: Option<string>, nl: string): string {
    if c.typeTags && Filled(rtype) then nl + sp + TagName("rtype", ts) + OutSep(ts) + RStrip(rtype.value) + "\n"
    else ""
  }

  /** `DefaultStrategy.format_return_section`. Under `skip_empty` the section
      is still written when a return type is known and type tags are off. A
      list of returns has no `rstrip`: Python's `AttributeError`. */
  function TagReturnSection(c: Config, sp: string, style: string, rd: RetDesc, rtype: Option<string>,
                            ps: seq<OutParam>): Result<string>
  {
    if c.skipEmpty && !Truthy(rd) && !(Filled(rtype) && !c.typeTags) then Ok("")
    else match StyleOf(style)
      case None => Err("KeyError")
      case Some(ts) =>
        if Truthy(rd) && rd.Items? then Err("AttributeError")
        else
          var nl := if ps == [] then "\n" else "";
          Ok(TagReturnLine(c, sp, ts, rd, rtype, nl) + TagRtypeLine(c, sp, ts, rtype, nl))
  }

  function TagRaise(c: Config, sp: string, ts: TagStyle, p: RaiseItem): string {
    sp + TagName("raise", ts) + " " + (if p.0.Some? then p.0.value + OutSep(ts) else "")
    + (if p.1 != "" then Strip(WithSpace(p.1, sp, c.indentEmptyLines, true)) else "") + "\n"
  }

  function TagRaises(c: Config, sp: string, ts: TagStyle, rs: seq<RaiseItem>): string {
    if rs == [] then "" else TagRaises(c, sp, ts, rs[..|rs| - 1]) + TagRaise(c, sp, ts, rs[|rs| - 1])
  }

  function TagRaisesSection(c: Config, sp: string, style: string, rs: seq<RaiseItem>,
                            ps: seq<OutParam>, rd: RetDesc): Result<string>
  {
    if c.skipEmpty && rs == [] then Ok("")
    else match StyleOf(style)
      case None => Err("KeyError")
      case Some(ts) =>
        var lead := if rs != [] && ps == [] && !Truthy(rd) then "\n" else "";
        Ok(lead + TagRaises(c, sp, ts, rs) + "\n")
  }

  /** `DefaultStrategy.format_raises_section`. */
  method FormatTagRaises(c: Config, sp: string, style: string, rs: seq<RaiseItem>,
                         ps: seq<OutParam>, rd: RetDesc) returns (r: Result<string>)
    ensures r == TagRaisesSection(c, sp, style, rs, ps, rd)
  {
    if c.skipEmpty && rs == [] {
      return Ok("");
    }
    var found := StyleOf(style);
    if found.None? {
      return Err("KeyError");
    }
    var ts := found.value;
    var lead := if rs != [] && ps == [] && !Truthy(rd) then "\n" else "";
    var items := FormatTagRaiseList(c, sp, ts, rs);
    return Ok(lead + items + "\n");
  }

  /** The loop of `format_raises_section`. */
  method FormatTagRaiseList(c: Config, sp: string, ts: TagStyle, rs: seq<RaiseItem>) returns (raw: string)
    ensures raw == TagRaises(c, sp, ts, rs)
  {
    raw := "";
    for k := 0 to |rs|
      invariant raw == TagRaises(c, sp, ts, rs[..k])
    {
      var item := TagRaiseOf(c, sp, ts, rs[k]);
      TagRaisesSnoc(c, sp, ts, rs, k);
      raw := raw + item;
    }
    assert rs[..|rs|] == rs;
  }

  method TagRaiseOf(c: Config, sp: string, ts: TagStyle, p: RaiseItem) returns (item: string)
    ensures item == TagRaise(c, sp, ts, p)
  {
    var sep := OutSep(ts);
    item := sp + TagName("raise", ts) + " " + (if p.0.Some? then p.0.value + sep else "");
    if p.1 != "" {
      var d := WithSpaceOf(p.1, sp, c.indentEmptyLines, true);
      item := item + Strip(d);
    }
    item := item + "\n";
  }

  lemma TagRaisesSnoc(c: Config, sp: string, ts: TagStyle, rs: seq<RaiseItem>, k: nat)
    requires k < |rs|
    ensures TagRaises(c, sp, ts, rs[..k + 1]) == TagRaises(c, sp, ts, rs[..k]) + TagRaise(c, sp, ts, rs[k])
  {
    assert rs[..k + 1][..k] == rs[..k];
  }

  // ---------------------------------------------------------------------
  // The strategies and the factory.

  datatype Kind = NumpyKind | GoogleKind | GroupsKind | TagKind(style: string)

  /** A strategy: its dialect, the builder options and the indentation of
      the documented element. */
  datatype FormatStrategy = FormatStrategy(kind: Kind, config: Config, spaces: string)

  /** `create_strategy`: numpydoc, Google and groups by name; every other
      name gets the tag-style renderer for that output style. */
  function CreateStrategy(styleName: string, config: Config, spaces: string): (r: FormatStrategy)
    ensures r.config == config && r.spaces == spaces
    ensures r.kind == NumpyKind <==> styleName == "numpydoc"
    ensures r.kind == GoogleKind <==> styleName == "google"
    ensures r.kind == GroupsKind <==> styleName == "groups"
    ensures r.kind.TagKind? <==> styleName != "numpydoc" && styleName != "google" && styleName != "groups"
    ensures r.kind.TagKind? ==> r.kind.style == styleName
  {
    if styleName == "numpydoc" then FormatStrategy(NumpyKind, config, spaces)
    else if styleName == "google" then FormatStrategy(GoogleKind, config, spaces)
    else if styleName == "groups" then FormatStrategy(GroupsKind, config, spaces)
    else FormatStrategy(TagKind(styleName), config, spaces)
  }

  /** `get_key_section_header`: only the section dialects have headers. */
  function KeySectionHeader(st: FormatStrategy, key: string, spaces: string): (r: string)
    ensures st.kind == NumpyKind ==> r == GetKeySectionHeader(NumpyTools(), key, spaces)
    ensures st.kind == GoogleKind ==> r == GetKeySectionHeader(GoogleTools(), key, spaces)
    ensures st.kind.TagKind? || st.kind == GroupsKind ==> r == ""
  {
    match st.kind
    case NumpyKind => GetKeySectionHeader(NumpyTools(), key, spaces)
    case GoogleKind => GetKeySectionHeader(GoogleTools(), key, spaces)
    case _ => ""
  }

  /** The excluded, mandatory and optional sections: those of the dialect's
      tables, none for the tag styles and groups. */
  function ExcludedSections(st: FormatStrategy): (r: seq<string>)
    ensures st.kind.TagKind? || st.kind == GroupsKind ==> r == []
  {
    match st.kind
    case NumpyKind => NumpyTools().excluded
    case GoogleKind => GoogleTools().excluded
    case _ => []
  }

  function MandatorySections(st: FormatStrategy): (r: seq<string>)
    ensures st.kind.TagKind? || st.kind == GroupsKind ==> r == []
  {
    match st.kind
    case NumpyKind => GetMandatorySections(NumpyTools())
    case GoogleKind => GetMandatorySections(GoogleTools())
    case _ => []
  }

  function OptionalSections(st: FormatStrategy): (r: seq<string>)
    ensures st.kind.TagKind? || st.kind == GroupsKind ==> r == []
  {
    match st.kind
    case NumpyKind => NumpyTools().optional
    case GoogleKind => GoogleTools().optional
    case _ => []
  }

  function ParamsSection(st: FormatStrategy, ps: seq<OutParam>): Result<string> {
    match st.kind
    case NumpyKind => Ok(NumpyParamsSection(st.config, st.spaces, ps))
    case GoogleKind => Ok(GoogleParamsSection(st.config, st.spaces, ps))
    case GroupsKind => Ok("")
    case TagKind(style) => TagParamsSection(st.config, st.spaces, style, ps)
  }

  function ReturnSection(st: FormatStrategy, rd: RetDesc, rtype: Option<string>, ps: seq<OutParam>): Result<string> {
    match st.kind
    case NumpyKind => Ok(NumpyReturnSection(st.config, st.spaces, rd, rtype))
    case GoogleKind => Ok(GoogleReturnSection(st.config, st.spaces, rd, rtype))
    case GroupsKind => Ok("")
    case TagKind(style) => TagReturnSection(st.config, st.spaces, style, rd, rtype, ps)
  }

  function RaisesSection(st: FormatStrategy, rs: seq<RaiseItem>, ps: seq<OutParam>, rd: RetDesc): Result<string> {
    match st.kind
    case NumpyKind => NumpyRaisesSection(st.config, st.spaces, rs)
    case GoogleKind => Ok(GoogleRaisesSection(st.config, st.spaces, rs))
    case GroupsKind => Ok("")
    case TagKind(style) => TagRaisesSection(st.config, st.spaces, style, rs, ps, rd)
  }

  /** `format_params_section` of the strategy. */
  method FormatParamsSection(st: FormatStrategy, ps: seq<OutParam>) returns (r: Result<string>)
    ensures r == ParamsSection(st, ps)
  {
    match st.kind {
      case NumpyKind =>
        var s := FormatNumpyParams(st.config, st.spaces, ps);
        r := Ok(s);
      case GoogleKind =>
        var s := FormatGoogleParams(st.config, st.spaces, ps);
        r := Ok(s);
      case GroupsKind =>
        r := Ok("");
      case TagKind(style) =>
        r := FormatTagParams(st.config, st.spaces, style, ps);
    }
  }

  /** `format_return_section` of the strategy. */
  method FormatReturnSection(st: FormatStrategy, rd: RetDesc, rtype: Option<string>, ps: seq<OutParam>)
    returns (r: Result<string>)
    ensures r == ReturnSection(st, rd, rtype, ps)
  {
    match st.kind {
      case NumpyKind =>
        var s := FormatNumpyReturn(st.config, st.spaces, rd, rtype);
        r := Ok(s);
      case GoogleKind =>
        var s := FormatGoogleReturn(st.config, st.spaces, rd, rtype);
        r := Ok(s);
      case GroupsKind =>
        r := Ok("");
      case TagKind(style) =>
        r := TagReturnSection(st.config, st.spaces, style, rd, rtype, ps);
    }
  }

  /** `format_raises_section` of the strategy. */
  method FormatRaisesSection(st: FormatStrategy, rs: seq<RaiseItem>, ps: seq<OutParam>, rd: RetDesc)
    returns (r: Result<string>)
    ensures r == RaisesSection(st, rs, ps, rd)
  {
    match st.kind {
      case NumpyKind =>
        r := FormatNumpyRaises(st.config, st.spaces, rs);
      case GoogleKind =>
        var s := FormatGoogleRaises(st.config, st.spaces, rs);
        r := Ok(s);
      case GroupsKind =>
        r := Ok("");
      case TagKind(style) =>
        r := FormatTagRaises(st.config, st.spaces, style, rs, ps, rd);
    }
  }
}
