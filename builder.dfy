/** The comment builder: it assembles a docstring from the description,
    the parameters, return and raises sections its format strategy renders,
    the post text and the doctests. The function, class and module builders
    differ only in how a name becomes a description and in the one-line
    layout that auto-named classes get. */
module Builder {
  import opened Wrappers
  import opened Text
  import opened Strategy
  import Names

  /** Which builder: `FunctionCommentBuilder`, `ClassCommentBuilder` or
      `ModuleCommentBuilder`. */
  datatype BuilderKind = FunctionBuilder | ClassBuilder | ModuleBuilder

  /** The data the setters fill, as `build` reads it. */
  datatype Parts = Parts(
    description: string,
    params: seq<OutParam>,
    returnDesc: RetDesc,
    returnType: Option<string>,
    raises: seq<RaiseItem>,
    post: string,
    doctests: string,
    elementName: Option<string>,
    inputRaw: Option<string>,
    isAutoGeneratedName: bool,
    hasExistingDescription: bool)

  /** `_should_use_one_line_format_with_spaces`: the base builder says no,
      the class builder yes, whatever its state. */
  function OneLineWithSpaces(kind: BuilderKind): (r: bool)
    ensures r <==> kind == ClassBuilder
  {
    match kind
    case ClassBuilder => true
    case _ => false
  }

  /** `_has_sections`: any of the parameters, the return description, the
      return type or the raises is truthy. */
  predicate HasSections(p: Parts) {
    p.params != [] || Truthy(p.returnDesc) || Filled(p.returnType) || p.raises != []
  }

  // ---------------------------------------------------------------------
  // `_with_space`: every line but the first gets the element's spaces.

  function LaterPrefixed(lines: seq<string>, spaces: string): (r: seq<string>)
    ensures |r| == |lines|
    ensures forall k :: 0 <= k < |r| ==> r[k] == (if k == 0 then lines[0] else spaces + lines[k])
  {
    seq(|lines|, k requires 0 <= k < |lines| => if k == 0 then lines[0] else spaces + lines[k])
  }

  function WithSpaces(text: string, spaces: string): string {
    Join("\n", LaterPrefixed(SplitLines(text), spaces))
  }

  /** Read back line by line, `_with_space` keeps the first line, prefixes
      every later one and keeps the number of lines. */
  lemma WithSpacesLines(text: string, spaces: string)
    requires '\n' !in spaces
    requires text == [] || text[|text| - 1] != '\n'
    ensures SplitLines(WithSpaces(text, spaces)) == LaterPrefixed(SplitLines(text), spaces)
  {
    var lines := SplitLines(text);
    var out := LaterPrefixed(lines, spaces);
    if text != [] {
      SplitLinesLast(text);
      assert out[|out| - 1] != [];
    }
    forall k | 0 <= k < |out|
      ensures '\n' !in out[k]
    {
      if k > 0 {
        assert out[k] == spaces + lines[k];
      }
    }
    JoinLines(out);
  }

  // ---------------------------------------------------------------------
  // The pieces of `build`.

  /** `_build_docstring_start`. */
  function DocstringStart(c: Config): string {
    c.spaces + c.beforeLim + c.quotes
  }

  /** `_build_single_line_docstring`. */
  function SingleLineDocstring(c: Config, kind: BuilderKind, p: Parts, desc: string): string {
    RStrip(DocstringStart(c) + SingleLineRest(c, kind, p, desc))
  }

  /** What follows the opening quotes in the one-line layouts: the
      description on its own line, between two spaces (classes with an
      auto-generated name), before a line break (auto-generated names with
      `first_line`; `__init__` gets a blank line), or directly followed by
      the closing quotes. An empty description is replaced by the
      trailing-space setting, except between the two spaces. */
  function SingleLineRest(c: Config, kind: BuilderKind, p: Parts, desc: string): string {
    var body := if desc != "" then desc else c.trailingSpace;
    if c.descriptionOnNewLine then "\n" + c.spaces + body + "\n" + c.spaces + c.quotes
    else if p.isAutoGeneratedName && OneLineWithSpaces(kind) then " " + desc + " " + c.quotes
    else if p.isAutoGeneratedName && c.firstLine then
      body + (if p.elementName == Some("__init__") then "\n\n" else "\n") + c.spaces + c.quotes
    else body + c.quotes
  }

  /** The description block: the builder's own description, not the
      stripped copy `build` works on; an existing description keeps its
      leading whitespace. */
  function DescriptionBlock(c: Config, p: Parts): string {
    var body := WithSpaces(p.description, c.spaces);
    (if p.hasExistingDescription then RStrip(body) else Strip(body)) + "\n"
  }

  /** `_close_docstring`: the closing quotes are added when the opening ones
      are the only occurrence so far. */
  function CloseDocstring(c: Config, raw: string): string {
    RStrip(if Count(raw, c.quotes) == 1 then raw + c.spaces + c.quotes else raw)
  }

  /** `_build_multi_line_description_only`. */
  function MultiLineDescriptionOnly(c: Config, p: Parts): string {
    var head := DocstringStart(c) + (if !c.firstLine then "\n" + c.spaces else "");
    CloseDocstring(c, head + DescriptionBlock(c, p))
  }

  /** `_build_description_with_sections`. */
  function DescriptionWithSections(c: Config, p: Parts): string {
    "\n" + c.spaces + DescriptionBlock(c, p)
  }

  /** One of the post and doctests blocks. */
  function Block(c: Config, text: string): string {
    if text != "" then c.spaces + Strip(WithSpaces(text, c.spaces)) + "\n" else ""
  }

  /** `_build_additional_sections`. */
  function AdditionalSections(c: Config, p: Parts): string {
    Block(c, p.post) + Block(c, p.doctests)
  }

  /** Without sections, a description that did not come from a docstring
      has its whitespace runs collapsed to single spaces. */
  function Collapsed(desc: string, hasExisting: bool): string {
    if desc != "" && '\n' in desc && !hasExisting then Join(" ", SplitWs(desc)) else desc
  }

  /** The sections part of `build`, in order: parameters, return, raises;
      a strategy that fails makes the build fail. */
  function Sections(st: FormatStrategy, p: Parts): Result<string> {
    match ParamsSection(st, p.params)
    case Err(e) => Err(e)
    case Ok(ps) =>
      match ReturnSection(st, p.returnDesc, p.returnType, p.params)
      case Err(e) => Err(e)
      case Ok(rs) =>
        match RaisesSection(st, p.raises, p.params, p.returnDesc)
        case Err(e) => Err(e)
        case Ok(es) => Ok(ps + rs + es)
  }

  /** `build`: the sections are rendered only when there are any. */
  function Build(kind: BuilderKind, c: Config, st: FormatStrategy, p: Parts): Result<string> {
    Assemble(kind, c, p, Sections(st, p))
  }

  /** `build` when no section has content: one line when the collapsed
      description has no line break, otherwise the multi-line layout. */
  function DescriptionOnly(kind: BuilderKind, c: Config, p: Parts): string {
    var desc := Collapsed(Strip(p.description), p.hasExistingDescription);
    if desc == "" || '\n' !in desc then SingleLineDocstring(c, kind, p, desc)
    else MultiLineDescriptionOnly(c, p)
  }

  /** `build` with the rendered sections given. */
  function Assemble(kind: BuilderKind, c: Config, p: Parts, sections: Result<string>): Result<string> {
    if !HasSections(p) then Ok(DescriptionOnly(kind, c, p))
    else
      match sections
      case Err(e) => Err(e)
      case Ok(s) =>
        Ok(CloseDocstring(c, DocstringStart(c) + DescriptionWithSections(c, p) + s + AdditionalSections(c, p)))
  }

  // ---------------------------------------------------------------------
  // Properties of `build`.

  /** Opening quotes that end with a non-space survive the final `rstrip`. */
  predicate SolidStart(c: Config) {
    var start := DocstringStart(c);
    start == [] || !IsSpace(start[|start| - 1])
  }

  lemma StartKept(c: Config, raw: string)
    requires SolidStart(c) && StartsWith(raw, DocstringStart(c))
    ensures StartsWith(RStrip(raw), DocstringStart(c))
    ensures StartsWith(CloseDocstring(c, raw), DocstringStart(c))
  {
    RStripKeepsPrefix(raw, DocstringStart(c));
    var start := DocstringStart(c);
    assert (raw + c.spaces + c.quotes)[..|start|] == raw[..|start|];
    RStripKeepsPrefix(raw + c.spaces + c.quotes, start);
  }

  lemma SingleLineStart(c: Config, kind: BuilderKind, p: Parts, desc: string)
    requires SolidStart(c)
    ensures StartsWith(SingleLineDocstring(c, kind, p, desc), DocstringStart(c))
  {
    PrefixOfFour(DocstringStart(c), SingleLineRest(c, kind, p, desc), "", "");
    assert DocstringStart(c) + SingleLineRest(c, kind, p, desc) + "" + "" == DocstringStart(c) + SingleLineRest(c, kind, p, desc);
    StartKept(c, DocstringStart(c) + SingleLineRest(c, kind, p, desc));
  }

  lemma PrefixOfFour(a: string, b: string, c: string, d: string)
    ensures StartsWith(a + b + c + d, a)
  {
    assert (a + b + c + d)[..|a|] == a;
  }

  lemma MultiLineStart(c: Config, p: Parts)
    requires SolidStart(c)
    ensures StartsWith(MultiLineDescriptionOnly(c, p), DocstringStart(c))
  {
    var start := DocstringStart(c);
    var head := if !c.firstLine then "\n" + c.spaces else "";
    PrefixOfFour(start, head, DescriptionBlock(c, p), "");
    assert start + head + DescriptionBlock(c, p) + "" == start + head + DescriptionBlock(c, p);
    StartKept(c, start + head + DescriptionBlock(c, p));
  }

  lemma SectionsStart(c: Config, p: Parts, s: string)
    requires SolidStart(c)
    ensures StartsWith(CloseDocstring(c, DocstringStart(c) + DescriptionWithSections(c, p) + s + AdditionalSections(c, p)),
                       DocstringStart(c))
  {
    PrefixOfFour(DocstringStart(c), DescriptionWithSections(c, p), s, AdditionalSections(c, p));
    StartKept(c, DocstringStart(c) + DescriptionWithSections(c, p) + s + AdditionalSections(c, p));
  }

  /** Every built docstring begins with the spaces, the prefix letters and
      the quotes. */
  lemma BuildStart(kind: BuilderKind, c: Config, p: Parts, sections: Result<string>)
    requires SolidStart(c) && Assemble(kind, c, p, sections).Ok?
    ensures StartsWith(Assemble(kind, c, p, sections).value, DocstringStart(c))
  {
    if !HasSections(p) {
      var desc := Collapsed(Strip(p.description), p.hasExistingDescription);
      if desc == "" || '\n' !in desc {
        SingleLineStart(c, kind, p, desc);
      } else {
        MultiLineStart(c, p);
      }
    } else {
      SectionsStart(c, p, sections.value);
    }
  }

  /** Collapsing leaves no line break. */
  lemma CollapsedOneLine(desc: string)
    ensures '\n' !in Collapsed(desc, false)
  {
    if desc != "" && '\n' in desc {
      SplitWsWords(desc);
      JoinWithout(" ", SplitWs(desc), '\n');
    }
  }

  /** Without sections, a description that did not come from a docstring is
      collapsed and laid out on a single line; without sections nothing can
      fail. */
  lemma NoSectionsSingleLine(kind: BuilderKind, c: Config, p: Parts, sections: Result<string>)
    requires !HasSections(p) && !p.hasExistingDescription
    ensures Assemble(kind, c, p, sections) == Ok(SingleLineDocstring(c, kind, p, Collapsed(Strip(p.description), false)))
  {
    CollapsedOneLine(Strip(p.description));
  }

  /** With `description_on_new_line`, the opening, the description and the
      closing quotes are three lines. */
  lemma NewLineLayout(c: Config, kind: BuilderKind, p: Parts, desc: string)
    requires c.descriptionOnNewLine
    requires '\n' !in DocstringStart(c) && '\n' !in c.spaces && '\n' !in c.quotes
    requires '\n' !in desc && '\n' !in c.trailingSpace
    requires c.quotes != [] && !IsSpace(c.quotes[|c.quotes| - 1])
    ensures SplitLines(SingleLineDocstring(c, kind, p, desc))
      == [DocstringStart(c), c.spaces + (if desc != "" then desc else c.trailingSpace), c.spaces + c.quotes]
  {
    var start := DocstringStart(c);
    var body := if desc != "" then desc else c.trailingSpace;
    var lines := [start, c.spaces + body, c.spaces + c.quotes];
    var rest := "\n" + c.spaces + body + "\n" + c.spaces + c.quotes;
    assert SingleLineRest(c, kind, p, desc) == rest;
    var raw := start + rest;
    assert raw == start + "\n" + c.spaces + body + "\n" + c.spaces + c.quotes;
    assert Join("\n", lines[2..]) == lines[2];
    assert Join("\n", lines[1..]) == lines[1] + "\n" + lines[2];
    assert Join("\n", lines) == raw;
    assert raw[|raw| - 1] == c.quotes[|c.quotes| - 1];
    RStripUnchanged(raw);
    JoinLines(lines);
  }

  lemma ClassLayout(c: Config, p: Parts, desc: string)
    requires p.isAutoGeneratedName && !c.descriptionOnNewLine
    ensures SingleLineDocstring(c, ClassBuilder, p, desc) == RStrip(DocstringStart(c) + " " + desc + " " + c.quotes)
  {
    assert SingleLineRest(c, ClassBuilder, p, desc) == " " + desc + " " + c.quotes;
    assert DocstringStart(c) + (" " + desc + " " + c.quotes) == DocstringStart(c) + " " + desc + " " + c.quotes;
  }

  /** An auto-named class without sections is written on one line with a
      space on each side of the description. */
  lemma ClassOneLine(c: Config, p: Parts, sections: Result<string>)
    requires !HasSections(p) && p.isAutoGeneratedName && !c.descriptionOnNewLine
    requires '\n' !in Collapsed(Strip(p.description), p.hasExistingDescription)
    ensures var desc := Collapsed(Strip(p.description), p.hasExistingDescription);
      Assemble(ClassBuilder, c, p, sections) == Ok(RStrip(DocstringStart(c) + " " + desc + " " + c.quotes))
  {
    ClassLayout(c, p, Collapsed(Strip(p.description), p.hasExistingDescription));
  }

  /** The closing quotes end the docstring when the opening ones were the
      only occurrence. */
  lemma CloseAddsQuotes(c: Config, raw: string)
    requires Count(raw, c.quotes) == 1
    requires c.quotes != [] && !IsSpace(c.quotes[|c.quotes| - 1])
    ensures EndsWith(CloseDocstring(c, raw), c.quotes)
  {
    var t := raw + c.spaces + c.quotes;
    assert t[|t| - 1] == c.quotes[|c.quotes| - 1];
    RStripUnchanged(t);
    assert t[|t| - |c.quotes|..] == c.quotes;
  }

  /** With sections the parts come in order: the opening, the description,
      the rendered sections, post text and doctests, then the close. */
  lemma SectionsOrder(kind: BuilderKind, c: Config, p: Parts, s: string)
    requires HasSections(p)
    ensures Assemble(kind, c, p, Ok(s))
      == Ok(CloseDocstring(c, DocstringStart(c) + DescriptionWithSections(c, p) + s + AdditionalSections(c, p)))
  {
  }

  /** The sections are parameters, return and raises, in that order. */
  lemma SectionsInOrder(st: FormatStrategy, p: Parts, a: string, b: string, e: string)
    requires ParamsSection(st, p.params) == Ok(a)
    requires ReturnSection(st, p.returnDesc, p.returnType, p.params) == Ok(b)
    requires RaisesSection(st, p.raises, p.params, p.returnDesc) == Ok(e)
    ensures Sections(st, p) == Ok(a + b + e)
  {
  }

  /** A failing renderer makes the build fail with its error. */
  lemma SectionErrorFails(kind: BuilderKind, c: Config, p: Parts, m: string)
    requires HasSections(p)
    ensures Assemble(kind, c, p, Err(m)) == Err(m)
  {
  }

  /** The groups strategy renders no section. */
  lemma GroupsSections(st: FormatStrategy, p: Parts)
    requires st.kind == GroupsKind
    ensures Sections(st, p) == Ok("")
  {
    assert "" + "" + "" == "";
  }

  // ---------------------------------------------------------------------
  // The builder object.

  class CommentBuilder {
    const kind: BuilderKind
    const config: Config
    const strategy: FormatStrategy
    var description: string
    var params: seq<OutParam>
    var returnDesc: RetDesc
    var returnType: Option<string>
    var raises: seq<RaiseItem>
    var post: string
    var doctests: string
    var elementName: Option<string>
    var inputRaw: Option<string>
    var isAutoGeneratedName: bool
    var hasExistingDescription: bool

    /** The builder's data as one value. */
    function Data(): Parts
      reads this
    {
      Parts(description, params, returnDesc, returnType, raises, post, doctests,
            elementName, inputRaw, isAutoGeneratedName, hasExistingDescription)
    }

    constructor(kind: BuilderKind, config: Config, strategy: FormatStrategy)
      ensures this.kind == kind && this.config == config && this.strategy == strategy
      ensures Data() == Parts("", [], NoReturn, None, [], "", "", None, None, false, false)
    {
      this.kind := kind;
      this.config := config;
      this.strategy := strategy;
      description := "";
      params := [];
      returnDesc := NoReturn;
      returnType := None;
      raises := [];
      post := "";
      doctests := "";
      elementName := None;
      inputRaw := None;
      isAutoGeneratedName := false;
      hasExistingDescription := false;
    }

    /** `set_name`: the function builder turns the name into a sentence;
        the class and module builders use it verbatim. */
    method SetName(name: string)
      modifies this
      ensures Data() == old(Data()).(elementName := Some(name),
        description := if kind == FunctionBuilder then Names.NameDescription(name) else name)
    {
      elementName := Some(name);
      if kind == FunctionBuilder {
        description := Names.FormatNameAsDescription(name);
      } else {
        description := name;
      }
    }

    method SetDescription(desc: string, hasExisting: bool)
      modifies this
      ensures Data() == old(Data()).(description := desc, hasExistingDescription := hasExisting)
    {
      description := desc;
      hasExistingDescription := hasExisting;
    }

    method SetParams(ps: seq<OutParam>)
      modifies this
      ensures Data() == old(Data()).(params := ps)
    {
      params := ps;
    }

    method SetReturn(rd: RetDesc, rtype: Option<string>)
      modifies this
      ensures Data() == old(Data()).(returnDesc := rd, returnType := rtype)
    {
      returnDesc := rd;
      returnType := rtype;
    }

    method SetRaises(rs: seq<RaiseItem>)
      modifies this
      ensures Data() == old(Data()).(raises := rs)
    {
      raises := rs;
    }

    method SetPost(text: string)
      modifies this
      ensures Data() == old(Data()).(post := text)
    {
      post := text;
    }

    method SetDoctests(text: string)
      modifies this
      ensures Data() == old(Data()).(doctests := text)
    {
      doctests := text;
    }

    /** `set_element_info`. */
    method SetElementInfo(name: Option<string>, raw: Option<string>, isAuto: bool)
      modifies this
      ensures Data() == old(Data()).(elementName := name, inputRaw := raw, isAutoGeneratedName := isAuto)
    {
      elementName := name;
      inputRaw := raw;
      isAutoGeneratedName := isAuto;
    }

    /** `build`: the docstring is accumulated piece by piece. */
    method BuildDocstring() returns (r: Result<string>)
      ensures r == Build(kind, config, strategy, Data())
    {
      r := Render(kind, config, strategy, Data());
    }
  }

  /** The body of `build`: a one-line or a multi-line description when no
      section has content, otherwise the start, the description, the
      rendered sections and the additional sections, then the closing
      quotes. */
  method Render(kind: BuilderKind, c: Config, st: FormatStrategy, p: Parts) returns (r: Result<string>)
    ensures r == Build(kind, c, st, p)
  {
    if !HasSections(p) {
      var text := RenderDescription(kind, c, p);
      return Ok(text);
    }
    var sections := BuildSections(st, p);
    if sections.Err? {
      return Err(sections.msg);
    }
    var raw := DocstringStart(c);
    raw := raw + DescriptionWithSections(c, p);
    raw := raw + sections.value;
    raw := raw + AdditionalSections(c, p);
    return Ok(CloseDocstring(c, raw));
  }

  /** The no-section branch of `build`. */
  method RenderDescription(kind: BuilderKind, c: Config, p: Parts) returns (r: string)
    ensures r == DescriptionOnly(kind, c, p)
  {
    var desc := Collapsed(Strip(p.description), p.hasExistingDescription);
    if desc == "" || '\n' !in desc {
      return SingleLineDocstring(c, kind, p, desc);
    }
    return MultiLineDescriptionOnly(c, p);
  }

  /** The three section renderers, called in order. */
  method BuildSections(st: FormatStrategy, p: Parts) returns (r: Result<string>)
    ensures r == Sections(st, p)
  {
    var ps := FormatParamsSection(st, p.params);
    if ps.Err? {
      return Err(ps.msg);
    }
    var rs := FormatReturnSection(st, p.returnDesc, p.returnType, p.params);
    if rs.Err? {
      return Err(rs.msg);
    }
    var es := FormatRaisesSection(st, p.raises, p.params, p.returnDesc);
    if es.Err? {
      return Err(es.msg);
    }
    return Ok(ps.value + rs.value + es.value);
  }
}
