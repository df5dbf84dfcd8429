/** `DocString`: one element's docstring. It holds the element read from its
    definition line, what was read from the existing docstring (`in`) and what
    will be written (`out`); `parse_docs` fills the first, `generate_docs`
    merges it with the signature and renders the second. */
module Docstring {
  import opened Wrappers
  import opened Text
  import Sig = Signature
  import opened Styles
  import opened SectionTools
  import ListKey
  import TagParams
  import GroupItems
  import opened DocText
  import Doctests
  import opened Strategy
  import Builder
  import opened Merge

  /** `_options`: where types come from when both sides give one. */
  datatype Options = Options(hintRtypePriority: bool, hintTypePriority: bool, rstTypeInParamPriority: bool)

  const DefaultOptions := Options(true, true, true)

  /** `docs['in']`: a return read as a list of elements is `Items`, one read as
      text is `Text`, none is `NoReturn`. */
  datatype DocsIn = DocsIn(
    raw: Option<string>,
    doctests: string,
    desc: Option<string>,
    params: seq<ListKey.Entry>,
    ret: RetDesc,
    rtype: Option<string>,
    raises: seq<RaiseItem>)

  /** `docs['out']`: `doctests` and `post` are `None` while the dictionary has
      no such key. */
  datatype DocsOut = DocsOut(
    raw: string,
    desc: Option<string>,
    params: seq<OutParam>,
    ret: RetDesc,
    rtype: Option<string>,
    raises: seq<RaiseItem>,
    spaces: string,
    doctests: Option<string>,
    post: Option<Option<string>>)

  /** The fields of a `DocString` as one value. */
  datatype State = State(
    element: Sig.CaseConfig,
    beforeLim: string,
    trailingSpace: string,
    typeStub: bool,
    docsIn: DocsIn,
    docsOut: DocsOut,
    parsedElem: bool,
    parsedDocs: bool,
    generatedDocs: bool,
    options: Options)

  // ---------------------------------------------------------------------
  // The element (`parse_definition`).

  /** The element once its definition line is read, and the message of the
      exception raised when the signature cannot be scanned (the keyword
      and the name are already set by then). */
  function DefinedElement(e: Sig.CaseConfig): (Sig.CaseConfig, Option<string>) {
    var l := Strip(e.raw);
    if !Sig.IsDefinition(l) then (e, None)
    else if StartsWith(l, "class ") then (e.(deftype := "class", name := Sig.DefinitionName(Sig.DefinitionBody(l))), None)
    else
      var b := Sig.DefinitionBody(l);
      var named := e.(deftype := "def", name := Sig.DefinitionName(b));
      match Sig.SignatureOf(Sig.CommentFree(b))
      case Err(m) => (named, Some(m))
      case Ok(sig) =>
        (named.(rtype := if sig.rtype != "" then sig.rtype else e.rtype,
                params := e.params + Sig.KeptParams(sig.params)), None)
  }

  /** Reading the definition only appends parameters, never `self`, `cls`
      or an empty name, and keeps the raw line and the indentation. */
  lemma DefinedParams(e: Sig.CaseConfig)
    ensures var d := DefinedElement(e).0;
      && d.raw == e.raw && d.spaces == e.spaces
      && |e.params| <= |d.params| && d.params[..|e.params|] == e.params
      && forall k :: |e.params| <= k < |d.params| ==> Sig.Kept(d.params[k])
  {
    var l := Strip(e.raw);
    if Sig.IsDefinition(l) && !StartsWith(l, "class ") {
      var b := Sig.DefinitionBody(l);
      var s := Sig.SignatureOf(Sig.CommentFree(b));
      if s.Ok? {
        AppendedKept(e.params, s.value.params);
      }
    }
  }

  lemma AppendedKept(base: seq<Sig.Param>, found: seq<Sig.Param>)
    ensures var d := base + Sig.KeptParams(found);
      && |base| <= |d| && d[..|base|] == base
      && forall k :: |base| <= k < |d| ==> Sig.Kept(d[k])
  {
    var added := Sig.KeptParams(found);
    var d := base + added;
    Sig.KeptParamsExact(found);
    forall k | |base| <= k < |d| ensures Sig.Kept(d[k]) {
      assert d[k] == added[k - |base|];
      assert added[k - |base|] in added;
    }
  }

  /** A class keeps its parameters and return type: only a function's
      signature is scanned. */
  lemma ClassElement(e: Sig.CaseConfig)
    requires StartsWith(Strip(e.raw), "class ")
    ensures DefinedElement(e) == (e.(deftype := "class", name := Sig.DefinitionName(Sig.DefinitionBody(Strip(e.raw)))), None)
  {
    var l := Strip(e.raw);
    assert l[..6] == "class ";
    assert Sig.IsDefinition(l);
  }

  // ---------------------------------------------------------------------
  // Reading the existing docstring (`parse_docs`).

  /** `docs_raw` as `__init__` stores it: a non-empty docstring loses its
      surrounding whitespace and its triple quotes. */
  function InputRaw(docsRaw: Option<string>): (r: Option<string>)
    ensures r.None? <==> docsRaw.None?
    ensures Filled(docsRaw) ==> r == Some(StripDelimiters(docsRaw.value))
    ensures !Filled(docsRaw) ==> r == docsRaw
  {
    if Filled(docsRaw) then Some(StripDelimiters(docsRaw.value)) else docsRaw
  }

  /** The tag style a tag-style parameter list is read with. */
  function TagStyleOf(style: string): Option<TagStyle> {
    if style == "javadoc" then Some(Javadoc) else if style == "reST" then Some(ReST) else None
  }

  /** `_extract_docs_doctest`: every doctest block moves to the doctest
      buffer, which, once it has text, is also cleaned into the output. */
  function DoctestStep(di: DocsIn, out: DocsOut): (DocsIn, DocsOut)
    requires di.raw.Some?
  {
    var ex := Excision(di.raw.value, di.doctests);
    (di.(raw := Some(ex.0), doctests := ex.1),
     if ex.1 != "" then out.(doctests := Some(Cleaned(ex.1, out.spaces))) else out)
  }

  /** `_extract_docs_params`: the parameter list read from the cleaned text
      in the input style; the tag styles other than javadoc and reST read none. */
  function ParamsRead(style: string, data: string, rstTypeInParamPriority: bool): seq<ListKey.Entry> {
    if style == "numpydoc" then NumpyKeys(); ListKey.ListKeyOf(NumpyTools(), SplitLines(data), "param")
    else if style == "google" then GoogleKeys(); ListKey.ListKeyOf(GoogleTools(), SplitLines(data), "param")
    else if style == "groups" then GroupItems.AsParams(GroupItems.GroupEntries(data, GParam, false))
    else if TagStyleOf(style).Some? then
      TagEntries(TagParams.Elements(TagStyleOf(style).value, SplitLines(data)).ret, rstTypeInParamPriority)
    else []
  }

  /** `_extract_docs_return`: a section dialect reads a list and forgets the
      type; groups reads the text of its return group when there is one;
      otherwise the return is left as it was. */
  function ReturnRead(style: string, data: string, ret: RetDesc, rtype: Option<string>): (RetDesc, Option<string>) {
    if style == "numpydoc" then NumpyKeys(); (Items(ListKey.ReturnsOf(ListKey.ListKeyOf(NumpyTools(), SplitLines(data), "return"))), None)
    else if style == "google" then GoogleKeys(); (Items(ListKey.ReturnsOf(ListKey.ListKeyOf(GoogleTools(), SplitLines(data), "return"))), None)
    else if style == "groups" then
      match GroupItems.GroupReturn(data)
      case None => (ret, rtype)
      case Some(t) => (Text(t), rtype)
    else (ret, rtype)
  }

  /** `_extract_docs_raises`: the raises read in the input style. */
  function RaisesRead(style: string, data: string): seq<RaiseItem> {
    if style == "numpydoc" then NumpyKeys(); ListKey.RaisesOf(ListKey.ListKeyOf(NumpyTools(), SplitLines(data), "raise"))
    else if style == "google" then GoogleKeys(); ListKey.RaisesOf(ListKey.ListKeyOf(GoogleTools(), SplitLines(data), "raise"))
    else if style == "groups" then GroupItems.AsRaises(GroupItems.GroupEntries(data, GRaise, true))
    else []
  }

  /** The input after the doctest, parameter, return and raise steps. */
  function Extracted(style: string, di: DocsIn, out: DocsOut, opt: Options): (DocsIn, DocsOut)
    requires di.raw.Some?
  {
    var d := DoctestStep(di, out);
    var data := Cleaned(d.0.raw.value, out.spaces);
    var r := ReturnRead(style, data, d.0.ret, d.0.rtype);
    (d.0.(params := d.0.params + ParamsRead(style, data, opt.rstTypeInParamPriority), ret := r.0, rtype := r.1,
          raises := d.0.raises + RaisesRead(style, data)), d.1)
  }

  /** The state once `parse_docs` has stored the docstring it was given. */
  function Started(st: State, raw: Option<string>, beforeLim: string): (r: State)
    ensures r.docsIn.raw.Some? <==> raw.Some? || st.docsIn.raw.Some?
  {
    st.(beforeLim := beforeLim,
        docsIn := st.docsIn.(raw := if raw.Some? then Some(StripDelimiters(raw.value)) else st.docsIn.raw))
  }

  /** The rest of `parse_docs`: the extraction steps, then the description,
      whose error ends the parse before the docstring counts as parsed. */
  function Parsed(st: State, style: string): (Result<bool>, State)
    requires st.docsIn.raw.Some?
  {
    var x := Extracted(style, st.docsIn, st.docsOut, st.options);
    var d := CurrentDesc(style, Cleaned(x.0.raw.value, x.1.spaces));
    if d.Err? then (Err(d.msg), st.(docsIn := x.0, docsOut := x.1))
    else (Ok(true), st.(docsIn := x.0.(desc := Some(d.value)), docsOut := x.1, parsedDocs := true))
  }

  /** After parsing, no line of the kept docstring starts a doctest, the
      doctest buffer only grew, and the lists read before are still in front
      of the new ones. */
  lemma ExtractedFacts(style: string, di: DocsIn, out: DocsOut, opt: Options)
    requires di.raw.Some?
    ensures var x := Extracted(style, di, out, opt).0;
      && x.raw.Some? && NoDoctest(x.raw.value)
      && StartsWith(x.doctests, di.doctests)
      && |di.params| <= |x.params| && x.params[..|di.params|] == di.params
      && |di.raises| <= |x.raises| && x.raises[..|di.raises|] == di.raises
      && x.desc == di.desc
  {
    ExcisionClean(di.raw.value, di.doctests);
    ExcisionTests(di.raw.value, di.doctests);
  }

  /** A docstring whose lines start no doctest is kept as it is, and the
      output doctests are left alone. */
  lemma DoctestFreeKept(di: DocsIn, out: DocsOut)
    requires di.raw.Some? && NoDoctest(di.raw.value)
    ensures DoctestStep(di, out) == (di, if di.doctests != "" then out.(doctests := Some(Cleaned(di.doctests, out.spaces))) else out)
  {
    ExcisionFound(di.raw.value, di.doctests);
  }

  // ---------------------------------------------------------------------
  // Writing the new docstring (`generate_docs`).

  function KindOf(deftype: string): (r: Builder.BuilderKind)
    ensures r == Builder.ClassBuilder <==> deftype == "class"
    ensures r == Builder.ModuleBuilder <==> deftype == "module"
  {
    if deftype == "class" then Builder.ClassBuilder
    else if deftype == "module" then Builder.ModuleBuilder
    else Builder.FunctionBuilder
  }

  /** The output after `_set_desc`, `_set_params`, `_set_return`,
      `_set_raises` and `_set_other`. */
  function MergedOut(e: Sig.CaseConfig, di: DocsIn, out: DocsOut, styleIn: string, styleOut: string, opt: Options): DocsOut {
    out.(desc := Some(if Filled(di.desc) then di.desc.value else ""),
         params := out.params + MergedParams(e.params, di.params, opt.hintTypePriority),
         rtype := Merge.ReturnType(di.ret, di.rtype, styleOut, opt.hintRtypePriority, out.rtype, e.rtype),
         ret := ReturnComment(di.ret, styleOut),
         raises := SetRaises(out.raises, ExtractRaises(di.raises, styleIn, styleOut)),
         post := Some(ExtractOther(styleIn, di.raw, out.post)))
  }

  /** What `_create_builder` hands the builder: `set_name` is overridden by
      `set_description`, and `set_element_info` receives the input docstring
      as the element name. */
  function BuilderParts(di: DocsIn, m: DocsOut): Builder.Parts {
    Builder.Parts(
      Strip(m.desc.GetOr("")), m.params, m.ret, m.rtype, m.raises,
      m.post.GetOr(None).GetOr(""), m.doctests.GetOr(""),
      di.raw, None, false,
      di.desc.Some? && Strip(di.desc.value) != "")
  }

  /** The text the builder renders for a state. */
  function Rendered(st: State, config: Config, styleOut: string): Result<string> {
    Builder.Build(KindOf(st.element.deftype), config, CreateStrategy(styleOut, config, st.element.spaces),
                  BuilderParts(st.docsIn, st.docsOut))
  }

  /** `_set_raw`: a rendered text becomes the output docstring. */
  function WithRaw(st: State, r: Result<string>): State {
    if r.Ok? then st.(docsOut := st.docsOut.(raw := r.value)) else st
  }

  /** `generate_docs` on a state: the merged output, then the rendered
      text; a builder error leaves the merged output without a text. */
  function Generated(st: State, config: Config, styleIn: string, styleOut: string): (Result<bool>, State) {
    var merged := st.(docsOut := MergedOut(st.element, st.docsIn, st.docsOut, styleIn, styleOut, st.options));
    var b := Rendered(merged, config, styleOut);
    if b.Err? then (Err(b.msg), merged) else (Ok(true), WithRaw(merged, b).(generatedDocs := true))
  }

  /** A first `generate_docs` lists the signature's parameters, each once,
      in order, whatever the docstring documents; each takes the last
      docstring description of its name. */
  lemma GeneratedParams(e: Sig.CaseConfig, di: DocsIn, out: DocsOut, styleIn: string, styleOut: string, opt: Options)
    requires out.params == []
    ensures var m := MergedOut(e, di, out, styleIn, styleOut, opt);
      && OutNames(m.params) == FirstOccurrences(ParamNames(e.params))
      && NoDuplicates(OutNames(m.params))
      && forall i :: 0 <= i < |m.params| ==>
           var d := LastValue(DocPairs(di.params), Some(m.params[i].name));
           m.params[i].desc == if d.Some? then d.value.desc else ""
  {
    var ps := MergedParams(e.params, di.params, opt.hintTypePriority);
    assert MergedOut(e, di, out, styleIn, styleOut, opt).params == ps;
    MergedNames(e.params, di.params, opt.hintTypePriority);
    forall i | 0 <= i < |ps|
      ensures var d := LastValue(DocPairs(di.params), Some(ps[i].name));
        ps[i].desc == if d.Some? then d.value.desc else ""
    {
      MergedFields(e.params, di.params, opt.hintTypePriority, i);
    }
  }

  /** Raises read from the docstring always reach the output, and the
      element's return type hint wins by default. */
  lemma GeneratedRaisesAndReturn(e: Sig.CaseConfig, di: DocsIn, out: DocsOut, styleIn: string, styleOut: string)
    ensures var m := MergedOut(e, di, out, styleIn, styleOut, DefaultOptions);
      && (di.raises != [] ==> m.raises == di.raises)
      && (di.raises == [] ==> m.raises == out.raises)
      && (e.rtype != "" ==> m.rtype == Some(e.rtype))
  {
    RaisesAlwaysKept(di.raises, out.raises, styleIn, styleOut);
  }

  /** The sections of the input a numpydoc docstring does not manage are
      carried into the output verbatim; no other input style adds any. */
  lemma GeneratedPost(e: Sig.CaseConfig, di: DocsIn, out: DocsOut, styleIn: string, styleOut: string, opt: Options)
    ensures var m := MergedOut(e, di, out, styleIn, styleOut, opt);
      && (styleIn != "numpydoc" ==> m.post == Some(None) && BuilderParts(di, m).post == "")
      && (styleIn == "numpydoc" && di.raw.Some? ==>
            BuilderParts(di, m).post == ListKey.RawNotManaged(NumpyTools(), SplitLines(di.raw.value)))
  {
  }

  // ---------------------------------------------------------------------
  // The object.

  class DocString {
    const config: Config
    const dst: DocsTools
    var element: Sig.CaseConfig
    var beforeLim: string
    var trailingSpace: string
    var typeStub: bool
    var docsIn: DocsIn
    var docsOut: DocsOut
    var parsedElem: bool
    var parsedDocs: bool
    var generatedDocs: bool
    var options: Options

    function Data(): State
      reads this
    {
      State(element, beforeLim, trailingSpace, typeStub, docsIn, docsOut, parsedElem, parsedDocs, generatedDocs, options)
    }

    /** `__init__` up to the call of `parse_definition`: a non-empty docstring
        without a given input style has its style detected (on the text as
        given); a given style is set; the output is indented one level
        deeper than the element. */
    constructor(config: Config, dst: DocsTools, caseConfig: Sig.CaseConfig, spaces: string, docsRaw: Option<string>,
                inputStyle: Option<string>, trailingSpace: bool, typeStub: bool, beforeLim: string)
      modifies dst
      ensures this.config == config && this.dst == dst
      ensures Filled(docsRaw) && !Filled(inputStyle) ==> dst.styleIn == DetectStyle(docsRaw.value)
      ensures !(Filled(docsRaw) && !Filled(inputStyle)) && Filled(inputStyle) ==> dst.styleIn == inputStyle.value
      ensures !Filled(docsRaw) && !Filled(inputStyle) ==> dst.styleIn == old(dst.styleIn)
      ensures dst.styleOut == old(dst.styleOut)
      ensures Data() == State(caseConfig, beforeLim, if trailingSpace then " " else "", typeStub,
                              DocsIn(InputRaw(docsRaw), "", None, [], NoReturn, None, []),
                              DocsOut("", None, [], NoReturn, None, [], OutSpaces(spaces), None, None),
                              false, false, false, DefaultOptions)
    {
      this.config := config;
      this.dst := dst;
      this.beforeLim := beforeLim;
      this.trailingSpace := if trailingSpace then " " else "";
      this.typeStub := typeStub;
      element := caseConfig;
      docsIn := DocsIn(InputRaw(docsRaw), "", None, [], NoReturn, None, []);
      docsOut := DocsOut("", None, [], NoReturn, None, [], OutSpaces(spaces), None, None);
      parsedElem := false;
      parsedDocs := false;
      generatedDocs := false;
      options := DefaultOptions;
      new;
      if Filled(docsRaw) && !Filled(inputStyle) {
        var _ := dst.AutodetectStyle(docsRaw.value);
      } else if Filled(inputStyle) {
        dst.SetInputStyle(inputStyle.value);
      }
    }

    /** `get_input_docstring`. */
    function GetInputDocstring(): (r: Option<string>)
      reads this
      ensures r == docsIn.raw
    {
      docsIn.raw
    }

    /** `get_input_style`. */
    function GetInputStyle(): (r: string)
      reads this, dst
      ensures r == dst.styleIn
    {
      dst.styleIn
    }

    /** `set_input_style`. */
    method SetInputStyle(style: string)
      modifies dst
      ensures dst.styleIn == style && dst.styleOut == old(dst.styleOut)
    {
      dst.SetInputStyle(style);
    }

    /** `get_spaces`. */
    function GetSpaces(): (r: string)
      reads this
      ensures r == docsOut.spaces
    {
      docsOut.spaces
    }

    /** `set_spaces`. */
    method SetSpaces(spaces: string)
      modifies this
      ensures Data() == old(Data()).(docsOut := old(docsOut).(spaces := spaces))
    {
      docsOut := docsOut.(spaces := spaces);
    }

    /** `parse_definition` on the element's own raw line: the keyword, the
        name and, for a function, the return type and the kept parameters. */
    method ParseDefinition() returns (r: Result<()>)
      modifies this
      ensures element == DefinedElement(old(element)).0
      ensures r.Err? <==> DefinedElement(old(element)).1.Some?
      ensures r.Err? ==> r.msg == DefinedElement(old(element)).1.value
      ensures parsedElem == (r.Ok? || old(parsedElem))
      ensures Data() == old(Data()).(element := element, parsedElem := parsedElem)
    {
      var d, failure := DefineElement(element);
      element := d;
      if failure.Some? {
        return Err(failure.value);
      }
      parsedElem := true;
      return Ok(());
    }

    /** `_extract_docs_doctest`: true when there was a doctest to move. */
    method ExtractDocsDoctest() returns (found: bool)
      requires docsIn.raw.Some?
      modifies this
      ensures var d := DoctestStep(old(docsIn), old(docsOut));
        Data() == old(Data()).(docsIn := d.0, docsOut := d.1)
      ensures found <==> DoctestIndexes(SplitLines(old(docsIn.raw.value))).0 != -1
      ensures docsIn.raw.Some? && NoDoctest(docsIn.raw.value)
    {
      var data, tests;
      found, data, tests := MoveDoctests(docsIn.raw.value, docsIn.doctests);
      ExcisionClean(docsIn.raw.value, docsIn.doctests);
      docsIn := docsIn.(raw := Some(data), doctests := tests);
      if tests != "" {
        docsOut := docsOut.(doctests := Some(Cleaned(tests, docsOut.spaces)));
      }
    }

    /** `_extract_docs_params`. */
    method ExtractDocsParams()
      requires docsIn.raw.Some?
      modifies this
      ensures Data() == old(Data()).(docsIn := old(docsIn).(params := old(docsIn.params) +
        ParamsRead(dst.styleIn, Cleaned(old(docsIn.raw.value), docsOut.spaces), options.rstTypeInParamPriority)))
    {
      var lst := ReadParams(dst.styleIn, Cleaned(docsIn.raw.value, docsOut.spaces), options.rstTypeInParamPriority);
      docsIn := docsIn.(params := docsIn.params + lst);
    }

    /** `_extract_docs_return`; the tag-style return is not read. */
    method ExtractDocsReturn()
      requires docsIn.raw.Some?
      modifies this
      ensures var r := ReturnRead(dst.styleIn, Cleaned(old(docsIn.raw.value), docsOut.spaces), old(docsIn.ret), old(docsIn.rtype));
        Data() == old(Data()).(docsIn := old(docsIn).(ret := r.0, rtype := r.1))
    {
      var ret, rtype := ReadReturn(dst.styleIn, Cleaned(docsIn.raw.value, docsOut.spaces), docsIn.ret, docsIn.rtype);
      docsIn := docsIn.(ret := ret, rtype := rtype);
    }

    /** `_extract_docs_raises`; the tag-style raises are not read. */
    method ExtractDocsRaises()
      requires docsIn.raw.Some?
      modifies this
      ensures Data() == old(Data()).(docsIn := old(docsIn).(raises := old(docsIn.raises) +
        RaisesRead(dst.styleIn, Cleaned(old(docsIn.raw.value), docsOut.spaces))))
    {
      var lst := ReadRaises(dst.styleIn, Cleaned(docsIn.raw.value, docsOut.spaces));
      docsIn := docsIn.(raises := docsIn.raises + lst);
    }

    /** `_extract_docs_description`: an input style with no description rule
        is a `KeyError`. */
    method ExtractDocsDescription() returns (r: Result<()>)
      requires docsIn.raw.Some?
      modifies this
      ensures var d := CurrentDesc(dst.styleIn, Cleaned(old(docsIn.raw.value), docsOut.spaces));
        && (d.Err? ==> r == Err(d.msg) && Data() == old(Data()))
        && (d.Ok? ==> r == Ok(()) && Data() == old(Data()).(docsIn := old(docsIn).(desc := Some(d.value))))
    {
      var d := CurrentDesc(dst.styleIn, Cleaned(docsIn.raw.value, docsOut.spaces));
      if d.Err? {
        return Err(d.msg);
      }
      docsIn := docsIn.(desc := Some(d.value));
      return Ok(());
    }

    /** `parse_docs`: a given docstring is stored without its delimiters and
        its style detected; without any docstring nothing is read. */
    method ParseDocs(raw: Option<string>, beforeLim: string) returns (r: Result<bool>)
      modifies this, dst
      ensures dst.styleIn == if raw.Some? then DetectStyle(StripDelimiters(raw.value)) else old(dst.styleIn)
      ensures dst.styleOut == old(dst.styleOut)
      ensures var start := Started(old(Data()), raw, beforeLim);
        (r, Data()) == if start.docsIn.raw.None? then (Ok(false), start) else Parsed(start, dst.styleIn)
    {
      this.beforeLim := beforeLim;
      if raw.Some? {
        var stripped := StripDelimiters(raw.value);
        docsIn := docsIn.(raw := Some(stripped));
        var _ := dst.AutodetectStyle(stripped);
      }
      ghost var start := Started(old(Data()), raw, beforeLim);
      assert Data() == start;
      if docsIn.raw.None? {
        return Ok(false);
      }
      r := ExtractDocs();
    }

    /** The extraction steps of `parse_docs`, in the source's order. */
    method ExtractDocs() returns (r: Result<bool>)
      requires docsIn.raw.Some?
      modifies this
      ensures (r, Data()) == Parsed(old(Data()), dst.styleIn)
    {
      ghost var start := Data();
      var _ := ExtractDocsDoctest();
      ghost var d := DoctestStep(start.docsIn, start.docsOut);
      assert Data() == start.(docsIn := d.0, docsOut := d.1);
      ExtractDocsParams();
      ExtractDocsReturn();
      ExtractDocsRaises();
      ghost var x := Extracted(dst.styleIn, start.docsIn, start.docsOut, start.options);
      assert Data() == start.(docsIn := x.0, docsOut := x.1);
      var c := ExtractDocsDescription();
      if c.Err? {
        return Err(c.msg);
      }
      parsedDocs := true;
      return Ok(true);
    }

    /** `generate_docs`: the merge steps, then the builder renders the
        output; an exception of the builder leaves the merged output. */
    method GenerateDocs() returns (r: Result<bool>)
      modifies this
      ensures (r, Data()) == Generated(old(Data()), config, dst.styleIn, dst.styleOut)
    {
      ghost var merged := old(Data()).(docsOut := MergedOut(element, docsIn, docsOut, dst.styleIn, dst.styleOut, options));
      docsOut := MergeOutput(element, docsIn, docsOut, dst.styleIn, dst.styleOut, options);
      assert Data() == merged;
      var built := SetRaw();
      if built.Err? {
        return Err(built.msg);
      }
      generatedDocs := true;
      return Ok(true);
    }

    /** `_set_raw` with `_create_builder`: the builder chosen by the element
        kind receives the output, and its result becomes the output text. */
    method SetRaw() returns (r: Result<string>)
      modifies this
      ensures r == Rendered(old(Data()), config, dst.styleOut)
      ensures Data() == WithRaw(old(Data()), r)
    {
      ghost var st := Data();
      var strategy := CreateStrategy(dst.styleOut, config, element.spaces);
      r := RenderComment(KindOf(element.deftype), config, strategy, element.name, BuilderParts(docsIn, docsOut));
      assert r == Rendered(st, config, dst.styleOut);
      if r.Ok? {
        docsOut := docsOut.(raw := r.value);
      }
    }

    /** `get_raw_docs`: the output is generated once. */
    method GetRawDocs() returns (r: Result<string>)
      modifies this
      ensures old(generatedDocs) ==> r == Ok(docsOut.raw) && Data() == old(Data())
      ensures !old(generatedDocs) && r.Ok? ==> generatedDocs && r.value == docsOut.raw
    {
      if !generatedDocs {
        var g := GenerateDocs();
        if g.Err? {
          return Err(g.msg);
        }
      }
      return Ok(docsOut.raw);
    }
  }

  /** `_define_builder` and `_create_builder`: every setter of the builder is
      called, so the rendered text depends only on the parts handed over
      (the name given to `set_name` is replaced by `set_element_info`). */
  method RenderComment(kind: Builder.BuilderKind, config: Config, strategy: FormatStrategy,
                       name: string, p: Builder.Parts) returns (r: Result<string>)
    ensures r == Builder.Build(kind, config, strategy, p)
  {
    var builder := new Builder.CommentBuilder(kind, config, strategy);
    builder.SetName(name);
    builder.SetDescription(p.description, p.hasExistingDescription);
    builder.SetParams(p.params);
    builder.SetReturn(p.returnDesc, p.returnType);
    builder.SetRaises(p.raises);
    builder.SetPost(p.post);
    builder.SetDoctests(p.doctests);
    builder.SetElementInfo(p.elementName, p.inputRaw, p.isAutoGeneratedName);
    r := builder.BuildDocstring();
  }

  /** The merge steps of `generate_docs`: `_set_desc`, `_set_params`,
      `_set_return`, `_set_raises` and `_set_other`. */
  method MergeOutput(e: Sig.CaseConfig, di: DocsIn, out: DocsOut, styleIn: string, styleOut: string, opt: Options)
    returns (m: DocsOut)
    ensures m == MergedOut(e, di, out, styleIn, styleOut, opt)
  {
    m := out;
    m := m.(desc := Some(if Filled(di.desc) then di.desc.value else ""));
    var ps := ExtractParams(e.params, di.params, opt.hintTypePriority);
    m := m.(params := m.params + ps);
    var rtype := Merge.ReturnType(di.ret, di.rtype, styleOut, opt.hintRtypePriority, m.rtype, e.rtype);
    m := m.(rtype := rtype, ret := ReturnComment(di.ret, styleOut));
    var raises := ExtractRaises(di.raises, styleIn, styleOut);
    if raises.Some? && raises.value != [] {
      m := m.(raises := raises.value);
    }
    var other: Option<string> := None;
    if styleIn == "numpydoc" {
      if di.raw.Some? {
        var notManaged := ListKey.GetRawNotManaged(NumpyTools(), di.raw.value);
        other := Some(notManaged);
      } else if m.post.None? || m.post.value.None? {
        other := Some("");
      }
    }
    m := m.(post := Some(other));
  }

  /** The body of `parse_definition`: the element as the signature reader
      leaves it, and the message of its exception if it raised one. */
  method DefineElement(e: Sig.CaseConfig) returns (d: Sig.CaseConfig, failure: Option<string>)
    ensures (d, failure) == DefinedElement(e)
  {
    var parsed := Sig.ParseDefinition(e);
    var l := Strip(e.raw);
    if parsed.Err? {
      var b := Sig.DefinitionBody(l);
      d, failure := e.(deftype := "def", name := Sig.DefinitionName(b)), Some(parsed.msg);
    } else {
      d, failure := parsed.value, None;
    }
    if Sig.IsDefinition(l) && !StartsWith(l, "class ") {
      var b := Sig.DefinitionBody(l);
      match Sig.SignatureOf(Sig.CommentFree(b))
      case Err(m) => assert parsed == Err(m);
      case Ok(sig) => assert parsed.Ok?;
    }
  }

  /** The dispatch of `_extract_docs_params`. */
  method ReadParams(style: string, data: string, rstTypeInParamPriority: bool) returns (lst: seq<ListKey.Entry>)
    ensures lst == ParamsRead(style, data, rstTypeInParamPriority)
  {
    if style == "numpydoc" {
      NumpyKeys();
      lst := ListKey.GetListKey(NumpyTools(), data, "param");
    } else if style == "google" {
      GoogleKeys();
      lst := ListKey.GetListKey(GoogleTools(), data, "param");
    } else if style == "groups" {
      lst := GroupItems.ExtractGroupParams(data);
    } else if style == "javadoc" || style == "reST" {
      lst := ReadTagParams(TagStyleOf(style).value, data, rstTypeInParamPriority);
    } else {
      lst := [];
    }
  }

  /** `_extract_tagstyle_docs_params`: one entry per parameter of the tag
      table, in table order. */
  method ReadTagParams(s: TagStyle, data: string, rstTypeInParamPriority: bool) returns (lst: seq<ListKey.Entry>)
    ensures lst == TagEntries(TagParams.Elements(s, SplitLines(data)).ret, rstTypeInParamPriority)
  {
    var extracted := TagTable(data, s);
    lst := TableEntries(extracted, rstTypeInParamPriority);
  }

  /** The loop of `_extract_tagstyle_docs_params`. */
  method TableEntries(extracted: TagParams.Table, rstTypeInParamPriority: bool) returns (lst: seq<ListKey.Entry>)
    ensures lst == TagEntries(extracted, rstTypeInParamPriority)
  {
    lst := [];
    for i := 0 to |extracted|
      invariant |lst| == i
      invariant forall k :: 0 <= k < i ==> lst[k] == TagEntry(extracted[k], rstTypeInParamPriority)
    {
      var entry := TagParamEntry(extracted[i], rstTypeInParamPriority);
      lst := lst + [entry];
    }
  }

  /** The tag table of the cleaned text. */
  method TagTable(data: string, s: TagStyle) returns (t: TagParams.Table)
    ensures t == TagParams.Elements(s, SplitLines(data)).ret
  {
    t := TagParams.ExtractTagstyleElements(data, s);
  }

  /** The body of the loop of `_extract_tagstyle_docs_params`: the type
      written in the parameter line wins when the option asks for it. */
  method TagParamEntry(it: TagParams.Item, rstTypeInParamPriority: bool) returns (e: ListKey.Entry)
    ensures e == TagEntry(it, rstTypeInParamPriority)
  {
    var ptype := it.entry.typ;
    if rstTypeInParamPriority && Filled(it.entry.typeInParam) {
      ptype := it.entry.typeInParam;
    }
    var desc := if Filled(it.entry.desc) then it.entry.desc.value else "";
    e := ListKey.Entry(Some(it.name), desc, ptype);
  }

  /** The dispatch of `_extract_docs_return`. */
  method ReadReturn(style: string, data: string, ret0: RetDesc, rtype0: Option<string>) returns (ret: RetDesc, rtype: Option<string>)
    ensures (ret, rtype) == ReturnRead(style, data, ret0, rtype0)
  {
    ret, rtype := ret0, rtype0;
    if style == "numpydoc" {
      NumpyKeys();
      var lst := ListKey.GetReturnList(NumpyTools(), data);
      ret, rtype := Items(lst), None;
    } else if style == "google" {
      GoogleKeys();
      var lst := ListKey.GetReturnList(GoogleTools(), data);
      ret, rtype := Items(lst), None;
    } else if style == "groups" {
      var text := GroupItems.ExtractGroupReturn(data);
      if text.Some? {
        ret := Text(text.value);
      }
    }
  }

  /** The dispatch of `_extract_docs_raises`. */
  method ReadRaises(style: string, data: string) returns (lst: seq<RaiseItem>)
    ensures lst == RaisesRead(style, data)
  {
    if style == "numpydoc" {
      NumpyKeys();
      lst := ListKey.GetRaiseList(NumpyTools(), data);
    } else if style == "google" {
      GoogleKeys();
      lst := ListKey.GetRaiseList(GoogleTools(), data);
    } else if style == "groups" {
      lst := GroupItems.ExtractGroupRaises(data);
    } else {
      lst := [];
    }
  }

  /** The numpydoc table knows the keys the extractors ask for. */
  lemma NumpyKeys()
    ensures Lookup(NumpyTools().opt, "param").Some?
    ensures Lookup(NumpyTools().opt, "return").Some?
    ensures Lookup(NumpyTools().opt, "raise").Some?
  {
    var ks := Keys(NumpyTools().opt);
    assert ks[6] == "param" && ks[7] == "raise" && ks[9] == "return";
  }

  /** So does the Google table. */
  lemma GoogleKeys()
    ensures Lookup(GoogleTools().opt, "param").Some?
    ensures Lookup(GoogleTools().opt, "return").Some?
    ensures Lookup(GoogleTools().opt, "raise").Some?
  {
    var ks := Keys(GoogleTools().opt);
    assert ks[1] == "param" && ks[2] == "raise" && ks[3] == "return";
  }

  /** `DocString(...)`: the object, then `parse_definition`; the exception of
      an unreadable signature leaves no object. */
  method NewDocString(config: Config, dst: DocsTools, caseConfig: Sig.CaseConfig, spaces: string, docsRaw: Option<string>,
                      inputStyle: Option<string>, trailingSpace: bool, typeStub: bool, beforeLim: string)
    returns (r: Result<DocString>)
    modifies dst
    ensures dst.styleOut == old(dst.styleOut)
    ensures DefinedElement(caseConfig).1.Some? <==> r.Err?
    ensures r.Ok? ==> fresh(r.value) && r.value.dst == dst && r.value.config == config
    ensures r.Ok? ==> r.value.Data() == State(DefinedElement(caseConfig).0, beforeLim, if trailingSpace then " " else "", typeStub,
                              DocsIn(InputRaw(docsRaw), "", None, [], NoReturn, None, []),
                              DocsOut("", None, [], NoReturn, None, [], OutSpaces(spaces), None, None),
                              true, false, false, DefaultOptions)
  {
    var d := new DocString(config, dst, caseConfig, spaces, docsRaw, inputStyle, trailingSpace, typeStub, beforeLim);
    var p := d.ParseDefinition();
    if p.Err? {
      return Err(p.msg);
    }
    return Ok(d);
  }
}
