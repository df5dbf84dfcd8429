/** The parsing of a `def`/`class` line: a trailing `#` comment is cut off
    while tracking bracket and quote nesting, a character-level state machine
    splits the parameter list into name/type/default triples, and the `-> T`
    return annotation is extracted. */
module Signature {
  import opened Wrappers
  import opened Text

  /** One parameter of a signature (`ParamsConfig`). */
  datatype Param = Param(name: string, ptype: string, default: string)

  /** The element a docstring belongs to (`CaseConfig`). */
  datatype CaseConfig = CaseConfig(
    spaces: string, name: string, etype: string, params: seq<Param>,
    rtype: string, raw: string, deftype: string)

  const EmptyParam := Param("", "", "")

  // ---------------------------------------------------------------------
  // Nesting regions. Only the outermost opener is remembered: inside a
  // region every character but that opener's closer is plain text.

  predicate IsOpener(c: char) {
    c == '(' || c == '{' || c == '[' || c == '\'' || c == '"'
  }

  function Closer(o: char): char {
    if o == '(' then ')' else if o == '{' then '}' else if o == '[' then ']' else o
  }

  /** The region after reading `c`: `None` is the top level. */
  function Next(inside: Option<char>, c: char): (r: Option<char>)
    ensures inside.None? ==> (r.Some? <==> IsOpener(c))
    ensures inside.Some? ==> (r.None? <==> c == Closer(inside.value))
  {
    if inside.None? then (if IsOpener(c) then Some(c) else None)
    else if c == Closer(inside.value) then None
    else inside
  }

  /** The region in force after reading all of `s` from the top level. */
  function Region(s: string): Option<char> {
    if s == [] then None else Next(Region(s[..|s| - 1]), s[|s| - 1])
  }

  lemma RegionStep(s: string, i: nat)
    requires i < |s|
    ensures Region(s[..i + 1]) == Next(Region(s[..i]), s[i])
  {
    assert s[..i + 1][..i] == s[..i];
  }

  /** A `#` at position `k` lying outside every region. */
  predicate IsTopHash(txt: string, k: nat)
    requires k < |txt|
  {
    txt[k] == '#' && Region(txt[..k]).None?
  }

  /** The first top-level `#` at or after `i`, or |txt| when there is none. */
  function TopHashFrom(txt: string, i: nat): (r: nat)
    requires i <= |txt|
    ensures i <= r <= |txt|
    ensures forall k :: i <= k < r ==> !IsTopHash(txt, k)
    ensures r < |txt| ==> IsTopHash(txt, r)
    decreases |txt| - i
  {
    if i == |txt| then i
    else if IsTopHash(txt, i) then i
    else TopHashFrom(txt, i + 1)
  }

  /** The signature text with a trailing comment removed. */
  function CommentFree(txt: string): string {
    txt[..TopHashFrom(txt, 0)]
  }

  /** `_remove_signature_comment`. */
  method RemoveSignatureComment(txt: string) returns (ret: string)
    ensures ret == CommentFree(txt)
  {
    ret := "";
    var inside: Option<char> := None;
    var i := 0;
    while i < |txt|
      invariant 0 <= i <= |txt|
      invariant ret == txt[..i]
      invariant inside == Region(txt[..i])
      invariant forall k :: 0 <= k < i ==> !IsTopHash(txt, k)
    {
      var c := txt[i];
      RegionStep(txt, i);
      if (inside.Some? && Closer(inside.value) != c) || (inside.None? && IsOpener(c)) {
        if inside.None? {
          inside := Some(c);
        }
        ret := ret + [c];
        i := i + 1;
        continue;
      }
      if inside.Some? && c == Closer(inside.value) {
        inside := None;
        ret := ret + [c];
        i := i + 1;
        continue;
      }
      if inside.None? && c == '#' {
        assert IsTopHash(txt, i);
        break;
      }
      ret := ret + [c];
      i := i + 1;
    }
    var h := TopHashFrom(txt, 0);
    assert h <= i;
    assert h >= i;
  }

  /** The comment-free text is a prefix that stops exactly at the first `#`
      outside a region; without such a `#` it is the whole input. */
  lemma CommentFreeCut(txt: string)
    ensures var r := CommentFree(txt);
      |r| <= |txt| && r == txt[..|r|]
      && (forall k :: 0 <= k < |r| ==> !IsTopHash(txt, k))
      && (|r| < |txt| ==> IsTopHash(txt, |r|))
  {
  }

  lemma CommentFreeWithoutHash(txt: string)
    requires '#' !in txt
    ensures CommentFree(txt) == txt
  {
  }

  // ---------------------------------------------------------------------
  // The parameter-list state machine.

  datatype Reading = ReadParam | ReadType | ReadDefault | AfterParam | AfterType | AfterDefault
  {
    function Name(): string {
      match this
      case ReadParam => "param"
      case ReadType => "type"
      case ReadDefault => "default"
      case AfterParam => "after_param"
      case AfterType => "after_type"
      case AfterDefault => "after_default"
    }

    predicate IsAfter() {
      this == AfterParam || this == AfterType || this == AfterDefault
    }
  }

  /** The scan state: the field being read, the open region, and the
      parameters so far, the last of which is the one being filled. */
  datatype SigState = SigState(reading: Reading, inside: Option<char>, params: seq<Param>)
  {
    /** There is a current parameter, and an open region starts with an opener. */
    predicate Good() {
      params != [] && (inside.None? || IsOpener(inside.value))
    }
  }

  const InitState := SigState(ReadParam, None, [EmptyParam])

  function Last(ps: seq<Param>): Param
    requires ps != []
  {
    ps[|ps| - 1]
  }

  function SetLast(ps: seq<Param>, p: Param): (r: seq<Param>)
    requires ps != []
    ensures |r| == |ps| && r[..|r| - 1] == ps[..|ps| - 1] && r[|r| - 1] == p
  {
    ps[..|ps| - 1] + [p]
  }

  /** The per-field rules for a character read outside any region. */
  function Dispatch(st: SigState, c: char): (r: SigState)
    requires st.params != [] && st.inside.None?
    ensures r.params != [] && r.inside.None?
  {
    var cur := Last(st.params);
    var st1 :=
      match st.reading
      case ReadParam =>
        if c != ':' && c != ' ' && c != ',' && c != '=' then
          st.(params := SetLast(st.params, cur.(name := cur.name + [c])))
        else if (c == ' ' && cur.name != "") || c != ' ' then st.(reading := AfterParam)
        else st
      case ReadType =>
        if c != ',' && c != '=' then st.(params := SetLast(st.params, cur.(ptype := cur.ptype + [c])))
        else st.(reading := AfterType)
      case ReadDefault =>
        if c != ',' then st.(params := SetLast(st.params, cur.(default := cur.default + [c])))
        else st.(reading := AfterDefault)
      case _ => st;
    if st1.reading.IsAfter() then
      if st1.reading == AfterParam && c == ':' then st1.(reading := ReadType)
      else if c == ',' then st1.(reading := ReadParam, params := st1.params + [EmptyParam])
      else if c == '=' then st1.(reading := ReadDefault)
      else st1
    else st1
  }

  /** One character of the parameter list. A character that opens or lies
      inside a region goes verbatim into the type or default being read; in
      any other field it is an error. */
  function Step(st: SigState, c: char): (r: Result<SigState>)
    requires st.Good()
    ensures r.Ok? ==> r.value.Good() && r.value.inside == Next(st.inside, c)
  {
    if (st.inside.Some? && Closer(st.inside.value) != c) || (st.inside.None? && IsOpener(c)) then
      var ins := if st.inside.None? then c else st.inside.value;
      var cur := Last(st.params);
      if st.reading == ReadType then
        Ok(st.(inside := Some(ins), params := SetLast(st.params, cur.(ptype := cur.ptype + [c]))))
      else if st.reading == ReadDefault then
        Ok(st.(inside := Some(ins), params := SetLast(st.params, cur.(default := cur.default + [c]))))
      else
        Err("unexpected nested element after " + [ins] + " while reading " + st.reading.Name())
    else
      Ok(Dispatch(st.(inside := None), c))
  }

  /** The whole parameter list, read from state `st`. */
  function Run(st: SigState, s: string): (r: Result<SigState>)
    requires st.Good()
    ensures r.Ok? ==> r.value.Good()
    decreases |s|
  {
    if s == [] then Ok(st)
    else
      match Step(st, s[0])
      case Err(m) => Err(m)
      case Ok(st1) => Run(st1, s[1..])
  }

  lemma RunCons(st: SigState, s: string)
    requires st.Good() && s != []
    ensures Step(st, s[0]).Err? ==> Run(st, s) == Err(Step(st, s[0]).msg)
    ensures Step(st, s[0]).Ok? ==> Run(st, s) == Run(Step(st, s[0]).value, s[1..])
  {
  }

  function StripParam(p: Param): Param {
    Param(Strip(p.name), Strip(p.ptype), Strip(p.default))
  }

  lemma StripIdempotent(s: string)
    ensures Strip(Strip(s)) == Strip(s)
  {
    var r := Strip(s);
    assert LeadingCount(r, 0) == 0;
    assert LStrip(r) == r;
    assert TrailingStart(r, |r|) == |r|;
    assert RStrip(r) == r;
  }

  /** The text between the first `(` and the last `)`, as Python slices it. */
  function ParamText(txt: string): string {
    Slice(txt, Find(txt, "(") + 1, RFindChar(txt, ')'))
  }

  /** The return annotation: the text between the last `)` and the last `:`
      with spaces, tabs and `->` deleted, then stripped. */
  function ReturnType(txt: string): (r: string)
    ensures ' ' !in r && '\t' !in r
  {
    var raw := Slice(txt, RFindChar(txt, ')') + 1, RFindChar(txt, ':'));
    CleanAnnotationHasNoBlank(raw);
    CleanAnnotation(raw)
  }

  function CleanAnnotation(raw: string): string {
    Strip(Replace(Replace(Replace(raw, " ", ""), "\t", ""), "->", ""))
  }

  lemma CleanAnnotationHasNoBlank(raw: string)
    ensures ' ' !in CleanAnnotation(raw) && '\t' !in CleanAnnotation(raw)
  {
    var a := Replace(raw, " ", "");
    var b := Replace(a, "\t", "");
    var t := Replace(b, "->", "");
    DeleteChar(raw, ' ');
    DeleteChar(a, '\t');
    if ' ' in t {
      DeleteKeepsChars(b, "->", ' ');
      DeleteKeepsChars(a, "\t", ' ');
    }
    if '\t' in t {
      DeleteKeepsChars(b, "->", '\t');
    }
    StripKeepsOut(t, ' ');
    StripKeepsOut(t, '\t');
  }

  lemma StripKeepsOut(s: string, x: char)
    requires x !in s
    ensures x !in Strip(s)
  {
    var l := LStrip(s);
    assert l == s[|s| - |l|..];
    var r := RStrip(l);
    assert r == l[..|r|];
  }

  datatype Signature = Signature(params: seq<Param>, rtype: string)

  /** What `_extract_signature_elements` returns, or the exception it raises. */
  function SignatureOf(txt: string): Result<Signature> {
    match Run(InitState, ParamText(txt))
    case Err(m) => Err(m)
    case Ok(st) => Ok(Signature(StripAll(st.params), ReturnType(txt)))
  }

  /** Runs the state machine over the parameter list. */
  method ScanParams(body: string) returns (r: Result<SigState>)
    ensures r == Run(InitState, body)
  {
    var st := InitState;
    var i := 0;
    while i < |body|
      invariant 0 <= i <= |body|
      invariant st.Good()
      invariant Run(st, body[i..]) == Run(InitState, body)
    {
      assert body[i..][1..] == body[i + 1..];
      RunCons(st, body[i..]);
      var step := Step(st, body[i]);
      if step.Err? {
        return Err(step.msg);
      }
      st := step.value;
      i := i + 1;
    }
    assert body[i..] == [];
    return Ok(st);
  }

  /** Every field of every parameter, whitespace-trimmed. */
  function StripAll(ps: seq<Param>): (r: seq<Param>)
    ensures |r| == |ps| && forall k :: 0 <= k < |ps| ==> r[k] == StripParam(ps[k])
  {
    seq(|ps|, i requires 0 <= i < |ps| => StripParam(ps[i]))
  }

  /** The final loop of `_extract_signature_elements`, trimming every field. */
  method StripFields(params: seq<Param>) returns (ps: seq<Param>)
    ensures ps == StripAll(params)
  {
    ps := [];
    var j := 0;
    while j < |params|
      invariant 0 <= j <= |params|
      invariant |ps| == j
      invariant forall k :: 0 <= k < j ==> ps[k] == StripParam(params[k])
    {
      ps := ps + [StripParam(params[j])];
      j := j + 1;
    }
  }

  /** `_extract_signature_elements`. */
  method ExtractSignatureElements(txt: string) returns (r: Result<Signature>)
    ensures r == SignatureOf(txt)
  {
    var scanned := ScanParams(ParamText(txt));
    if scanned.Err? {
      return Err(scanned.msg);
    }
    var ps := StripFields(scanned.value.params);
    r := Ok(Signature(ps, ReturnType(txt)));
  }

  // ---------------------------------------------------------------------
  // Properties of the state machine.

  /** A comma outside every region closes the current parameter and opens a
      fresh empty one, whatever field was being read. */
  lemma TopLevelCommaStartsParam(st: SigState)
    requires st.Good() && st.inside.None?
    ensures Step(st, ',') == Ok(SigState(ReadParam, None, st.params + [EmptyParam]))
  {
  }

  /** A character that opens or lies inside a region is appended verbatim to
      the type or the default being read; while reading anything else it
      raises the "unexpected nested element" error. */
  lemma NestedCharVerbatim(st: SigState, c: char)
    requires st.Good()
    requires (st.inside.Some? && c != Closer(st.inside.value)) || (st.inside.None? && IsOpener(c))
    ensures var cur := Last(st.params);
      var ins := Next(st.inside, c);
      && (st.reading == ReadType ==>
            Step(st, c) == Ok(st.(inside := ins, params := SetLast(st.params, cur.(ptype := cur.ptype + [c])))))
      && (st.reading == ReadDefault ==>
            Step(st, c) == Ok(st.(inside := ins, params := SetLast(st.params, cur.(default := cur.default + [c])))))
      && (st.reading != ReadType && st.reading != ReadDefault ==> Step(st, c).Err?)
  {
  }

  /** An opening bracket or quote met while reading a parameter name is an error. */
  lemma OpenerInNameFails(st: SigState, c: char)
    requires st.Good() && st.inside.None? && st.reading == ReadParam && IsOpener(c)
    ensures Step(st, c) == Err("unexpected nested element after " + [c] + " while reading param")
  {
  }

  /** The number of commas outside every region, starting in region `ins`. */
  function TopCommas(ins: Option<char>, s: string): nat
    decreases |s|
  {
    if s == [] then 0
    else (if ins.None? && s[0] == ',' then 1 else 0) + TopCommas(Next(ins, s[0]), s[1..])
  }

  lemma StepParamCount(st: SigState, c: char)
    requires st.Good() && Step(st, c).Ok?
    ensures |Step(st, c).value.params| == |st.params| + (if st.inside.None? && c == ',' then 1 else 0)
  {
  }

  lemma {:induction false} RunParamCount(st: SigState, s: string)
    requires st.Good() && Run(st, s).Ok?
    ensures |Run(st, s).value.params| == |st.params| + TopCommas(st.inside, s)
    decreases |s|
  {
    if s != [] {
      var st1 := Step(st, s[0]).value;
      StepParamCount(st, s[0]);
      RunParamCount(st1, s[1..]);
    }
  }

  /** A successful split yields one parameter more than there are commas
      outside brackets and quotes. */
  lemma ParamCountIsTopCommasPlusOne(txt: string)
    requires SignatureOf(txt).Ok?
    ensures |SignatureOf(txt).value.params| == 1 + TopCommas(None, ParamText(txt))
  {
    RunParamCount(InitState, ParamText(txt));
  }

  /** Every extracted field is whitespace-trimmed, and the return type holds
      no space or tab. */
  lemma SignatureFieldsTrimmed(txt: string)
    requires SignatureOf(txt).Ok?
    ensures var sig := SignatureOf(txt).value;
      (forall k :: 0 <= k < |sig.params| ==>
         Strip(sig.params[k].name) == sig.params[k].name
         && Strip(sig.params[k].ptype) == sig.params[k].ptype
         && Strip(sig.params[k].default) == sig.params[k].default)
      && ' ' !in sig.rtype && '\t' !in sig.rtype
  {
    var sig := SignatureOf(txt).value;
    forall k | 0 <= k < |sig.params|
      ensures Strip(sig.params[k].name) == sig.params[k].name
      ensures Strip(sig.params[k].ptype) == sig.params[k].ptype
      ensures Strip(sig.params[k].default) == sig.params[k].default
    {
      var p := Run(InitState, ParamText(txt)).value.params[k];
      StripIdempotent(p.name);
      StripIdempotent(p.ptype);
      StripIdempotent(p.default);
    }
  }

  /** A whole bracketed or quoted region met while reading a type goes into
      the type verbatim, delimiters included. */
  lemma {:induction false} RegionIntoType(st: SigState, o: char, inner: string)
    requires st.Good() && st.inside.None? && st.reading == ReadType
    requires IsOpener(o) && Closer(o) !in inner
    ensures var cur := Last(st.params);
      Run(st, [o] + inner + [Closer(o)])
        == Ok(st.(params := SetLast(st.params, cur.(ptype := cur.ptype + [o] + inner + [Closer(o)]))))
  {
    var cur := Last(st.params);
    var st1 := st.(inside := Some(o), params := SetLast(st.params, cur.(ptype := cur.ptype + [o])));
    assert Step(st, o) == Ok(st1);
    var s := [o] + inner + [Closer(o)];
    assert s[1..] == inner + [Closer(o)];
    InsideType(st1, inner, Closer(o));
  }

  lemma {:induction false} InsideType(st: SigState, inner: string, cl: char)
    requires st.Good() && st.inside.Some? && st.reading == ReadType
    requires cl == Closer(st.inside.value) && cl !in inner
    ensures var cur := Last(st.params);
      Run(st, inner + [cl])
        == Ok(st.(inside := None, params := SetLast(st.params, cur.(ptype := cur.ptype + inner + [cl]))))
    decreases |inner|
  {
    var cur := Last(st.params);
    if inner == [] {
      assert Step(st, cl) == Ok(st.(inside := None, params := SetLast(st.params, cur.(ptype := cur.ptype + [cl]))));
      assert inner + [cl] == [cl];
      assert cur.ptype + inner + [cl] == cur.ptype + [cl];
      RunCons(st, [cl]);
      assert Run(Step(st, cl).value, []) == Ok(Step(st, cl).value);
    } else {
      var c := inner[0];
      var st1 := st.(params := SetLast(st.params, cur.(ptype := cur.ptype + [c])));
      assert Step(st, c) == Ok(st1);
      assert (inner + [cl])[1..] == inner[1..] + [cl];
      InsideType(st1, inner[1..], cl);
      assert Last(st1.params).ptype + inner[1..] + [cl] == cur.ptype + inner + [cl];
    }
  }

  // ---------------------------------------------------------------------
  // The definition line.

  /** A parameter that `parse_definition` keeps: not `self`, not `cls`, not empty. */
  predicate Kept(p: Param) {
    p.name != "self" && p.name != "cls" && p.name != ""
  }

  /** The parameters left once `self`, `cls` and empty names are removed.
      The source first collects those entries and then removes each by value;
      as equal entries have equal names, that removes exactly the collected
      ones and keeps the order of the rest. */
  function KeptParams(ps: seq<Param>): (r: seq<Param>)
    ensures |r| <= |ps|
  {
    if ps == [] then []
    else (if Kept(ps[0]) then [ps[0]] else []) + KeptParams(ps[1..])
  }

  /** Exactly the kept parameters survive: every survivor is a kept
      parameter of the input, and every kept parameter survives. */
  lemma {:induction false} KeptParamsExact(ps: seq<Param>)
    ensures forall p :: p in KeptParams(ps) <==> p in ps && Kept(p)
  {
    if ps != [] {
      KeptParamsExact(ps[1..]);
      assert ps == [ps[0]] + ps[1..];
    }
  }

  predicate IsDefinition(l: string) {
    StartsWith(l, "async def ") || StartsWith(l, "def ") || StartsWith(l, "class ")
  }

  /** The line with its keyword deleted, as the source's `replace` does it:
      every occurrence of the keyword goes, not only the leading one. */
  function DefinitionBody(l: string): string {
    if StartsWith(l, "def") then Replace(l, "def ", "")
    else if StartsWith(l, "async") then Replace(l, "async def ", "")
    else Replace(l, "class ", "")
  }

  /** The name: the text before the first `(`, stripped (with no `(` at all,
      Python's `l[:-1]` drops the last character). */
  function DefinitionName(b: string): string {
    Strip(Slice(b, 0, Find(b, "(")))
  }

  /** The removal loop of `parse_definition`. */
  method RemoveSelfAndEmpty(parameters: seq<Param>) returns (kept: seq<Param>)
    ensures kept == KeptParams(parameters)
  {
    kept := [];
    var i := 0;
    while i < |parameters|
      invariant 0 <= i <= |parameters|
      invariant kept == KeptParams(parameters[..i])
    {
      KeptParamsSnoc(parameters[..i], parameters[i]);
      assert parameters[..i + 1] == parameters[..i] + [parameters[i]];
      if Kept(parameters[i]) {
        kept := kept + [parameters[i]];
      }
      i := i + 1;
    }
    assert parameters[..i] == parameters;
  }

  /** `DocString.parse_definition` applied to the element's own raw line. */
  method ParseDefinition(e: CaseConfig) returns (r: Result<CaseConfig>)
    ensures !IsDefinition(Strip(e.raw)) ==> r == Ok(e)
    ensures IsDefinition(Strip(e.raw)) && StartsWith(Strip(e.raw), "class ") ==>
              r == Ok(e.(deftype := "class", name := DefinitionName(DefinitionBody(Strip(e.raw)))))
    ensures IsDefinition(Strip(e.raw)) && !StartsWith(Strip(e.raw), "class ") ==>
              var b := DefinitionBody(Strip(e.raw));
              match SignatureOf(CommentFree(b))
              case Err(m) => r == Err(m)
              case Ok(sig) =>
                r == Ok(e.(deftype := "def", name := DefinitionName(b),
                           rtype := if sig.rtype != "" then sig.rtype else e.rtype,
                           params := e.params + KeptParams(sig.params)))
  {
    var l := Strip(e.raw);
    if !IsDefinition(l) {
      return Ok(e);
    }
    DefinitionKinds(l);
    var isClass := !StartsWith(l, "def") && !StartsWith(l, "async");
    var b := DefinitionBody(l);
    var el := e.(deftype := if isClass then "class" else "def", name := DefinitionName(b));
    if !isClass {
      var txt := RemoveSignatureComment(b);
      var sig := ExtractSignatureElements(txt);
      if sig.Err? {
        return Err(sig.msg);
      }
      var kept := RemoveSelfAndEmpty(sig.value.params);
      if sig.value.rtype != "" {
        el := el.(rtype := sig.value.rtype);
      }
      el := el.(params := el.params + kept);
    }
    return Ok(el);
  }

  /** Exactly one of the three keyword branches applies to a definition line. */
  lemma DefinitionKinds(l: string)
    requires IsDefinition(l)
    ensures StartsWith(l, "class ") <==> (!StartsWith(l, "def") && !StartsWith(l, "async"))
  {
    if StartsWith(l, "class ") {
      assert l[0] == 'c';
    } else if StartsWith(l, "def ") {
      assert l[..3] == "def";
    } else {
      assert l[..5] == "async";
      assert l[0] == 'a';
    }
  }

  lemma {:induction false} KeptParamsSnoc(ps: seq<Param>, p: Param)
    ensures KeptParams(ps + [p]) == KeptParams(ps) + (if Kept(p) then [p] else [])
  {
    var tail := if Kept(p) then [p] else [];
    if ps == [] {
      assert ps + [p] == [p] && [p][1..] == [];
      assert KeptParams([p]) == tail + KeptParams([]);
    } else {
      var head := if Kept(ps[0]) then [ps[0]] else [];
      assert (ps + [p])[0] == ps[0];
      assert (ps + [p])[1..] == ps[1..] + [p];
      KeptParamsSnoc(ps[1..], p);
      assert KeptParams(ps + [p]) == head + (KeptParams(ps[1..]) + tail);
      assert head + (KeptParams(ps[1..]) + tail) == (head + KeptParams(ps[1..])) + tail;
    }
  }
}
