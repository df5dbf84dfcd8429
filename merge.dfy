/** The merge step of `DocString.generate_docs`: what was read from the
    input docstring is combined with what the signature says into the
    output parameters, return, raises and trailing numpydoc sections. */
module Merge {
  import opened Wrappers
  import opened Text
  import Utils
  import opened Signature
  import ListKey
  import TagParams
  import opened Strategy
  import SectionTools

  // ---------------------------------------------------------------------
  // Dictionaries built by a comprehension over (key, value) pairs: a key
  // keeps the position of its first insertion and the value of its last.

  function Put<K(==), V>(d: seq<(K, V)>, k: K, v: V): (r: seq<(K, V)>)
    decreases |d|
  {
    if d == [] then [(k, v)]
    else if d[0].0 == k then [(k, v)] + d[1..]
    else [d[0]] + Put(d[1..], k, v)
  }

  function Get<K(==), V>(d: seq<(K, V)>, k: K): Option<V>
    decreases |d|
  {
    if d == [] then None
    else if d[0].0 == k then Some(d[0].1)
    else Get(d[1..], k)
  }

  function KeysOf<K, V>(d: seq<(K, V)>): (r: seq<K>)
    ensures |r| == |d| && forall i :: 0 <= i < |d| ==> r[i] == d[i].0
  {
    seq(|d|, i requires 0 <= i < |d| => d[i].0)
  }

  /** `{k: v for k, v in kvs}`. */
  function DictOf<K(==), V>(kvs: seq<(K, V)>): seq<(K, V)>
    decreases |kvs|
  {
    if kvs == [] then []
    else Put(DictOf(kvs[..|kvs| - 1]), kvs[|kvs| - 1].0, kvs[|kvs| - 1].1)
  }

  /** The value of the last pair with the key. */
  function LastValue<K(==), V>(kvs: seq<(K, V)>, k: K): Option<V>
    decreases |kvs|
  {
    if kvs == [] then None
    else if kvs[|kvs| - 1].0 == k then Some(kvs[|kvs| - 1].1)
    else LastValue(kvs[..|kvs| - 1], k)
  }

  /** The keys in the order of their first occurrence. */
  function FirstOccurrences<K(==)>(ks: seq<K>): seq<K>
    decreases |ks|
  {
    if ks == [] then []
    else
      var front := FirstOccurrences(ks[..|ks| - 1]);
      if ks[|ks| - 1] in front then front else front + [ks[|ks| - 1]]
  }

  predicate NoDuplicates<K(==)>(ks: seq<K>) {
    forall i, j :: 0 <= i < j < |ks| ==> ks[i] != ks[j]
  }

  lemma {:induction false} GetPut<K, V>(d: seq<(K, V)>, k: K, v: V, q: K)
    ensures Get(Put(d, k, v), q) == if q == k then Some(v) else Get(d, q)
    decreases |d|
  {
    if d != [] && d[0].0 != k {
      GetPut(d[1..], k, v, q);
      assert Put(d, k, v)[1..] == Put(d[1..], k, v);
    }
  }

  lemma {:induction false} KeysPut<K, V>(d: seq<(K, V)>, k: K, v: V)
    ensures KeysOf(Put(d, k, v)) == if k in KeysOf(d) then KeysOf(d) else KeysOf(d) + [k]
    decreases |d|
  {
    if d != [] {
      if d[0].0 == k {
        assert KeysOf(Put(d, k, v)) == KeysOf(d);
      } else {
        KeysPut(d[1..], k, v);
        assert KeysOf(d) == [d[0].0] + KeysOf(d[1..]);
        assert KeysOf(Put(d, k, v)) == [d[0].0] + KeysOf(Put(d[1..], k, v));
      }
    }
  }

  /** A lookup in the dictionary finds the last value given for the key. */
  lemma {:induction false} DictLookup<K, V>(kvs: seq<(K, V)>, k: K)
    ensures Get(DictOf(kvs), k) == LastValue(kvs, k)
    decreases |kvs|
  {
    if kvs != [] {
      DictLookup(kvs[..|kvs| - 1], k);
      GetPut(DictOf(kvs[..|kvs| - 1]), kvs[|kvs| - 1].0, kvs[|kvs| - 1].1, k);
    }
  }

  lemma {:induction false} FirstOccurrencesElems<K>(ks: seq<K>)
    ensures forall x :: x in FirstOccurrences(ks) <==> x in ks
    ensures NoDuplicates(FirstOccurrences(ks))
    decreases |ks|
  {
    if ks != [] {
      var front := ks[..|ks| - 1];
      FirstOccurrencesElems(front);
      assert ks == front + [ks[|ks| - 1]];
    }
  }

  /** The dictionary's keys are the keys given, each once, in the order of
      their first occurrence. */
  lemma {:induction false} DictKeys<K, V>(kvs: seq<(K, V)>)
    ensures KeysOf(DictOf(kvs)) == FirstOccurrences(KeysOf(kvs))
    ensures NoDuplicates(KeysOf(DictOf(kvs)))
    decreases |kvs|
  {
    if kvs != [] {
      var front := kvs[..|kvs| - 1];
      DictKeys(front);
      KeysPut(DictOf(front), kvs[|kvs| - 1].0, kvs[|kvs| - 1].1);
      assert KeysOf(kvs)[..|kvs| - 1] == KeysOf(front);
    }
    FirstOccurrencesElems(KeysOf(kvs));
  }

  // ---------------------------------------------------------------------
  // Parameters (`__extract_params`).

  datatype SigInfo = SigInfo(ptype: string, default: string)
  datatype DocInfo = DocInfo(desc: string, ptype: Option<string>)

  function SigPairs(ps: seq<Param>): (r: seq<(string, SigInfo)>)
    ensures |r| == |ps| && forall i :: 0 <= i < |ps| ==> r[i] == (ps[i].name, SigInfo(ps[i].ptype, ps[i].default))
  {
    seq(|ps|, i requires 0 <= i < |ps| => (ps[i].name, SigInfo(ps[i].ptype, ps[i].default)))
  }

  function DocPairs(es: seq<ListKey.Entry>): (r: seq<(Option<string>, DocInfo)>)
    ensures |r| == |es| && forall i :: 0 <= i < |es| ==> r[i] == (es[i].key, DocInfo(es[i].desc, es[i].ptype))
  {
    seq(|es|, i requires 0 <= i < |es| => (es[i].key, DocInfo(es[i].desc, es[i].ptype)))
  }

  /** The output type: the signature's when it has one, unless the
      docstring gives one and the type hint has no priority; the
      docstring's (even an empty one) when the signature has none. */
  function OutTypeOf(sigType: string, doc: Option<DocInfo>, hintTypePriority: bool): (r: Option<string>)
    ensures doc.None? ==> r == (if sigType != "" then Some(sigType) else None)
    ensures doc.Some? && sigType == "" ==> r == doc.value.ptype
    ensures doc.Some? && sigType != "" && hintTypePriority ==> r == Some(sigType)
    ensures doc.Some? && !hintTypePriority && Filled(doc.value.ptype) ==> r == doc.value.ptype
    ensures doc.Some? && sigType != "" && !Filled(doc.value.ptype) ==> r == Some(sigType)
  {
    var t := if sigType != "" then Some(sigType) else None;
    match doc
    case None => t
    case Some(d) => if t.None? || (!hintTypePriority && Filled(d.ptype)) then d.ptype else t
  }

  /** The output default: the signature's, normalised, when it has one. */
  function OutDefaultOf(sigDefault: string): (r: Option<string>)
    ensures sigDefault == "" <==> r.None?
    ensures r.Some? ==> |r.value| <= |sigDefault|
  {
    if sigDefault != "" then Utils.NormalizeDefaultValue(Some(sigDefault)) else None
  }

  function MergeOne(name: string, s: SigInfo, doc: Option<DocInfo>, hintTypePriority: bool): OutParam {
    OutParam(name, if doc.Some? then doc.value.desc else "", OutTypeOf(s.ptype, doc, hintTypePriority), OutDefaultOf(s.default))
  }

  /** One output parameter per signature dictionary entry, in order. */
  function MergeAll(sig: seq<(string, SigInfo)>, docs: seq<(Option<string>, DocInfo)>, hintTypePriority: bool): (r: seq<OutParam>)
    ensures |r| == |sig|
    ensures forall i :: 0 <= i < |sig| ==> r[i] == MergeOne(sig[i].0, sig[i].1, Get(docs, Some(sig[i].0)), hintTypePriority)
    decreases |sig|
  {
    if sig == [] then []
    else
      var i := |sig| - 1;
      MergeAll(sig[..i], docs, hintTypePriority) + [MergeOne(sig[i].0, sig[i].1, Get(docs, Some(sig[i].0)), hintTypePriority)]
  }

  function MergedParams(ps: seq<Param>, es: seq<ListKey.Entry>, hintTypePriority: bool): seq<OutParam> {
    MergeAll(DictOf(SigPairs(ps)), DictOf(DocPairs(es)), hintTypePriority)
  }

  /** `__extract_params` and `_set_params`: the generator's loop. */
  method ExtractParams(ps: seq<Param>, es: seq<ListKey.Entry>, hintTypePriority: bool) returns (out: seq<OutParam>)
    ensures out == MergedParams(ps, es, hintTypePriority)
  {
    var sig := DictOf(SigPairs(ps));
    var docs := DictOf(DocPairs(es));
    out := [];
    for i := 0 to |sig|
      invariant out == MergeAll(sig[..i], docs, hintTypePriority)
    {
      assert sig[..i + 1][..i] == sig[..i];
      out := out + [MergeOne(sig[i].0, sig[i].1, Get(docs, Some(sig[i].0)), hintTypePriority)];
    }
    assert sig[..|sig|] == sig;
  }

  function ParamNames(ps: seq<Param>): (r: seq<string>)
    ensures |r| == |ps| && forall i :: 0 <= i < |ps| ==> r[i] == ps[i].name
  {
    seq(|ps|, i requires 0 <= i < |ps| => ps[i].name)
  }

  function OutNames(out: seq<OutParam>): (r: seq<string>)
    ensures |r| == |out| && forall i :: 0 <= i < |out| ==> r[i] == out[i].name
  {
    seq(|out|, i requires 0 <= i < |out| => out[i].name)
  }

  /** The output parameters are the signature's, each name once, in the
      order of first occurrence: a documented parameter that is not in the
      signature is dropped. */
  lemma MergedNames(ps: seq<Param>, es: seq<ListKey.Entry>, hintTypePriority: bool)
    ensures OutNames(MergedParams(ps, es, hintTypePriority)) == FirstOccurrences(ParamNames(ps))
    ensures NoDuplicates(OutNames(MergedParams(ps, es, hintTypePriority)))
  {
    var sig := DictOf(SigPairs(ps));
    DictKeys(SigPairs(ps));
    assert KeysOf(SigPairs(ps)) == ParamNames(ps);
    assert OutNames(MergedParams(ps, es, hintTypePriority)) == KeysOf(sig);
  }

  /** Each output parameter takes the description of the last docstring
      entry of its name ("" when undocumented), the default of the last
      signature parameter of its name, and its type by `OutTypeOf`. */
  lemma MergedFields(ps: seq<Param>, es: seq<ListKey.Entry>, hintTypePriority: bool, i: nat)
    requires i < |MergedParams(ps, es, hintTypePriority)|
    ensures var o := MergedParams(ps, es, hintTypePriority)[i];
      var s := LastValue(SigPairs(ps), o.name);
      var d := LastValue(DocPairs(es), Some(o.name));
      && s.Some?
      && o.desc == (if d.Some? then d.value.desc else "")
      && o.default == OutDefaultOf(s.value.default)
      && o.ptype == OutTypeOf(s.value.ptype, d, hintTypePriority)
  {
    var sig := DictOf(SigPairs(ps));
    var docs := DictOf(DocPairs(es));
    var name := sig[i].0;
    DictKeys(SigPairs(ps));
    GetKey(sig, i);
    DictLookup(SigPairs(ps), name);
    DictLookup(DocPairs(es), Some(name));
    MergeAt(sig, docs, hintTypePriority, i);
  }

  lemma MergeAt(sig: seq<(string, SigInfo)>, docs: seq<(Option<string>, DocInfo)>, hintTypePriority: bool, i: nat)
    requires i < |sig|
    ensures MergeAll(sig, docs, hintTypePriority)[i] == MergeOne(sig[i].0, sig[i].1, Get(docs, Some(sig[i].0)), hintTypePriority)
  {
  }

  /** The i-th entry of a dictionary is what a lookup of its key finds. */
  lemma {:induction false} GetKey<K, V>(d: seq<(K, V)>, i: nat)
    requires i < |d| && NoDuplicates(KeysOf(d))
    ensures Get(d, d[i].0) == Some(d[i].1)
    decreases i
  {
    if i > 0 {
      assert KeysOf(d)[0] != KeysOf(d)[i];
      assert NoDuplicates(KeysOf(d[1..])) by {
        forall a, b | 0 <= a < b < |d[1..]| ensures KeysOf(d[1..])[a] != KeysOf(d[1..])[b] {
          assert KeysOf(d)[a + 1] != KeysOf(d)[b + 1];
        }
      }
      GetKey(d[1..], i - 1);
    }
  }

  // ---------------------------------------------------------------------
  // Return (`__extract_return`).

  /** A section-based output style keeps the list of returns as it is. */
  predicate SectionStyle(style: string) {
    style == "groups" || style == "numpydoc" || style == "google"
  }

  /** The description: the first listed return, "name-> desc" when it is
      named, for an output style that has no list; otherwise unchanged. */
  function ReturnComment(inRet: RetDesc, styleOut: string): (r: RetDesc)
    ensures !inRet.Items? || SectionStyle(styleOut) ==> r == inRet
    ensures inRet.Items? && !SectionStyle(styleOut) && inRet.items == [] ==> r == NoReturn
    ensures inRet.Items? && !SectionStyle(styleOut) && inRet.items != [] ==>
      var e := inRet.items[0];
      r == Text(if e.key.Some? then e.key.value + "-> " + e.desc else e.desc)
  {
    if inRet.Items? && !SectionStyle(styleOut) then
      if inRet.items == [] then NoReturn
      else
        var e := inRet.items[0];
        Text(if e.key.Some? then e.key.value + "-> " + e.desc else e.desc)
    else inRet
  }

  /** The return type: the element's type hint wins when the option asks
      for it or no output type was set yet; otherwise the docstring's (the
      first listed return's type for an output style that has no list). */
  function ReturnType(inRet: RetDesc, inRtype: Option<string>, styleOut: string, hintRtypePriority: bool,
                      outRtypeBefore: Option<string>, elemRtype: string): (r: Option<string>)
    ensures (hintRtypePriority || !Filled(outRtypeBefore)) && elemRtype != "" ==> r == Some(elemRtype)
    ensures !((hintRtypePriority || !Filled(outRtypeBefore)) && elemRtype != "") ==> r == DocReturnType(inRet, inRtype, styleOut)
  {
    if (hintRtypePriority || !Filled(outRtypeBefore)) && elemRtype != "" then Some(elemRtype)
    else DocReturnType(inRet, inRtype, styleOut)
  }

  function DocReturnType(inRet: RetDesc, inRtype: Option<string>, styleOut: string): Option<string> {
    if inRet.Items? && !SectionStyle(styleOut) then
      if inRet.items == [] then None else inRet.items[0].ptype
    else inRtype
  }

  /** With the type hint first (the default), an element with a return type
      hint always shows that type, and the description never depends on it. */
  lemma HintedReturn(inRet: RetDesc, inRtype: Option<string>, styleOut: string, before: Option<string>, elemRtype: string)
    requires elemRtype != ""
    ensures ReturnType(inRet, inRtype, styleOut, true, before, elemRtype) == Some(elemRtype)
    ensures ReturnType(inRet, inRtype, styleOut, false, None, elemRtype) == Some(elemRtype)
  {
  }

  // ---------------------------------------------------------------------
  // Raises (`__extract_raises`, `_set_raises`).

  /** Raises are kept unless the output is numpydoc, the input is not, and
      numpydoc excludes its raises section. */
  predicate RaisesGate(styleIn: string, styleOut: string) {
    styleOut != "numpydoc" || styleIn == "numpydoc"
    || (styleOut == "numpydoc" && "raise" !in SectionTools.NumpyTools().excluded)
  }

  function ExtractRaises(raises: seq<RaiseItem>, styleIn: string, styleOut: string): Option<seq<RaiseItem>> {
    if raises != [] && RaisesGate(styleIn, styleOut) then Some(raises) else None
  }

  /** `_set_raises`: only a non-empty list replaces the output raises. */
  function SetRaises(outRaises: seq<RaiseItem>, extracted: Option<seq<RaiseItem>>): seq<RaiseItem> {
    if extracted.Some? && extracted.value != [] then extracted.value else outRaises
  }

  /** numpydoc excludes no section, so the gate always opens: the input
      raises always reach the output when there are any. */
  lemma RaisesAlwaysKept(raises: seq<RaiseItem>, outRaises: seq<RaiseItem>, styleIn: string, styleOut: string)
    ensures ExtractRaises(raises, styleIn, styleOut) == if raises == [] then None else Some(raises)
    ensures SetRaises(outRaises, ExtractRaises(raises, styleIn, styleOut)) == if raises == [] then outRaises else raises
  {
    assert SectionTools.NumpyTools().excluded == [];
  }

  // ---------------------------------------------------------------------
  // The sections numpydoc does not manage (`__extract_other`).

  /** For a numpydoc input, the raw sections it does not manage; "" when
      there is no input docstring and no post text was set yet; nothing
      otherwise. `post` is `None` while the output has no `post` key. */
  function ExtractOther(styleIn: string, raw: Option<string>, post: Option<Option<string>>): (r: Option<string>)
    ensures styleIn != "numpydoc" ==> r.None?
    ensures styleIn == "numpydoc" && raw.Some? ==> r == Some(ListKey.RawNotManaged(SectionTools.NumpyTools(), SplitLines(raw.value)))
    ensures styleIn == "numpydoc" && raw.None? ==> (r == Some("") <==> post.None? || post.value.None?)
  {
    if styleIn == "numpydoc" then
      var t := SectionTools.NumpyTools();
      assert t.excluded == [];
      if raw.Some? then Some(ListKey.RawNotManaged(t, SplitLines(raw.value)))
      else if post.None? || post.value.None? then Some("")
      else None
    else None
  }

  // ---------------------------------------------------------------------
  // Tag-style parameters (`_extract_tagstyle_docs_params`).

  /** The type written in the parameter line wins when the option asks for
      it and there is one; a missing description becomes "". */
  function TagEntry(it: TagParams.Item, rstTypeInParamPriority: bool): (r: ListKey.Entry)
    ensures r.key == Some(it.name)
    ensures rstTypeInParamPriority && Filled(it.entry.typeInParam) ==> r.ptype == it.entry.typeInParam
    ensures !(rstTypeInParamPriority && Filled(it.entry.typeInParam)) ==> r.ptype == it.entry.typ
    ensures r.desc == if Filled(it.entry.desc) then it.entry.desc.value else ""
  {
    var ty := if rstTypeInParamPriority && Filled(it.entry.typeInParam) then it.entry.typeInParam else it.entry.typ;
    ListKey.Entry(Some(it.name), if Filled(it.entry.desc) then it.entry.desc.value else "", ty)
  }

  function TagEntries(t: TagParams.Table, rstTypeInParamPriority: bool): (r: seq<ListKey.Entry>)
    ensures |r| == |t| && forall i :: 0 <= i < |t| ==> r[i] == TagEntry(t[i], rstTypeInParamPriority)
  {
    seq(|t|, i requires 0 <= i < |t| => TagEntry(t[i], rstTypeInParamPriority))
  }

  predicate UniqueNames(t: TagParams.Table) {
    forall a, b :: 0 <= a < b < |t| ==> t[a].name != t[b].name
  }

  /** A table whose names are distinct has each name once. */
  lemma DistinctUnique(t: TagParams.Table)
    requires TagParams.Distinct(TagParams.Names(t))
    ensures UniqueNames(t)
  {
    forall a, b | 0 <= a < b < |t| ensures t[a].name != t[b].name {
      assert TagParams.Names(t)[a] != TagParams.Names(t)[b];
    }
  }

  /** The tag table has each name once, so the merge finds each tag entry
      under its own name. */
  lemma TagLookup(t: TagParams.Table, rstTypeInParamPriority: bool, i: nat)
    requires UniqueNames(t) && i < |t|
    ensures LastValue(DocPairs(TagEntries(t, rstTypeInParamPriority)), Some(t[i].name)) ==
      var e := TagEntry(t[i], rstTypeInParamPriority); Some(DocInfo(e.desc, e.ptype))
  {
    var ps := DocPairs(TagEntries(t, rstTypeInParamPriority));
    assert ps[i].0 == Some(t[i].name);
    forall j | 0 <= j < |ps| && j != i
      ensures ps[j].0 != ps[i].0
    {
      assert ps[j].0 == Some(t[j].name);
    }
    LastValueUnique(ps, i);
  }

  lemma {:induction false} LastValueUnique<K, V>(kvs: seq<(K, V)>, i: nat)
    requires i < |kvs| && forall j :: 0 <= j < |kvs| && j != i ==> kvs[j].0 != kvs[i].0
    ensures LastValue(kvs, kvs[i].0) == Some(kvs[i].1)
    decreases |kvs|
  {
    if i < |kvs| - 1 {
      LastValueUnique(kvs[..|kvs| - 1], i);
    }
  }
}
