/** The column-aligned list parsers of the two section dialects
    (`_get_list_key`) and the section lookup around them (`get_list_key`,
    `get_return_list`, `get_raise_list`, numpydoc's `get_raw_not_managed`). */
module ListKey {
  import opened Wrappers
  import opened Text
  import opened Utils
  import opened SectionTools

  /** One element of a section list: `(key, description, type)`. */
  datatype Entry = Entry(key: Option<string>, desc: string, ptype: Option<string>)

  /** The loop state of `_get_list_key`: the finished list, whether an element
      is open, the open element's fields and (Google only) `param_spaces`. */
  datatype Acc = Acc(
    list: seq<Entry>,
    parsing: bool,
    key: Option<string>,
    desc: string,
    ptype: Option<string>,
    paramSpaces: nat)

  const Start: Acc := Acc([], false, None, "", None, 0)

  /** `desc += '\n'` when `desc` is non-empty, then `desc += line`. */
  function AddLine(desc: string, line: string): (r: string)
    ensures desc == "" ==> r == line
    ensures desc != "" ==> r == desc + "\n" + line
  {
    (if desc != "" then desc + "\n" else desc) + line
  }

  /** A continuation line: indented deeper than the section, it loses one
      occurrence of the section's indentation. */
  function ContText(spaces: string, line: string): string {
    if |GetLeadingSpaces(line)| > |spaces| then ReplaceFirst(line, spaces, "") else line
  }

  /** The open element, closed. */
  function Current(a: Acc): Entry {
    Entry(a.key, a.desc, a.ptype)
  }

  /** The list with the open element closed, if any. */
  function Closed(a: Acc): seq<Entry> {
    if a.parsing then a.list + [Current(a)] else a.list
  }

  // ---------------------------------------------------------------------
  // numpydoc

  /** A line of the list at exactly the section's indentation. */
  predicate IsBaseLine(spaces: string, line: string) {
    !IsBlank(line) && |GetLeadingSpaces(line)| == |spaces|
  }

  /** The key and type of a numpydoc element line `name : type`. */
  function NumpyHead(line: string): (r: (Option<string>, Option<string>))
    ensures r.0.Some?
    ensures r.1 == None <==> ':' !in line
  {
    var e := SplitOnce(line, ':');
    (Some(Strip(e[0])), if |e| > 1 then Some(Strip(e[1])) else None)
  }

  function NumpyStep(spaces: string, a: Acc, line: string): Acc {
    if IsBlank(line) then a
    else if |GetLeadingSpaces(line)| == |spaces| then
      var h := NumpyHead(line);
      Acc(Closed(a), true, h.0, "", h.1, a.paramSpaces)
    else
      a.(desc := AddLine(a.desc, ContText(spaces, line)))
  }

  function NumpyFold(spaces: string, lines: seq<string>): Acc {
    if lines == [] then Start
    else NumpyStep(spaces, NumpyFold(spaces, lines[..|lines| - 1]), lines[|lines| - 1])
  }

  /** `NumpydocTools._get_list_key` on the value level. */
  function NumpyList(spaces: string, lines: seq<string>): seq<Entry> {
    Closed(NumpyFold(spaces, lines))
  }

  /** `NumpydocTools._get_list_key`. */
  method NumpyGetListKey(spaces: string, lines: seq<string>) returns (keyList: seq<Entry>)
    ensures keyList == NumpyList(spaces, lines)
  {
    keyList := [];
    var parseKey := false;
    var key: Option<string> := None;
    var desc := "";
    var ptype: Option<string> := None;
    for i := 0 to |lines|
      invariant Acc(keyList, parseKey, key, desc, ptype, 0) == NumpyFold(spaces, lines[..i])
    {
      assert lines[..i + 1][..i] == lines[..i];
      var line := lines[i];
      if |Strip(line)| == 0 {
        continue;
      }
      var currSpaces := GetLeadingSpaces(line);
      if |currSpaces| == |spaces| {
        if parseKey {
          keyList := keyList + [Entry(key, desc, ptype)];
        }
        var elems := SplitOnce(line, ':');
        key := Some(Strip(elems[0]));
        ptype := if |elems| > 1 then Some(Strip(elems[1])) else None;
        desc := "";
        parseKey := true;
      } else {
        if |currSpaces| > |spaces| {
          line := ReplaceFirst(line, spaces, "");
        }
        if desc != "" {
          desc := desc + "\n";
        }
        desc := desc + line;
      }
    }
    assert lines[..|lines|] == lines;
    if parseKey {
      keyList := keyList + [Entry(key, desc, ptype)];
    }
  }

  /** The (key, type) pairs of a list of elements. */
  function Heads(es: seq<Entry>): (r: seq<(Option<string>, Option<string>)>)
    ensures |r| == |es|
    ensures forall k :: 0 <= k < |es| ==> r[k] == (es[k].key, es[k].ptype)
  {
    seq(|es|, k requires 0 <= k < |es| => (es[k].key, es[k].ptype))
  }

  /** The (key, type) pairs a numpydoc list should yield: one per base line,
      in order. */
  function BaseHeads(spaces: string, lines: seq<string>): seq<(Option<string>, Option<string>)> {
    if lines == [] then []
    else
      var l := lines[|lines| - 1];
      BaseHeads(spaces, lines[..|lines| - 1]) + (if IsBaseLine(spaces, l) then [NumpyHead(l)] else [])
  }

  lemma HeadsSnoc(es: seq<Entry>, e: Entry)
    ensures Heads(es + [e]) == Heads(es) + [(e.key, e.ptype)]
  {
    assert forall k :: 0 <= k < |es| ==> (es + [e])[k] == es[k];
  }

  lemma HeadsClosed(a: Acc)
    ensures Heads(Closed(a)) == Heads(a.list) + (if a.parsing then [(a.key, a.ptype)] else [])
  {
    if a.parsing {
      HeadsSnoc(a.list, Current(a));
    }
  }

  lemma {:induction false} NumpyFoldHeads(spaces: string, lines: seq<string>)
    ensures Heads(NumpyList(spaces, lines)) == BaseHeads(spaces, lines)
  {
    if lines != [] {
      var pre := lines[..|lines| - 1];
      var l := lines[|lines| - 1];
      var a := NumpyFold(spaces, pre);
      NumpyFoldHeads(spaces, pre);
      HeadsClosed(a);
      HeadsClosed(NumpyStep(spaces, a, l));
      if IsBaseLine(spaces, l) {
        HeadsSnoc(Closed(a), Current(a));
      }
    }
  }

  /** The numpydoc list has one element per non-blank line at the section's
      indentation, whose key and type are that line split on its first colon
      (no type when there is no colon). */
  lemma NumpyListHeads(spaces: string, lines: seq<string>)
    ensures |NumpyList(spaces, lines)| == |BaseHeads(spaces, lines)|
    ensures forall k :: 0 <= k < |NumpyList(spaces, lines)| ==>
              (NumpyList(spaces, lines)[k].key, NumpyList(spaces, lines)[k].ptype)
                == BaseHeads(spaces, lines)[k]
  {
    NumpyFoldHeads(spaces, lines);
  }

  /** The continuation text of an element: the non-blank lines, each with one
      occurrence of the section's indentation removed when deeper. */
  function ContLines(spaces: string, lines: seq<string>): seq<string> {
    if lines == [] then []
    else
      var l := lines[|lines| - 1];
      ContLines(spaces, lines[..|lines| - 1]) + (if IsBlank(l) then [] else [ContText(spaces, l)])
  }

  lemma ContTextNonEmpty(spaces: string, line: string)
    requires !IsBlank(line)
    ensures ContText(spaces, line) != ""
  {
    if |GetLeadingSpaces(line)| > |spaces| {
      var i := Find(line, spaces);
      assert |ContText(spaces, line)| >= |line| - |spaces|;
    }
  }

  lemma {:induction false} JoinSnoc(parts: seq<string>, x: string)
    requires parts != []
    ensures Join("\n", parts + [x]) == Join("\n", parts) + "\n" + x
  {
    if |parts| == 1 {
      assert parts + [x] == [parts[0], x];
    } else {
      assert (parts + [x])[1..] == parts[1..] + [x];
      JoinSnoc(parts[1..], x);
    }
  }

  lemma {:induction false} ContLinesNonEmpty(spaces: string, lines: seq<string>)
    ensures forall k :: 0 <= k < |ContLines(spaces, lines)| ==> ContLines(spaces, lines)[k] != ""
  {
    if lines != [] {
      var l := lines[|lines| - 1];
      ContLinesNonEmpty(spaces, lines[..|lines| - 1]);
      if !IsBlank(l) {
        ContTextNonEmpty(spaces, l);
      }
    }
  }

  /** Folding continuation lines into an open element joins their texts
      with newlines. */
  lemma {:induction false} NumpyFoldBlock(spaces: string, head: string, more: seq<string>)
    requires IsBaseLine(spaces, head)
    requires forall k :: 0 <= k < |more| ==> !IsBaseLine(spaces, more[k])
    ensures var h := NumpyHead(head);
      NumpyFold(spaces, [head] + more) == Acc([], true, h.0, Join("\n", ContLines(spaces, more)), h.1, 0)
  {
    if more == [] {
      NumpyFoldHead(spaces, head);
    } else {
      var pre := more[..|more| - 1];
      NumpyFoldBlock(spaces, head, pre);
      NumpyFoldExtend(spaces, head, more);
    }
  }

  lemma NumpyFoldHead(spaces: string, head: string)
    requires IsBaseLine(spaces, head)
    ensures var h := NumpyHead(head);
      NumpyFold(spaces, [head]) == Acc([], true, h.0, Join("\n", ContLines(spaces, [])), h.1, 0)
  {
    assert [head][..0] == [];
    assert NumpyFold(spaces, [head]) == NumpyStep(spaces, Start, head);
  }

  /** The step of `NumpyFoldBlock`: one more continuation line. */
  lemma NumpyFoldExtend(spaces: string, head: string, more: seq<string>)
    requires more != [] && !IsBaseLine(spaces, more[|more| - 1])
    requires var h := NumpyHead(head);
      NumpyFold(spaces, [head] + more[..|more| - 1])
        == Acc([], true, h.0, Join("\n", ContLines(spaces, more[..|more| - 1])), h.1, 0)
    ensures var h := NumpyHead(head);
      NumpyFold(spaces, [head] + more) == Acc([], true, h.0, Join("\n", ContLines(spaces, more)), h.1, 0)
  {
    var pre := more[..|more| - 1];
    var l := more[|more| - 1];
    FoldSnoc(spaces, head, more);
    var a := NumpyFold(spaces, [head] + pre);
    ContLinesNonEmpty(spaces, pre);
    NumpyContStep(spaces, a, ContLines(spaces, pre), l);
  }

  /** The fold over a head and lines ends with the step on the last line. */
  lemma FoldSnoc(spaces: string, head: string, more: seq<string>)
    requires more != []
    ensures var all := [head] + more;
      NumpyFold(spaces, all) == NumpyStep(spaces, NumpyFold(spaces, [head] + more[..|more| - 1]), more[|more| - 1])
  {
    var all := [head] + more;
    assert all[..|all| - 1] == [head] + more[..|more| - 1];
  }

  /** A line off the section's indentation extends the open description. */
  lemma NumpyContStep(spaces: string, a: Acc, c: seq<string>, l: string)
    requires !IsBaseLine(spaces, l) && a.desc == Join("\n", c)
    requires forall k :: 0 <= k < |c| ==> c[k] != ""
    ensures NumpyStep(spaces, a, l) ==
      a.(desc := Join("\n", c + (if IsBlank(l) then [] else [ContText(spaces, l)])))
  {
    if !IsBlank(l) {
      JoinAddLine(spaces, c, ContText(spaces, l));
    } else {
      assert c + [] == c;
    }
  }

  lemma JoinAddLine(spaces: string, c: seq<string>, x: string)
    requires forall k :: 0 <= k < |c| ==> c[k] != ""
    ensures Join("\n", c + [x]) == AddLine(Join("\n", c), x)
  {
    if c != [] {
      JoinSnoc(c, x);
      JoinNonEmpty(c);
    } else {
      assert c + [x] == [x];
    }
  }

  /** One element line followed by deeper or shallower lines is one element
      whose description is those lines joined with newlines. */
  lemma NumpyOneElement(spaces: string, head: string, more: seq<string>)
    requires IsBaseLine(spaces, head)
    requires forall k :: 0 <= k < |more| ==> !IsBaseLine(spaces, more[k])
    ensures var h := NumpyHead(head);
      NumpyList(spaces, [head] + more) == [Entry(h.0, Join("\n", ContLines(spaces, more)), h.1)]
  {
    NumpyFoldBlock(spaces, head, more);
  }

  // ---------------------------------------------------------------------
  // Google

  /** Name and type of the Google key text `name(type[, optional])`: the type
      runs from after the first `(` to the first `,`, or to the first `)` when
      there is no comma. */
  function GoogleSplitKey(k: string): (r: (string, Option<string>))
    ensures ('(' !in k || ')' !in k) ==> r == (k, None)
  {
    if '(' in k && ')' in k then
      var tstart := FindChar(k, '(') + 1;
      var tend := if ',' in k then FindChar(k, ',') else FindChar(k, ')');
      (Strip(k[..tstart - 1]), Some(Strip(Slice(k, tstart, tend))))
    else (k, None)
  }

  /** Key, type and description of a Google element line
      `name (type): description`. */
  function GoogleHead(line: string): (r: (string, Option<string>, string))
    requires ':' in line
  {
    var e := SplitOnce(line, ':');
    var kt := GoogleSplitKey(Strip(e[0]));
    (kt.0, kt.1, Strip(e[1]))
  }

  function GoogleStep(spaces: string, a: Acc, line: string): Acc {
    if IsBlank(line) then a
    else
      var cur := |GetLeadingSpaces(line)|;
      var ps := if a.paramSpaces == 0 then cur else a.paramSpaces;
      if cur == ps then
        if ':' in line then
          var h := GoogleHead(line);
          Acc(Closed(a), true, Some(h.0), h.2, h.1, ps)
        else
          Acc(Closed(a), a.parsing, a.key, AddLine(a.desc, ContText(spaces, line)), a.ptype, ps)
      else
        a.(desc := AddLine(a.desc, ContText(spaces, line)), paramSpaces := ps)
  }

  function GoogleFold(spaces: string, lines: seq<string>): Acc {
    if lines == [] then Start
    else GoogleStep(spaces, GoogleFold(spaces, lines[..|lines| - 1]), lines[|lines| - 1])
  }

  /** The final element is kept when one is open or a description is pending. */
  function GoogleClosed(a: Acc): seq<Entry> {
    if a.parsing || a.desc != "" then a.list + [Current(a)] else a.list
  }

  /** `GoogledocTools._get_list_key` on the value level. */
  function GoogleList(spaces: string, lines: seq<string>): seq<Entry> {
    GoogleClosed(GoogleFold(spaces, lines))
  }

  /** `GoogledocTools._get_list_key`. */
  method GoogleGetListKey(spaces: string, lines: seq<string>) returns (keyList: seq<Entry>)
    ensures keyList == GoogleList(spaces, lines)
  {
    keyList := [];
    var parseKey := false;
    var key: Option<string> := None;
    var desc := "";
    var ptype: Option<string> := None;
    var paramSpaces: nat := 0;
    for i := 0 to |lines|
      invariant Acc(keyList, parseKey, key, desc, ptype, paramSpaces) == GoogleFold(spaces, lines[..i])
    {
      assert lines[..i + 1][..i] == lines[..i];
      var line := lines[i];
      if |Strip(line)| == 0 {
        continue;
      }
      var currSpaces := GetLeadingSpaces(line);
      if paramSpaces == 0 {
        paramSpaces := |currSpaces|;
      }
      if |currSpaces| == paramSpaces {
        if parseKey {
          keyList := keyList + [Entry(key, desc, ptype)];
        }
        if ':' in line {
          var k, ty, d := GoogleKeyLine(line);
          key := Some(k);
          ptype := ty;
          desc := d;
          parseKey := true;
        } else {
          desc := AddLine(desc, ContText(spaces, line));
        }
      } else {
        desc := AddLine(desc, ContText(spaces, line));
      }
    }
    assert lines[..|lines|] == lines;
    if parseKey || desc != "" {
      keyList := keyList + [Entry(key, desc, ptype)];
    }
  }

  /** `name(type, ...)` and `name(type)` give the name and the type, both
      stripped. */
  lemma GoogleTypedKey(name: string, ty: string, rest: string)
    requires '(' !in name && ',' !in name && ')' !in name
    requires ',' !in ty && ')' !in ty
    requires rest != [] && (rest[0] == ',' || (rest[0] == ')' && ',' !in rest)) && ')' in rest
    ensures GoogleSplitKey(name + "(" + ty + rest) == (Strip(name), Some(Strip(ty)))
  {
    var k := name + "(" + ty + rest;
    var p := |name|;
    var q := |name| + 1 + |ty|;
    assert k[..p] == name;
    assert k[p + 1..q] == ty;
    assert k[q..] == rest;
    FirstAt(k, '(', p);
    assert ')' in k by {
      var j :| 0 <= j < |rest| && rest[j] == ')';
      assert k[q + j] == ')';
    }
    if rest[0] == ',' {
      FirstAt(k, ',', q);
    } else {
      assert ',' !in k by {
        assert k == k[..q] + rest;
      }
      FirstAt(k, ')', q);
    }
  }

  /** `find` of a character that occurs at `i` and not before. */
  lemma FirstAt(s: string, c: char, i: nat)
    requires i < |s| && s[i] == c && c !in s[..i]
    ensures FindChar(s, c) == i
  {
    assert forall k :: 0 <= k < i ==> s[..i][k] == s[k];
  }

  /** The fields of a Google element line, as the loop body computes them. */
  method GoogleKeyLine(line: string) returns (key: string, ptype: Option<string>, desc: string)
    requires ':' in line
    ensures (key, ptype, desc) == GoogleHead(line)
  {
    var elems := SplitOnce(line, ':');
    key, ptype := GoogleSplit(Strip(elems[0]));
    desc := Strip(elems[1]);
  }

  /** The parenthesised type of a Google key text, as the loop body cuts it. */
  method GoogleSplit(k: string) returns (key: string, ptype: Option<string>)
    ensures (key, ptype) == GoogleSplitKey(k)
  {
    key := k;
    ptype := None;
    if '(' in key && ')' in key {
      var tstart := FindChar(key, '(') + 1;
      var tend := FindChar(key, ')');
      if ',' in key {
        tend := FindChar(key, ',');
      }
      ptype := Some(Strip(Slice(key, tstart, tend)));
      key := Strip(key[..tstart - 1]);
    }
  }

  /** A lone Google element line yields one element whose fields are taken
      from the line. */
  lemma GoogleOneLine(spaces: string, line: string)
    requires !IsBlank(line) && ':' in line
    ensures var h := GoogleHead(line);
      GoogleList(spaces, [line]) == [Entry(Some(h.0), h.2, h.1)]
  {
    assert [line][..0] == [];
    assert GoogleFold(spaces, [line]) == GoogleStep(spaces, Start, line);
  }

  // ---------------------------------------------------------------------
  // `get_list_key`

  /** Lines a section header takes: the name, plus the underline in numpydoc. */
  function HeaderLines(t: Tools): nat {
    if t.dialect == Numpy then 2 else 1
  }

  function ParseList(t: Tools, spaces: string, lines: seq<string>): seq<Entry> {
    if t.dialect == Numpy then NumpyList(spaces, lines) else GoogleList(spaces, lines)
  }

  method GetListKeyOf(t: Tools, spaces: string, lines: seq<string>) returns (r: seq<Entry>)
    ensures r == ParseList(t, spaces, lines)
  {
    if t.dialect == Numpy {
      r := NumpyGetListKey(spaces, lines);
    } else {
      r := GoogleGetListKey(spaces, lines);
    }
  }

  /** The lines of the section starting at `init`, as slice bounds: after
      its header, up to the next section start or the end. */
  function ListBounds(t: Tools, norms: seq<string>, init: nat): (r: (nat, nat))
    requires init < |norms|
  {
    var next := SectionStart(t, norms[init + 1..]);
    (init + HeaderLines(t), if next == -1 then |norms| else init + 1 + next)
  }

  /** The section's lines run after its header up to the next section start
      or the end, with no section start in between. */
  lemma ListBoundsSpan(t: Tools, norms: seq<string>, init: nat)
    requires init < |norms|
    ensures var r := ListBounds(t, norms, init);
      r.0 == init + HeaderLines(t)
      && init < r.1 <= |norms|
      && (r.1 < |norms| ==> StartsSection(t, norms, r.1))
      && forall k :: init < k < r.1 ==> !StartsSection(t, norms, k)
  {
    SectionStartSuffix(t, norms, init + 1);
  }

  /** The bounds as `get_list_key` computes them: the end found in the lines
      after the header's first line is offset by `init` only. */
  function ListBoundsAsWritten(t: Tools, norms: seq<string>, init: nat): (int, int)
    requires init < |norms|
  {
    var sl := NextSectionLines(t, norms[init..]);
    (init + sl.0 + HeaderLines(t), if sl.1 != -1 then sl.1 + init else |norms|)
  }

  /** When another section follows, the bounds as written stop one line
      short of it, so the section's last line is lost. */
  lemma ListBoundsAsWrittenDropsLine(t: Tools, norms: seq<string>, init: nat)
    requires init < |norms| && StartsSection(t, norms, init)
    ensures ListBoundsAsWritten(t, norms, init).0 == ListBounds(t, norms, init).0
    ensures ListBounds(t, norms, init).1 < |norms| ==>
              ListBoundsAsWritten(t, norms, init).1 + 1 == ListBounds(t, norms, init).1
    ensures ListBounds(t, norms, init).1 == |norms| ==>
              ListBoundsAsWritten(t, norms, init).1 == |norms|
  {
    SectionStartAtHead(t, norms, init);
    assert norms[init..][1..] == norms[init + 1..];
  }

  /** A Google section with no blank line before the next header:
      `Args:` / `a: x` / `Returns:` / `y`. As written, the slice of the
      `Args` section is empty and its only parameter is lost. */
  lemma ListBoundsCounterexample()
    ensures var norms := ["args:", "a: x", "returns:", "y"];
      ListBoundsAsWritten(GoogleTools(), norms, 0) == (1, 1)
      && ListBounds(GoogleTools(), norms, 0) == (1, 2)
  {
    var t := GoogleTools();
    var norms := ["args:", "a: x", "returns:", "y"];
    var names := HeaderNames(t);
    assert names[3] == "returns:";
    assert "args:" == names[1];
    assert StartsSection(t, norms, 0);
    assert StartsSection(t, norms, 2);
    assert "a: x" !in names by {
      forall j | 0 <= j < |names| ensures names[j] != "a: x" {
        assert names[j][1] != ':';
      }
    }
    assert !StartsSection(t, norms, 1);
    assert norms[1..][1] == norms[2];
    assert SectionStart(t, norms[1..]) == 1 by {
      StartsSectionShift(t, norms, 1, 0);
      StartsSectionShift(t, norms, 1, 1);
      SectionStartIsFirst(t, norms[1..], 1);
    }
    assert SectionStart(t, norms[0..]) == 0 by {
      assert norms[0..] == norms;
      SectionStartAtHead(t, norms, 0);
    }
  }

  /** `get_list_key` (corrected bounds): the elements of the `key` section,
      none when the section is absent. */
  function ListKeyOf(t: Tools, lines: seq<string>, key: string): seq<Entry>
    requires Lookup(t.opt, key).Some?
  {
    var norms := Norms(lines);
    var init := SectionKeyLine(t, norms, key);
    if init == -1 then []
    else
      ParseList(t, GetLeadingSpaces(lines[init]), SectionLines(t, lines, norms, init))
  }

  /** The lines of the section whose header is at `init`, without the header. */
  function SectionLines(t: Tools, lines: seq<string>, norms: seq<string>, init: nat): seq<string>
    requires init < |lines| == |norms|
  {
    var b := ListBounds(t, norms, init);
    Slice(lines, b.0, b.1)
  }

  /** `get_list_key`, with the section end counted from the line after the
      header. A key missing from the table is a `KeyError` in the source. */
  method GetListKey(t: Tools, data: string, key: string) returns (r: seq<Entry>)
    requires Lookup(t.opt, key).Some?
    ensures r == ListKeyOf(t, SplitLines(data), key)
  {
    var lines := SplitLines(data);
    var init := GetSectionKeyLine(t, lines, key);
    if init == -1 {
      return [];
    }
    var next := GetNextSectionStartLine(t, lines[init + 1..]);
    NormsSuffix(lines, init + 1);
    var spaces := GetLeadingSpaces(lines[init]);
    var start := init + HeaderLines(t);
    var end := if next != -1 then init + 1 + next else |lines|;
    SectionLinesAt(t, lines, Norms(lines), init, next);
    r := GetListKeyOf(t, spaces, Slice(lines, start, end));
  }

  lemma SectionLinesAt(t: Tools, lines: seq<string>, norms: seq<string>, init: nat, next: int)
    requires init < |lines| == |norms|
    requires next == SectionStart(t, norms[init + 1..])
    ensures SectionLines(t, lines, norms, init) ==
      Slice(lines, init + HeaderLines(t), if next != -1 then init + 1 + next else |lines|)
  {
    BoundsAt(t, norms, init, next);
  }

  lemma BoundsAt(t: Tools, norms: seq<string>, init: nat, next: int)
    requires init < |norms|
    requires next == SectionStart(t, norms[init + 1..])
    ensures ListBounds(t, norms, init) == (init + HeaderLines(t), if next != -1 then init + 1 + next else |norms|)
  {
  }

  // ---------------------------------------------------------------------
  // Returns, raises and the sections the converter does not manage.

  /** A return element: one without a type is a bare type, so its key becomes
      the type, it has no name and its description is stripped. */
  function ReturnEntry(e: Entry): (r: Entry)
    ensures e.ptype.Some? ==> r == e
    ensures e.ptype.None? ==> r.key.None? && r.ptype == e.key && r.desc == Strip(e.desc)
  {
    if e.ptype.None? then Entry(None, Strip(e.desc), e.key) else e
  }

  function ReturnsOf(lst: seq<Entry>): (r: seq<Entry>)
    ensures |r| == |lst| && forall k :: 0 <= k < |lst| ==> r[k] == ReturnEntry(lst[k])
  {
    seq(|lst|, k requires 0 <= k < |lst| => ReturnEntry(lst[k]))
  }

  /** The loop of `get_return_list`. */
  method ReturnEntries(lst: seq<Entry>) returns (r: seq<Entry>)
    ensures r == ReturnsOf(lst)
  {
    r := [];
    for i := 0 to |lst|
      invariant |r| == i && forall k :: 0 <= k < i ==> r[k] == ReturnEntry(lst[k])
    {
      var l := lst[i];
      var name, desc, rtype := l.key, l.desc, l.ptype;
      if l.ptype.None? {
        rtype := l.key;
        name := None;
        desc := Strip(desc);
      }
      r := r + [Entry(name, desc, rtype)];
    }
  }

  /** `get_return_list`. */
  method GetReturnList(t: Tools, data: string) returns (r: seq<Entry>)
    requires Lookup(t.opt, "return").Some?
    ensures r == ReturnsOf(ListKeyOf(t, SplitLines(data), "return"))
  {
    var lst := GetListKey(t, data, "return");
    r := ReturnEntries(lst);
  }

  function RaisesOf(lst: seq<Entry>): (r: seq<(Option<string>, string)>)
    ensures |r| == |lst| && forall k :: 0 <= k < |lst| ==> r[k] == (lst[k].key, lst[k].desc)
  {
    seq(|lst|, k requires 0 <= k < |lst| => (lst[k].key, lst[k].desc))
  }

  /** The loop of `get_raise_list`: raises are a name and a description. */
  method RaiseEntries(lst: seq<Entry>) returns (r: seq<(Option<string>, string)>)
    ensures r == RaisesOf(lst)
  {
    r := [];
    for i := 0 to |lst|
      invariant |r| == i && forall k :: 0 <= k < i ==> r[k] == (lst[k].key, lst[k].desc)
    {
      r := r + [(lst[i].key, lst[i].desc)];
    }
  }

  /** `get_raise_list`. */
  method GetRaiseList(t: Tools, data: string) returns (r: seq<(Option<string>, string)>)
    requires Lookup(t.opt, "raise").Some?
    ensures r == RaisesOf(ListKeyOf(t, SplitLines(data), "raise"))
  {
    var lst := GetListKey(t, data, "raise");
    r := RaiseEntries(lst);
  }

  /** The keys of the numpydoc sections kept verbatim. */
  function NotManagedKeys(): seq<string> {
    ["also", "ref", "note", "other", "example", "method", "attr"]
  }

  /** The names of the table's sections whose key is in `keys`, in table order. */
  function NamesOf(opt: seq<(string, string)>, keys: seq<string>): (r: seq<string>)
    ensures forall n :: n in r <==> exists j :: 0 <= j < |opt| && opt[j].0 in keys && opt[j].1 == n
  {
    if opt == [] then []
    else
      var rest := NamesOf(opt[1..], keys);
      assert forall j :: 1 <= j < |opt| ==> opt[1..][j - 1] == opt[j];
      (if opt[0].0 in keys then [opt[0].1] else []) + rest
  }

  /** The names of the excluded sections; an excluded key missing from the
      table is a `KeyError` in the source. */
  function ExcludedNames(t: Tools): (r: seq<string>)
    requires forall e :: e in t.excluded ==> Lookup(t.opt, e).Some?
    ensures |r| == |t.excluded|
    ensures forall k :: 0 <= k < |r| ==> r[k] == Lookup(t.opt, t.excluded[k]).value
  {
    seq(|t.excluded|, k requires 0 <= k < |t.excluded| => Lookup(t.opt, t.excluded[k]).value)
  }

  /** The section lines with the header's indentation removed once and
      trailing whitespace dropped. */
  function Dedent(spaces: string, section: seq<string>): (r: seq<string>)
    ensures |r| == |section|
    ensures forall k :: 0 <= k < |section| ==> r[k] == RStrip(ReplaceFirst(section[k], spaces, ""))
  {
    seq(|section|, k requires 0 <= k < |section| => RStrip(ReplaceFirst(section[k], spaces, "")))
  }

  /** A section kept verbatim: its name is not managed and not excluded. */
  predicate KeptRaw(names: seq<string>, excl: seq<string>, norm: string) {
    norm in LowerAll(names) && norm !in LowerAll(excl)
  }

  /** `raw` after the scan from line `init` on, starting from `acc`, where
      `here[i]` is what the section starting at line `i` contributes. The
      scan resumes two lines after each section start. */
  function RawScan(t: Tools, norms: seq<string>, here: seq<string>, acc: string, init: nat): string
    requires |here| == |norms|
    decreases |norms| + 2 - init
  {
    if init > |norms| then acc
    else
      var s := SectionStart(t, norms[init..]);
      if s == -1 then acc
      else RawScan(t, norms, here, acc + here[init + s], init + s + 2)
  }

  /** The text the section at `i` contributes: its lines from the header
      line up to (not including) the next section start, joined and closed
      by a newline, when the section is kept. */
  function RawHere(t: Tools, lines: seq<string>, norms: seq<string>,
                   names: seq<string>, excl: seq<string>, i: nat): string
    requires |norms| == |lines|
  {
    if i < |lines| && KeptRaw(names, excl, norms[i]) then
      Join("\n", Dedent(GetLeadingSpaces(lines[i]), Slice(lines, i, ListBounds(t, norms, i).1))) + "\n"
    else ""
  }

  /** What each line contributes when a section starts there. */
  function Contributions(t: Tools, lines: seq<string>, norms: seq<string>,
                         names: seq<string>, excl: seq<string>): (r: seq<string>)
    requires |norms| == |lines|
    ensures |r| == |lines| && forall i :: 0 <= i < |lines| ==> r[i] == RawHere(t, lines, norms, names, excl, i)
  {
    seq(|lines|, i requires 0 <= i < |lines| => RawHere(t, lines, norms, names, excl, i))
  }

  /** `NumpydocTools.get_raw_not_managed` on the value level. */
  function RawNotManaged(t: Tools, lines: seq<string>): string
    requires forall e :: e in t.excluded ==> Lookup(t.opt, e).Some?
  {
    var norms := Norms(lines);
    var names := NamesOf(t.opt, NotManagedKeys());
    var excl := ExcludedNames(t);
    RawScan(t, norms, Contributions(t, lines, norms, names, excl), "", 0)
  }

  /** The end of the slice `get_raw_not_managed` takes, as written, of the
      section whose header is at `i`: the next section start is searched in
      the lines after the header but offset from the header line. */
  function RawEndAsWritten(t: Tools, norms: seq<string>, i: nat): nat
    requires i < |norms|
  {
    var next := SectionStart(t, norms[i + 1..]);
    if next == -1 then |norms| else i + next
  }

  /** What the section at `i` contributes as written. */
  function RawHereAsWritten(t: Tools, lines: seq<string>, norms: seq<string>,
                            names: seq<string>, excl: seq<string>, i: nat): string
    requires |norms| == |lines|
  {
    if i < |lines| && KeptRaw(names, excl, norms[i]) then
      Join("\n", Dedent(GetLeadingSpaces(lines[i]), Slice(lines, i, RawEndAsWritten(t, norms, i)))) + "\n"
    else ""
  }

  function ContributionsAsWritten(t: Tools, lines: seq<string>, norms: seq<string>,
                                  names: seq<string>, excl: seq<string>): (r: seq<string>)
    requires |norms| == |lines|
    ensures |r| == |lines| && forall i :: 0 <= i < |lines| ==> r[i] == RawHereAsWritten(t, lines, norms, names, excl, i)
  {
    seq(|lines|, i requires 0 <= i < |lines| => RawHereAsWritten(t, lines, norms, names, excl, i))
  }

  /** `get_raw_not_managed` as written: the same scan, with the slices of
      `RawEndAsWritten`. */
  function RawNotManagedAsWritten(t: Tools, lines: seq<string>): string
    requires forall e :: e in t.excluded ==> Lookup(t.opt, e).Some?
  {
    var norms := Norms(lines);
    var names := NamesOf(t.opt, NotManagedKeys());
    var excl := ExcludedNames(t);
    RawScan(t, norms, ContributionsAsWritten(t, lines, norms, names, excl), "", 0)
  }

  /** `get_raw_not_managed` with corrected bounds: the section at line `i`
      runs up to the next section start, which is searched from line `i + 1`
      and so sits at `i + 1 + next`; as written, the slice stops at
      `i + next` (see `RawNotManagedAsWritten`). */
  method GetRawNotManaged(t: Tools, data: string) returns (raw: string)
    requires forall e :: e in t.excluded ==> Lookup(t.opt, e).Some?
    ensures raw == RawNotManaged(t, SplitLines(data))
  {
    var names := NamesOf(t.opt, NotManagedKeys());
    var excl := ExcludedNames(t);
    var lines := SplitLines(data);
    ghost var norms := Norms(lines);
    ghost var hs := Contributions(t, lines, norms, names, excl);
    ghost var target := RawScan(t, norms, hs, "", 0);
    assert target == RawNotManaged(t, lines);
    var init := 0;
    var stop := false;
    raw := "";
    while !stop
      invariant init <= |lines| + 1
      invariant stop ==> target == raw
      invariant !stop ==> target == RawScan(t, norms, hs, raw, init)
      decreases |lines| + 2 - init, !stop
    {
      stop, raw, init := RawStep(t, lines, norms, names, excl, hs, raw, init);
    }
  }

  /** One turn of the loop of `get_raw_not_managed`: find the next section
      start from line `init`, add its contribution and move two lines on. */
  method RawStep(t: Tools, lines: seq<string>, ghost norms: seq<string>, names: seq<string>,
                 excl: seq<string>, ghost hs: seq<string>, raw: string, init: nat)
    returns (stop: bool, raw': string, init': nat)
    requires init <= |lines| + 1 && norms == Norms(lines)
    requires hs == Contributions(t, lines, norms, names, excl)
    ensures init' <= |lines| + 1
    ensures stop ==> init' == init && RawScan(t, norms, hs, raw, init) == raw'
    ensures !stop ==> init' > init && RawScan(t, norms, hs, raw, init) == RawScan(t, norms, hs, raw', init')
  {
    if init > |lines| {
      return true, raw, init;
    }
    var start := SectionStartAt(t, lines, norms, init);
    if start == -1 {
      return true, raw, init;
    }
    raw', init' := RawFound(t, lines, norms, names, excl, hs, raw, init, start);
    stop := false;
  }

  /** The section found `start` lines after `init` adds its contribution. */
  method RawFound(t: Tools, lines: seq<string>, ghost norms: seq<string>, names: seq<string>,
                  excl: seq<string>, ghost hs: seq<string>, raw: string, init: nat, start: nat)
    returns (raw': string, init': nat)
    requires init <= |lines| && norms == Norms(lines)
    requires hs == Contributions(t, lines, norms, names, excl)
    requires start == SectionStart(t, norms[init..])
    ensures init' == init + start + 2 <= |lines| + 1
    ensures RawScan(t, norms, hs, raw, init) == RawScan(t, norms, hs, raw', init')
  {
    var i := init + start;
    var here := RawAt(t, lines, norms, names, excl, i);
    assert here == hs[i];
    RawScanStep(t, norms, hs, raw, init, start);
    return raw + here, i + 2;
  }

  /** The text the section starting at line `i` contributes. */
  method RawAt(t: Tools, lines: seq<string>, ghost norms: seq<string>,
               names: seq<string>, excl: seq<string>, i: nat) returns (here: string)
    requires i < |lines| && norms == Norms(lines)
    ensures here == RawHere(t, lines, norms, names, excl, i)
  {
    var next := SectionStartAt(t, lines, norms, i + 1);
    BoundsAt(t, norms, i, next);
    NormsIndex(lines, i);
    here := RawSection(t, lines, norms[i], names, excl, i, if next != -1 then i + 1 + next else |lines|);
  }

  lemma RawScanStep(t: Tools, norms: seq<string>, here: seq<string>, acc: string, init: nat, s: nat)
    requires |here| == |norms| && init <= |norms|
    requires s == SectionStart(t, norms[init..])
    ensures init + s < |norms|
    ensures RawScan(t, norms, here, acc, init) == RawScan(t, norms, here, acc + here[init + s], init + s + 2)
  {
  }

  /** `get_next_section_start_line(data[init:])`. */
  method SectionStartAt(t: Tools, lines: seq<string>, ghost norms: seq<string>, init: nat) returns (s: int)
    requires init <= |lines| && norms == Norms(lines)
    ensures s == SectionStart(t, norms[init..])
  {
    s := GetNextSectionStartLine(t, lines[init..]);
    NormsSuffix(lines, init);
  }

  /** One section of `get_raw_not_managed`: its text when kept, else "". */
  method RawSection(t: Tools, lines: seq<string>, ghost norm: string,
                    names: seq<string>, excl: seq<string>, i: nat, end: nat) returns (here: string)
    requires i < |lines| && norm == Norm(lines[i])
    ensures here == if KeptRaw(names, excl, norm) then
        Join("\n", Dedent(GetLeadingSpaces(lines[i]), Slice(lines, i, end))) + "\n"
      else ""
  {
    var isName := IsinAlone(names, lines[i]);
    var isExcluded := IsinAlone(excl, lines[i]);
    here := "";
    if isName && !isExcluded {
      var spaces := GetLeadingSpaces(lines[i]);
      here := Join("\n", Dedent(spaces, Slice(lines, i, end))) + "\n";
    }
  }

  /** When no section contributes, the scan adds nothing. */
  lemma {:induction false} RawScanEmpty(t: Tools, norms: seq<string>, here: seq<string>, acc: string, init: nat)
    requires |here| == |norms|
    requires forall k :: 0 <= k < |here| ==> here[k] == ""
    ensures RawScan(t, norms, here, acc, init) == acc
    decreases |norms| + 2 - init
  {
    if init <= |norms| {
      var s := SectionStart(t, norms[init..]);
      if s != -1 {
        assert acc + here[init + s] == acc;
        RawScanEmpty(t, norms, here, acc, init + s + 2);
      }
    }
  }

  /** When every contribution is empty or ends with a newline, so does the
      result. */
  lemma {:induction false} RawScanEndsWithNewline(t: Tools, norms: seq<string>, here: seq<string>,
                                                  acc: string, init: nat)
    requires |here| == |norms|
    requires forall k :: 0 <= k < |here| ==> here[k] == "" || here[k][|here[k]| - 1] == '\n'
    requires acc == "" || acc[|acc| - 1] == '\n'
    ensures var r := RawScan(t, norms, here, acc, init);
      r == "" || r[|r| - 1] == '\n'
    decreases |norms| + 2 - init
  {
    if init <= |norms| {
      var s := SectionStart(t, norms[init..]);
      if s != -1 {
        var x := here[init + s];
        if x == "" {
          assert acc + x == acc;
        } else {
          assert (acc + x)[|acc + x| - 1] == x[|x| - 1];
        }
        RawScanEndsWithNewline(t, norms, here, acc + x, init + s + 2);
      }
    }
  }

  lemma RawHereShape(t: Tools, lines: seq<string>, norms: seq<string>,
                      names: seq<string>, excl: seq<string>, i: nat)
    requires |norms| == |lines|
    ensures var x := RawHere(t, lines, norms, names, excl, i);
      x == "" || x[|x| - 1] == '\n'
  {
    if i < |lines| && KeptRaw(names, excl, norms[i]) {
      var j := Join("\n", Dedent(GetLeadingSpaces(lines[i]), Slice(lines, i, ListBounds(t, norms, i).1)));
      assert (j + "\n")[|j|] == '\n';
    }
  }

  /** `get_raw_not_managed` returns "" or text ending with a newline. */
  lemma RawNotManagedShape(t: Tools, lines: seq<string>)
    requires forall e :: e in t.excluded ==> Lookup(t.opt, e).Some?
    ensures var r := RawNotManaged(t, lines);
      r == "" || r[|r| - 1] == '\n'
  {
    var norms, names, excl := Norms(lines), NamesOf(t.opt, NotManagedKeys()), ExcludedNames(t);
    var hs := Contributions(t, lines, norms, names, excl);
    ContributionsShape(t, lines, norms, names, excl);
    RawScanEndsWithNewline(t, norms, hs, "", 0);
  }

  /** `get_raw_not_managed` returns "" when no line is the header of a kept
      section. */
  lemma RawNotManagedEmpty(t: Tools, lines: seq<string>)
    requires forall e :: e in t.excluded ==> Lookup(t.opt, e).Some?
    requires forall k :: 0 <= k < |lines| ==>
               !KeptRaw(NamesOf(t.opt, NotManagedKeys()), ExcludedNames(t), Norm(lines[k]))
    ensures RawNotManaged(t, lines) == ""
  {
    var norms, names, excl := Norms(lines), NamesOf(t.opt, NotManagedKeys()), ExcludedNames(t);
    var hs := Contributions(t, lines, norms, names, excl);
    forall k | 0 <= k < |lines| ensures !KeptRaw(names, excl, norms[k]) {
      NormsIndex(lines, k);
    }
    ContributionsEmpty(t, lines, norms, names, excl);
    RawScanEmpty(t, norms, hs, "", 0);
  }

  lemma ContributionsShape(t: Tools, lines: seq<string>, norms: seq<string>, names: seq<string>, excl: seq<string>)
    requires |norms| == |lines|
    ensures var hs := Contributions(t, lines, norms, names, excl);
      forall k :: 0 <= k < |hs| ==> hs[k] == "" || hs[k][|hs[k]| - 1] == '\n'
  {
    var hs := Contributions(t, lines, norms, names, excl);
    forall k | 0 <= k < |hs| ensures hs[k] == "" || hs[k][|hs[k]| - 1] == '\n' {
      RawHereShape(t, lines, norms, names, excl, k);
    }
  }

  lemma ContributionsEmpty(t: Tools, lines: seq<string>, norms: seq<string>, names: seq<string>, excl: seq<string>)
    requires |norms| == |lines|
    requires forall k :: 0 <= k < |lines| ==> !KeptRaw(names, excl, norms[k])
    ensures var hs := Contributions(t, lines, norms, names, excl);
      forall k :: 0 <= k < |hs| ==> hs[k] == ""
  {
  }

  // ---------------------------------------------------------------------
  // `get_raw_not_managed` as written against the corrected bounds.

  /** When another section follows, the slice as written ends one line
      before the next section start, so the section's last line is lost. */
  lemma RawEndAsWrittenDropsLine(t: Tools, norms: seq<string>, i: nat)
    requires i < |norms|
    ensures ListBounds(t, norms, i).1 < |norms| ==> RawEndAsWritten(t, norms, i) + 1 == ListBounds(t, norms, i).1
    ensures ListBounds(t, norms, i).1 == |norms| ==> RawEndAsWritten(t, norms, i) == |norms|
  {
  }

  /** A scan over text whose only section start is its first line takes
      that section's contribution alone. */
  lemma RawScanOne(t: Tools, norms: seq<string>, hs: seq<string>)
    requires |hs| == |norms| && norms != [] && StartsSection(t, norms, 0)
    requires forall k :: 1 <= k < |norms| ==> !StartsSection(t, norms, k)
    ensures RawScan(t, norms, hs, "", 0) == hs[0]
  {
    SectionStartIsFirst(t, norms, 0);
    assert norms[0..] == norms;
    assert RawScan(t, norms, hs, "", 0) == RawScan(t, norms, hs, "" + hs[0], 2);
    assert "" + hs[0] == hs[0];
    if 2 <= |norms| {
      SectionStartSuffix(t, norms, 2);
    }
  }

  /** A kept section followed by no other runs to the end of the text. */
  lemma RawHereToEnd(t: Tools, lines: seq<string>, norms: seq<string>, names: seq<string>, excl: seq<string>, i: nat)
    requires |norms| == |lines| && i < |lines| && KeptRaw(names, excl, norms[i])
    requires forall k :: i < k < |lines| ==> !StartsSection(t, norms, k)
    ensures RawHere(t, lines, norms, names, excl, i)
         == Join("\n", Dedent(GetLeadingSpaces(lines[i]), lines[i..])) + "\n"
  {
    SectionStartSuffix(t, norms, i + 1);
    assert ListBounds(t, norms, i).1 == |lines|;
    assert Slice(lines, i, |lines|) == lines[i..];
  }

  /** A kept section that starts the text and is followed by no other
      section contributes every line of the text, dedented. */
  lemma RawNotManagedOneSection(t: Tools, lines: seq<string>)
    requires forall e :: e in t.excluded ==> Lookup(t.opt, e).Some?
    requires lines != [] && StartsSection(t, Norms(lines), 0)
    requires KeptRaw(NamesOf(t.opt, NotManagedKeys()), ExcludedNames(t), Norm(lines[0]))
    requires forall k :: 1 <= k < |lines| ==> !StartsSection(t, Norms(lines), k)
    ensures RawNotManaged(t, lines) == Join("\n", Dedent(GetLeadingSpaces(lines[0]), lines)) + "\n"
  {
    var norms, names, excl := Norms(lines), NamesOf(t.opt, NotManagedKeys()), ExcludedNames(t);
    var hs := Contributions(t, lines, norms, names, excl);
    NormsIndex(lines, 0);
    RawHereToEnd(t, lines, norms, names, excl, 0);
    assert lines[0..] == lines;
    RawScanOne(t, norms, hs);
  }

  /** A table entry whose key is among `keys` names a section kept verbatim,
      unless it is also excluded. */
  lemma KeptNamed(opt: seq<(string, string)>, keys: seq<string>, excl: seq<string>, j: nat)
    requires j < |opt| && opt[j].0 in keys && Lower(opt[j].1) == opt[j].1
    requires opt[j].1 !in LowerAll(excl)
    ensures KeptRaw(NamesOf(opt, keys), excl, opt[j].1)
  {
    var names := NamesOf(opt, keys);
    assert opt[j].1 in names;
    var a :| 0 <= a < |names| && names[a] == opt[j].1;
    assert LowerAll(names)[a] == opt[j].1;
  }

  lemma RawExampleNormPlain(line: string)
    requires line != [] && !IsSpace(line[0]) && !IsSpace(line[|line| - 1])
    ensures Norm(line) == Lower(line)
  {
    NormIsLowerStrip(line);
    StripUnchanged(line);
  }

  lemma RawExampleNormLower(s: string)
    requires s != [] && !IsSpace(s[0]) && !IsSpace(s[|s| - 1])
    requires forall k :: 0 <= k < |s| ==> !IsUpper(s[k])
    ensures Norm(s) == s
  {
    RawExampleNormPlain(s);
  }

  lemma RawExampleNormSeeAlso(s: string)
    requires s == "See Also"
    ensures Norm(s) == "see also"
  {
    RawExampleNormPlain(s);
  }

  lemma RawExampleNormNotes(s: string)
    requires s == "Notes"
    ensures Norm(s) == "notes"
  {
    RawExampleNormPlain(s);
  }

  lemma RawExampleNorms(lines: seq<string>)
    requires lines == ["See Also", "--------", "foo", "Notes", "-----", "bar"]
    ensures Norms(lines) == ["see also", "--------", "foo", "notes", "-----", "bar"]
  {
    forall k | 0 <= k < 6 ensures Norms(lines)[k] == Norm(lines[k]) {
      NormsIndex(lines, k);
    }
    RawExampleNormSeeAlso(lines[0]);
    RawExampleNormLower(lines[1]);
    RawExampleNormLower(lines[2]);
    RawExampleNormNotes(lines[3]);
    RawExampleNormLower(lines[4]);
    RawExampleNormLower(lines[5]);
  }

  lemma RawExampleHeaders(hn: seq<string>)
    requires hn == HeaderNames(NumpyTools())
    ensures "see also" in hn && "notes" in hn
    ensures "foo" !in hn && "bar" !in hn && "--------" !in hn && "-----" !in hn
  {
    var vs := Values(NumpyTools().opt);
    assert |hn| == 10;
    assert hn[0] == Lower(vs[0]) && vs[0] == "see also";
    assert hn[4] == Lower(vs[4]) && vs[4] == "notes";
    assert Lower("see also") == "see also";
    assert Lower("notes") == "notes";
    forall k | 0 <= k < 10
      ensures hn[k] != "foo" && hn[k] != "bar" && hn[k] != "--------" && hn[k] != "-----"
    {
      assert hn[k] == Lower(vs[k]);
      assert |vs[k]| != 3 && vs[k][0] != '-';
    }
  }

  lemma RawExampleStarts(t: Tools, n: seq<string>)
    requires t == NumpyTools() && n == ["see also", "--------", "foo", "notes", "-----", "bar"]
    ensures StartsSection(t, n, 0) && StartsSection(t, n, 3)
    ensures !StartsSection(t, n, 1) && !StartsSection(t, n, 2) && !StartsSection(t, n, 4) && !StartsSection(t, n, 5)
  {
    RawExampleHeaders(HeaderNames(t));
    assert IsDashRun(n[1]) && IsDashRun(n[4]);
  }

  /** The searches the scan and the bounds make on the example. */
  lemma RawExampleSearches(t: Tools, n: seq<string>)
    requires t == NumpyTools() && n == ["see also", "--------", "foo", "notes", "-----", "bar"]
    ensures SectionStart(t, n[0..]) == 0 && SectionStart(t, n[1..]) == 2 && SectionStart(t, n[2..]) == 1
    ensures SectionStart(t, n[4..]) == -1 && SectionStart(t, n[5..]) == -1
  {
    RawExampleStarts(t, n);
    assert n[0..] == n;
    SectionStartIsFirst(t, n, 0);
    StartsSectionShift(t, n, 1, 0);
    StartsSectionShift(t, n, 1, 1);
    StartsSectionShift(t, n, 1, 2);
    SectionStartIsFirst(t, n[1..], 2);
    StartsSectionShift(t, n, 2, 0);
    StartsSectionShift(t, n, 2, 1);
    SectionStartIsFirst(t, n[2..], 1);
    SectionStartSuffix(t, n, 4);
    SectionStartSuffix(t, n, 5);
  }

  lemma RawExampleKept(t: Tools)
    requires t == NumpyTools()
    ensures KeptRaw(NamesOf(t.opt, NotManagedKeys()), ExcludedNames(t), "see also")
    ensures KeptRaw(NamesOf(t.opt, NotManagedKeys()), ExcludedNames(t), "notes")
  {
    var opt, keys := t.opt, NotManagedKeys();
    assert opt[0] == ("also", "see also") && "also" in keys;
    assert opt[4] == ("note", "notes") && "note" in keys;
    assert Lower("see also") == "see also" && Lower("notes") == "notes";
    assert LowerAll(ExcludedNames(t)) == [];
    KeptNamed(opt, keys, ExcludedNames(t), 0);
    KeptNamed(opt, keys, ExcludedNames(t), 4);
  }

  /** Lines with no surrounding whitespace are their own dedent. */
  lemma RawExampleDedent(header: string, section: seq<string>)
    requires header != [] && !IsSpace(header[0])
    requires forall k :: 0 <= k < |section| ==> section[k] != [] && !IsSpace(section[k][|section[k]| - 1])
    ensures Dedent(GetLeadingSpaces(header), section) == section
  {
    assert GetLeadingSpaces(header) == "";
    forall k | 0 <= k < |section| ensures Dedent("", section)[k] == section[k] {
      ReplacePrefix(section[k], "");
      assert section[k][0..] == section[k];
      RStripUnchanged(section[k]);
    }
  }

  /** A kept section with no surrounding whitespace on its lines contributes
      them joined, whatever the end of its slice. */
  lemma RawSliceJoined(lines: seq<string>, i: nat, e: nat)
    requires i < e <= |lines| && lines[i] != [] && !IsSpace(lines[i][0])
    requires forall k :: i <= k < e ==> lines[k] != [] && !IsSpace(lines[k][|lines[k]| - 1])
    ensures Join("\n", Dedent(GetLeadingSpaces(lines[i]), Slice(lines, i, e))) + "\n" == Join("\n", lines[i..e]) + "\n"
  {
    RawExampleDedent(lines[i], lines[i..e]);
  }

  lemma JoinThree(a: string, b: string, c: string)
    ensures Join("\n", [a, b, c]) == a + "\n" + b + "\n" + c
  {
    assert [a, b, c][1..] == [b, c];
    assert [b, c][1..] == [c];
    assert Join("\n", [b, c]) == b + "\n" + c;
    assert Join("\n", [a, b, c]) == a + "\n" + (b + "\n" + c);
  }

  lemma RawExampleFirst(t: Tools, lines: seq<string>, n: seq<string>, names: seq<string>, excl: seq<string>)
    requires t == NumpyTools() && lines == ["See Also", "--------", "foo", "Notes", "-----", "bar"]
    requires n == ["see also", "--------", "foo", "notes", "-----", "bar"]
    requires KeptRaw(names, excl, "see also")
    ensures RawHere(t, lines, n, names, excl, 0) == "See Also\n--------\nfoo\n"
    ensures RawHereAsWritten(t, lines, n, names, excl, 0) == "See Also\n--------\n"
  {
    RawExampleSearches(t, n);
    assert ListBounds(t, n, 0).1 == 3 && RawEndAsWritten(t, n, 0) == 2;
    RawSliceJoined(lines, 0, 3);
    RawSliceJoined(lines, 0, 2);
    assert lines[0..3] == ["See Also", "--------", "foo"];
    assert lines[0..2] == ["See Also", "--------"];
    JoinThree("See Also", "--------", "foo");
  }

  lemma RawExampleSecond(t: Tools, lines: seq<string>, n: seq<string>, names: seq<string>, excl: seq<string>)
    requires t == NumpyTools() && lines == ["See Also", "--------", "foo", "Notes", "-----", "bar"]
    requires n == ["see also", "--------", "foo", "notes", "-----", "bar"]
    requires KeptRaw(names, excl, "notes")
    ensures RawHere(t, lines, n, names, excl, 3) == "Notes\n-----\nbar\n"
    ensures RawHereAsWritten(t, lines, n, names, excl, 3) == "Notes\n-----\nbar\n"
  {
    RawExampleSearches(t, n);
    assert ListBounds(t, n, 3).1 == 6 && RawEndAsWritten(t, n, 3) == 6;
    RawSliceJoined(lines, 3, 6);
    assert lines[3..6] == ["Notes", "-----", "bar"];
    JoinThree("Notes", "-----", "bar");
  }

  /** A numpydoc text with two sections kept verbatim: as written, the last
      line of the first section is lost. */
  lemma RawNotManagedCounterexample()
    ensures var lines := ["See Also", "--------", "foo", "Notes", "-----", "bar"];
      RawNotManagedAsWritten(NumpyTools(), lines) == "See Also\n--------\nNotes\n-----\nbar\n"
      && RawNotManaged(NumpyTools(), lines) == "See Also\n--------\nfoo\nNotes\n-----\nbar\n"
  {
    var t := NumpyTools();
    var lines := ["See Also", "--------", "foo", "Notes", "-----", "bar"];
    var n, names, excl := Norms(lines), NamesOf(t.opt, NotManagedKeys()), ExcludedNames(t);
    RawExampleNorms(lines);
    RawExampleKept(t);
    var hs := Contributions(t, lines, n, names, excl);
    var ws := ContributionsAsWritten(t, lines, n, names, excl);
    RawExampleFirst(t, lines, n, names, excl);
    RawExampleSecond(t, lines, n, names, excl);
    RawExampleScan(t, n, hs);
    RawExampleScan(t, n, ws);
    assert hs[0] == RawHere(t, lines, n, names, excl, 0) && hs[3] == RawHere(t, lines, n, names, excl, 3);
    assert ws[0] == RawHereAsWritten(t, lines, n, names, excl, 0) && ws[3] == RawHereAsWritten(t, lines, n, names, excl, 3);
    RawExampleConcat();
    assert RawNotManaged(t, lines) == RawScan(t, n, hs, "", 0);
    assert RawNotManagedAsWritten(t, lines) == RawScan(t, n, ws, "", 0);
  }

  lemma RawExampleConcat()
    ensures "See Also\n--------\nfoo\n" + "Notes\n-----\nbar\n" == "See Also\n--------\nfoo\nNotes\n-----\nbar\n"
    ensures "See Also\n--------\n" + "Notes\n-----\nbar\n" == "See Also\n--------\nNotes\n-----\nbar\n"
  {
  }

  /** The scan over the example visits the sections at lines 0 and 3. */
  lemma RawExampleScan(t: Tools, n: seq<string>, hs: seq<string>)
    requires t == NumpyTools() && n == ["see also", "--------", "foo", "notes", "-----", "bar"]
    requires |hs| == |n|
    ensures RawScan(t, n, hs, "", 0) == hs[0] + hs[3]
  {
    RawExampleSearches(t, n);
    assert RawScan(t, n, hs, "", 0) == RawScan(t, n, hs, "" + hs[0], 2);
    assert "" + hs[0] == hs[0];
    assert RawScan(t, n, hs, hs[0], 2) == RawScan(t, n, hs, hs[0] + hs[3], 5);
  }

}
