/** `PyComment`'s filters on the elements of a file: the visibility scope of a
    method read from its leading underscores, the `method_scope` filter, and
    the scan of the file's first lines for a module docstring. */
module Pyment {
  import opened Wrappers
  import opened Text

  // ---------------------------------------------------------------------
  // `_get_method_scope` and `_should_process_method`.

  predicate IsDunder(name: string) {
    StartsWith(name, "__") && EndsWith(name, "__")
  }

  /** The scope of a method: special `__x__` names are public, a double
      leading underscore is private, a single one protected. */
  function MethodScope(name: string): (r: string)
    ensures r == "public" || r == "protected" || r == "private"
    ensures r == "private" <==> StartsWith(name, "__") && !EndsWith(name, "__")
    ensures r == "protected" <==> StartsWith(name, "_") && !StartsWith(name, "__")
    ensures name == "" || IsDunder(name) ==> r == "public"
  {
    if name == "" then "public"
    else if IsDunder(name) then "public"
    else if StartsWith(name, "__") then "private"
    else if StartsWith(name, "_") then "protected"
    else "public"
  }

  /** A name with no leading underscore is public. */
  lemma PlainNameIsPublic(name: string)
    requires name == [] || name[0] != '_'
    ensures MethodScope(name) == "public"
  {
    if name != [] {
      assert !StartsWith(name, "_") && !StartsWith(name, "__");
    }
  }

  /** `_should_process_method`: every name passes an empty filter. */
  function ShouldProcessMethod(methodScope: seq<string>, name: string): (r: bool)
    ensures methodScope == [] ==> r
    ensures methodScope != [] ==> (r <==> MethodScope(name) in methodScope)
  {
    if methodScope != [] then MethodScope(name) in methodScope else true
  }

  /** A filter naming all three scopes lets every name through. */
  lemma AllScopesPass(methodScope: seq<string>, name: string)
    requires "public" in methodScope && "protected" in methodScope && "private" in methodScope
    ensures ShouldProcessMethod(methodScope, name)
  {
  }

  // ---------------------------------------------------------------------
  // `_has_module_docstring`: the scan of the first lines.

  const Triples: seq<string> := ["\"\"\"", "'''"]

  predicate IsStringPrefix(c: char) {
    c == 'r' || c == 'u' || c == 'f'
  }

  /** A line the scan passes over: blank, an encoding declaration or an
      import. These are skipped even inside a docstring. */
  predicate Skipped(stripped: string) {
    stripped == []
    || (StartsWith(stripped, "#")
        && (Contains(Lower(stripped), "coding") || Contains(Lower(stripped), "encoding")))
    || StartsWith(stripped, "import ") || StartsWith(stripped, "from ")
  }

  /** The delimiter a line opens a docstring with, with no, one or two
      string prefix letters. */
  function Opener(stripped: string): (r: Option<string>)
    ensures r.Some? ==> r.value in Triples
  {
    if StartsWith(stripped, "\"\"\"") then Some("\"\"\"")
    else if StartsWith(stripped, "'''") then Some("'''")
    else if |stripped| >= 4 && IsStringPrefix(stripped[0]) && stripped[1..4] in Triples then
      Some(stripped[1..4])
    else if |stripped| >= 5 && IsStringPrefix(stripped[0]) && IsStringPrefix(stripped[1])
            && stripped[2..5] in Triples then
      Some(stripped[2..5])
    else None
  }

  /** The state of the scan: outside a docstring, or inside one opened with
      the given delimiter. */
  datatype Scan = Outside | Inside(delim: string)

  /** What one line decides: go on in a state, or answer. */
  datatype Action = Continue(next: Scan) | Answer(found: bool)

  function LineAction(st: Scan, stripped: string): (r: Action)
    ensures Skipped(stripped) ==> r == Continue(st)
    ensures !Skipped(stripped) && st.Inside? ==>
      r == (if Contains(stripped, st.delim) then Answer(true) else Continue(st))
  {
    if Skipped(stripped) then Continue(st)
    else if st.Inside? then
      if Contains(stripped, st.delim) then Answer(true) else Continue(st)
    else match Opener(stripped)
      case Some(d) => if Count(stripped, d) >= 2 then Answer(true) else Continue(Inside(d))
      case None =>
        if StartsWith(stripped, "def ") || StartsWith(stripped, "class ")
           || StartsWith(stripped, "async def ") then Answer(false)
        else if !StartsWith(stripped, "#") then Answer(false)
        else Continue(st)
  }

  /** The answer of the scan from line `i` on; running out of lines is
      `False`. */
  function ScanFrom(lines: seq<string>, i: nat, st: Scan): bool
    requires i <= |lines|
    decreases |lines| - i
  {
    if i == |lines| then false
    else match LineAction(st, Strip(lines[i]))
      case Answer(b) => b
      case Continue(next) => ScanFrom(lines, i + 1, next)
  }

  function ModuleDocstring(lines: seq<string>): bool {
    ScanFrom(lines, 0, Outside)
  }

  /** `PyComment`: the lines read from the file, the `method_scope` option
      and the cached answer of `_has_module_docstring`. */
  class PyComment {
    var inputLines: seq<string>
    var methodScope: seq<string>
    var cache: Option<bool>

    constructor(inputLines: seq<string>, methodScope: seq<string>)
      ensures this.inputLines == inputLines && this.methodScope == methodScope && cache == None
    {
      this.inputLines := inputLines;
      this.methodScope := methodScope;
      cache := None;
    }

    function GetMethodScope(name: string): (r: string)
      ensures r == MethodScope(name)
    {
      MethodScope(name)
    }

    function ShouldProcess(name: string): (r: bool)
      reads this
      ensures r == ShouldProcessMethod(methodScope, name)
    {
      ShouldProcessMethod(methodScope, name)
    }

    /** `_has_module_docstring`: a cached answer is returned as it is;
        otherwise the lines are scanned and the answer cached. */
    method HasModuleDocstring() returns (r: bool)
      modifies this
      ensures old(cache).Some? ==> r == old(cache).value && cache == old(cache)
      ensures old(cache).None? ==> r == ModuleDocstring(inputLines) && cache == Some(r)
      ensures inputLines == old(inputLines) && methodScope == old(methodScope)
    {
      if cache.Some? {
        return cache.value;
      }
      r := ScanLines(inputLines);
      cache := Some(r);
    }
  }


  /** The loop of `_has_module_docstring`: line by line, until a line
      answers or the lines run out. */
  method ScanLines(lines: seq<string>) returns (found: bool)
    ensures found == ModuleDocstring(lines)
  {
    ghost var target := ModuleDocstring(lines);
    var i := 0;
    var st := Outside;
    while i < |lines|
      invariant 0 <= i <= |lines|
      invariant ScanFrom(lines, i, st) == target
      decreases |lines| - i
    {
      var stop, answer, next := Advance(lines, i, st);
      if stop {
        return answer;
      }
      st := next;
      i := i + 1;
    }
    return false;
  }

  /** One line of the scan: either it answers, or the scan goes on from
      the next line in a new state. */
  method Advance(lines: seq<string>, i: nat, st: Scan) returns (stop: bool, answer: bool, next: Scan)
    requires i < |lines|
    ensures stop ==> ScanFrom(lines, i, st) == answer
    ensures !stop ==> ScanFrom(lines, i, st) == ScanFrom(lines, i + 1, next)
  {
    var act := LineAction(st, Strip(lines[i]));
    if act.Answer? {
      ScanAnswer(lines, i, st, act.found);
      return true, act.found, st;
    }
    ScanStep(lines, i, st, act.next);
    return false, false, act.next;
  }

  // ---------------------------------------------------------------------
  // Properties of the scan.

  /** No lines, no module docstring. */
  lemma NoLinesNoDocstring()
    ensures !ModuleDocstring([])
  {
  }

  /** A definition or any other statement that is not a comment, reached
      before a docstring opener, means there is none. */
  lemma StatementFirst(lines: seq<string>, i: nat)
    requires i < |lines|
    requires forall k :: 0 <= k < i ==> Skipped(Strip(lines[k]))
    requires !Skipped(Strip(lines[i])) && Opener(Strip(lines[i])).None?
    requires !StartsWith(Strip(lines[i]), "#")
    ensures !ModuleDocstring(lines)
  {
    SkipTo(lines, 0, i, Outside);
  }

  /** One line that does not answer moves the scan on. */
  lemma ScanStep(lines: seq<string>, i: nat, st: Scan, next: Scan)
    requires i < |lines| && LineAction(st, Strip(lines[i])) == Continue(next)
    ensures ScanFrom(lines, i, st) == ScanFrom(lines, i + 1, next)
  {
  }

  /** A line that answers ends the scan with that answer. */
  lemma ScanAnswer(lines: seq<string>, i: nat, st: Scan, b: bool)
    requires i < |lines| && LineAction(st, Strip(lines[i])) == Answer(b)
    ensures ScanFrom(lines, i, st) == b
  {
  }

  lemma SkipOne(lines: seq<string>, i: nat, st: Scan)
    requires i < |lines| && Skipped(Strip(lines[i]))
    ensures ScanFrom(lines, i, st) == ScanFrom(lines, i + 1, st)
  {
    ScanStep(lines, i, st, st);
  }

  lemma SkipBack(lines: seq<string>, i: nat, st: Scan, b: bool)
    requires i < |lines| && Skipped(Strip(lines[i]))
    requires ScanFrom(lines, i + 1, st) == b
    ensures ScanFrom(lines, i, st) == b
  {
    SkipOne(lines, i, st);
  }

  /** Lines `a` to `b` are all skipped. */
  predicate AllSkipped(lines: seq<string>, a: nat, b: nat)
    requires a <= b <= |lines|
    decreases b - a
  {
    a == b || (Skipped(Strip(lines[a])) && AllSkipped(lines, a + 1, b))
  }

  lemma {:induction false} AllSkippedOf(lines: seq<string>, a: nat, b: nat)
    requires a <= b <= |lines|
    requires forall k :: a <= k < b ==> Skipped(Strip(lines[k]))
    ensures AllSkipped(lines, a, b)
    decreases b - a
  {
    if a < b {
      AllSkippedOf(lines, a + 1, b);
    }
  }

  lemma {:induction false} SkipRun(lines: seq<string>, a: nat, b: nat, st: Scan)
    requires a <= b <= |lines|
    requires AllSkipped(lines, a, b)
    ensures ScanFrom(lines, a, st) == ScanFrom(lines, b, st)
    decreases b - a
  {
    if a < b {
      SkipRun(lines, a + 1, b, st);
      SkipBack(lines, a, st, ScanFrom(lines, b, st));
    }
  }

  /** Skipped lines keep the state. */
  lemma SkipTo(lines: seq<string>, a: nat, b: nat, st: Scan)
    requires a <= b <= |lines|
    requires forall k :: a <= k < b ==> Skipped(Strip(lines[k]))
    ensures ScanFrom(lines, a, st) == ScanFrom(lines, b, st)
  {
    AllSkippedOf(lines, a, b);
    SkipRun(lines, a, b, st);
  }

  /** An opener line holding its delimiter twice answers at once. */
  lemma OneLineDocstring(lines: seq<string>, i: nat)
    requires i < |lines|
    requires forall k :: 0 <= k < i ==> Skipped(Strip(lines[k]))
    requires !Skipped(Strip(lines[i])) && Opener(Strip(lines[i])).Some?
    requires Count(Strip(lines[i]), Opener(Strip(lines[i])).value) >= 2
    ensures ModuleDocstring(lines)
  {
    SkipTo(lines, 0, i, Outside);
  }

  /** A line inside a docstring that does not close it. */
  predicate Quiet(stripped: string, d: string) {
    Skipped(stripped) || !Contains(stripped, d)
  }

  /** Lines `a` to `b` are all quiet inside a docstring opened with `d`. */
  predicate AllQuiet(lines: seq<string>, a: nat, b: nat, d: string)
    requires a <= b <= |lines|
    decreases b - a
  {
    a == b || (Quiet(Strip(lines[a]), d) && AllQuiet(lines, a + 1, b, d))
  }

  lemma {:induction false} AllQuietOf(lines: seq<string>, a: nat, b: nat, d: string)
    requires a <= b <= |lines|
    requires forall k :: a <= k < b ==> Quiet(Strip(lines[k]), d)
    ensures AllQuiet(lines, a, b, d)
    decreases b - a
  {
    if a < b {
      AllQuietOf(lines, a + 1, b, d);
    }
  }

  lemma InsideBack(lines: seq<string>, i: nat, d: string, b: bool)
    requires i < |lines| && Quiet(Strip(lines[i]), d)
    requires ScanFrom(lines, i + 1, Inside(d)) == b
    ensures ScanFrom(lines, i, Inside(d)) == b
  {
    ScanStep(lines, i, Inside(d), Inside(d));
  }

  lemma {:induction false} QuietRun(lines: seq<string>, a: nat, b: nat, d: string)
    requires a <= b <= |lines|
    requires AllQuiet(lines, a, b, d)
    ensures ScanFrom(lines, a, Inside(d)) == ScanFrom(lines, b, Inside(d))
    decreases b - a
  {
    if a < b {
      QuietRun(lines, a + 1, b, d);
      InsideBack(lines, a, d, ScanFrom(lines, b, Inside(d)));
    }
  }

  /** Inside a docstring, the answer is true at the first later line that
      is not skipped and holds the delimiter; lines in between that are not
      skipped do not hold it. */
  lemma InsideFindsCloser(lines: seq<string>, i: nat, j: nat, d: string)
    requires i <= j < |lines|
    requires forall k :: i <= k < j ==> Quiet(Strip(lines[k]), d)
    requires !Quiet(Strip(lines[j]), d)
    ensures ScanFrom(lines, i, Inside(d))
  {
    AllQuietOf(lines, i, j, d);
    QuietRun(lines, i, j, d);
    CloserLine(lines, j, d);
  }

  lemma CloserLine(lines: seq<string>, j: nat, d: string)
    requires j < |lines| && !Quiet(Strip(lines[j]), d)
    ensures ScanFrom(lines, j, Inside(d))
  {
    assert LineAction(Inside(d), Strip(lines[j])) == Answer(true);
  }

  /** Inside a docstring that is never closed, the answer is false. */
  lemma InsideUnclosed(lines: seq<string>, i: nat, d: string)
    requires i <= |lines|
    requires forall k :: i <= k < |lines| ==> Quiet(Strip(lines[k]), d)
    ensures !ScanFrom(lines, i, Inside(d))
  {
    AllQuietOf(lines, i, |lines|, d);
    QuietRun(lines, i, |lines|, d);
  }
}
