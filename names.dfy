/** The description a function builder derives from a function's name
    (`FunctionCommentBuilder._format_name_as_description`): special names are
    handled apart, other names are cut into words at underscores and at
    upper-case letters, the words are joined by spaces and only the first
    letter is upper case. */
module Names {
  import opened Text

  // ---------------------------------------------------------------------
  // The specification.

  /** The state of the camel-case split of one part: the finished words and
      the word being read. */
  datatype Camel = Camel(words: seq<string>, current: string)

  /** One character of a part: an upper-case letter after the first
      character starts a new word. */
  function CamelStep(st: Camel, i: nat, c: char): Camel {
    if IsUpper(c) && i > 0 && st.current != "" then Camel(st.words + [st.current], [c])
    else Camel(st.words, st.current + [c])
  }

  /** The split after the first `n` characters of `part`. */
  function CamelScan(part: string, n: nat): Camel
    requires n <= |part|
  {
    if n == 0 then Camel([], "")
    else CamelStep(CamelScan(part, n - 1), n - 1, part[n - 1])
  }

  /** The words of one part. */
  function CamelParts(part: string): seq<string> {
    var st := CamelScan(part, |part|);
    if st.current != "" then st.words + [st.current] else st.words
  }

  /** The words of the first `k` underscore-separated parts. */
  function WordsUpTo(parts: seq<string>, k: nat): seq<string>
    requires k <= |parts|
  {
    if k == 0 then []
    else WordsUpTo(parts, k - 1) + (if parts[k - 1] == "" then [] else CamelParts(parts[k - 1]))
  }

  function Words(name: string): seq<string> {
    var parts := Split(name, '_');
    WordsUpTo(parts, |parts|)
  }

  /** The first character upper case, the others lower case. */
  function Capitalized(s: string): (r: string)
    requires s != []
    ensures |r| == |s| && !IsLower(r[0])
    ensures forall i :: 1 <= i < |r| ==> r[i] == ToLower(s[i])
  {
    [ToUpper(s[0])] + Lower(s[1..])
  }

  /** The name formatted as a description. */
  function NameDescription(name: string): string {
    if name == "" then ""
    else if StartsWith(name, "__") && EndsWith(name, "__") then
      var inner := Slice(name, 2, |name| - 2);
      if inner == "" then name
      else if inner == "init" then "Initialize"
      else Capitalized(inner)
    else
      var words := Words(name);
      if words == [] then name
      else
        var result := Join(" ", words);
        if |result| > 1 then Capitalized(result) else Upper(result)
  }

  // ---------------------------------------------------------------------
  // The loops of `_format_name_as_description`.

  /** `_format_name_as_description`. */
  method FormatNameAsDescription(name: string) returns (r: string)
    ensures r == NameDescription(name)
  {
    if name == "" {
      return "";
    }
    if StartsWith(name, "__") && EndsWith(name, "__") {
      var inner := Slice(name, 2, |name| - 2);
      if inner != "" {
        if inner == "init" {
          return "Initialize";
        }
        return Capitalized(inner);
      }
      return name;
    }
    var parts := Split(name, '_');
    var words: seq<string> := [];
    for k := 0 to |parts|
      invariant words == WordsUpTo(parts, k)
    {
      var part := parts[k];
      if part == "" {
        continue;
      }
      var camel := SplitCamel(part);
      words := words + camel;
    }
    if words == [] {
      return name;
    }
    var result := Join(" ", words);
    if |result| > 1 {
      r := Capitalized(result);
    } else {
      r := Upper(result);
    }
  }

  /** The inner loop: the camel-case words of one part. */
  method SplitCamel(part: string) returns (camel: seq<string>)
    ensures camel == CamelParts(part)
  {
    var parts: seq<string> := [];
    var current := "";
    for i := 0 to |part|
      invariant Camel(parts, current) == CamelScan(part, i)
    {
      var c := part[i];
      if IsUpper(c) && i > 0 && current != "" {
        parts := parts + [current];
        current := [c];
      } else {
        current := current + [c];
      }
    }
    if current != "" {
      parts := parts + [current];
    }
    camel := parts;
  }

  // ---------------------------------------------------------------------
  // Properties.

  function Concat(ws: seq<string>): string {
    if ws == [] then "" else ws[0] + Concat(ws[1..])
  }

  lemma {:induction false} ConcatSnoc(ws: seq<string>, w: string)
    ensures Concat(ws + [w]) == Concat(ws) + w
  {
    if ws == [] {
      assert [] + [w] == [w];
    } else {
      assert (ws + [w])[1..] == ws[1..] + [w];
      ConcatSnoc(ws[1..], w);
    }
  }

  lemma {:induction false} ConcatAppend(a: seq<string>, b: seq<string>)
    ensures Concat(a + b) == Concat(a) + Concat(b)
  {
    if a == [] {
      assert [] + b == b;
    } else {
      assert (a + b)[1..] == a[1..] + b;
      ConcatAppend(a[1..], b);
    }
  }

  predicate NonEmptyWords(ws: seq<string>) {
    forall k :: 0 <= k < |ws| ==> ws[k] != ""
  }

  /** The camel-case split loses no character, and every word it makes is
      non-empty. */
  lemma {:induction false} CamelScanSpec(part: string, n: nat)
    requires n <= |part|
    ensures Concat(CamelScan(part, n).words) + CamelScan(part, n).current == part[..n]
    ensures NonEmptyWords(CamelScan(part, n).words)
    ensures n > 0 ==> CamelScan(part, n).current != ""
  {
    if n > 0 {
      CamelScanSpec(part, n - 1);
      var st := CamelScan(part, n - 1);
      assert part[..n] == part[..n - 1] + [part[n - 1]];
      if IsUpper(part[n - 1]) && n - 1 > 0 && st.current != "" {
        ConcatSnoc(st.words, st.current);
      }
    }
  }

  /** The words of a part spell the part. */
  lemma CamelPartsSpell(part: string)
    ensures Concat(CamelParts(part)) == part
    ensures NonEmptyWords(CamelParts(part))
  {
    CamelScanSpec(part, |part|);
    assert part[..|part|] == part;
    var st := CamelScan(part, |part|);
    if st.current != "" {
      ConcatSnoc(st.words, st.current);
    }
  }

  /** A character of a word is a character of the words' concatenation. */
  lemma {:induction false} InConcat(ws: seq<string>, k: nat, c: char)
    requires k < |ws| && c in ws[k]
    ensures c in Concat(ws)
  {
    if k > 0 {
      InConcat(ws[1..], k - 1, c);
    }
  }

  /** The words of all parts spell the parts one after the other. */
  lemma {:induction false} WordsUpToSpell(parts: seq<string>, k: nat)
    requires k <= |parts|
    ensures Concat(WordsUpTo(parts, k)) == Concat(parts[..k])
  {
    if k > 0 {
      WordsUpToSpell(parts, k - 1);
      var p := parts[k - 1];
      var more := if p == "" then [] else CamelParts(p);
      if p != "" {
        CamelPartsSpell(p);
      }
      assert Concat(more) == p;
      ConcatAppend(WordsUpTo(parts, k - 1), more);
      assert parts[..k] == parts[..k - 1] + [p];
      ConcatSnoc(parts[..k - 1], p);
    }
  }

  /** Every word is non-empty. */
  lemma {:induction false} WordsUpToNonEmpty(parts: seq<string>, k: nat)
    requires k <= |parts|
    ensures NonEmptyWords(WordsUpTo(parts, k))
  {
    if k > 0 {
      WordsUpToNonEmpty(parts, k - 1);
      var p := parts[k - 1];
      if p != "" {
        CamelPartsSpell(p);
      }
    }
  }

  /** No word holds an underscore: every character of every word is a
      character of a part of the split at underscores. */
  lemma NoUnderscoreInWords(name: string)
    ensures forall k :: 0 <= k < |Words(name)| ==> '_' !in Words(name)[k]
    ensures NonEmptyWords(Words(name))
  {
    var parts := Split(name, '_');
    WordsUpToSpell(parts, |parts|);
    WordsUpToNonEmpty(parts, |parts|);
    assert parts[..|parts|] == parts;
    NoUnderscoreInConcat(parts);
    forall k | 0 <= k < |Words(name)|
      ensures '_' !in Words(name)[k]
    {
      if '_' in Words(name)[k] {
        InConcat(Words(name), k, '_');
      }
    }
  }

  lemma {:induction false} NoUnderscoreInConcat(parts: seq<string>)
    requires forall k :: 0 <= k < |parts| ==> '_' !in parts[k]
    ensures '_' !in Concat(parts)
  {
    if parts != [] {
      NoUnderscoreInConcat(parts[1..]);
    }
  }

  /** Words that hold no underscore are joined into text without one. */
  lemma {:induction false} JoinNoUnderscore(ws: seq<string>)
    requires forall k :: 0 <= k < |ws| ==> '_' !in ws[k]
    ensures '_' !in Join(" ", ws)
  {
    if |ws| > 1 {
      JoinNoUnderscore(ws[1..]);
    }
  }

  /** For an ordinary name with at least one word: the description is the
      words joined by single spaces, with the first letter upper case and
      the others lower case, and it holds no underscore. */
  lemma PlainNameDescription(name: string)
    requires name != "" && !(StartsWith(name, "__") && EndsWith(name, "__"))
    requires Words(name) != []
    ensures var r := NameDescription(name);
      var joined := Join(" ", Words(name));
      && |r| == |joined| && r != []
      && !IsLower(r[0])
      && (forall i :: 1 <= i < |r| ==> r[i] == ToLower(joined[i]) && !IsUpper(r[i]))
      && '_' !in r
  {
    NoUnderscoreInWords(name);
    var ws := Words(name);
    JoinNoUnderscore(ws);
    var joined := Join(" ", ws);
    assert joined != [] by {
      JoinFirst(ws);
    }
    var r := NameDescription(name);
    if |joined| > 1 {
      assert r == Capitalized(joined);
      assert r[0] == ToUpper(joined[0]);
    } else {
      assert r == Upper(joined);
    }
    forall i | 0 <= i < |r|
      ensures r[i] != '_'
    {
      assert joined[i] != '_';
    }
  }

  /** A join starts with its first word. */
  lemma JoinFirst(ws: seq<string>)
    requires ws != [] && ws[0] != ""
    ensures Join(" ", ws) != [] && Join(" ", ws)[0] == ws[0][0]
  {
  }

  /** A name made of underscores only has no words and is returned as it
      is. */
  lemma {:induction false} OnlyUnderscoresUnchanged(name: string)
    requires name != "" && !(StartsWith(name, "__") && EndsWith(name, "__"))
    requires forall i :: 0 <= i < |name| ==> name[i] == '_'
    ensures NameDescription(name) == name
  {
    var parts := Split(name, '_');
    WordsUpToSpell(parts, |parts|);
    WordsUpToNonEmpty(parts, |parts|);
    assert parts[..|parts|] == parts;
    NoUnderscoreInWords(name);
    if Words(name) != [] {
      var w := Words(name)[0];
      assert w != "";
      ConcatFirst(Words(name));
      assert w[0] in Concat(parts);
      SplitKeepsChars(name, '_', w[0]);
      assert false;
    }
  }

  lemma ConcatFirst(ws: seq<string>)
    requires ws != [] && ws[0] != ""
    ensures Concat(ws) != [] && Concat(ws)[0] == ws[0][0]
  {
  }

  /** The parts of a split hold only characters of the text. */
  lemma {:induction false} SplitKeepsChars(s: string, c: char, x: char)
    requires x in Concat(Split(s, c))
    ensures x in s
    decreases |s|
  {
    var i := FindChar(s, c);
    if i >= 0 {
      var rest := Split(s[i + 1..], c);
      assert Split(s, c) == [s[..i]] + rest;
      assert Concat(Split(s, c)) == s[..i] + Concat(rest);
      if x !in s[..i] {
        SplitKeepsChars(s[i + 1..], c, x);
      }
    } else {
      assert Concat(Split(s, c)) == s + "";
    }
  }

  /** `__init__` is described as "Initialize". */
  lemma InitName(name: string)
    requires name == "__init__"
    ensures NameDescription(name) == "Initialize"
  {
    assert name[..2] == "__" && name[|name| - 2..] == "__";
    assert Slice(name, 2, |name| - 2) == name[2..6];
    assert name[2..6] == "init";
  }

  /** Any other special name `__x__` is described by `x`, capitalised. */
  lemma DunderName(inner: string)
    requires inner != "" && inner != "init"
    ensures NameDescription("__" + inner + "__") == Capitalized(inner)
  {
    var name := "__" + inner + "__";
    assert name[..2] == "__" && name[|name| - 2..] == "__";
    assert Slice(name, 2, |name| - 2) == inner;
  }

  /** A special name with nothing between its underscores is returned as it is. */
  lemma EmptyDunderUnchanged(name: string)
    requires StartsWith(name, "__") && EndsWith(name, "__") && |name| <= 4
    ensures NameDescription(name) == name
  {
    assert Slice(name, 2, |name| - 2) == "";
  }

  /** A text without the separator is not split. */
  lemma SplitNone(s: string, c: char)
    requires c !in s
    ensures Split(s, c) == [s]
  {
    assert FindChar(s, c) == -1;
  }

  /** A text with the separator once is split into the two sides. */
  lemma SplitTwo(a: string, b: string, c: char)
    requires c !in a && c !in b
    ensures Split(a + [c] + b, c) == [a, b]
  {
    var s := a + [c] + b;
    FindCharAfter(a, [c] + b, c);
    assert a + ([c] + b) == s;
    assert s[..|a|] == a && s[|a| + 1..] == b;
    SplitNone(b, c);
  }

  /** The words of a name without underscores are its camel-case words. */
  lemma WordsOfPart(name: string)
    requires name != "" && '_' !in name
    ensures Words(name) == CamelParts(name)
  {
    SplitNone(name, '_');
    assert WordsUpTo([name], 1) == [] + CamelParts(name);
  }

  /** The words of two parts joined by an underscore. */
  lemma WordsOfTwoParts(a: string, b: string)
    requires a != "" && b != "" && '_' !in a && '_' !in b
    ensures Words(a + "_" + b) == CamelParts(a) + CamelParts(b)
  {
    SplitTwo(a, b, '_');
    assert WordsUpTo([a, b], 1) == CamelParts(a);
  }

  /** An ordinary name's description is its words joined and capitalised. */
  lemma PlainDescriptionIs(name: string)
    requires name != "" && name[0] != '_' && Words(name) != []
    ensures var joined := Join(" ", Words(name));
      NameDescription(name) == (if |joined| > 1 then Capitalized(joined) else Upper(joined))
  {
    assert !StartsWith(name, "__");
  }

  /** Two lower-case words joined by an underscore: the description is
      the two words joined by a space, capitalised. */
  lemma TwoPartName(a: string, b: string)
    requires a != [] && b != [] && '_' !in a && '_' !in b && a[0] != '_'
    requires forall i :: 0 <= i < |a| ==> !IsUpper(a[i])
    requires forall i :: 0 <= i < |b| ==> !IsUpper(b[i])
    ensures NameDescription(a + "_" + b) == Capitalized(a + " " + b)
  {
    var name := a + "_" + b;
    WordsOfTwoParts(a, b);
    NoUpperOneWord(a);
    NoUpperOneWord(b);
    assert Words(name) == [a, b];
    assert Join(" ", [a, b]) == a + " " + b;
    PlainDescriptionIs(name);
  }

  /** `hello_world` is described as "Hello world". */
  lemma HelloWorld(name: string)
    requires name == "hello_world"
    ensures NameDescription(name) == "Hello world"
  {
    var a, b := "hello", "world";
    HelloWorldParts(name, a, b);
    HelloWorldLower(a, b);
    TwoPartName(a, b);
    HelloWorldCapitalized(a, b);
  }

  lemma HelloWorldParts(name: string, a: string, b: string)
    requires name == "hello_world" && a == "hello" && b == "world"
    ensures name == a + "_" + b
  {
  }

  lemma HelloWorldLower(a: string, b: string)
    requires a == "hello" && b == "world"
    ensures a != [] && b != [] && '_' !in a && '_' !in b && a[0] != '_'
    ensures forall i :: 0 <= i < |a| ==> !IsUpper(a[i])
    ensures forall i :: 0 <= i < |b| ==> !IsUpper(b[i])
  {
  }

  lemma HelloWorldCapitalized(a: string, b: string)
    requires a == "hello" && b == "world"
    ensures Capitalized(a + " " + b) == "Hello world"
  {
    var s := a + " " + b;
    assert s == "hello world";
    CapitalizedPlain(s);
    assert ToUpper(s[0]) == 'H';
  }

  /** With no upper-case letter after the first, only the first changes. */
  lemma CapitalizedPlain(s: string)
    requires s != [] && forall i :: 1 <= i < |s| ==> !IsUpper(s[i])
    ensures Capitalized(s) == [ToUpper(s[0])] + s[1..]
  {
    assert Lower(s[1..]) == s[1..];
  }

  /** `func1` is described as "Func1". */
  lemma Func1(name: string)
    requires name == "func1"
    ensures NameDescription(name) == "Func1"
  {
    Func1Shape(name);
    WordsOfPart(name);
    NoUpperOneWord(name);
    PlainDescriptionIs(name);
    assert Join(" ", [name]) == name;
    CapitalizedPlain(name);
    assert ToUpper('f') == 'F';
  }

  lemma Func1Shape(name: string)
    requires name == "func1"
    ensures name != "" && '_' !in name && name[0] != '_' && |name| > 1
    ensures forall i :: 0 <= i < |name| ==> !IsUpper(name[i])
  {
  }

  /** Characters that are not upper case extend the current word. */
  lemma {:induction false} ScanSegment(part: string, n: nat, m: nat, ws: seq<string>, cur: string)
    requires n <= m <= |part| && CamelScan(part, n) == Camel(ws, cur)
    requires forall i :: n <= i < m ==> !IsUpper(part[i])
    ensures CamelScan(part, m) == Camel(ws, cur + part[n..m])
    decreases m - n
  {
    if n < m {
      ScanSegment(part, n, m - 1, ws, cur);
      assert part[n..m] == part[n..m - 1] + [part[m - 1]];
    } else {
      assert cur + [] == cur;
    }
  }

  /** An upper-case letter after the start closes the current word. */
  lemma ScanUpper(part: string, n: nat, ws: seq<string>, cur: string)
    requires 0 < n < |part| && CamelScan(part, n) == Camel(ws, cur) && cur != ""
    requires IsUpper(part[n])
    ensures CamelScan(part, n + 1) == Camel(ws + [cur], [part[n]])
  {
  }

  /** `UserAccountManager` is described as "User account manager". */
  lemma UserAccountManager(name: string)
    requires name == "UserAccountManager"
    ensures NameDescription(name) == "User account manager"
  {
    var a, b, c := "User", "Account", "Manager";
    CamelUserAccountManager(name);
    UserAccountManagerShape(name);
    WordsOfPart(name);
    PlainDescriptionIs(name);
    JoinThree(a, b, c);
    UserAccountManagerCapitalized(a, b, c);
  }

  lemma UserAccountManagerShape(name: string)
    requires name == "UserAccountManager"
    ensures name != "" && '_' !in name && name[0] != '_'
  {
  }

  lemma JoinThree(a: string, b: string, c: string)
    ensures Join(" ", [a, b, c]) == a + " " + b + " " + c
  {
    assert [a, b, c][1..] == [b, c];
    assert [b, c][1..] == [c];
    assert Join(" ", [b, c]) == b + " " + c;
  }

  lemma UserAccountManagerCapitalized(a: string, b: string, c: string)
    requires a == "User" && b == "Account" && c == "Manager"
    ensures Capitalized(a + " " + b + " " + c) == "User account manager"
  {
    CapitalizedThree(a, b, c);
    UserAccountManagerPieces(a, b, c);
  }

  /** The words joined by spaces, capitalised, piece by piece. */
  lemma CapitalizedThree(a: string, b: string, c: string)
    requires a != []
    ensures Capitalized(a + " " + b + " " + c) == Capitalized(a) + Lower(" ") + Lower(b) + Lower(" ") + Lower(c)
  {
    CapitalizedConcat(a + " " + b + " ", c);
    CapitalizedConcat(a + " " + b, " ");
    CapitalizedConcat(a + " ", b);
    CapitalizedConcat(a, " ");
  }

  lemma UserAccountManagerPieces(a: string, b: string, c: string)
    requires a == "User" && b == "Account" && c == "Manager"
    ensures Capitalized(a) + Lower(" ") + Lower(b) + Lower(" ") + Lower(c) == "User account manager"
  {
    CapitalizedPlain(a);
    LowerFirst(b);
    LowerFirst(c);
    LowerPlain(" ");
    assert Capitalized(a) == "User" by {
      assert ToUpper('U') == 'U';
    }
    assert Lower(b) == "account" by {
      assert ToLower('A') == 'a';
    }
    assert Lower(c) == "manager" by {
      assert ToLower('M') == 'm';
    }
  }

  /** Only the first character of the first piece is raised. */
  lemma CapitalizedConcat(x: string, y: string)
    requires x != []
    ensures Capitalized(x + y) == Capitalized(x) + Lower(y)
  {
    assert (x + y)[1..] == x[1..] + y;
    LowerConcat(x[1..], y);
  }

  lemma LowerConcat(x: string, y: string)
    ensures Lower(x + y) == Lower(x) + Lower(y)
  {
  }

  lemma LowerPlain(s: string)
    requires forall i :: 0 <= i < |s| ==> !IsUpper(s[i])
    ensures Lower(s) == s
  {
  }

  /** With no upper-case letter after the first, only the first is lowered. */
  lemma LowerFirst(s: string)
    requires s != [] && forall i :: 1 <= i < |s| ==> !IsUpper(s[i])
    ensures Lower(s) == [ToLower(s[0])] + s[1..]
  {
  }

  lemma CamelUserAccountManager(name: string)
    requires name == "UserAccountManager"
    ensures CamelParts(name) == ["User", "Account", "Manager"]
  {
    ScanManager(name);
  }

  lemma ScanUser(name: string)
    requires name == "UserAccountManager"
    ensures CamelScan(name, 4) == Camel([], "User")
  {
    assert CamelScan(name, 1) == Camel([], "U");
    ScanSegment(name, 1, 4, [], "U");
    assert "U" + name[1..4] == "User";
  }

  lemma ScanAccount(name: string)
    requires name == "UserAccountManager"
    ensures CamelScan(name, 11) == Camel(["User"], "Account")
  {
    ScanUser(name);
    ScanUpper(name, 4, [], "User");
    ScanSegment(name, 5, 11, ["User"], "A");
    assert "A" + name[5..11] == "Account";
  }

  lemma ScanManager(name: string)
    requires name == "UserAccountManager"
    ensures CamelScan(name, 18) == Camel(["User", "Account"], "Manager")
  {
    ScanAccount(name);
    ScanUpper(name, 11, ["User"], "Account");
    ScanSegment(name, 12, 18, ["User", "Account"], "M");
    assert "M" + name[12..18] == "Manager";
  }

  /** A non-empty part with no upper-case letter is one word. */
  lemma NoUpperOneWord(part: string)
    requires part != [] && forall i :: 0 <= i < |part| ==> !IsUpper(part[i])
    ensures CamelParts(part) == [part]
  {
    NoUpperScan(part, |part|);
    assert part[..|part|] == part;
  }

  lemma {:induction false} NoUpperScan(part: string, n: nat)
    requires n <= |part| && forall i :: 0 <= i < |part| ==> !IsUpper(part[i])
    ensures CamelScan(part, n) == Camel([], part[..n])
  {
    if n > 0 {
      NoUpperScan(part, n - 1);
      assert part[..n] == part[..n - 1] + [part[n - 1]];
    }
  }
}
