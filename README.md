# pyment docstring converter, modelled in Dafny

pyment rewrites the docstrings of Python functions, methods and classes from
one dialect to another. The dialects are:

- the tag styles javadoc (`@param x: …`) and reST (`:param x: …`);
- the section styles Google (`Args:`) and numpydoc (a header underlined with dashes);
- the older "groups" style.

For each element, pyment does four things:

1. It splits the definition line (`def f(a: int = 1) -> str:`) into a name, parameters, types, defaults and a return type.
2. It detects the dialect of the existing docstring and reads its description, parameters, return and raises.
3. It merges what it read with the signature.
4. It renders the result in the requested output dialect with a format strategy and a comment builder.

A small part of the file-level driver is also modelled: the scope filter on
method names and the scan for a module docstring.

This project models that converter as Dafny functions, methods and classes,
and proves properties of them. Strings are `seq<char>`. Python's `strip`,
`splitlines`, `split`, `find`, `count`, `replace`, slicing and ASCII case
mapping are written out in module `Text`.

The modules follow the program's structure:

| file | module | models |
|---|---|---|
| wrappers.dfy | Wrappers | `Option` and `Result` (a Python exception is an `Err`) |
| text.dfy | Text | the `str` primitives the source relies on |
| utils.dfy | Utils | `pyment/utils.py`: line predicates, leading spaces, default-value normalisation |
| signature.dfy | Signature | `parse_definition`, `_remove_signature_comment`, `_extract_signature_elements` |
| section_tools.dfy | SectionTools | `DocToolsBase`, `NumpydocTools` and `GoogledocTools`: section headers and boundaries |
| list_key.dfy | ListKey | `get_list_key`, the two `_get_list_key` column parsers, return and raise lists, `get_raw_not_managed` |
| docs_tools.dfy | Styles | `DocsTools`: the marker tables, `get_key`/`get_sep`, `autodetect_style` |
| doctests.dfy | Doctests | `get_doctests_indexes` |
| groups.dfy | GroupScan | the `get_group_*` scanners |
| key_index.dfy | KeyScan | `get_key_index` and `get_elem_index` |
| tag_params.dfy | TagParams | `__parse_param`, `__parse_param_type` and `_extra_tagstyle_elements` |
| group_items.dfy | GroupItems | the groups-style parameter, raise and return readers of `DocString` |
| doc_text.dfy | DocText | docstring delimiters, the doctest excision loop, the current description |
| merge.dfy | Merge | the merge of parameters, types, return, raises and other sections into the output |
| docstring.dfy | Docstring | class `DocString`: `parse_docs`, `generate_docs`, `get_raw_docs` and the accessors |
| strategy.dfy | Strategy | the four format strategies and `create_strategy` |
| strategy_facts.dfy | StrategyFacts | what the renderers write, read back by the parsers |
| builder.dfy | Builder | class `CommentBuilder` and the function and class builders |
| names.dfy | Names | `_format_name_as_description` |
| pyment.dfy | Pyment | `PyComment`: `_get_method_scope`, `_should_process_method`, `_has_module_docstring` |

## Behaviour taken from the code

Where the code does something other than its comments or evident intent
suggest, the model follows the code:

- Google's `optional_sections` default is `('raise')`. This is a string, not a tuple, so `raise` counts as mandatory for Google.
- `_create_builder` passes the raw input docstring to `set_element_info` as the element name. Its auto-generated flag is therefore always false.
- `__extract_return` reads the output `rtype` before it is set. As a result, the signature's return type is kept even when `hint_rtype_priority` is off.
- A group section is cut where `get_group_line` points in the rest: the smallest, over the three groups, of each group's last header line there. When a group's header repeats in the rest, the cut therefore falls at a later header line and the section runs past an earlier one.
- The numpydoc strategy's excluded sections are empty. Its raises section is therefore always considered.
- `get_key_index` sets its answer to the length of the whole text, after the `:return:` rewrite, before any cut, and at the end compares it with the length of the possibly cut text. With `starting` set and no marker at a line start after a cut, it therefore answers that whole length instead of -1. `get_elem_index` masks this.

## Model

| member | source | states |
|---|---|---|
| Utils.IsinAlone | pyment/utils.py:16-28 | found exactly when some element, lower-cased, equals the stripped and lower-cased line |
| Utils.InAloneSome | pyment/utils.py:23-28 | `isin_alone` holds exactly when there is an index of a matching element |
| Utils.AloneMatchIgnoresLineCase | pyment/utils.py:25 | the comparison does not depend on the case of the line |
| Utils.NormIsLowerStrip | pyment/utils.py:25 | the one-pass normal form of a line equals `line.strip().lower()` |
| Utils.IsinStart | pyment/utils.py:31-44 | a single string is wrapped into a list; found exactly when the left-stripped, lower-cased line starts with some element as given |
| Utils.StartMatchNeedsLowerElement | pyment/utils.py:41 | an element holding an upper-case letter never matches, because only the line is lower-cased |
| Utils.Isin | pyment/utils.py:47-59 | found exactly when some element occurs in the lower-cased line |
| Utils.GetLeadingSpaces | pyment/utils.py:62-72 | the result is a prefix of the text, all whitespace, and followed by a non-space or the end |
| Utils.LeadingSpacesOf | pyment/utils.py:62-72 | the leading spaces of an indented non-blank line are exactly its indentation |
| Utils.NormalizeDefaultValue | pyment/utils.py:75-110 | `None` and the empty string come back unchanged; the result is never longer; a value not wrapped in triple quotes has every `"""` and then every `'''` replaced by `'` |
| Utils.NormalizeTripleQuoted | pyment/utils.py:92-104 | a value wrapped in triple quotes becomes its inner text wrapped in single quotes |
| Styles.StyleOf | pyment/docs_tools.py:554-557 | a style name is recognised exactly when it is one of the three tag styles: `javadoc`, `reST` and `cstyle` |
| Styles.TagNameShape | pyment/docs_tools.py:554-564 | every marker is its style's prefix followed by the key, except reST's `:returns` and `:raises` |
| Styles.ReSTReturnMarkers | pyment/docs_tools.py:563 | in reST the `return` and `returns` keys share the marker `:returns`; in javadoc they do not |
| Styles.KeyOf | pyment/docs_tools.py:642-652 | a marker is found exactly for a known key in a tag style, and it is that style's marker |
| Styles.SepOf | pyment/docs_tools.py:654-666 | numpydoc and google have the empty separator; otherwise a known key in a tag style gets that style's separator, and any other key or style fails |
| Styles.Best | pyment/docs_tools.py:592 | Python's `max` over the counts: a maximal count, and the first maximal one in table order |
| Styles.Decide | pyment/docs_tools.py:611-617 | numpydoc exactly when both numpydoc counters are positive, otherwise google when its count is at least the groups count, otherwise groups; never `unknown` |
| Styles.ValueLists | pyment/docs_tools.py:600-603 | a section table's values are each matched as a single string |
| Styles.TagCounts | pyment/docs_tools.py:588-591 | each tag style's count is the summed occurrences of its markers |
| Styles.SepLineIsDashes | pyment/docs_tools.py:606 | a separator line is one that, stripped, is a non-empty run of dashes |
| Styles.DetectTagStyle | pyment/docs_tools.py:588-593 | once any tag marker occurs, the detected style is a tag style with the largest count, and the first one in table order among equals |
| Styles.DetectSectionStyle | pyment/docs_tools.py:595-617 | with no tag marker, the style is decided by the line counters of the stripped text and is numpydoc, google or groups |
| Styles.DetectNeverUnknown | pyment/docs_tools.py:577-620 | the detector never answers `unknown`, because when google's count is below the groups count the groups count is positive |
| Styles.Detect | pyment/docs_tools.py:587-617 | the counting loops compute the detected style |
| Styles.CountMarkers | pyment/docs_tools.py:589-591 | the inner loop sums the counts of one style's markers |
| Styles.ScanLines | pyment/docs_tools.py:600-610 | the line loop adds up every line's counters |
| Styles.CountLine | pyment/docs_tools.py:601-610 | the counters one line increments: groups, google and numpydoc starts, then a separator line or else a numpydoc keyword |
| Styles.CountStarts | pyment/docs_tools.py:601-606 | counts the entries of a table whose words `isin_start` accepts for the line |
| Styles.DocsTools.constructor | pyment/docs_tools.py:518-536 | the tools start with the given input and output styles |
| Styles.DocsTools.SetInputStyle | pyment/docs_tools.py:625-632 | the input style is set and the output style is unchanged |
| Styles.DocsTools.GetKey | pyment/docs_tools.py:642-652 | `target` picks the output style only when it is `out`; the marker of the key in that style |
| Styles.DocsTools.GetSep | pyment/docs_tools.py:654-666 | the separator of the key in the style that `target` picks |
| Styles.DocsTools.AutodetectStyle | pyment/docs_tools.py:577-623 | the detected style is returned and becomes the input style; the output style is unchanged |
| Doctests.GetDoctestsIndexes | pyment/docs_tools.py:677-695 | returns a doctest block of the lines: `(-1, -1)` when no stripped line starts with `>>>`; otherwise the first such line, and the line before the first blank line after it, or the last line |
| Doctests.DoctestFlags | pyment/docs_tools.py:686-695 | the scan's result over the per-line flags is a doctest block of the lines |
| Doctests.DoctestScan | pyment/docs_tools.py:686-695 | the loop finds the first doctest line and stops at the next blank line, or runs to the last line |
| Doctests.LineKind | pyment/docs_tools.py:689-692 | a line's two tests, blank and starts with `>>>` once stripped |
| GroupScan.Hits | pyment/docs_tools.py:706-708 | flags the lines that open a group of the key |
| GroupScan.LastTrue | pyment/docs_tools.py:705-709 | the last flagged index, or -1 when none is flagged |
| GroupScan.LastGroupLineSpec | pyment/docs_tools.py:697-709 | -1 exactly when no line opens a group of the key; otherwise that line opens one and no later line does |
| GroupScan.GetGroupKeyLine | pyment/docs_tools.py:697-709 | the loop returns the last line that opens a group of the key |
| GroupScan.LineStartIsOffset | pyment/docs_tools.py:715-729 | the summed lengths plus newlines of the earlier lines are exactly where the line sits in the text |
| GroupScan.OffsetOf | pyment/docs_tools.py:726-728 | the summing loop computes the line's start offset |
| GroupScan.GetGroupKeyIndex | pyment/docs_tools.py:715-729 | -1 when no line opens the key's group, otherwise the offset of the last such line |
| GroupScan.MinFoundOverMin | pyment/docs_tools.py:738-742 | the update rule computes -1 exactly when every value is -1, and otherwise the smallest value other than -1 |
| GroupScan.GroupLines | pyment/docs_tools.py:739-740 | the key lines of the three groups, in table order |
| GroupScan.GroupLineIsMin | pyment/docs_tools.py:731-743 | -1 exactly when no key opens a group; otherwise a key's line, and no larger than any key's line that was found |
| GroupScan.GetGroupLine | pyment/docs_tools.py:731-743 | the loop computes the smallest found key line |
| GroupScan.GroupStep | pyment/docs_tools.py:739-742 | one turn of the loop applies the update rule to the next key's line |
| GroupScan.GetGroupIndex | pyment/docs_tools.py:745-758 | -1 when no group is found, otherwise the offset of the smallest found key line |
| KeyScan.KeyIndexAsWritten | pyment/docs_tools.py:760-795 | the scan as written: -1 when the marker is absent; without `starting`, the first occurrence; with `starting`, the first occurrence when it does not sit in mid-line |
| KeyScan.KeyIndexCounterexample | pyment/docs_tools.py:782-784 | on `x @param @param\n@param` the as-written scan answers 13 (the third marker is at 16), while the corrected scan answers 16 |
| KeyScan.FindAt | pyment/docs_tools.py:777 | `find` returns a position where the pattern occurs and before which it does not |
| KeyScan.FindFrom | pyment/docs_tools.py:777 | `find` on the text after a cut: -1 exactly when the pattern occurs nowhere after the cut, otherwise the first occurrence after it, shifted by the cut |
| KeyScan.FirstFromSpec | pyment/docs_tools.py:775-789 | the first set flag from a position: -1 when none is set, otherwise a set flag with none before it |
| KeyScan.KeyIndexSpec | pyment/docs_tools.py:760-795 | the intended index is -1 exactly when every occurrence of the marker is in mid-line under `starting` (or there is none); otherwise it is an occurrence that qualifies and no earlier occurrence does |
| KeyScan.GetKeyIndex | pyment/docs_tools.py:760-795 | the corrected loop, with the reST `:return:` rewrite of lines 771-773, computes the intended index |
| KeyScan.ScanKey | pyment/docs_tools.py:775-791 | the `while loop:` cutting after each mid-line occurrence ends at the first qualifying position of the whole text |
| KeyScan.Stops | pyment/docs_tools.py:778-789 | the body's decision on an occurrence: stop unless `starting` is set and the text before the occurrence holds something on its line |
| KeyScan.KeyStep | pyment/docs_tools.py:777-789 | one turn of the loop: no occurrence after the cut means nothing qualifies; otherwise the answer is that occurrence when it qualifies, else the answer from just after it |
| KeyScan.ElemFoldMin | pyment/docs_tools.py:808-813 | the fold of `get_elem_index` is at most the text length, is either that length or a found index, equals the length exactly when no index below it is found, and is no larger than any found index |
| KeyScan.ElemIndexOf | pyment/docs_tools.py:808-815 | -1 exactly when no key's marker is found within the text; otherwise the smallest found index |
| KeyScan.KeyIndexes | pyment/docs_tools.py:809-810 | one index per key of the option table |
| KeyScan.GetElemIndex | pyment/docs_tools.py:797-815 | the loop over the option keys returns the smallest index found among them, else -1 |
| ListKey.AddLine | pyment/docs_tools.py:321-323 | a description line is appended after a newline, or becomes the description when it is empty |
| ListKey.NumpyHead | pyment/docs_tools.py:313-315 | an element line always yields a key; it has a type exactly when it holds a colon |
| ListKey.NumpyGetListKey | pyment/docs_tools.py:303-330 | the numpydoc loop over the section lines builds the element list of the fold |
| ListKey.NumpyFoldHeads | pyment/docs_tools.py:303-330 | the numpydoc elements' (key, type) pairs are one per non-blank line at the section's indentation, in order |
| ListKey.NumpyListHeads | pyment/docs_tools.py:303-330 | as many numpydoc elements as lines at the section's indentation, the k-th taking its key and type from the k-th such line |
| ListKey.NumpyFoldBlock | pyment/docs_tools.py:309-326 | an element line followed by deeper or shallower lines leaves one open element whose description is the non-blank following lines, each stripped once of the section's indentation when deeper, joined with newlines |
| ListKey.NumpyOneElement | pyment/docs_tools.py:303-330 | such a block is exactly one element, with the line's key and type and that joined description |
| ListKey.ContLinesNonEmpty | pyment/docs_tools.py:310-311 | blank lines are skipped, so no continuation text is empty |
| ListKey.GoogleSplitKey | pyment/docs_tools.py:443-454 | a key without both parentheses has no type and is kept as is |
| ListKey.GoogleTypedKey | pyment/docs_tools.py:443-454 | `name(type)` and `name(type, optional)` yield the stripped name and the stripped type |
| ListKey.GoogleKeyLine | pyment/docs_tools.py:440-456 | the loop body's cut of an element line at its first colon gives its key, type and stripped description |
| ListKey.GoogleSplit | pyment/docs_tools.py:443-454 | the loop body's cut of the parenthesised type agrees with the key split of the element |
| ListKey.GoogleGetListKey | pyment/docs_tools.py:429-474 | the Google loop, whose element column is the indentation of the first non-blank line that is indented, or 0 while no line is, builds the element list of the fold, keeping a trailing description without a key |
| ListKey.GoogleOneLine | pyment/docs_tools.py:429-474 | a lone element line yields one element with the line's key, type and description |
| ListKey.ListBoundsSpan | pyment/docs_tools.py:80-102 | the intended section lines start after the header and run to the next section start or the end, with no section start between |
| ListKey.ListBoundsAsWrittenDropsLine | pyment/docs_tools.py:94-99 | as written, the end is offset from the header line while it was searched from the line after it, so a section followed by another loses its last line |
| ListKey.ListBoundsCounterexample | pyment/docs_tools.py:94-99 | on the Google lines `args:`, `a: x`, `returns:`, `y` the as-written bounds are empty, the corrected ones hold `a: x` |
| ListKey.GetListKeyOf | pyment/docs_tools.py:303-330 | dispatch of `_get_list_key` to the numpydoc or the Google parser |
| ListKey.GetListKey | pyment/docs_tools.py:80-102 | the elements of the `key` section with corrected bounds; none when the section is absent |
| ListKey.ReturnEntry | pyment/docs_tools.py:128-132 | an element with a type is kept; one without has its key moved to the type, no name and a stripped description |
| ListKey.ReturnEntries | pyment/docs_tools.py:127-133 | the loop maps every element through that rule, in order |
| ListKey.GetReturnList | pyment/docs_tools.py:120-135 | the return list is the `return` section's elements mapped through that rule |
| ListKey.RaiseEntries | pyment/docs_tools.py:112-115 | the loop keeps the name and the description of every element, in order |
| ListKey.GetRaiseList | pyment/docs_tools.py:104-117 | the raise list is the `raise` section's (name, description) pairs |
| ListKey.NamesOf | pyment/docs_tools.py:348 | the names of exactly the table's sections whose key is listed |
| ListKey.ExcludedNames | pyment/docs_tools.py:359 | one section name per excluded key, in order |
| ListKey.Dedent | pyment/docs_tools.py:361-364 | every kept line loses one occurrence of the header's indentation and its trailing whitespace |
| ListKey.Contributions | pyment/docs_tools.py:356-365 | what each line would add as a section start: a kept section's lines from its header up to the next section start, with the corrected end |
| ListKey.GetRawNotManaged | pyment/docs_tools.py:341-367 | the loop over the sections concatenates the text of each section kept verbatim, each running up to the next section start |
| ListKey.ContributionsAsWritten | pyment/docs_tools.py:356-365 | what each line would add as a section start with the slice end as written |
| ListKey.RawEndAsWrittenDropsLine | pyment/docs_tools.py:361-362 | when another section follows, the slice as written ends one line before the next section start; otherwise both ends are the end of the text |
| ListKey.RawNotManagedOneSection | pyment/docs_tools.py:341-367 | a kept section heading the text and followed by no other section contributes every line of the text, dedented and closed by a newline |
| ListKey.KeptNamed | pyment/docs_tools.py:348-359 | a table entry whose key is listed and whose name is not excluded heads a section kept verbatim |
| ListKey.RawNotManagedCounterexample | pyment/docs_tools.py:356-365 | on numpydoc lines `See Also`, `--------`, `foo`, `Notes`, `-----`, `bar` the code as written keeps both sections but drops `foo`; the corrected reading keeps it |
| ListKey.RawStep | pyment/docs_tools.py:353-366 | one turn of the loop stops with the result when no section follows, and otherwise moves two lines past the section found, adding its text |
| ListKey.RawSection | pyment/docs_tools.py:358-365 | a section adds its dedented lines joined with newlines and a final newline when it is kept and not excluded, else nothing |
| ListKey.RawScanEmpty | pyment/docs_tools.py:353-366 | when no section contributes, the scan adds nothing |
| ListKey.RawNotManagedShape | pyment/docs_tools.py:341-367 | the raw text is empty or ends with a newline |
| ListKey.RawNotManagedEmpty | pyment/docs_tools.py:341-367 | the raw text is empty when no line heads a kept section |
| SectionTools.Lookup | pyment/docs_tools.py:52-53 | a table lookup finds a value exactly when the key is in the table, and that entry is in the table |
| SectionTools.GetMandatorySections | pyment/docs_tools.py:63-67 | exactly the table keys that are neither optional nor excluded |
| SectionTools.GoogleRaiseIsMandatory | pyment/docs_tools.py:384-386 | the Google default `('raise')` is a string, so its optional sections are five characters and `raise` is mandatory |
| SectionTools.NumpyMandatorySections | pyment/docs_tools.py:214-255 | for numpydoc, `param` and `return` are mandatory and `raise` is not |
| SectionTools.GetKeySectionHeader | pyment/docs_tools.py:175-187 | numpydoc writes the header then a line of as many dashes; Google writes the header and a colon; both after the given indentation |
| SectionTools.HeaderWords | pyment/docs_tools.py:283 | one header word per section of the table |
| SectionTools.IsUnderlineLine | pyment/docs_tools.py:280 | the scan's underline test on one line |
| SectionTools.UnderlineIsDashes | pyment/docs_tools.py:280 | a line is an underline exactly when its normalised text is a non-empty run of dashes |
| SectionTools.DashRunOfStrip | pyment/docs_tools.py:280 | lower-casing makes no dash, so the stripped line is itself the run of dashes |
| SectionTools.HeaderTest | pyment/docs_tools.py:283 | `isin_alone` of the header words holds exactly when the normalised line is one of them |
| SectionTools.SectionStartFrom | pyment/docs_tools.py:269-285 | the first section start at or after a line, or -1 when there is none |
| SectionTools.SectionStart | pyment/docs_tools.py:269-285 | -1 or a section start with no section start before it |
| SectionTools.GetNextSectionStartLine | pyment/docs_tools.py:148-157 | dispatch to the dialect's scan, which returns the first section start |
| SectionTools.GoogleSectionStartLine | pyment/docs_tools.py:476-491 | the Google loop returns the first line reading a section name with a colon, else -1 |
| SectionTools.NumpySectionStartLine | pyment/docs_tools.py:269-285 | the numpydoc loop returns the first header line followed by an underline, or a header on the last line, else -1 |
| SectionTools.SectionStartIsFirst | pyment/docs_tools.py:269-285 | a section start with none before it is the one found |
| SectionTools.NextSectionLines | pyment/docs_tools.py:159-173 | the first section start, and the next one counted from the line after it; both -1 when there is none |
| SectionTools.SectionStartSuffix | pyment/docs_tools.py:159-173 | a scan of the lines from a cut finds the first section start of the whole text after the cut |
| SectionTools.KeyLineFrom | pyment/docs_tools.py:189-209 | the first section start from a line that reads the key's name, or -1 |
| SectionTools.KeyLineIsFirst | pyment/docs_tools.py:198-205 | a section start reading the target, with no key line before it, is the one the loop breaks at |
| SectionTools.NextSectionStartFrom | pyment/docs_tools.py:199 | the scan from a cut finds the first section start after the cut, or -1 when none follows |
| SectionTools.GetSectionKeyLine | pyment/docs_tools.py:189-209 | the loop returns the first section start reading the key's name (with a colon for Google, lines 419-427), else -1 |
| TagParams.Get | pyment/docs_tools.py:910-911 | a name has an entry exactly when it is in the table |
| TagParams.Upsert | pyment/docs_tools.py:910-915 | storing an entry under a name sets that name's entry and leaves every other name's entry as it was |
| TagParams.UpsertNames | pyment/docs_tools.py:910-911 | a known name keeps its place in the dictionary; a new one is appended |
| TagParams.UpsertKeepsDistinct | pyment/docs_tools.py:910-911 | names stay distinct under storing |
| TagParams.NameAndType | pyment/docs_tools.py:901-907 | one word is a name; two words are a type then a name; any other count gives no name |
| TagParams.ParseParam | pyment/docs_tools.py:889-921 | without a colon or a name the element is unnamed and the table unchanged; otherwise the named entry is stored, with the type in the parameter when one is given and the stripped description when one is given, keeping its other fields |
| TagParams.ParseType | pyment/docs_tools.py:923-945 | without a colon or a name the element is unnamed and the table unchanged; otherwise only the named entry's type changes, when one is given |
| TagParams.StepAsWritten | pyment/docs_tools.py:963-979 | as written, the loop body fails with `KeyError` exactly on a continuation line while the open param or type element has no name |
| TagParams.Step | pyment/docs_tools.py:963-979 | the corrected body agrees with the as-written one wherever that succeeds, and skips the line where it fails |
| TagParams.ExtractTagstyleElements | pyment/docs_tools.py:947-980 | the loop over the lines builds the table of the fold, and the table's names are distinct |
| TagParams.ParamLineAfter | pyment/docs_tools.py:957-961 | a well-formed param line is its own strip, starts with the marker, and leaves `body: desc` after the marker |
| TagParams.ParseParamLine | pyment/docs_tools.py:889-921 | a param line `marker [type] name: desc` opens that name with that description and type in the parameter, keeping its separate type |
| TagParams.StepWf | pyment/docs_tools.py:957-979 | every step keeps names distinct and the open named element's entry present |
| TagParams.ElementsWf | pyment/docs_tools.py:947-980 | the state after any lines is well formed |
| TagParams.ContinuationAppends | pyment/docs_tools.py:972-979 | a continuation of a named element appends a newline and the line to its description (none counting as empty) and changes nothing else |
| TagParams.CloseLineCloses | pyment/docs_tools.py:966-971 | a return, raise or rtype line keeps the table, opens no named element, and continuation lines after it change nothing |
| TagParams.NamelessLine | pyment/docs_tools.py:889-921 | a param line with nothing before its colon opens an unnamed element and stores nothing |
| TagParams.NamelessThenContinuation | pyment/docs_tools.py:972-979 | such a line followed by a continuation fails as written, and leaves the table empty when corrected |
| TagParams.SkipNameless | pyment/docs_tools.py:972-979 | a continuation of an unnamed element is a `KeyError` as written and skipped when corrected |
| TagParams.NamelessParamCounterexample | pyment/docs_tools.py:972-975 | in javadoc style, `@param : d` then `more` fails as written and gives an empty table when corrected |
| TagParams.AsWrittenAgrees | pyment/docs_tools.py:947-980 | wherever the as-written loop completes, the corrected loop gives the same state |
| GroupItems.RunEnd | pyment/docstring.py:372 | the longest run of a character class from a position: every character before its end is in the class and the one at its end is not |
| GroupItems.Tail | pyment/docstring.py:372 | the description group `\w[\s\w]+` starts with a word character and has at least two characters |
| GroupItems.WordNameByLength | pyment/docstring.py:372 | with plain word names, the name is the whole run of word characters when the tail matches after it |
| GroupItems.WordNameByStart | pyment/docstring.py:372 | with plain word names, `^\W*` stops at the first word character |
| GroupItems.FirstMatch | pyment/docstring.py:372 | the first expression's name is never empty |
| GroupItems.SecondMatch | pyment/docstring.py:377 | the fallback takes a run of word characters |
| GroupItems.ReadNamedLine | pyment/docstring.py:368-381 | an indented line `name sep description` yields that name and that description |
| GroupItems.NamedTail | pyment/docstring.py:372 | a name run, a separator without word characters and a description of word characters and spaces give that name and that description |
| GroupItems.ReadBareName | pyment/docstring.py:376-381 | a line holding only a word yields that word and an empty description |
| GroupItems.BareWord | pyment/docstring.py:372-377 | on a lone word the first expression fails and the fallback takes the word |
| GroupItems.EntryNameChars | pyment/docstring.py:380 | every name read is non-empty |
| GroupItems.NoSpaceInName | pyment/docstring.py:372-374 | the first expression's name has no whitespace at its ends |
| GroupItems.DropLastEmpty | pyment/docstring.py:364 | the rejoined rest splits into a prefix of its lines |
| GroupItems.UntilGroupRejoined | pyment/docstring.py:364 | splitting the rejoined rest gives the rest without a last empty line |
| GroupItems.UntilGroupSpec | pyment/docstring.py:364-365 | the kept lines are a prefix of the rest that stops at a group header line, or all of the rest when none is there |
| GroupItems.SectionAbsent | pyment/docstring.py:361-362 | no section exactly when no line opens the group |
| GroupItems.SectionHeader | pyment/docstring.py:361-365 | otherwise the section starts after the group's last header line, which no later line repeats, and is the rest cut as `UntilGroup` cuts it: up to the smallest, over the three groups, of each group's last header line in the rest, or to the end |
| GroupItems.RestLines | pyment/docstring.py:363-365 | the section's lines are a prefix of the lines after the header line; when they stop before the end, the line that stops them is a group header line, and with no group header line after the header line they are all of the rest |
| GroupItems.Entries | pyment/docstring.py:366-381 | at most one entry per line |
| GroupItems.ScanEntries | pyment/docstring.py:366-381 | the loop keeps the entry of every line that yields one, in line order |
| GroupItems.EntriesNamed | pyment/docstring.py:380 | no entry has an empty name |
| GroupItems.ExtractGroupEntries | pyment/docstring.py:358-381 | the search for the header line, the cut and the loop give the entries of the group's section |
| GroupItems.FindSection | pyment/docstring.py:361-365 | the header line search and the cut give the group's section |
| GroupItems.SectionAt | pyment/docstring.py:362-365 | from the last header line, the cut gives the section, and nothing when there is none |
| GroupItems.CutSection | pyment/docstring.py:364-365 | the lines of the rest up to the smallest, over the three groups, of each group's last header line in the rest (a trailing empty line aside), or all of the rest |
| GroupItems.AsParams | pyment/docstring.py:370-381 | each group parameter keeps its name and description and gets the empty type |
| GroupItems.AsRaises | pyment/docstring.py:458-468 | each group raise keeps its name and description |
| GroupItems.ExtractGroupParams | pyment/docstring.py:358-381 | the parameters of the `param` group, read with plain word names |
| GroupItems.ExtractGroupRaises | pyment/docstring.py:448-468 | the raises of the `raise` group, read with dotted names |
| GroupItems.ExtractGroupReturn | pyment/docstring.py:511-521 | the return text of the `return` group's section |
| GroupItems.GroupReturnStripped | pyment/docstring.py:511-521 | there is a return text exactly when the return group is present, and it is the section's lines joined and stripped |
| DocText.Unquote | pyment/docstring.py:69-72 | at most one opening and one closing triple quote go, and a text without them is kept |
| DocText.StripDelimiters | pyment/docstring.py:67-72 | the stripped docstring loses at most its triple quotes, and is kept whole without them |
| DocText.StripDelimitersWrapped | pyment/docstring.py:67-72 | the text between the two triple quotes is recovered, whatever whitespace surrounds the docstring |
| DocText.OutSpaces | pyment/docstring.py:73-98 | the output indentation extends the element's by a tab when it holds one, by four spaces when its width is a multiple of four, else by two spaces |
| DocText.CleanLines | pyment/docstring.py:324 | each line is cleaned on its own, one cleaned line per input line |
| DocText.CleanedLines | pyment/docstring.py:324 | the cleaned text splits back into the cleaned lines, up to a last empty one |
| DocText.SplitJoin | pyment/docstring.py:311-312 | joining lines with newlines and splitting again gives them back, except a last empty line |
| DocText.JoinedLinesPrefix | pyment/docstring.py:329-339 | the first lines of a text, joined again, are a prefix of it |
| DocText.FirstDoctestFrom | pyment/docs_tools.py:677-695 | the first line from a position that starts a doctest, with none before it |
| DocText.BlockEndFrom | pyment/docs_tools.py:677-695 | the last line of the non-blank block from a position: no blank line inside it, and a blank line or the end after it |
| DocText.DoctestIndexes | pyment/docs_tools.py:677-695 | -1 exactly when no line starts a doctest; otherwise an ordered pair of line numbers within the text |
| DocText.DoctestIndexesBlock | pyment/docs_tools.py:677-695 | the function meets the doctest scanner's contract |
| DocText.DoctestIndexesUnique | pyment/docs_tools.py:677-695 | the scanner's contract determines its result: any pair meeting it is the function's |
| DocText.AddTests | pyment/docstring.py:309-311 | adding a block keeps the buffer as a prefix and ends it with a newline |
| DocText.SpliceFewer | pyment/docstring.py:312 | cutting a block out leaves fewer lines |
| DocText.ExciseFirst | pyment/docstring.py:308-313 | one turn keeps the buffer as a prefix and ends it with a newline |
| DocText.ExciseFewer | pyment/docstring.py:312-314 | each turn removes at least one line, so the loop ends |
| DocText.ExcisionClean | pyment/docstring.py:306-314 | once the loop stops, no line of the docstring starts a doctest |
| DocText.ExcisionTests | pyment/docstring.py:306-314 | the buffer only grows, and keeps ending with a newline once it does |
| DocText.ExcisionFound | pyment/docstring.py:296-320 | the buffer receives text ending with a newline exactly when some line starts a doctest; otherwise docstring and buffer are unchanged |
| DocText.DoctestLineFound | pyment/docs_tools.py:677-695 | a doctest line anywhere means the scanner finds a block |
| DocText.MoveDoctests | pyment/docstring.py:296-320 | the loop moves the blocks as the excision does, and reports whether one was found |
| DocText.CutBlock | pyment/docstring.py:308-312 | one turn moves the block's lines to the buffer and cuts them from the docstring |
| DocText.SectionDescription | pyment/docstring.py:328-340 | in numpydoc and Google, the description is the lines before the first section header, joined, or the whole text without one |
| DocText.UnknownStyleDescription | pyment/docstring.py:342-343 | for an unknown input style the whole text is the description |
| Signature.Next | pyment/docstring.py:220-227 | at the top level an opener opens a region; inside a region only its closer ends it |
| Signature.RegionStep | pyment/docstring.py:219-231 | the region after one more character is the step from the region before it |
| Signature.TopHashFrom | pyment/docstring.py:228-230 | the first `#` outside every region from a position, or the end |
| Signature.RemoveSignatureComment | pyment/docstring.py:214-232 | the loop keeps the text up to the first `#` outside brackets and quotes |
| Signature.CommentFreeCut | pyment/docstring.py:214-232 | the result is a prefix of the input, holds no top-level `#`, and stops exactly at the first one when there is one |
| Signature.CommentFreeWithoutHash | pyment/docstring.py:214-232 | a text without `#` is kept whole |
| Signature.SetLast | pyment/docstring.py:247-283 | only the current parameter changes |
| Signature.Dispatch | pyment/docstring.py:258-283 | a character at the top level keeps a current parameter and stays at the top level |
| Signature.Step | pyment/docstring.py:247-283 | a successful step keeps a current parameter and moves the region as the bracket and quote rules say |
| Signature.Run | pyment/docstring.py:247-283 | a successful run keeps a current parameter |
| Signature.RunCons | pyment/docstring.py:247-283 | the run stops at the first failing step and otherwise goes on from the step's state |
| Signature.ReturnType | pyment/docstring.py:239 | the return annotation holds no space and no tab |
| Signature.ScanParams | pyment/docstring.py:247-283 | the loop over the parameter list computes the state machine's run |
| Signature.StripAll | pyment/docstring.py:288-292 | every field of every parameter is trimmed, one parameter for one |
| Signature.StripFields | pyment/docstring.py:288-292 | the final loop trims every field of every parameter |
| Signature.ExtractSignatureElements | pyment/docstring.py:235-294 | the parameters and return type of the signature, or the nested-element error |
| Signature.TopLevelCommaStartsParam | pyment/docstring.py:277-281 | a comma outside every region closes the current parameter and opens an empty one, whatever was being read |
| Signature.NestedCharVerbatim | pyment/docstring.py:248-257 | inside a region, or on an opener, the character is added to the type or the default being read; in any other field it is the error |
| Signature.OpenerInNameFails | pyment/docstring.py:257 | an opener met while reading a name raises "unexpected nested element after c while reading param" |
| Signature.RunParamCount | pyment/docstring.py:277-281 | a run adds one parameter per comma outside every region |
| Signature.ParamCountIsTopCommasPlusOne | pyment/docstring.py:235-294 | a successful split yields one parameter more than there are top-level commas |
| Signature.SignatureFieldsTrimmed | pyment/docstring.py:288-294 | every extracted field is trimmed and the return type holds no space or tab |
| Signature.RegionIntoType | pyment/docstring.py:248-255 | a whole bracketed or quoted region in a type goes into the type verbatim, delimiters included |
| Signature.KeptParams | pyment/docstring.py:202-208 | the removal never adds a parameter |
| Signature.KeptParamsExact | pyment/docstring.py:202-208 | exactly the parameters that are not `self`, not `cls` and not empty survive |
| Signature.KeptParamsSnoc | pyment/docstring.py:202-208 | survivors keep their order |
| Signature.RemoveSelfAndEmpty | pyment/docstring.py:201-208 | the removal loop keeps exactly those parameters, in order |
| Signature.ParseDefinition | pyment/docstring.py:168-212 | a line that is no definition changes nothing; a class takes its name; a function takes its name, its return type when annotated, and its kept parameters, or the signature error |
| Signature.DefinitionKinds | pyment/docstring.py:184-195 | exactly one of the def, async def and class branches applies to a definition line |
| Merge.GetPut | pyment/docstring.py:610-617 | after storing a value under a key, a lookup of that key finds it and every other key finds what it found before |
| Merge.KeysPut | pyment/docstring.py:610-617 | storing keeps the keys' order and appends a new key at the end |
| Merge.DictLookup | pyment/docstring.py:610-617 | a lookup in a dictionary built from pairs finds the last value given for the key |
| Merge.FirstOccurrencesElems | pyment/docstring.py:610 | the first occurrences hold exactly the keys given, each once |
| Merge.DictKeys | pyment/docstring.py:610-617 | the dictionary's keys are the keys given, each once, in the order of their first occurrence |
| Merge.SigPairs | pyment/docstring.py:610 | one (name, type and default) pair per signature parameter |
| Merge.DocPairs | pyment/docstring.py:611-617 | one (name, description and type) pair per docstring parameter |
| Merge.OutTypeOf | pyment/docstring.py:621-630 | without a docstring entry the type is the signature's, if any; with one, the docstring's type when the signature has none or when the hint does not take priority and the docstring has a type; otherwise the signature's |
| Merge.OutDefaultOf | pyment/docstring.py:622-626 | the output has a default exactly when the signature has one, normalised to no longer text |
| Merge.MergeAll | pyment/docstring.py:618-631 | one output parameter per signature entry, each merged with the docstring entry of its name |
| Merge.ExtractParams | pyment/docstring.py:607-637 | the generator's loop yields the merged parameters |
| Merge.MergedNames | pyment/docstring.py:607-637 | the output parameters are the signature's names, each once, in first-occurrence order; a docstring parameter absent from the signature is dropped |
| Merge.MergedFields | pyment/docstring.py:618-631 | each output parameter takes the description of the last docstring entry of its name (or ""), the default and the type of the last signature parameter of its name |
| Merge.GetKey | pyment/docstring.py:618-620 | in a dictionary without duplicate keys, an entry is what a lookup of its key finds |
| Merge.ReturnComment | pyment/docstring.py:662-676 | a listed return becomes the first item for an output style without a list, named as `name-> desc` when it has a name; anything else is kept |
| Merge.ReturnType | pyment/docstring.py:662-680 | the element's return type hint wins when it exists and the hint has priority or the output has no type; otherwise the type read from the docstring |
| Merge.HintedReturn | pyment/docstring.py:677-678 | with a return type hint, the output type is the hint with the default priority, and also without priority while the output has none |
| Merge.RaisesAlwaysKept | pyment/docstring.py:639-655 | numpydoc excludes no section, so input raises always replace the output raises, and an empty list leaves them |
| Merge.ExtractOther | pyment/docstring.py:688-694 | only numpydoc carries other sections: the sections kept verbatim, or "" while the output has no such text |
| Merge.TagEntry | pyment/docstring.py:387-392 | the entry keeps the name; the type written in the parameter line wins when the option asks for it and there is one; a missing description becomes "" |
| Merge.TagEntries | pyment/docstring.py:387-392 | one entry per name of the tag table, in table order |
| Merge.DistinctUnique | pyment/docs_tools.py:910-911 | the tag table has each name once |
| Merge.TagLookup | pyment/docstring.py:383-392 | the merge finds each tag entry under its own name |
| Merge.LastValueUnique | pyment/docstring.py:611-617 | a key given once maps to its value |
| Docstring.DefinedParams | pyment/docstring.py:168-212 | reading the definition keeps the raw line and the indentation and only appends parameters that are not `self`, `cls` or empty |
| Docstring.ClassElement | pyment/docstring.py:193-197 | a class takes the class kind and its name, and keeps its parameters and return type |
| Docstring.InputRaw | pyment/docstring.py:66-72 | a non-empty docstring is stored stripped of whitespace and triple quotes; an absent or empty one is kept as given |
| Docstring.ExtractedFacts | pyment/docstring.py:585-589 | after the extraction steps no doctest remains, the doctest buffer only grew, parameters and raises were only appended, and the description is untouched |
| Docstring.DoctestFreeKept | pyment/docstring.py:296-320 | a docstring without doctest lines is kept, and only an existing doctest buffer is cleaned into the output |
| Docstring.KindOf | pyment/docstring.py:701-711 | the class builder exactly for a class, the module builder exactly for a module, otherwise the function builder |
| Docstring.Started | pyment/docstring.py:567-582 | after storing the given docstring, there is one exactly when one was given or one was already there |
| Docstring.GeneratedParams | pyment/docstring.py:602-637 | generating gives one output parameter per distinct signature name, in order, each with the description of its docstring entry or "" |
| Docstring.GeneratedRaisesAndReturn | pyment/docstring.py:639-680 | input raises reach the output when there are any; a return type hint becomes the output type |
| Docstring.GeneratedPost | pyment/docstring.py:682-694 | numpydoc carries its unmanaged sections into the output verbatim; no other input style adds any |
| Docstring.DocString.constructor | pyment/docstring.py:36-108 | the style is detected from a docstring when none is given, else set when given; the element, options, indentation and the empty input and output records are stored |
| Docstring.DocString.GetInputDocstring | pyment/docstring.py:123-130 | the stored input docstring |
| Docstring.DocString.GetInputStyle | pyment/docstring.py:132-140 | the input style of the shared style record |
| Docstring.DocString.SetInputStyle | pyment/docstring.py:142-150 | sets the input style and only it |
| Docstring.DocString.GetSpaces | pyment/docstring.py:152-158 | the output indentation |
| Docstring.DocString.SetSpaces | pyment/docstring.py:160-166 | sets the output indentation and nothing else |
| Docstring.DocString.ParseDefinition | pyment/docstring.py:168-212 | the element becomes the one the definition reading gives, failing exactly on the signature error, and the element counts as parsed unless it failed |
| Docstring.DocString.ExtractDocsDoctest | pyment/docstring.py:296-320 | reports whether a doctest block was found, moves every block out, and leaves no doctest line in the docstring |
| Docstring.DocString.ExtractDocsParams | pyment/docstring.py:428-441 | appends the parameters read from the cleaned docstring in the input style, and changes nothing else |
| Docstring.DocString.ExtractDocsReturn | pyment/docstring.py:539-553 | sets the return and its type read in the input style, and changes nothing else |
| Docstring.DocString.ExtractDocsRaises | pyment/docstring.py:495-509 | appends the raises read in the input style, and changes nothing else |
| Docstring.DocString.ExtractDocsDescription | pyment/docstring.py:321-356 | stores the description before the first element of the input style, or fails with the `KeyError` of a style without a rule, leaving the state |
| Docstring.DocString.ParseDocs | pyment/docstring.py:567-591 | a given docstring is stored without delimiters and its style detected; without any docstring nothing is read; otherwise the extraction steps run in order |
| Docstring.DocString.ExtractDocs | pyment/docstring.py:585-591 | the extraction steps in the source's order, the docstring counting as parsed only after the description succeeds |
| Docstring.DocString.GenerateDocs | pyment/docstring.py:737-747 | the merge steps, then the rendered text; a builder error leaves the merged output |
| Docstring.DocString.SetRaw | pyment/docstring.py:713-735 | the builder chosen by the element kind renders the merged output, and its text becomes the output docstring |
| Docstring.DocString.GetRawDocs | pyment/docstring.py:749-757 | once generated, the stored text is returned and nothing changes; otherwise a successful generation's text is returned |
| Docstring.RenderComment | pyment/docstring.py:713-735 | the builder renders the parts with the strategy of the output style |
| Docstring.MergeOutput | pyment/docstring.py:737-745 | `_set_desc`, `_set_params`, `_set_return`, `_set_raises` and `_set_other` give the merged output |
| Docstring.DefineElement | pyment/docstring.py:168-212 | the body of `parse_definition` computes the element and the signature error |
| Docstring.ReadParams | pyment/docstring.py:428-441 | the dispatch reads parameters in numpydoc, Google, groups or tag style |
| Docstring.ReadTagParams | pyment/docstring.py:383-392 | one entry per name of the tag table of the cleaned text |
| Docstring.TableEntries | pyment/docstring.py:387-392 | the loop over the tag table yields its entries in order |
| Docstring.TagTable | pyment/docstring.py:385-386 | the tag table of the docstring's lines |
| Docstring.TagParamEntry | pyment/docstring.py:388-392 | the loop body's entry for one tag table item |
| Docstring.ReadReturn | pyment/docstring.py:539-553 | the dispatch reads the return in numpydoc, Google or groups style |
| Docstring.ReadRaises | pyment/docstring.py:495-509 | the dispatch reads the raises in numpydoc, Google or groups style |
| Docstring.NumpyKeys | pyment/docs_tools.py:238-249 | the numpydoc table knows `param`, `return` and `raise` |
| Docstring.GoogleKeys | pyment/docs_tools.py:404-410 | the Google table knows `param`, `return` and `raise` |
| Docstring.NewDocString | pyment/docstring.py:36-108 | building the object runs `parse_definition`; an unreadable signature leaves no object, and otherwise the state is the initial one with the element read |
| Strategy.Indent | pyment/comment_builder/strategy.py:109 | the indentation step is as many spaces as the configuration says |
| Strategy.Indented | pyment/comment_builder/strategy.py:111-123 | the first line is kept and every later line goes through the per-line rule, one output line per input line |
| Strategy.IndentLineOf | pyment/comment_builder/strategy.py:116-122 | one later line: blank and not indented when empty lines are not indented, otherwise prefixed (left-stripped in the section styles, kept in the tag styles) |
| Strategy.WithSpaceOf | pyment/comment_builder/strategy.py:111-123 | the loop of the nested `with_space` helper computes the indented text |
| Strategy.DefaultNote | pyment/comment_builder/strategy.py:132-136 | the default note is written exactly when defaults are shown, the parameter has one and its description does not mention "default"; it is preceded by a space only after a non-blank description |
| Strategy.FormatNumpyParams | pyment/comment_builder/strategy.py:103-138 | the numpydoc parameters section: an empty section when skipped, else the header and each parameter's `name : type` line and indented description |
| Strategy.NumpyParamOf | pyment/comment_builder/strategy.py:126-137 | the loop body renders one numpydoc parameter |
| Strategy.NumpyParamsSnoc | pyment/comment_builder/strategy.py:125-137 | each turn of the loop appends one parameter's text |
| Strategy.FormatNumpyReturn | pyment/comment_builder/strategy.py:140-187 | the numpydoc return section: nothing when skipped and empty; otherwise the header, then each listed return or the single return with its type or the placeholder `type` |
| Strategy.FormatNumpyReturnItems | pyment/comment_builder/strategy.py:170-182 | the loop over a list of returns appends each item in order |
| Strategy.NumpyReturnItemOf | pyment/comment_builder/strategy.py:172-179 | one listed return: `name : type` or the type, then the indented description |
| Strategy.NumpySingleReturnOf | pyment/comment_builder/strategy.py:184-186 | a single return: its type line and its indented description |
| Strategy.NumpyReturnItemsSnoc | pyment/comment_builder/strategy.py:170-182 | each turn appends one return's text |
| Strategy.NumpyRaiseListStop | pyment/comment_builder/strategy.py:215-217 | once an exception without a name has stopped the loop, later ones do not restart it |
| Strategy.NumpyRaiseListIs | pyment/comment_builder/strategy.py:215-217 | the loop fails exactly when some exception has no name, and otherwise renders every raise in order |
| Strategy.FormatNumpyRaises | pyment/comment_builder/strategy.py:189-219 | the numpydoc raises section, with Python's `TypeError` for an exception without a name |
| Strategy.FormatNumpyRaiseList | pyment/comment_builder/strategy.py:215-217 | the loop stops at the first exception without a name |
| Strategy.NumpyRaiseOf | pyment/comment_builder/strategy.py:216-217 | one raise: its name, then its indented description |
| Strategy.FormatGoogleParams | pyment/comment_builder/strategy.py:249-286 | the Google parameters section: the header, then `name (type, optional): description` per parameter |
| Strategy.GoogleParamsSnoc | pyment/comment_builder/strategy.py:271-285 | each turn appends one parameter's text |
| Strategy.GoogleParamOf | pyment/comment_builder/strategy.py:272-285 | the loop body renders one Google parameter |
| Strategy.FormatGoogleReturn | pyment/comment_builder/strategy.py:288-339 | the Google return section: the header, then `type: description` or the description alone |
| Strategy.FormatGoogleReturnItems | pyment/comment_builder/strategy.py:318-330 | the loop over a list of returns appends each item in order |
| Strategy.GoogleReturnItemOf | pyment/comment_builder/strategy.py:320-330 | one listed return as `type: description` |
| Strategy.GoogleSingleReturnOf | pyment/comment_builder/strategy.py:332-338 | a single return: `type: description`, or the description without a type |
| Strategy.GoogleReturnItemsSnoc | pyment/comment_builder/strategy.py:318-330 | each turn appends one return's text |
| Strategy.FormatGoogleRaises | pyment/comment_builder/strategy.py:341-375 | the Google raises section: the header when `raise` is mandatory or there are raises, then each raise |
| Strategy.FormatGoogleRaiseList | pyment/comment_builder/strategy.py:367-373 | the loop renders each raise in order |
| Strategy.GoogleRaiseOf | pyment/comment_builder/strategy.py:368-373 | one raise: `name: ` when named, then the stripped description |
| Strategy.GoogleRaisesSnoc | pyment/comment_builder/strategy.py:367-373 | each turn appends one raise's text |
| Strategy.FormatTagParams | pyment/comment_builder/strategy.py:406-440 | the javadoc or reST parameters: `marker name: description`, the default note and the type line per parameter; an unknown output style is a `KeyError` |
| Strategy.TagParamOf | pyment/comment_builder/strategy.py:429-439 | the loop body renders one tag-style parameter |
| Strategy.TagParamsSnoc | pyment/comment_builder/strategy.py:428-439 | each turn appends one parameter's text |
| Strategy.FormatTagRaises | pyment/comment_builder/strategy.py:482-515 | the tag-style raises: a blank line before them when nothing precedes, each raise, then a final newline |
| Strategy.FormatTagRaiseList | pyment/comment_builder/strategy.py:506-513 | the loop renders each raise in order |
| Strategy.TagRaiseOf | pyment/comment_builder/strategy.py:507-513 | one raise: the marker, the name and separator when named, the indented description |
| Strategy.TagRaisesSnoc | pyment/comment_builder/strategy.py:506-513 | each turn appends one raise's text |
| Strategy.CreateStrategy | pyment/comment_builder/strategy.py:557-573 | numpydoc, Google and groups by name; every other name gets the tag-style strategy for that style |
| Strategy.KeySectionHeader | pyment/comment_builder/strategy.py:87-89 | numpydoc and Google headers come from their tables; the tag styles and groups have none |
| Strategy.ExcludedSections | pyment/comment_builder/strategy.py:393-395 | the tag styles and groups exclude no section |
| Strategy.MandatorySections | pyment/comment_builder/strategy.py:397-399 | the tag styles and groups have no mandatory section |
| Strategy.OptionalSections | pyment/comment_builder/strategy.py:401-403 | the tag styles and groups have no optional section |
| Strategy.FormatParamsSection | pyment/comment_builder/strategy.py:51-57 | the parameters section of the strategy's style |
| Strategy.FormatReturnSection | pyment/comment_builder/strategy.py:59-67 | the return section of the strategy's style |
| Strategy.FormatRaisesSection | pyment/comment_builder/strategy.py:69-77 | the raises section of the strategy's style |
| StrategyFacts.WithSpaceOneLine | pyment/comment_builder/strategy.py:111-123 | a one-line text is left as it is |
| StrategyFacts.OneLineDescription | pyment/comment_builder/strategy.py:130 | a trimmed one-line description is rendered as it is |
| StrategyFacts.TagParamIsLine | pyment/comment_builder/strategy.py:429-439 | under a colon separator, without a default note or a type line, a parameter is the single line `marker name: description` |
| StrategyFacts.TagParamReadBack | pyment/docs_tools.py:889-921 | a tag-style parameter line, read back by the tag parser, yields its name with its description |
| StrategyFacts.TagTypeLineWritten | pyment/comment_builder/strategy.py:436-438 | the type line is written exactly when type tags are on and the type is non-empty |
| StrategyFacts.TypeOnlyReturnLine | pyment/comment_builder/strategy.py:442-480 | without a return description but with a return type and type tags off, an empty return line is written, even when empty sections are skipped |
| StrategyFacts.GoogleParamIsLine | pyment/comment_builder/strategy.py:272-285 | without a default note, a Google parameter is the single line `name (type): description` |
| StrategyFacts.GoogleParamReadBack | pyment/docs_tools.py:429-474 | a Google parameter line, read back by the Google parser, yields its name, description and type |
| StrategyFacts.NumpyParamIsText | pyment/comment_builder/strategy.py:126-137 | without a default note, a numpydoc parameter is the line `name : type` and the indented description |
| StrategyFacts.NumpyParamReadBack | pyment/docs_tools.py:303-330 | a numpydoc parameter, read back by the numpydoc parser with the same indentation, yields its name and type, and its description prefixed by the indentation step |
| StrategyFacts.NumpyPlaceholderType | pyment/comment_builder/strategy.py:161-166 | a single return without a type is written under the placeholder type `type` |
| StrategyFacts.NumpyRaisesGate | pyment/comment_builder/strategy.py:189-219 | no raises give an empty section (or a newline); otherwise the section fails exactly on an unnamed exception and else is the header, the raises and a newline |
| StrategyFacts.NumpyRaiseHeader | pyment/comment_builder/strategy.py:197-200 | numpydoc does not exclude raises and writes their header exactly when there are raises |
| StrategyFacts.GroupsRendersNothing | pyment/comment_builder/strategy.py:544-554 | the groups strategy renders every section as empty |
| Builder.OneLineWithSpaces | pyment/comment_builder/class_.py:19-24 | only the class builder writes auto-generated docstrings on one line with spaces |
| Builder.LaterPrefixed | pyment/comment_builder/builder.py:171-177 | the first line is kept and every later one is prefixed by the spaces |
| Builder.WithSpacesLines | pyment/comment_builder/builder.py:171-177 | read back line by line, `_with_space` keeps the first line, prefixes every later one and keeps the number of lines |
| Builder.StartKept | pyment/comment_builder/builder.py:271-279 | closing keeps the opening quotes at the start |
| Builder.SingleLineStart | pyment/comment_builder/builder.py:186-213 | a single-line docstring starts with the indentation, the prefix letters and the quotes |
| Builder.MultiLineStart | pyment/comment_builder/builder.py:215-235 | so does a multi-line description-only docstring |
| Builder.SectionsStart | pyment/comment_builder/builder.py:306-318 | with sections, the closed docstring still begins with the opening |
| Builder.BuildStart | pyment/comment_builder/builder.py:281-318 | every built docstring begins with the indentation, the prefix letters and the quotes |
| Builder.CollapsedOneLine | pyment/comment_builder/builder.py:296-297 | a description collapsed on whitespace has no line break |
| Builder.NoSectionsSingleLine | pyment/comment_builder/builder.py:294-301 | without sections and without a description from a docstring, the docstring is the single-line form of the collapsed description |
| Builder.NewLineLayout | pyment/comment_builder/builder.py:194-197 | with the description on a new line, the opening, the description (or the trailing space) and the closing quotes are three lines |
| Builder.ClassLayout | pyment/comment_builder/builder.py:198-200 | an auto-named class puts a space on each side of the description between the quotes |
| Builder.ClassOneLine | pyment/comment_builder/builder.py:294-301 | an auto-named class without sections is written on that one line |
| Builder.CloseAddsQuotes | pyment/comment_builder/builder.py:271-279 | when the opening quotes are the only occurrence, the closing quotes end the docstring |
| Builder.SectionsOrder | pyment/comment_builder/builder.py:306-318 | with sections: the opening, the description, the sections, post text and doctests, then the close |
| Builder.SectionsInOrder | pyment/comment_builder/builder.py:309-313 | the sections are parameters, return and raises, in that order |
| Builder.SectionErrorFails | pyment/comment_builder/builder.py:309-313 | a renderer's exception is the build's |
| Builder.GroupsSections | pyment/comment_builder/strategy.py:544-555 | the groups strategy contributes no section text |
| Builder.CommentBuilder.constructor | pyment/comment_builder/builder.py:19-39 | a builder starts with no description, no parameters, no return, no raises, no post text and no doctests |
| Builder.CommentBuilder.SetName | pyment/comment_builder/function.py:81-92 | the function builder turns the name into a sentence; the class and module builders (builder.py:41-49) use it verbatim; nothing else changes |
| Builder.CommentBuilder.SetDescription | pyment/comment_builder/builder.py:51-60 | sets the description and where it came from, and nothing else |
| Builder.CommentBuilder.SetParams | pyment/comment_builder/builder.py:62-69 | sets the parameters and nothing else |
| Builder.CommentBuilder.SetReturn | pyment/comment_builder/builder.py:71-80 | sets the return description and type and nothing else |
| Builder.CommentBuilder.SetRaises | pyment/comment_builder/builder.py:82-89 | sets the raises and nothing else |
| Builder.CommentBuilder.SetPost | pyment/comment_builder/builder.py:91-98 | sets the post text and nothing else |
| Builder.CommentBuilder.SetDoctests | pyment/comment_builder/builder.py:100-107 | sets the doctests and nothing else |
| Builder.CommentBuilder.SetElementInfo | pyment/comment_builder/builder.py:109-120 | sets the element name, the input docstring and the auto-generated flag, and nothing else |
| Builder.CommentBuilder.BuildDocstring | pyment/comment_builder/builder.py:281-318 | `build` of the builder's data |
| Builder.Render | pyment/comment_builder/builder.py:281-318 | the piecewise accumulation of `build` gives the built docstring |
| Builder.RenderDescription | pyment/comment_builder/builder.py:294-304 | the no-section branch: the single-line form when the description has no line break, else the multi-line one |
| Builder.BuildSections | pyment/comment_builder/builder.py:309-313 | the three section renderers called in order |
| Names.Capitalized | pyment/comment_builder/function.py:78-79 | same length, the first character not lower case and every other one lowered |
| Names.FormatNameAsDescription | pyment/comment_builder/function.py:19-79 | the loops over the underscore parts and their characters compute the name's description |
| Names.SplitCamel | pyment/comment_builder/function.py:59-69 | the character loop computes the camel-case words of one part |
| Names.CamelScanSpec | pyment/comment_builder/function.py:59-69 | the camel-case split loses no character, makes only non-empty words and keeps a non-empty current word once started |
| Names.CamelPartsSpell | pyment/comment_builder/function.py:59-71 | the words of a part, concatenated, give the part back, and none is empty |
| Names.WordsUpToSpell | pyment/comment_builder/function.py:50-71 | the words of all parts spell the parts one after the other |
| Names.WordsUpToNonEmpty | pyment/comment_builder/function.py:54-71 | empty parts are skipped: every word is non-empty |
| Names.NoUnderscoreInWords | pyment/comment_builder/function.py:50-71 | no word holds an underscore, and none is empty |
| Names.PlainNameDescription | pyment/comment_builder/function.py:73-79 | an ordinary name becomes its words joined by spaces, the first letter upper case, the others lower case, with no underscore |
| Names.OnlyUnderscoresUnchanged | pyment/comment_builder/function.py:73-74 | a name of underscores only has no words and is returned unchanged |
| Names.InitName | pyment/comment_builder/function.py:38-44 | `__init__` becomes "Initialize" |
| Names.WordsOfPart | pyment/comment_builder/function.py:50-71 | a name without underscores has its camel-case words as words |
| Names.WordsOfTwoParts | pyment/comment_builder/function.py:50-71 | two parts joined by one underscore give the words of the first part, then those of the second |
| Names.PlainDescriptionIs | pyment/comment_builder/function.py:76-79 | a name not starting with an underscore is described by its joined words, capitalised, or upper-cased when one character long |
| Names.TwoPartName | pyment/comment_builder/function.py:49-79 | two lower-case parts joined by an underscore become the two parts joined by a space, capitalised |
| Names.HelloWorld | pyment/comment_builder/function.py:23 | `hello_world` becomes "Hello world" |
| Names.CapitalizedPlain | pyment/comment_builder/function.py:79 | with no upper-case letter after the first, only the first changes |
| Names.Func1 | pyment/comment_builder/function.py:27 | `func1` becomes "Func1" |
| Names.ScanSegment | pyment/comment_builder/function.py:61-67 | characters that are not upper case extend the current word |
| Names.ScanUpper | pyment/comment_builder/function.py:62-65 | an upper-case letter after the start closes the current word and starts a new one |
| Names.UserAccountManager | pyment/comment_builder/function.py:25 | `UserAccountManager` becomes "User account manager" |
| Names.NoUpperOneWord | pyment/comment_builder/function.py:59-69 | a non-empty part with no upper-case letter is one word |
| Names.DunderName | pyment/comment_builder/function.py:38-46 | any other special name `__x__` becomes `x` with the first letter upper case and the rest lower case |
| Names.EmptyDunderUnchanged | pyment/comment_builder/function.py:40-47 | a special name with nothing between its underscores is returned unchanged |
| Pyment.MethodScope | pyment/pyment.py:219-243 | exactly one of public, protected and private: private iff a double leading underscore without a trailing one, protected iff exactly one leading underscore, and the empty and `__x__` names are public |
| Pyment.PlainNameIsPublic | pyment/pyment.py:242-243 | a name without a leading underscore is public |
| Pyment.ShouldProcessMethod | pyment/pyment.py:245-258 | an empty filter lets every name through; otherwise a name passes iff its scope is listed |
| Pyment.AllScopesPass | pyment/pyment.py:245-258 | a filter listing all three scopes lets every name through |
| Pyment.Opener | pyment/pyment.py:172-202 | a docstring opener's delimiter is one of the two triple quotes |
| Pyment.LineAction | pyment/pyment.py:148-170 | blank lines, encoding declarations and imports are passed over in every state; inside a docstring a line holding the delimiter answers true and any other goes on |
| Pyment.PyComment.constructor | pyment/pyment.py:39-65 | keeps the input lines and the scope filter, with no cached answer |
| Pyment.PyComment.GetMethodScope | pyment/pyment.py:219-243 | the scope of the method name |
| Pyment.PyComment.ShouldProcess | pyment/pyment.py:245-258 | the filter of the configured scopes |
| Pyment.PyComment.HasModuleDocstring | pyment/pyment.py:125-217 | a cached answer comes back unchanged; otherwise the scan's answer is returned and cached; the lines and the filter are untouched |
| Pyment.ScanLines | pyment/pyment.py:140-217 | the loop over the lines computes the scan's answer |
| Pyment.Advance | pyment/pyment.py:145-214 | one line either answers the scan or hands it on to the next line |
| Pyment.NoLinesNoDocstring | pyment/pyment.py:135-137 | no lines, no module docstring |
| Pyment.StatementFirst | pyment/pyment.py:204-212 | a statement that is not a comment, reached before any opener, means there is no module docstring |
| Pyment.ScanStep | pyment/pyment.py:144-214 | a line that does not answer moves the scan to the next line |
| Pyment.ScanAnswer | pyment/pyment.py:144-214 | a line that answers ends the scan with that answer |
| Pyment.SkipTo | pyment/pyment.py:148-161 | a run of skipped lines keeps the scan's state |
| Pyment.OneLineDocstring | pyment/pyment.py:177-180 | an opener holding its delimiter twice, after skipped lines only, is a module docstring |
| Pyment.InsideFindsCloser | pyment/pyment.py:164-170 | inside a docstring, the first later line that holds the delimiter and is not skipped answers true |
| Pyment.InsideUnclosed | pyment/pyment.py:216-217 | a docstring never closed is not a module docstring |

## Left out

- File and process I/O of `pyment/pyment.py`: reading files or stdin, the git author lookup, diffs, patch and overwrite writers, and the line scanner of `_parse`. The modelled `PyComment` members take the input lines as a parameter.
- The command line (`pymentapp.py`) and packaging: they are outside the converter.
- `print` warnings and the logging decorators: they are treated as no-ops.
- The data-carrier modules (`configs.py`, `domain.py`, `comment_builder/config.py`, `comment_builder/module.py`): they appear only as record datatypes holding the fields actually read.
- The three-argument builder construction in `docstring.py:704-708`, which does not match the two-argument constructors: it is modelled as the evidently intended construction.
- `build` and `GroupsStrategy.__init__` (`comment_builder/strategy.py:526`) reading `config.docs_tools`, which the configuration record calls `dst`: both are modelled as the intended read.
- The legacy tag-style index scans (`get_return_*_indexes`, `get_raise_*_indexes`, `get_param_*_indexes`): their offsets are unreliable, so they are not modelled. This also leaves out `_extract_tagstyle_docs_return` and `_extract_tagstyle_docs_raises`, so for javadoc and reST input the return, return type and raises read from the docstring stay empty. Tag-style parameters are read by `_extra_tagstyle_elements`, which is modelled.
- `_old_extract_tagstyle_docs_params` and `_extract_not_tagstyle_old_way`: they are dead code built on the same index scans.
- `pyment/numpydoc_tools.py`: it duplicates `NumpydocTools`, which is modelled once, from `docs_tools.py`.
- Python's `re`: the groups-style `\W*(\w+)` matches are hand-written scanners over ASCII word characters.
- Unicode: whitespace is the ASCII set that `str.isspace` accepts, and case mapping is ASCII only.
- `splitlines`: it splits on `\n` only. Python's other line boundaries, such as `\r`, `\x0b` and `\x0c`, are not line breaks here.
- `set_known_parameters`, `from_dict`, `__str__` and `__repr__`: they are outside the conversion.
- The `types` lists of `docs['in']` and `docs['out']`: nothing in the converter reads them.
- `parse_definition`'s optional `raw` argument: the model always parses the stored definition, which is what a call without the argument does.
- `_extract_docs_other`: its numpydoc branch reads six lists (`also`, `ref`, `note`, `other`, `example` and `attr`) and discards them, so it changes nothing.
- A `None` post text passed to `set_post`: it is modelled as the empty text, which the builder treats identically.
- Builder.Render: the `get_sep(target='out')` call at the head of `build` (`comment_builder/builder.py:286`, `docs_tools.py:663-666`) is not modelled. Its value is never used, but for an output style outside numpydoc, google and the tag table (groups, for instance) the table lookup raises `KeyError`, even when there are no sections. Builder.Render and Builder.CommentBuilder.BuildDocstring return `Ok` there.
- The conversion pipeline runs on the corrected readers of "## Findings", so on those inputs its output differs from pyment's. Docstring.ReadParams, Docstring.ReadReturn and Docstring.ReadRaises use the corrected ListKey.ListKeyOf and ListKey.GetListKey, so Google `args:` followed directly by `returns:` yields the parameter `a: x`, where pyment reads nothing. Docstring.ReadTagParams uses the corrected TagParams.Elements, so `@param : d` followed by `more` carries on, where pyment raises `KeyError`. The description cut uses the corrected KeyScan.ElemIndex, so on `x @param @param\n@param` it falls at 16, where pyment cuts at 13. Docstring.MergeOutput and Merge.ExtractOther use the corrected ListKey.GetRawNotManaged and ListKey.RawNotManaged, so the last line of a kept section that another section follows stays in the raw text.
- StrategyFacts.TagParamReadBack: it is proved only for one-line, trimmed descriptions, without a default note or a type line, and with a `:` separator.
- StrategyFacts.GoogleParamReadBack: it is proved only for one-line, trimmed descriptions, without a default note, and for names and types free of the Google punctuation `(`, `,`, `)` and `:`.
- StrategyFacts.NumpyParamReadBack: it is proved only for one-line, trimmed descriptions, without a default note, and with a non-zero indentation step. The description comes back prefixed by that step, as the numpydoc parser keeps the deeper indentation.

## Findings

| source | as written | input that shows it | evidently intended | confidence | as-written member | corrected member |
|---|---|---|---|---|---|---|
| pyment/docs_tools.py:94-99 | the end of a section is searched in the lines after the header, but offset from the header line, so the section's last line is dropped | Google lines `args:`, `a: x`, `returns:`, `y`: the `args` section is empty | the section runs from the line after the header up to the next section start | not executed | ListKey.ListBoundsAsWritten, ListKey.ListBoundsCounterexample | ListKey.ListBounds, ListKey.GetListKey |
| pyment/docs_tools.py:972-975 | a continuation line after a param line whose name could not be parsed looks up `ret[None]` and raises `KeyError` | javadoc lines `@param : d`, `more` | the continuation line is skipped like any line without an open named element | not executed | TagParams.StepAsWritten, TagParams.ElementsAsWritten, TagParams.NamelessParamCounterexample | TagParams.Step, TagParams.Elements, TagParams.ExtractTagstyleElements |
| pyment/docs_tools.py:782-784 | after a marker found mid-line, the next offset is set to `i + 1` rather than increased by it, so later offsets are too small | `x @param @param\n@param` with `starting` set: the answer is 13, while the marker at a line start is at 16 | the offset accumulates over every cut | not executed | KeyScan.KeyIndexAsWritten, KeyScan.KeyIndexCounterexample | KeyScan.KeyIndex, KeyScan.GetKeyIndex |
| pyment/docs_tools.py:361-362 | in `get_raw_not_managed`, the end of a kept section is searched in the lines after the header but used as an offset from the header line, so the section's last line is dropped | numpydoc lines `See Also`, `--------`, `foo`, `Notes`, `-----`, `bar`: the raw text is `See Also`, `--------`, `Notes`, `-----`, `bar` | the section runs from the header up to the next section start | not executed | ListKey.RawNotManagedAsWritten, ListKey.RawNotManagedCounterexample | ListKey.RawNotManaged, ListKey.GetRawNotManaged |
