# Chart customisation core, modelled in Dafny

This project models the part of the `charts` skills that edits a saved
Highcharts-style option tree:

- **Path grammar** (`tokenize_path`, `_normalize_tokens`). A path such as
  `series[1].dataLabels.enabled` becomes a list of field and index tokens.
  The tokens then reduce to an index-free pattern (`series[].dataLabels.enabled`).
- **Schema gate** (`_allowed_path_patterns_for_chart`, `validate_update_path`,
  `build_editable_fields`). A pattern is editable when it belongs to the
  global templates, the per-series templates, or the templates of the
  document's own chart kind.
- **Tree patcher** (`get_nested_value`, `_ensure_sequence`, `set_nested_value`).
  The patcher reads along a token path, or writes along one. A write creates
  missing containers as it goes, pads lists and replaces scalars met on the way.
  It raises `ChartPayloadError` only where it meets a container of the wrong kind.
- **Payload helpers** (`extract_chart_options`, `ensure_metadata`,
  `append_history_entry`, `summarize_options`).
- **Instruction translator** (`instructions_to_updates` and its helpers). The
  translator cuts free text into sentences, finds which series a sentence
  speaks of, and turns colour, dash, width, data-label, legend, marker,
  fill-opacity and donut phrases into `(path, value)` updates. Each regular
  expression it uses is written out as an explicit scanner.
- **Customize Chart orchestration** (`_parse_key_value_lines`,
  `_normalize_updates` and the merge, validate and apply loop of
  `customize_chart`). The loop tokenises, validates, reads and writes each
  update, and keeps a change log. It stops at the first error. On success it
  appends one history entry to the payload.

The option tree is a closed datatype `Json`. A mapping is an ordered list of
members, so iteration order is preserved. Where the source changes things in
place, the model is imperative over values:

- `TokenizePath` is the source's `while` loop, proved equal to a recursive
  grammar `Lex`.
- `SetNestedValue` is the source's loop with a cursor into the whole
  document. It is proved equal to the recursive specification `Set`.
- `ApplyUpdates` and `CustomizeChart` run the update loop as a loop, and are
  proved equal to the functions `ApplyFrom` and `Customize`.

Properties of the specification functions are proved as lemmas. The main
ones are:

- the tokeniser's error cases and the shape of its output;
- tokenising a rendered path gives the tokens back;
- patterns ignore index values;
- which templates the gate admits for which chart kind;
- write-then-read, and the previous value returned by a write;
- a write fails exactly when some prefix of its path reaches a container of
  the wrong kind, and a failed write leaves the tree unchanged;
- the frame of a write: paths that branch off it keep their values;
- the history grows by exactly one entry;
- the translator's target precedence and first-match tables;
- the change log records every written update, in order.

A cross-file result concerns the translator and the gate. Every update the
translator emits passes `validate_update_path` for the document's chart type,
with one exception. On a scatter chart the marker toggle goes to
`plotOptions.scatter.marker.enabled` (chart_instruction_parser.py:299-300).
That path is not among the scatter templates (chart_payloads.py:206-210).
So instruction-only customisation of a scatter chart can be refused with
exactly that message, and with no other schema refusal
(`InstructionFacts.ScatterToggleRefused`,
`CustomizeFacts.GateRefusesOnlyScatterToggle`,
`CustomizeFacts.InstructionsGateRefusal`).

Two behaviours are modelled as the code has them:

- Sentences are cut at `.`, so the decimal branches of the width, radius and
  opacity numbers never match. `InstructionFacts.SentenceNumbersWhole`
  proves that every sentence the instructions are cut into reads its widths
  and radii as whole numbers. It combines `InstructionFacts.SentencesClean`
  (no sentence holds a `.`) and `InstructionFacts.WholeNumbersWithoutPoint`
  (a text without a `.` gives whole numbers).
- The hex colour regex tries three digits first, so `#ff0000` reads as
  `#FF0` (`InstructionFacts.LongHexReadShort`).

Inputs the code receives from outside are parameters:

- the current UTC time (`isoTime`, which the history entry stamps with a
  trailing `Z`);
- `json.loads`, as a `decode: string -> Option<Json>` oracle (`None` where
  it raises `JSONDecodeError`).

## Model

| member | source | states |
|---|---|---|
| JsonTree.Lookup | chart_payloads.py:290-292 | a member is found exactly when its key is present |
| JsonTree.Put | chart_payloads.py:328-331 | assigning a key: it then holds the value, every other key keeps its value, and key order is kept (a new key goes last) |
| JsonTree.PutPut | chart_payloads.py:328-331 | assigning a key twice is assigning the second value |
| JsonTree.AsSequence | chart_payloads.py:285-288 | exactly lists and strings are `Sequence`s; a string indexes to its one-character strings |
| JsonTree.MemberOr | chart_payloads.py:111-112 | `get(k, default)`: the member when the key is present, else the default |
| JsonTree.PyStr | chart_instruction_parser.py:216 | `str(x)`: a string is itself, `None` is `"None"`, booleans are `"True"`/`"False"`, an int is its decimal rendering; exactly floats and containers are not rendered |
| Text.IntToStringValue | customize_chart.py:104 | `str(i)` of an int is an optional `-` (exactly for negatives) and digits without a leading zero whose value is `abs(i)` |
| Text.NatToStringNoLeadingZero | customize_chart.py:104 | `str(n)` starts with `0` only for `0` |
| Text.DecimalValueOfNatToString | chart_payloads.py:354 | rendering a series position as digits and reading it back gives the position |
| Text.Lower | chart_instruction_parser.py:109 | `lower()`: same length, each ASCII capital lowered, every other character kept |
| Text.Strip | customize_chart.py:24 | `strip()`: the result is a slice of the text that starts and ends with a non-space, and it keeps every non-space character, so it is exactly the text between the leading and trailing whitespace |
| Text.PiecesAtBreak | chart_instruction_parser.py:105 | cutting at a break character splits the non-blank stripped pieces into those from each side |
| Text.PiecesClean | chart_instruction_parser.py:105 | every piece kept is non-empty, trimmed of whitespace and free of break characters |
| PathGrammar.Find | chart_payloads.py:246 | `str.find`: the first position at or after the start holding the character, or -1 when none does |
| PathGrammar.Tokenize | chart_payloads.py:227-259 | the empty-path error happens exactly for the empty path; any other failure is an unmatched `[` or a non-numeric index naming the path |
| PathGrammar.TokenizePath | chart_payloads.py:227-259 | the source's scanning loop computes exactly the grammar's tokens or error |
| PathGrammar.NormalizeParts | chart_payloads.py:262-272 | there are no parts exactly when there are no tokens |
| PathFacts.TokenizeShape | chart_payloads.py:227-259 | a successful tokenisation comes from a non-empty path, and every field token is non-empty with no `.` or `[` |
| PathFacts.TokenizeRender | chart_payloads.py:227-259 | rendering well-formed tokens as a path and tokenising it gives the same tokens |
| PathFacts.TokenizeRenderTokenize | chart_payloads.py:227-259 | tokenising, rendering and tokenising again gives the first result |
| PathFacts.LeadingDot | chart_payloads.py:236-241 | a leading dot adds no token |
| PathFacts.TrailingDot | chart_payloads.py:236-241 | a trailing dot adds no token |
| PathFacts.DotSplit | chart_payloads.py:236-241 | a path joined at a dot tokenises to the tokens of both sides, so doubled dots add no token |
| PathFacts.OnlyDotsYieldNothing | chart_payloads.py:236-241 | the path `..` tokenises to no tokens at all |
| PathFacts.TokenizeExample | tests/test_chart_payloads.py:16-18 | `series[1].dataLabels.enabled` gives `series`, 1, `dataLabels`, `enabled` |
| PathFacts.TokenizeUnclosedFails | chart_payloads.py:246-248 | a `[` with no later `]` makes tokenising fail |
| PathFacts.UnmatchedAfterValidPrefix | chart_payloads.py:246-248 | after a valid prefix, an unclosed `[` raises the unmatched-bracket error naming the whole path |
| PathFacts.NonNumericAfterValidPrefix | chart_payloads.py:249-251 | bracket contents that are not all digits raise the non-numeric error naming the path |
| PathFacts.EmptyBracketsRefused | chart_payloads.py:249-251 | `[]` raises the non-numeric error |
| PathFacts.TokenizeWithoutBracket | chart_payloads.py:227-259 | a path without `[` tokenises exactly when it is non-empty |
| PathFacts.PatternIgnoresIndices | chart_payloads.py:262-272 | token lists that differ only in index values have the same pattern |
| PathFacts.PatternIsBlindRender | chart_payloads.py:262-272 | the pattern is the path rendered with every index written `[]` |
| PathFacts.TokenizePlainDotted | chart_payloads.py:218-224 | a dotted template tokenises to field tokens whose pattern is the template itself |
| PathFacts.IndexedPathPattern | chart_payloads.py:219-220 | `head[i].suffix` has the pattern `head[].suffix` for every `i`, as `replace("[{index}]", "[]")` gives |
| PathFacts.TokenizeJoin | chart_payloads.py:218-224 | joining non-empty delimiter-free segments with dots tokenises to one field per segment, with the joined text as pattern |
| PathFacts.JoinInjective | chart_payloads.py:218-224 | distinct segment lists give distinct dotted paths |
| TreePatch.GetChild | chart_payloads.py:285-292 | one read step: a field needs a mapping holding the key; an index needs a sequence long enough, and then gives its item |
| TreePatch.WalkAppend | chart_payloads.py:282-293 | reading along `a + b` is reading `a`, then reading `b` from there |
| TreePatch.GetNestedStops | chart_payloads.py:286-291 | a missing key, an index out of range or a wrong-kind node on the way gives `None` |
| TreePatch.Fresh | chart_payloads.py:298 | the container created for the next token is `{}` for a field and `[]` for an index |
| TreePatch.PadTo | chart_payloads.py:317-318 | padding a list to a length keeps its items and fills the rest with the pad value |
| TreePatch.EnsuredItems | chart_payloads.py:296-307 | `_ensure_sequence`: items other than `index` kept, padding made of fresh containers, and the item at `index` of the kind the next token needs (the list unchanged when it already was) |
| TreePatch.EnsureSequence | chart_payloads.py:296-307 | the in-place padding and repair computes `EnsuredItems` and returns the item at the index |
| TreePatch.Descend | chart_payloads.py:332-334 | an intermediate field keeps an existing container member and replaces an absent or scalar one with a fresh container |
| TreePatch.Ensure | chart_payloads.py:322-334 | after an intermediate step the child exists and is a container (of the next token's kind for an index); the node is unchanged when it already was usable |
| TreePatch.WriteAt | chart_payloads.py:316-321 | the final write puts the value at the token and returns what was there before, or `None` |
| TreePatch.SetNestedValue | chart_payloads.py:309-335 | the loop computes exactly the specification `Set`; on a raise the document is as it was |
| TreePatch.FreshNeverFails | chart_payloads.py:296-307 | writing into a freshly created container never raises |
| TreePatch.SetFailureLeavesTree | chart_payloads.py:314-315 | a write that raises leaves the tree unchanged |
| TreePatch.SetErrorIsKind | chart_payloads.py:326-327 | the only errors a write raises are "expected list" and "expected mapping" |
| TreePatch.SetThenAt | chart_payloads.py:309-335 | after a successful write the written value is at the path |
| TreePatch.SetThenGet | tests/test_chart_payloads.py:32-37 | after a successful write `get_nested_value` on the same tokens gives the written value |
| TreePatch.SetReturnsPrevious | chart_payloads.py:319-321 | a successful write returns the value previously at the path, or `None` |
| TreePatch.SetAndGetDisagreeOnStrings | chart_payloads.py:286 | reading treats a string as a sequence, but writing through the same path treats it as a scalar to replace |
| TreePatch.ClashRaises | chart_payloads.py:313-327 | a wrong-kind node reached along the path makes the write raise the matching error |
| TreePatch.RaiseHasClash | chart_payloads.py:313-334 | a write that raises has reached a wrong-kind node that existed before the write |
| TreePatch.SetRaisesIffClash | chart_payloads.py:313-334 | a write raises exactly when some prefix of the path reaches a pre-existing wrong-kind node |
| TreePatch.SetExisting | chart_payloads.py:309-335 | writing at a path that already exists replaces that one node, and returns its old value |
| TreePatch.SetIdempotent | chart_payloads.py:309-335 | repeating a successful write changes nothing, and returns the written value |
| TreePatch.SetKeepsRootKind | chart_payloads.py:309-335 | a write never changes whether the root is a mapping or a list |
| TreePatch.SetSiblings | chart_payloads.py:328-334 | the root's other members are untouched by a write |
| TreePatch.SetFrame | chart_payloads.py:296-335 | a path that branches off the written path below an existing prefix reads the same after the write |
| Schema.ValidateUpdatePath | chart_payloads.py:275-279 | accepted exactly when the pattern is allowed for the chart type; the refusal names the pattern and the type (or `generic`) |
| Schema.GlobalPathValidates | chart_payloads.py:219 | every global template is accepted for every chart type, including none |
| Schema.SeriesPathValidates | chart_payloads.py:220 | every series template, at every position, is accepted for every chart type |
| Schema.KindPathValidatesIff | chart_payloads.py:222-223 | a chart-kind template is accepted exactly for that kind |
| Schema.TitleTextAllowedForArea | tests/test_chart_payloads.py:20-25 | `title.text` is editable on an area chart |
| Schema.UnknownSeriesFieldRejected | tests/test_chart_payloads.py:27-30 | `series[0].unknownField` is refused for `area`, with the pattern `series[].unknownField` |
| Schema.GlobalFields | chart_payloads.py:342-343 | one entry per global template, in table order |
| Schema.KindFields | chart_payloads.py:345-347 | one entry per template of the kind, in table order |
| Schema.SeriesFields | chart_payloads.py:353-354 | one entry per series template, formatted with the series position |
| Schema.EditableFieldsValidate | chart_payloads.py:338-356 | every listed field's path passes `validate_update_path` for the same options' chart type |
| Schema.EditableSeriesFields | chart_payloads.py:349-354 | a series field at position `i` is listed exactly when entry `i` exists and is a mapping |
| Schema.EditableKindFields | chart_payloads.py:345-347 | a chart-kind field is listed exactly when the options' chart type is that kind |
| Schema.EditableFieldsExample | tests/test_chart_payloads.py:39-45 | an area chart with two series lists `series[0].color`, `series[1].dashStyle` and `plotOptions.area.fillOpacity` |
| Payload.ExtractChartOptions | chart_payloads.py:69-74 | a mapping `data` member is the options; otherwise a mapping payload is; anything else is refused |
| Payload.WithOptionsExtracts | chart_payloads.py:70-71 | in-place edits of the `data` mapping are what the next extraction returns, and nothing else in the payload changes |
| Payload.NormalizedMeta | chart_payloads.py:77-83 | `meta` becomes a mapping with a `history` member; a mapping keeps its other members, and one with a history is unchanged |
| Payload.EnsureMetadata | chart_payloads.py:77-83 | the payload holds the normalised `meta`, which is returned; other members are unchanged |
| Payload.NormalizedScalarMeta | chart_payloads.py:79-82 | a non-mapping `meta` becomes `{"note": str(meta), "history": []}` |
| Payload.NormalizedHistory | chart_payloads.py:93-97 | normalising keeps the history list a payload carries (none when it is not a list) |
| Payload.HistoryEntryFields | chart_payloads.py:99-105 | the entry carries the stamped time, the actor and the action, and `details` exactly when the details are truthy |
| Payload.AppendHistoryMeta | chart_payloads.py:86-107 | `meta` is the normalised one with the entry appended to its history |
| Payload.AppendHistoryGrows | chart_payloads.py:86-107 | the history grows by exactly the new entry, at the end, and `meta.history` is a list |
| Payload.AppendHistoryFrame | chart_payloads.py:86-107 | nothing outside `meta` changes, and a mapping `meta` keeps its other members |
| Payload.AppendHistoryReplacesScalarMeta | chart_payloads.py:79-81 | a scalar `meta` is replaced by its note and a one-entry history |
| Payload.SummaryCharacterised | chart_payloads.py:110-131 | the count is every series entry; a line describes each mapping entry and nothing else, in position order |
| Payload.SummaryComplete | chart_payloads.py:118-130 | every mapping entry has its line |
| Payload.SummaryLine | chart_payloads.py:118-130 | every line describes the mapping entry at its index |
| Payload.SummaryOrdered | chart_payloads.py:118-130 | lines come in increasing index order |
| Scanners.Leftmost | chart_instruction_parser.py:202 | `search`: the first position with a match, and no match before it; none means no position matches |
| Scanners.FirstAt | chart_instruction_parser.py:71 | an alternation takes the first alternative that occurs at the position |
| Scanners.PrefixFreeFirstAt | chart_instruction_parser.py:75-76 | when no alternative is a prefix of another, an alternative that occurs is the one the alternation takes |
| Scanners.FirstContained | chart_instruction_parser.py:242-246 | the first table entry whose key occurs, with no earlier entry occurring |
| Scanners.FirstWord | chart_instruction_parser.py:235-237 | the first table entry whose key occurs as a whole word, with no earlier one occurring so |
| Scanners.NumberAt | chart_instruction_parser.py:75 | `\d+(?:\.\d+)?` matches exactly at a digit; the whole part is the digit run there, and when a `.` and a digit follow it the fraction is the whole digit run after the point and the match ends there, otherwise there is no fraction and the match ends after the whole part |
| Instructions.HexAt | chart_instruction_parser.py:67 | a hex match is always `#` and three digits: four characters |
| Instructions.FirstHex | chart_instruction_parser.py:227-229 | the leftmost hex colour, none earlier; none means there is none at all |
| Instructions.PyNumber | chart_instruction_parser.py:253-256 | a whole number gives an integer equal to its value |
| Instructions.NamedFromReads | chart_instruction_parser.py:215-218 | the name picked is the first from the start, in series order, that is non-empty and occurs lower-cased in the sentence; none picked means no name from the start occurs |
| Instructions.AllIndices | chart_instruction_parser.py:200 | `range(total)` |
| Instructions.SeriesNumberAt | chart_instruction_parser.py:69 | `series\s+(\d+)` at a position: a number exactly when `series`, spaces and digits are there, and then the value of those digits |
| Instructions.OrdinalAt | chart_instruction_parser.py:70-73 | `ORDINAL_SERIES_RE` at a position: the first ordinal word, in table order, that starts a word there and is followed by spaces and a series noun ending a word; none when no ordinal word does |
| Instructions.OrdinalFrom | chart_instruction_parser.py:70-73 | the first ordinal word from a given one on with which the pattern matches, none when no later one does |
| Instructions.SeriesNumberSearchReads | chart_instruction_parser.py:202 | `SERIES_NUMBER_RE.search`: a match found is at or after the start and reads its number |
| Instructions.OrdinalSearchReads | chart_instruction_parser.py:208 | `ORDINAL_SERIES_RE.search`: a match found is at or after the start and reads its ordinal word |
| Instructions.LazyNumberFinds | chart_instruction_parser.py:78 | `.*?(\d+(?:\.\d+)?)`: the number at the first digit on the line, with no digit before it; none when the line has no digit |
| Instructions.FillOpacityAt | chart_instruction_parser.py:78 | `FILL_OPACITY_RE` at a position: `fill opacity` there, the first number on its line, and whether `%` follows it; none exactly when that line has no digit |
| Instructions.RadiusAfterAt | chart_instruction_parser.py:82 | `RADIUS_AFTER_RE` at a position: `radius` or `size` there and the first number on its line; none exactly when that line has no digit |
| Instructions.LazyPercent | chart_instruction_parser.py:79-80 | `.*?(\d+%)`: the first digits-and-`%` on the line, with none before it |
| Instructions.PerTarget | chart_instruction_parser.py:113-125 | one update per target, in target order, at that series' field |
| TargetFacts.TargetsExist | chart_instruction_parser.py:191-223 | targets are positions of existing series: at most one, or all of them in order |
| TargetFacts.TargetsFirstRules | chart_instruction_parser.py:195-200 | no series gives no targets; `all series` or `every series` gives every position |
| TargetFacts.SeriesNumberRule | chart_instruction_parser.py:202-206 | the leftmost `series N` targets series `N` when it exists; when it does not, the ordinal rule decides |
| TargetFacts.SeriesNumberFound | chart_instruction_parser.py:202 | `search` finds the leftmost `series N` and reads its number |
| TargetFacts.NoSeriesNumber | chart_instruction_parser.py:202-206 | without any `series N`, the ordinal rule decides |
| TargetFacts.OrdinalRule | chart_instruction_parser.py:208-213 | the leftmost ordinal phrase targets its series when it exists; when it does not, the name rule decides |
| TargetFacts.OrdinalFound | chart_instruction_parser.py:208 | `search` finds the leftmost ordinal phrase and the first ordinal word matching there |
| TargetFacts.NoOrdinal | chart_instruction_parser.py:208-213 | without any ordinal phrase, the name rule decides |
| TargetFacts.NameRule | chart_instruction_parser.py:215-221 | the first series, in order, with a non-empty name occurring in the sentence is the target; with none, a sole series is the target when the sentence says `series`, and otherwise there is none |
| TargetFacts.SoleSeries | chart_instruction_parser.py:220-221 | with one series, a sentence saying `series` targets it whichever rule decides |
| TargetFacts.SeriesNumberExample | chart_instruction_parser.py:202-206 | `series 2` of three series targets position 1 |
| TargetFacts.OrdinalExample | chart_instruction_parser.py:208-213 | `second line` of three series targets position 1 |
| InstructionFacts.HexColorWins | chart_instruction_parser.py:226-229 | a hex colour anywhere wins: the leftmost one, `#` and three hex digits, upper-cased |
| InstructionFacts.LongHexReadShort | chart_instruction_parser.py:67 | `#ff0000` is read as `#FF0` |
| InstructionFacts.ColorNonEmpty | chart_instruction_parser.py:113 | a colour found is never empty, so it is always applied |
| InstructionFacts.DashStyleNames | chart_instruction_parser.py:242-246 | a dash style is found exactly when a keyword occurs, and it is one of the table's styles |
| InstructionFacts.DashedIsDash | tests/test_instruction_parser.py:13-19 | `dashed` without the earlier keywords gives `Dash` |
| InstructionFacts.DeactivateIsNegative | chart_instruction_parser.py:260-267 | `deactivate` contains the positive `activate`, yet negatives are checked first, so it gives `False` |
| InstructionFacts.TriangleDownUnreachable | chart_instruction_parser.py:84-91 | `triangle` comes first in the table and occurs in every `triangle-down` phrase, so `triangle-down` is never chosen |
| InstructionFacts.WholeNumbersWithoutPoint | chart_instruction_parser.py:249-257 | without a decimal point, widths and radii are non-negative integers |
| InstructionFacts.SentenceNumbersWhole | chart_instruction_parser.py:105-108 | every sentence the instructions are cut into reads widths and radii as non-negative integers |
| InstructionFacts.LineWidthBefore | chart_instruction_parser.py:249-257 | the leftmost match of the first width pattern decides, read by `float` and then `int` when whole |
| InstructionFacts.LineWidthAfter | chart_instruction_parser.py:249-257 | only when the first width pattern matches nowhere, the leftmost match of the second decides |
| InstructionFacts.MarkerRadiusBefore | chart_instruction_parser.py:304-313 | the leftmost `RADIUS_RE` match decides, read by `float` and then `int` when whole |
| InstructionFacts.MarkerRadiusAfter | chart_instruction_parser.py:304-313 | only when `RADIUS_RE` matches nowhere, the leftmost `RADIUS_AFTER_RE` match decides |
| InstructionFacts.KeywordEnd | chart_instruction_parser.py:75-82 | in the width, radius and donut alternations, a keyword that occurs is the one matched, and the match goes on right after it |
| InstructionFacts.FillOpacityInUnit | chart_instruction_parser.py:270-279 | the opacity is a float clamped into 0 to 1 |
| InstructionFacts.FillOpacityReads | chart_instruction_parser.py:270-279 | the leftmost `fill opacity` match decides: its number divided by 100 when `%` follows it, else the number, capped at 1 |
| InstructionFacts.FillOpacityAbsent | chart_instruction_parser.py:270-273 | there is no fill opacity exactly when `FILL_OPACITY_RE` matches nowhere |
| InstructionFacts.FillOpacityOnlyAreaLike | chart_instruction_parser.py:170-173 | fill opacity is emitted only for `area` and `areaspline`, once, at that kind's `fillOpacity` |
| InstructionFacts.InnerSizeIsPercentage | chart_instruction_parser.py:282-291 | the inner size is always digits followed by `%` |
| InstructionFacts.InnerSizeFirst | chart_instruction_parser.py:283-285 | the leftmost `inner size` match decides: its percentage as written |
| InstructionFacts.DonutSizeNext | chart_instruction_parser.py:286-288 | only when `INNER_SIZE_RE` matches nowhere, the leftmost `donut`/`doughnut` match decides |
| InstructionFacts.InnerSizeDefault | chart_instruction_parser.py:289-291 | when neither pattern matches, a sentence saying `donut` or `doughnut` gets `60%`, and any other none |
| InstructionFacts.ColorByName | chart_instruction_parser.py:226-239 | without a hex colour or `rgb(...)`, the first colour name in table order that occurs as a word decides |
| InstructionFacts.MarkerTogglePath | chart_instruction_parser.py:294-301 | the marker toggle always has a path `plotOptions.<kind>.marker.enabled`, with `series` as the kind exactly for kinds without marker options |
| InstructionFacts.MarkerEnabledAdmissible | chart_instruction_parser.py:141-149 | the marker toggle path is editable, or it is the scatter toggle |
| InstructionFacts.StyleAdmissible | chart_instruction_parser.py:112-125 | colour, dash and width updates are editable for every chart type |
| InstructionFacts.DataLabelAdmissible | chart_instruction_parser.py:127-134 | data-label updates are editable |
| InstructionFacts.LegendAdmissible | chart_instruction_parser.py:136-139 | the legend update is editable |
| InstructionFacts.MarkerAdmissible | chart_instruction_parser.py:141-165 | marker updates are editable, except the scatter toggle |
| InstructionFacts.ScatterFillAdmissible | chart_instruction_parser.py:167-168 | the scatter fill colour is editable |
| InstructionFacts.FillOpacityAdmissible | chart_instruction_parser.py:170-173 | the fill opacity update is editable |
| InstructionFacts.PieAdmissible | chart_instruction_parser.py:175-186 | the pie updates are editable |
| InstructionFacts.SentenceAdmissible | chart_instruction_parser.py:108-186 | every update of a sentence is editable for the chart type, or is the scatter toggle |
| InstructionFacts.InstructionsAdmissible | chart_instruction_parser.py:97-188 | every update of the instructions is editable for the options' chart type, or is the scatter toggle |
| InstructionFacts.ScatterToggleRefused | chart_instruction_parser.py:299-300 | the scatter toggle path is refused for `scatter`, naming the pattern and the type |
| InstructionFacts.ScatterToggleNotEditable | chart_instruction_parser.py:299-300 | the scatter toggle is not editable for a scatter chart |
| InstructionFacts.NoInstructionsNoUpdates | chart_instruction_parser.py:98-99 | empty instructions give no updates |
| InstructionFacts.SentencesClean | chart_instruction_parser.py:105 | no sentence is empty, has surrounding whitespace, or contains `.`, `;` or a newline |
| InstructionFacts.TranslateSentences | chart_instruction_parser.py:105-108 | the updates are those of each sentence, concatenated in sentence order |
| InstructionFacts.SentenceBreakSplits | chart_instruction_parser.py:105-108 | text cut at a break translates to the two sides' updates, in order |
| ParserExamples.StyleExample | tests/test_instruction_parser.py:13-20 | `Make series 1 red dashed lines with line width 3px` targets the first series and gives it colour `#FF0000`, dash style `Dash` and line width 3 |
| ParserExamples.DataLabelsExample | tests/test_instruction_parser.py:22-27 | `Please enable data labels for all series` turns `plotOptions.series.dataLabels.enabled` on |
| ParserExamples.FillOpacityExample | tests/test_instruction_parser.py:29-34 | `Set the fill opacity to 40%` gives 0.4 |
| ParserExamples.ScatterMarkersExample | tests/test_instruction_parser.py:36-42 | on a scatter chart, `Turn off the markers and set their radius to 6px` turns the scatter markers off and sets their radius to 6 |
| ParserExamples.InnerSizeExample | tests/test_instruction_parser.py:44-49 | `Make this pie a donut with inner size 70% and hide the legend` gives the inner size `70%` |
| ParserExamples.PieExample | tests/test_instruction_parser.py:44-50 | on a pie chart the same sentence sets `plotOptions.pie.innerSize` to `70%` and turns the legend off |
| CustomizeSkill.FieldRecords | customize_chart.py:53-54 | a mapping gives one record per member, in order |
| CustomizeSkill.AsRecords | customize_chart.py:104-105 | the translator's updates become records, one each, in order |
| CustomizeSkill.ApplyKeepsKind | customize_chart.py:115-128 | the loop keeps the options a mapping |
| CustomizeSkill.RunSkips | customize_chart.py:117-119 | an update with a falsy path is passed over |
| CustomizeSkill.RunWrites | customize_chart.py:120-128 | an update with a text path is applied; an error stops the loop, otherwise its change is logged before the rest |
| CustomizeSkill.ApplyUpdate | customize_chart.py:121-128 | tokenise, validate, read, write, with early returns, computes one step of the loop |
| CustomizeSkill.ApplyUpdates | customize_chart.py:115-128 | the loop computes the options, change log and stop reason of `ApplyFrom` |
| CustomizeSkill.CustomizeChart | customize_chart.py:96-135 | the skill's steps, with the loop as a loop, compute `Customize` |
| CustomizeFacts.NormalizeCases | customize_chart.py:40-54 | `None`, blank text and data that is neither a mapping nor a list give nothing; a mapping gives its members in order |
| CustomizeFacts.KeyValueFallback | customize_chart.py:49-52 | text that is not JSON is read as key=value lines, and those records are the updates |
| CustomizeFacts.DecodedText | customize_chart.py:49-53 | text that decodes is normalised as the decoded data |
| CustomizeFacts.ListRecords | customize_chart.py:55-62 | a list's records come only from accepted items; when all are accepted, one record per item, in order |
| CustomizeFacts.ItemRecordCases | customize_chart.py:57-61 | an item is kept exactly when it is a mapping with `path` and `value` or a sequence of two; a pair gives its two items |
| CustomizeFacts.RecordsRoundTrip | customize_chart.py:57-59 | records written as `{path, value}` mappings are read back unchanged |
| CustomizeFacts.LineRecordWhen | customize_chart.py:24-28 | a stripped line gives a record exactly when it does not start with `#` and holds an `=` |
| CustomizeFacts.LineRecordSplit | customize_chart.py:29-36 | a record splits at the first `=`: the stripped key, and the stripped value decoded, or the text itself |
| CustomizeFacts.LineKeyHasNoEquals | customize_chart.py:29-30 | a record's path is text with no `=` |
| CustomizeFacts.LineBreakSplits | customize_chart.py:23 | text cut at a line break parses to the two sides' records, in order |
| CustomizeFacts.OneLine | customize_chart.py:23-36 | one line gives nothing when blank or rejected, else its one record |
| CustomizeFacts.ApplyAppend | customize_chart.py:115-128 | running over `a + b` is running over `a`, then, if it completed, over `b`, with the logs concatenated |
| CustomizeFacts.StopIsFinal | customize_chart.py:126-127 | once the loop stops at an error, later updates change nothing |
| CustomizeFacts.ApplyOneWrites | customize_chart.py:121-128 | a step succeeds exactly when the path is editable and the write does not raise; then the change is path, previous value and new value, and the value can be read back; on failure the options are unchanged |
| CustomizeFacts.EmptyPatternRefused | chart_payloads.py:275-279 | a path of dots, which gives no tokens, is refused by the gate |
| CustomizeFacts.CompletedLogsEveryWrite | customize_chart.py:115-128 | a completed run logs each update with a truthy path, in order, with the value written |
| CustomizeFacts.StoppedSomewhere | customize_chart.py:121-127 | a run that stops does so at one particular update |
| CustomizeFacts.AdmittedStepErrors | customize_chart.py:121-127 | one update on a path that is editable or the scatter toggle fails only at a wrong-kind node, or with the scatter toggle's refusal |
| CustomizeFacts.GateRefusesOnlyScatterToggle | customize_chart.py:121-127 | when every path is editable or the scatter toggle, the only refusals are wrong-kind errors and the scatter toggle |
| CustomizeFacts.TranslatedRecordsAdmissible | customize_chart.py:103-105 | every record from the instructions has a text path that is editable or the scatter toggle |
| CustomizeFacts.CustomizeConcludes | customize_chart.py:96-135 | an accepted payload is customised by merging the updates, running the loop and concluding |
| CustomizeFacts.InstructionsNeverRaise | customize_chart.py:103-122 | with no explicit updates, every translated path is text, so no update's path can make the run raise |
| CustomizeFacts.InstructionsGateRefusal | customize_chart.py:121-127 | with no explicit updates, the only schema refusal is the scatter toggle |
| CustomizeFacts.AppliedRun | customize_chart.py:130-135 | a success is the completed run written back, with the history entry holding the instructions and the change log |
| CustomizeFacts.AppliedLogsEveryWrite | customize_chart.py:107-135 | a success had updates, and its change log records each written update |
| CustomizeFacts.AppliedAddsOneEntry | customize_chart.py:130-135 | a success appends exactly one history entry |
| CustomizeFacts.WriteBackUnderData | chart_payloads.py:86-107 | writing options back under `data` and appending history keeps the options extractable and the rest of the payload |
| CustomizeFacts.AppliedUnderData | customize_chart.py:98-135 | for a payload with a `data` mapping, the result extracts to the new options with one more history entry, and nothing else changes |
| CustomizeFacts.AppliedAtTop | customize_chart.py:98-135 | for a payload that is itself the options, the result is the new options plus `meta` |

## Left out

- Persistence and the client are not part of this model: `load_chart_payload`, `persist_chart_payload`, `_ensure_client` and `_resolve_target_id`. They are I/O, so the model takes the loaded payload and returns the payload it would persist.
- `customize_chart`'s `saved_payload_id` check and the output building at customize_chart.py:137-152 are left out. They are I/O and text formatting.
- `pretty_json` is left out: it is output formatting.
- The other skill entry points and the framework shim are not part of this model. They only call the modelled functions and do I/O.
- The clock (`datetime.utcnow`) is a parameter, `isoTime`, because it is a foreign call.
- `json.loads` is a parameter, `decode`, because it is a foreign call. Whether it succeeds is whatever `decode` says.
- Regular expressions are scanners written for these patterns. `re.IGNORECASE`, `lower()`, `upper()` and `\w` cover ASCII letters only, because Unicode case tables are out of scope.
- Numbers are exact: `float()` gives a real, and the fill opacity is a real. Floating-point rounding is not modelled.
- PyStr: `str()` is rendered only for strings, booleans, integers and `None`. For a float or a container, a series name counts as empty and a `meta` note as `""`. Modelling the exact float and container rendering was out of scope.
- InstructionRecords: a truthy `instructions` that is a float, a list or a dict is translated from `""`, so it gives no updates. Python translates `str(instructions)` (customize_chart.py:104), whose rendering is not modelled (see `PyStr`).
- ChartTypeOf: a chart `type` that is not a string counts as no chart type. For a number or a boolean, Python would look it up in the template table as is and name it in the refusal message. For a list or a dict, Python raises an uncaught `TypeError` instead: `chart_type in AREA_LIKE_TYPES` (chart_instruction_parser.py:170) and the set test in `_marker_enabled_path` (chart_instruction_parser.py:297) hash it, and so does `chart_type in CHART_TYPE_FIELD_TEMPLATES` (chart_payloads.py:222) for a non-empty one.
- InstructionsNeverRaise: it holds in the model because a list or dict chart `type` counts as no chart type. In Python such a `type` makes `instructions_to_updates` raise `TypeError` (chart_instruction_parser.py:170).
- Customize: a truthy path that is not a string ends the run as `Raised`. Python agrees for most such paths: a dict raises `KeyError` at `path[0]` (chart_payloads.py:235), a list holding `"["` raises `AttributeError` at `path.find` (chart_payloads.py:246), and a list holding a non-string raises `TypeError` at `buffer += char` (chart_payloads.py:255). A list of strings with no `"["` element is different. Python concatenates its elements into tokens, so `["series", ".", "name"]` gives `["series", "name"]`, and the update goes on. The model does not model that case.
- Tokenize: an index is read with ASCII digits only. Python's `isdigit` (chart_payloads.py:250) also accepts other Unicode digits. For a decimal digit such as `٣` in `series[٣]`, `int()` reads it as 3. For a digit that is not decimal, such as `²` in `series[²]`, `int()` (chart_payloads.py:252) raises `ValueError`. That error is not a `ChartPayloadError`, so it escapes the `except` at customize_chart.py:126. In both cases the model reports the non-numeric index error instead.
- TokenizePath: the same ASCII-only reading of an index as `Tokenize`.
- NonNumericAfterValidPrefix: stated for ASCII digits, so a Unicode digit inside brackets counts as non-numeric, as in `Tokenize`.
- NumberAt: regex `\d` is read as `0`-`9` only. Python's `re` would also match other Unicode decimal digits in an instruction, and `float()` would read them.
- Aliasing is not modelled. The change log and the history entry hold values, not references, so later in-place edits of a logged value are not reflected.
- A refused customisation leaves its earlier writes in the in-memory `options`. The model reports only the refusal, because that object is never persisted or returned.
- Mappings are ordered lists of members whose keys are taken as distinct, as Python dicts' are. Lookup takes the first member with the key.
- `MARKER_CHART_TYPES` is not used by the source and is not modelled.
- A string counts as a `Sequence`, as in Python. So `get_nested_value` indexes into strings, `summarize_options` treats a string `series` as a sequence of one-character strings, and `_normalize_updates` accepts a two-character string as a pair.
