# MOMap Trigger Visualizer, modelled in Dafny

MOMap-Trigger-Visualizer turns the trigger section of a Mental Omega map
(an INI-style `.map` text) into an interactive graph. The model covers the
three pieces of it that compute something:

- **The map parser.** `parse_map_text` walks the map text line by line. It
  tracks the active section (`[Triggers]`, `[Events]`, `[Actions]`,
  `[VariableNames]`) and turns each `key=values` line into a record: a
  trigger row, an event row with its NUM conditions, an action row with its
  NUM actions of seven parameters, or a local variable. A line it cannot
  read becomes one error text `<section>:<line>: ...`. The repository ships
  two copies of the parser, `tools/map_parser.py` and the root
  `map_parser.py`. Their parsing code is the same text, two lines higher in
  the root copy, so one model stands for both.
- **The trigger-graph builder.** The visualizer first normalises the
  action and event lists of every trigger (`_iter_actions_normalized`,
  `_iter_events_normalized`). It then formats each entry as a summary line
  from the action and condition dictionaries (`format_action_entry`,
  `format_event_entry`, with `_fmt_val`, `_fmt_val_with_type`, `_pad8` and
  `_letters_to_waypoint`). `build_graph` builds an `nx.DiGraph` from:
  - trigger nodes;
  - `linked` edges;
  - the edges that the dictionaries' `produces_edges` rules and
    `depends_on` references draw;
  - one tooltip per trigger.

  `main` first adds fallback edge rules to the dictionaries. After the build
  it passes every edge label through `canon_label` once more. The two
  visualizer copies, `tools/visualize_triggers.py` and the older root
  `visualize_triggers.py`, differ in the code modelled here only in
  `_letters_to_waypoint`. A `legacy` flag selects the older mapping.
- **The dictionary merge scripts.** `data/dicts/merge_actions.py` and
  `data/dicts/merge_conditions.py` merge several YAML dictionaries into one,
  so that later files override earlier ones. They validate every entry,
  logging INFO, WARN and ERROR issues. `main` returns exit status 0, 1, 2
  or 3. One model, with a `Flavor` (`ActionDicts` or `ConditionDicts`),
  covers both scripts. The scripts differ in the following:
  - the top-level key;
  - the parameter count (7, or 2 to 3);
  - the allowed keys;
  - the `needs_string` rule;
  - the conditions script reading a file without the top-level key as a
    flat mapping.

Code that updates state step by step is imperative Dafny. `parse_map_text`
fills a `ParseResult` object, `build_graph` grows a `DiGraph` object and
`merge_files` grows a `MergeState` object. Each method is proved against a
value-level specification function, and the properties are proved as
lemmas about those functions.

Files and modules:

| file | module | contents |
|---|---|---|
| `wrappers.dfy` | `Wrappers` | `Option`, `Result` |
| `text.dfy` | `Text` | strings and the Python `str` methods used (`strip`, `split`, `lower`, `zfill`, `isdigit`, integer text) |
| `pyvalue.dfy` | `PyValue` | loaded JSON/YAML values and the Python builtins applied to them (truthiness, `or`, `dict.get`, `int()`, `str()`, iteration) |
| `ids.dfy` | `Ids` | `sorted()` of a set of integer ids |
| `map_parser.dfy` | `MapParser` | the parser: line functions, the `ParseResult` class, the parsing loops |
| `map_parser_props.dfy` | `MapParserProps` | parser properties: line shapes, round trips, error accounting, well-formedness |
| `normalize.dfy` | `Normalize` | the action and event normalisers |
| `format.dfy` | `Format` | labels, value rendering, waypoints, the entry formatters |
| `graph.dfy` | `TriggerGraph` | `build_graph` as a value, loop by loop, and its properties |
| `graph_build.dfy` | `GraphBuild` | the `DiGraph` class and `build_graph`'s loops as methods |
| `fallbacks.dfy` | `Fallbacks` | `main`'s fallback rules and what they draw |
| `merge.dfy` | `DictMerge` | validation, merging, winners, severities and the exit status as values |
| `merge_run.dfy` | `MergeRun` | the `MergeState` class and `merge_files` / `main` as methods |

## Model

| member | source | states |
|---|---|---|
| MapParser.SectionOf | tools/map_parser.py:130-136 | A header name selects the section of that name; any other name selects none. |
| MapParser.ToIntOrStrCases | tools/map_parser.py:34-45 | An exactly-8-digit token stays the stripped text. A token becomes an integer exactly when it is integer-shaped and not 8 digits, and then it holds the value of its digits. Every other token is its stripped text. |
| MapParser.ToIntOrStrOfTokenText | tools/map_parser.py:34-45 | Reading back the text of any token that can be written out (an int, or stripped text that is not integer-shaped or is 8 digits) gives the same token. |
| MapParser.EntryOfChunk | tools/map_parser.py:255-270 | An action read from one 8-token chunk carries the chunk's code and exactly seven parameters. |
| MapParser.ParseEventLine | tools/map_parser.py:207-240 | The while loop over the condition tokens returns exactly the event-line specification: the row, or the fault the code raises. |
| MapParser.ParseActionLine | tools/map_parser.py:242-277 | The loop over the NUM chunks returns exactly the action-line specification. |
| MapParser.ParseResult.constructor | tools/map_parser.py:109-115 | A new result has no triggers, events, actions, locals or errors. |
| MapParser.ParseResult.ErrorTexts | tools/map_parser.py:143-166 | The reported error list has one text per error, in order. |
| MapParser.ParseMapText | tools/map_parser.py:122-167 | The line loop leaves a fresh result holding exactly the parse of the whole text. |
| MapParser.StoreDataLine | tools/map_parser.py:141-166 | One data line inside a section updates the result exactly as the data-line specification says. |
| MapParser.StoreVariableLine | tools/map_parser.py:141-150 | A `[VariableNames]` line stores its local or appends one error, as specified. |
| MapParser.StoreKeyedLine | tools/map_parser.py:152-166 | A `key=values` line of the other sections stores its row or appends one error, as specified. |
| MapParserProps.TriggerLineAccepts | tools/map_parser.py:181-205 | A trigger line is accepted exactly when it has eight fields whose last five are integers. The row then holds the house, the name, the five flags (disabled, easy, normal, hard, persistence) as those integers, and the linked trigger, where `<none>` in any letter case means none. Otherwise the error is the field count, or the bad integer fields `values[3:]`. |
| MapParserProps.EventLineShape | tools/map_parser.py:207-233 | An accepted event line holds exactly NUM conditions. A condition has a `p3` only when that token is not integer-shaped. |
| MapParserProps.ScanConditionsRoundTrip | tools/map_parser.py:217-231 | Scanning the tokens written for a list of conditions, followed by anything that cannot be taken for a `p3`, reads back exactly those conditions. |
| MapParserProps.EventLineRoundTrip | tools/map_parser.py:207-240 | Writing NUM and NUM conditions as tokens and parsing the line gives back the same row. Trailing tokens that cannot be taken for a `p3` are ignored. |
| MapParserProps.EventLineOfScan | tools/map_parser.py:207-240 | A line whose first token is NUM and whose scan yields NUM conditions is accepted with those conditions. |
| MapParserProps.ActionLineShape | tools/map_parser.py:242-277 | An accepted action line holds exactly NUM actions of seven parameters each, read from exactly 8·NUM tokens. |
| MapParserProps.EntryOfActionTokens | tools/map_parser.py:255-270 | One writable action, written as its eight tokens, is read back as itself. |
| MapParserProps.ScanChunksRoundTrip | tools/map_parser.py:253-270 | Writable actions written back to back are read back in order by the chunk loop. |
| MapParserProps.ActionLineRoundTrip | tools/map_parser.py:242-277 | Writing `NUM, code, p1..p7, ...` and parsing the line gives back the same actions, for parameters that survive `_to_int_or_str`. |
| MapParserProps.ActionLineOfScan | tools/map_parser.py:242-277 | A line with NUM, exactly 8·NUM tokens and a successful chunk scan is accepted with the scanned actions. |
| MapParserProps.VariableLineShape | tools/map_parser.py:169-179 | An accepted variable line has an initial value of 0 or 1. |
| MapParserProps.VariableLineRoundTrip | tools/map_parser.py:169-179 | `<id>=<name>,<flag>` reads back as that local, whatever commas or `=` signs the name holds. |
| MapParserProps.VariableHead | tools/map_parser.py:120 | The digits before the first `=` form the id group of the line pattern. |
| MapParserProps.VariableTail | tools/map_parser.py:120 | The lazy name group ends at the last comma, the one before the flag. |
| MapParserProps.VariableLineOfParts | tools/map_parser.py:169-179 | A line made of digits, `=`, a stripped name, a last comma and a 0/1 flag is accepted with exactly those parts. |
| MapParserProps.CommentLineInert | tools/map_parser.py:127-129 | Comment and blank lines change nothing, not even the section. |
| MapParserProps.NoSectionInert | tools/map_parser.py:137-138 | Data lines outside a recognised section are ignored. |
| MapParserProps.HeaderSwitchesSection | tools/map_parser.py:130-136 | A header line only switches the section. An unknown name switches parsing off until the next known header. |
| MapParserProps.ErrorTextTagged | tools/map_parser.py:143-166 | Every error text starts with `<section>:<line>: ` for its own line. |
| MapParserProps.KeyedLineErrors | tools/map_parser.py:152-166 | A `key=values` line either keeps the errors or appends exactly one, naming its section, its line and the raw line. |
| MapParserProps.VariableDataLineErrors | tools/map_parser.py:141-150 | A `[VariableNames]` line either keeps the errors or appends exactly one, naming its line. |
| MapParserProps.DataLineErrors | tools/map_parser.py:141-166 | Any data line adds at most one error, and that error names its own section and line. |
| MapParserProps.StepErrors | tools/map_parser.py:126-166 | One line adds at most one error, naming the line and the active section. A line that adds an error stores no record. |
| MapParserProps.StepErrorsPrefix | tools/map_parser.py:126-166 | One line keeps the earlier errors as a prefix and adds at most one error for its own line. |
| MapParserProps.RunErrors | tools/map_parser.py:122-167 | Over a run of lines, earlier errors are kept and at most one error per line is added, each naming one of the lines read. |
| MapParserProps.TriggerLineWellFormed | tools/map_parser.py:181-205 | A trigger line keeps every stored record well formed: the trigger is filed under its own id. |
| MapParserProps.EventLineWellFormed | tools/map_parser.py:207-240 | An event line keeps every stored record well formed: filed under its id, with NUM equal to the number of conditions. |
| Text.PyStrReprRoundTrip | tools/map_parser.py:184 | The `repr` of a string that the error messages print inside a list is enclosed in one quote character on both sides. Undoing its escapes between them gives the original string back, so no two strings share a `repr`. |
| Text.ReprBodyQuotesEscaped | tools/map_parser.py:184 | Inside a `repr`, every occurrence of the enclosing quote character is preceded by a backslash, so the quote cannot end the literal early. |
| Text.ReprOfApostrophe | tools/map_parser.py:192 | A string holding an apostrophe and no double quote, and nothing else that needs escaping, is shown between double quotes, unchanged (`"Yuri's lab"`). |
| Text.ReprOfPlain | tools/map_parser.py:219 | A string with no quote, backslash or control character is shown between single quotes, unchanged. |
| MapParserProps.ActionLineWellFormed | tools/map_parser.py:242-277 | An action line keeps every stored record well formed: filed under its id, NUM actions, seven parameters each. |
| MapParserProps.VariableLineWellFormed | tools/map_parser.py:169-179 | A variable line keeps every local filed under the text of its id, with initial value 0 or 1. |
| MapParserProps.DataLineWellFormed | tools/map_parser.py:141-166 | Any data line keeps the result well formed. |
| MapParserProps.StepWellFormed | tools/map_parser.py:126-166 | Any line keeps the result well formed. |
| MapParserProps.RunWellFormed | tools/map_parser.py:122-167 | A run of lines keeps the result well formed. |
| MapParserProps.ParseTextSound | tools/map_parser.py:122-167 | Every stored record is well formed. A text yields at most one error per line, each naming a line of the text. |
| Normalize.NumberedParams | tools/visualize_triggers.py:324-326 | The numbered keys give exactly as many values as the kind's arity. |
| Normalize.Trimmed | tools/visualize_triggers.py:307-308 | Actions drop a trailing parameter that upper-cases to "A", and keep any other list. Events never drop one. |
| Normalize.IntOrKeep | tools/visualize_triggers.py:310-312 | A parameter becomes the integer `_to_int` gives, or stays as it was when `_to_int` fails. |
| Normalize.Padded | tools/visualize_triggers.py:309-315 | The result has exactly the arity: the leading parameters converted in place, then zeros. |
| Normalize.NormalizeItem | tools/visualize_triggers.py:300-374 | An item is skipped exactly when its code does not parse. Otherwise it yields that code with exactly arity parameters. |
| Normalize.Items | tools/visualize_triggers.py:295-300 | The items of a container that can be iterated can each be read. |
| Normalize.NormalizeAll | tools/visualize_triggers.py:300-374 | At most one entry per item, each with exactly the kind's arity of parameters. |
| Normalize.PadParams | tools/visualize_triggers.py:307-315 | The per-item loops give the trimmed parameters padded to the arity. |
| Normalize.ConvertAll | tools/visualize_triggers.py:310-312 | The conversion loop converts every parameter, in order. |
| Normalize.FillZeros | tools/visualize_triggers.py:313-314 | The while loop appends exactly enough zeros to reach the arity. |
| Normalize.NormalizeOne | tools/visualize_triggers.py:301-374 | The generator body for one item yields exactly the specified entry, or nothing. |
| Normalize.IterNormalized | tools/visualize_triggers.py:293-374 | The generator yields exactly the normalised entries of the container's items. |
| Normalize.NormalizeList | tools/visualize_triggers.py:300-374 | The loop over the items collects exactly the normalised entries, in order. |
| Normalize.ActionDropsTrailingA | tools/visualize_triggers.py:307-315 | A trailing "A" of an action's short parameter list is dropped, so its slot reads 0. |
| Normalize.EventKeepsTrailingA | tools/visualize_triggers.py:387-393 | An event keeps a trailing "A" as it is. |
| Normalize.LetterAIsKept | tools/visualize_triggers.py:242-246 | "a" and "A" are not integers, so conversion keeps them. |
| Normalize.EightDigitIdNormalized | tools/visualize_triggers.py:242-246 | The parser keeps an 8-digit id as text. The normaliser turns it into its integer, and zero-filling that back to 8 digits gives the id. |
| PyValue.ToIntOfStr | tools/visualize_triggers.py:242-246 | `_to_int(x)` is `int(str(x).strip())`, or None where that raises. Booleans give None because `str(True)` is not a number. |
| PyValue.GetOfUniqueKeys | tools/visualize_triggers.py:253 | On a mapping whose keys are all distinct, `doc.get(key)` gives the value stored under that key, and no later entry carries the key. |
| Text.SplitCsv | tools/map_parser.py:28-29 | One field per comma-separated piece of the text (always at least one), each stripped of surrounding whitespace. |
| Format.CanonLabel | tools/visualize_triggers.py:226-235 | `set_local` becomes `enable_local` and `clear_local` becomes `disable_local`. Every label without an alias is kept. The result never holds an alias. |
| Format.CanonLabelIdempotent | tools/visualize_triggers.py:226-235 | Canonicalising twice is canonicalising once. |
| Format.Short | tools/visualize_triggers.py:437-440 | A falsy value gives "". Text of up to 22 characters is kept. Longer text gives its first 22 characters followed by an ellipsis. |
| Format.PadKeysPad | tools/visualize_triggers.py:442-452 | Every pad key pads, in any letter case. |
| Format.ShouldPadIgnoresCase | tools/visualize_triggers.py:449-452 | The pad-key test ignores letter case. |
| Format.FmtVal | tools/visualize_triggers.py:454-459 | `None` and `""` show as "0". |
| Format.FmtValPadsIds | tools/visualize_triggers.py:454-459 | An id in 0..99,999,999 under a pad key shows as 8 characters that read back as the id. |
| Format.PaddedLength | tools/visualize_triggers.py:457-458 | The text of an id in 0..99,999,999, zero-filled to 8, has exactly 8 characters. |
| Format.FmtValPadsBooleanText | tools/visualize_triggers.py:457-458 | A boolean is an `int` to Python, so `True` under a pad key is zero-filled as its text: "0000True". |
| Format.ZFillRoundTrip | tools/visualize_triggers.py:458 | Zero-filling the text of any integer, to any width, reads back as that integer. |
| Format.Pad8 | tools/visualize_triggers.py:462-466 | A value `int()` rejects is shown as `str()` of it. |
| Format.Pad8RoundTrip | tools/visualize_triggers.py:462-466 | What `_pad8` renders reads back as `int(n)`, and has 8 characters for ids in 0..99,999,999. |
| Format.LettersToWaypoint | tools/visualize_triggers.py:468-503 | A value `int()` accepts maps to that integer. Any other non-string is returned unchanged. |
| Format.WaypointLabel | tools/visualize_triggers.py:469-476 | The reference labelling: waypoints 0..25 get one letter and 26..701 get two upper-case letters. |
| Format.WaypointOfLabel | tools/visualize_triggers.py:468-503 | The label of a waypoint maps back to that waypoint. |
| Format.LabelOfWaypoint | tools/visualize_triggers.py:468-503 | Every one- or two-letter label maps to a waypoint in 0..701 whose label it is. One-letter labels map to 0..25 and two-letter labels to 26..701. |
| Format.WaypointLabelsDistinct | tools/visualize_triggers.py:492-500 | Distinct labels name distinct waypoints. |
| Format.LegacyLettersToWaypoint | visualize_triggers.py:413-428 | In the older mapping, a value `int()` accepts maps to that integer. |
| Format.LegacyAAndAACollide | visualize_triggers.py:413-428 | The older mapping sends "A" and "AA" to the same waypoint 0, as its docstring says. |
| Format.LegacyBAndABCollide | visualize_triggers.py:413-428 | The older mapping sends "B" and "AB" to the same waypoint 1. |
| Format.LowerCaseLetters | visualize_triggers.py:413-428 | The older mapping leaves "a" as text. The newer one upper-cases it to waypoint 0. |
| Format.WaypointMappingsAgree | visualize_triggers.py:413-428 | Both mappings agree on integers and on single upper-case letters. |
| Format.LocalIdShowsInteger | tools/visualize_triggers.py:523-524 | Under a `local_id` hint, a value shows as text that reads back as the integer it converts to. |
| Format.WaypointHintShowsIndex | tools/visualize_triggers.py:515-517 | Under a `waypoint_id` hint, a waypoint's label renders as its decimal index. |
| Format.IdHintShowsEightDigits | tools/visualize_triggers.py:513-514 | Under a trigger, team, taskforce or script id hint, an id in 0..99,999,999 renders as 8 characters that read back as it. |
| Format.ParamIndex | tools/visualize_triggers.py:554 | An index is accepted only within 1..hi. |
| Format.FieldStep | tools/visualize_triggers.py:551-556 | A value field with a valid index appends exactly one piece and marks its index as shown. With an invalid index it changes nothing. |
| Format.RefStep | tools/visualize_triggers.py:559-565 | A reference appends one piece and marks its index only when the index is valid and not shown yet. Otherwise it changes nothing. |
| Format.ShowFields | tools/visualize_triggers.py:551-556 | The value-field loop collects exactly the fold of the field steps. |
| Format.ShowRefs | tools/visualize_triggers.py:559-565 | The reference loop collects exactly the fold of the reference steps. |
| Format.FormatEntry | tools/visualize_triggers.py:544-571 | The formatter's summary line is the specified `name (pieces)`. With no piece it is `name (params=null)`. The same holds for `format_event_entry` at lines 573-599. |
| Format.RefsFoldExtends | tools/visualize_triggers.py:558-565 | The references only append pieces and indices. |
| Format.RefsShowFreshIndices | tools/visualize_triggers.py:558-565 | The references add exactly as many pieces as new indices: no index is shown twice. |
| Format.FieldsFirst | tools/visualize_triggers.py:550-565 | The value-field pieces come first. The references then add exactly one piece per index that no value field showed. |
| Format.ShownRefsSkipped | tools/visualize_triggers.py:559-565 | References whose index is invalid or already shown add no piece, and nothing is required of their type or value. |
| Format.RepeatedRefsReady | tools/visualize_triggers.py:544-571 | Metadata whose references only repeat indices the value fields show can be summarised as soon as the value fields can, whatever those references hold. The summary then shows the value fields alone. |
| Format.LocalIdRefOnShownIndex | tools/visualize_triggers.py:559-565 | A `local_id` reference on parameter 1 after a value field on parameter 1 does not stop the summary, even though parameter 1 holds `"abc"`, which `int()` rejects. |
| Format.EmptyMeta | tools/visualize_triggers.py:545-569 | Empty metadata is always accepted and shows no piece. |
| Format.UnknownCodeSummary | tools/visualize_triggers.py:545-569 | A code missing from the dictionary is summarised as `Action <code> (params=null)` (or `Event`). |
| TriggerGraph.Touch | tools/visualize_triggers.py:626-627 | Adding a node when it is absent keeps every node and edge, and puts the new node in place only when the id was absent. |
| TriggerGraph.LabelledEdge | tools/visualize_triggers.py:674-676 | An edge drawn with `canon_label` carries a canonical label and the given style. A label that is already canonical is kept. |
| TriggerGraph.PadIdKeepsValue | tools/visualize_triggers.py:625 | An id of up to 8 digits becomes exactly 8 digits with the same value. Other text is kept, so padding twice is padding once. |
| TriggerGraph.PadIdMatchesPad8 | tools/visualize_triggers.py:656 | The node id a numeric target parameter gets is the text `_pad8` shows in the summaries. |
| TriggerGraph.TitleLines | tools/visualize_triggers.py:611-614 | A trigger's title ends with `ID: <id>`, and starts with the name in bold when there is one. |
| TriggerGraph.TriggerNode | tools/visualize_triggers.py:607-616 | A trigger-table entry gives a `trigger` node with empty summary lists. |
| TriggerGraph.TriggerNodeText | tools/visualize_triggers.py:608-616 | The caption is the id, plus a second line with at most 23 characters of the name when there is a name. The title starts with the name in bold and ends with the id. |
| TriggerGraph.ApplyDraw | tools/visualize_triggers.py:657-676 | One drawing step keeps every node, ensures its node exists and sets its edge. A step that fits keeps the graph well formed. |
| TriggerGraph.DrawnEdges | tools/visualize_triggers.py:674-676 | The edges after a series of draws are the old edges plus one per drawn pair. |
| TriggerGraph.ApplyDraws | tools/visualize_triggers.py:644-676 | Draws keep every node, set the drawn edges, and keep a graph well formed when each of them fits. |
| TriggerGraph.LastDrawWins | tools/visualize_triggers.py:674-676 | A pair that no later draw sets keeps the attributes of its draw, since `add_edge` overwrites. |
| TriggerGraph.TriggerNodes | tools/visualize_triggers.py:607-616 | One node per trigger-table entry, in order, each a `trigger` with empty summary lists. |
| TriggerGraph.SetNodes | tools/visualize_triggers.py:615-616 | Adding nodes keeps the edges, adds every id, and keeps every node a trigger when all of them are. |
| TriggerGraph.SetNodesDistinct | tools/visualize_triggers.py:615-616 | With distinct ids, each id ends up with its own node. |
| TriggerGraph.AddTriggers | tools/visualize_triggers.py:607-616 | The first loop succeeds exactly when every entry is a dict. It then gives a well-formed graph with no edges and a trigger node for every entry. |
| TriggerGraph.TriggerNodesOfTable | tools/visualize_triggers.py:607-616 | With distinct ids, each trigger's node is its own trigger node. |
| TriggerGraph.LinkedIdPadded | tools/visualize_triggers.py:620-625 | A link naming up to eight digits, other than `0`, is padded to the 8-digit id with the same value. |
| TriggerGraph.LinkIds | tools/visualize_triggers.py:619-625 | One link id (or none) per trigger entry. |
| TriggerGraph.Ids | tools/visualize_triggers.py:619 | The trigger ids, in table order. |
| TriggerGraph.LinkDraw | tools/visualize_triggers.py:626-631 | A link draws the dotted `linked` edge from the linked trigger to the trigger. |
| TriggerGraph.AddLinks | tools/visualize_triggers.py:619-631 | The link loop keeps every node and keeps the graph well formed. |
| TriggerGraph.LinksDrawn | tools/visualize_triggers.py:619-631 | With distinct trigger ids, every trigger with a linked id gets the dotted `linked` edge from it. |
| TriggerGraph.LocalNode | tools/visualize_triggers.py:660-669 | A local's node has kind `local_var` and no summary lists. |
| TriggerGraph.LocalTitleText | tools/visualize_triggers.py:665-667 | A local's title opens with its bold heading, and ends with its initial value when it has one. |
| TriggerGraph.LocalNodeText | tools/visualize_triggers.py:660-669 | The caption starts with `Local <raw>` and the name follows only when there is one. The initial value is kept. The title opens with the bold heading. |
| TriggerGraph.RuleTarget | tools/visualize_triggers.py:654-673 | A target node that carries summary lists is a trigger. |
| TriggerGraph.RuleTargetCases | tools/visualize_triggers.py:654-673 | A `trigger_id` rule targets the padded trigger id. A `local_id` or `local_var` rule targets the local's node, failing exactly when the locals table holds a non-dict for it. Any other type targets `<type>:<raw>`. |
| TriggerGraph.ParamValue | tools/visualize_triggers.py:649-653 | A rule reads a parameter exactly when its index is in 1..hi, names an existing parameter and that parameter is not None. |
| TriggerGraph.RuleDraws | tools/visualize_triggers.py:644-676 | One rule draws at most one edge, from the action's trigger. |
| TriggerGraph.RulesDraws | tools/visualize_triggers.py:644-676 | An action's rules draw only edges from its own trigger. |
| TriggerGraph.TriggerRuleEdge | tools/visualize_triggers.py:654-658 | A `trigger_id` rule on a parameter in 0..99,999,999 draws its edge to the 8-digit id that the summary shows, as a plain trigger node. |
| TriggerGraph.DependsDraws | tools/visualize_triggers.py:687-711 | One reference draws at most one edge, into the event's trigger. |
| TriggerGraph.RefsDraws | tools/visualize_triggers.py:687-711 | An event's references draw only edges into its own trigger. |
| TriggerGraph.DependsEdge | tools/visualize_triggers.py:687-711 | A dependency on a set local draws one dashed edge from `local:<value>` to the trigger, labelled `depends_on_true` for condition 36 and `depends_on_false` for 37. |
| TriggerGraph.EntryDraws | tools/visualize_triggers.py:644-711 | What an entry draws joins a node to its own trigger. |
| TriggerGraph.EntryEffect | tools/visualize_triggers.py:637-711 | An entry's effect draws only edges that join a node to its trigger. |
| TriggerGraph.EntryEffects | tools/visualize_triggers.py:637-711 | A trigger's entries have effects exactly when each entry has one. There is one effect per entry, in order. |
| TriggerGraph.EntryEffectsFit | tools/visualize_triggers.py:637-711 | Every draw of a trigger's entries joins a node to that trigger. |
| TriggerGraph.TableEffects | tools/visualize_triggers.py:634-711 | The table has effects exactly when each trigger's entries do. There is one row per trigger, in order. |
| TriggerGraph.TableEffectsFit | tools/visualize_triggers.py:634-711 | Every draw of the table joins a node to its own trigger. |
| TriggerGraph.AddSummary | tools/visualize_triggers.py:641 | Appending a summary line changes only that trigger's summary lists, and keeps the graph well formed. |
| TriggerGraph.ApplyEffects | tools/visualize_triggers.py:637-676 | Applying a trigger's effects only adds to the graph. |
| TriggerGraph.ApplyEffectsWellFormed | tools/visualize_triggers.py:637-711 | Effects whose draws join nodes to the trigger keep the graph well formed. |
| TriggerGraph.ApplyTable | tools/visualize_triggers.py:634-711 | The action or event loop keeps every node and only adds to the graph. |
| TriggerGraph.ApplyTableKeys | tools/visualize_triggers.py:634-636 | Every trigger of the table has a node afterwards. |
| TriggerGraph.ApplyTrigger | tools/visualize_triggers.py:634-641 | One trigger's row adds its node when absent and only adds to the graph. |
| TriggerGraph.ApplyTableWellFormed | tools/visualize_triggers.py:634-711 | The third and fourth loops keep the graph well formed. |
| TriggerGraph.AddTable | tools/visualize_triggers.py:634-711 | When the loop completes, it only adds to the graph and gives every key of the table a node. |
| TriggerGraph.AddTableWellFormed | tools/visualize_triggers.py:634-711 | The whole action or event loop keeps the graph well formed. |
| TriggerGraph.Section | tools/visualize_triggers.py:720-727 | No lines give no section. Otherwise there is a heading, the first ten lines as bullets, and `…(+N more)` when there are more. |
| TriggerGraph.FinalTitle | tools/visualize_triggers.py:717-728 | The tooltip starts with the node's own title. |
| TriggerGraph.FinalNode | tools/visualize_triggers.py:714-730 | A trigger node gets its tooltip and loses its summary lists. Any other node is unchanged. |
| TriggerGraph.Finalize | tools/visualize_triggers.py:714-730 | The last loop keeps every node id and edge, and finalises each node. |
| TriggerGraph.FinalizeClears | tools/visualize_triggers.py:714-730 | After it no summary list is left, kinds and captions are kept, and each title is a prefix of the tooltip. |
| TriggerGraph.Build | tools/visualize_triggers.py:602-732 | A graph that `build_graph` returns is well formed and carries no summary lists. |
| TriggerGraph.BuildNodes | tools/visualize_triggers.py:602-732 | Every key of the trigger, action and event tables has a node, and trigger-table nodes keep the kind `trigger`. |
| TriggerGraph.KeptThrough | tools/visualize_triggers.py:607-711 | A trigger node of the first loop survives the later loops with its kind and caption. |
| TriggerGraph.BuildCaptions | tools/visualize_triggers.py:607-732 | Each trigger of a table with distinct ids is drawn with its own caption. |
| TriggerGraph.BuildLinks | tools/visualize_triggers.py:619-631 | With distinct ids, the link loop draws the dotted `linked` edge into every trigger that names a linked trigger. |
| TriggerGraph.RecanonIdentity | tools/visualize_triggers.py:2711-2712 | On a well-formed graph, canonicalising every edge label again changes nothing. |
| TriggerGraph.BuildRecanonIdentity | tools/visualize_triggers.py:2709-2712 | The pass that `main` makes after `build_graph` never changes the graph. |
| GraphBuild.DiGraph.constructor | tools/visualize_triggers.py:604 | A new graph is empty. |
| GraphBuild.DiGraph.SetNode | tools/visualize_triggers.py:615-616 | `add_node` with every attribute replaces the node and leaves the edges alone. |
| GraphBuild.DiGraph.AddIfAbsent | tools/visualize_triggers.py:626-627 | The node is added only when absent, as specified. |
| GraphBuild.DiGraph.AddEdge | tools/visualize_triggers.py:629-631 | `add_edge` sets the pair's attributes and leaves the nodes alone. |
| GraphBuild.DiGraph.Apply | tools/visualize_triggers.py:657-676 | One drawing step changes the graph as specified. |
| GraphBuild.DiGraph.ApplyAll | tools/visualize_triggers.py:644-676 | Draws in order change the graph as specified. |
| GraphBuild.DiGraph.AppendSummary | tools/visualize_triggers.py:641 | Appending to a trigger's summary list changes the graph as specified. |
| GraphBuild.DiGraph.ApplyEffect | tools/visualize_triggers.py:640-676 | One entry: its summary appended, then its edges drawn. |
| GraphBuild.DiGraph.FinalizeTitles | tools/visualize_triggers.py:714-730 | The title loop leaves exactly the finalised graph. |
| GraphBuild.DiGraph.RecanonLabels | tools/visualize_triggers.py:2711-2712 | The relabelling loop keeps the nodes and canonicalises every edge label. |
| GraphBuild.AddTriggerNodes | tools/visualize_triggers.py:607-616 | The first loop succeeds exactly when every entry is a dict, and then holds the specified trigger nodes. |
| GraphBuild.DrawLinks | tools/visualize_triggers.py:619-631 | The link loop leaves exactly the specified graph. |
| GraphBuild.DrawRules | tools/visualize_triggers.py:644-676 | The rule loop succeeds exactly when the specification does, with the same draws. |
| GraphBuild.DrawRefs | tools/visualize_triggers.py:687-711 | The reference loop succeeds exactly when the specification does, with the same draws. |
| GraphBuild.EntryDrawsOf | tools/visualize_triggers.py:644-711 | An entry's rules or references draw exactly what is specified, or fail exactly when it fails. |
| GraphBuild.EntryEffectOf | tools/visualize_triggers.py:638-711 | One entry's summary and draws are exactly its specified effect, or fail exactly when it fails. |
| GraphBuild.ApplyEntry | tools/visualize_triggers.py:638-676 | One pass of the entry loop extends the applied effects by this entry's effect, or reports where the program raises. |
| GraphBuild.ApplyEntries | tools/visualize_triggers.py:637-711 | The entry loop applies exactly the trigger's specified effects, or fails exactly when they fail. |
| GraphBuild.AddTriggerRows | tools/visualize_triggers.py:634-711 | One trigger of the third or fourth loop changes the graph as specified. |
| GraphBuild.TableEffectsPrefix | tools/visualize_triggers.py:634-711 | The effects of a prefix of the table are a prefix of its effects. |
| GraphBuild.TableStepFails | tools/visualize_triggers.py:634-711 | When one trigger of the table fails, the whole loop fails. |
| GraphBuild.AddTableRows | tools/visualize_triggers.py:634-711 | The third or fourth loop succeeds exactly when specified, and leaves the specified graph. |
| GraphBuild.BuildGraph | tools/visualize_triggers.py:602-732 | `build_graph` succeeds exactly when the specification does, and holds exactly the specified graph. |
| GraphBuild.GrowActions | tools/visualize_triggers.py:619-676 | The link and action loops leave the specified graph. |
| GraphBuild.BuildSteps | tools/visualize_triggers.py:633-732 | Once the trigger nodes are in, the build is the action loop, then the event loop, then the titles. It fails exactly when one of them fails. |
| GraphBuild.GrowGraph | tools/visualize_triggers.py:619-732 | The loops after the first leave the specified graph. |
| GraphBuild.BuildAndRelabel | tools/visualize_triggers.py:2709-2712 | Building and then relabelling gives exactly the specified graph: the relabelling changes nothing. |
| Fallbacks.SetDefault | tools/visualize_triggers.py:2701 | `setdefault` keeps an existing entry. Otherwise it appends the key with the given value. |
| Fallbacks.WithFallbacks | tools/visualize_triggers.py:2693-2707 | The fallback loop adds the table's codes, keeps every other code's entry, and leaves every code of the table with the key. |
| Fallbacks.FallbackEntry | tools/visualize_triggers.py:2693-2707 | Each code ends up with its own entry (or an empty one) after `setdefault` of its fallback. |
| Fallbacks.AddFallbacks | tools/visualize_triggers.py:2693-2701 | The fallback loop leaves exactly the specified dictionary. |
| Fallbacks.MainFallbacks | tools/visualize_triggers.py:2693-2707 | Both loops: the edge rules for actions 12, 22, 53, 54, 56 and 57, and the dependencies for conditions 36 and 37. |
| Fallbacks.ActionFallbacksDistinct | tools/visualize_triggers.py:2693-2707 | The fallback tables name each action code and each condition code only once, so no fallback shadows another. |
| Fallbacks.DefinedKept | tools/visualize_triggers.py:2692-2707 | An entry that already has the key is left exactly as it was. |
| Fallbacks.MissingFilled | tools/visualize_triggers.py:2692-2707 | An entry without the key gains it with the fallback value, keeping its other entries in order. |
| Fallbacks.FallbackMeta | tools/visualize_triggers.py:2692-2707 | Where the key was missing, the builder reads the fallback as the entry's metadata. |
| Fallbacks.SingleRule | tools/visualize_triggers.py:644-676 | A `produces_edges` list holding one rule draws exactly what that rule draws. |
| Fallbacks.SingleRef | tools/visualize_triggers.py:687-711 | A `references` list holding one reference draws exactly what that reference draws. |
| Fallbacks.RuleDrawsEdge | tools/visualize_triggers.py:2694-2697 | A trigger fallback rule on a second parameter in 0..99,999,999 draws one solid edge, labelled with its verb, to the 8-digit trigger id. |
| Fallbacks.FallbackTriggerEdge | tools/visualize_triggers.py:2693-2701 | Actions 12, 22, 53 and 54 that lack rules draw a solid `destroy`/`force`/`enable`/`disable` edge to the trigger their second parameter names. |
| Fallbacks.FallbackDependsEdge | tools/visualize_triggers.py:2703-2707 | Conditions 36 and 37 that lack references draw a dashed `depends_on_true` or `depends_on_false` edge from the local their second parameter names. |
| Fallbacks.LocalDependencyEdge | tools/visualize_triggers.py:2704-2705 | The dependency fallback on a second parameter naming a local draws one dashed edge from that local's node. |
| Ids.SortedIds | data/dicts/merge_actions.py:210 | `sorted(keys)`: every id exactly once, in strictly increasing order. |
| DictMerge.One | data/dicts/merge_actions.py:52-53 | Logging one issue gives a log of exactly that issue, with exactly its severity. |
| DictMerge.ToIntKey | data/dicts/merge_actions.py:58-66 | `to_int` succeeds exactly on int-like keys. |
| DictMerge.ToIntKeyIsPyInt | data/dicts/merge_actions.py:55-66 | Where `to_int` succeeds it agrees with Python's `int()`. |
| DictMerge.ToIntKeyOfIntText | data/dicts/merge_actions.py:55-66 | The decimal text of any integer is an int-like key naming it. |
| DictMerge.Aid | data/dicts/merge_actions.py:193 | The id the messages show is an int standing for the key's integer. |
| DictMerge.ParamLevels | data/dicts/merge_actions.py:104-110 | A parameter index is logged as an ERROR exactly when it does not name a parameter. It is never logged as WARN or INFO. |
| DictMerge.RequiredLevels | data/dicts/merge_actions.py:111-112 | A required field is logged as an ERROR exactly when it is not a non-empty string. |
| DictMerge.OptionalLevels | data/dicts/merge_actions.py:113-115 | An optional field is logged as a WARN exactly when it is given and is not a string. |
| DictMerge.FromParamLevels | data/dicts/merge_actions.py:162-168 | `from_param` is logged as an ERROR exactly when it is given and does not name a parameter. |
| DictMerge.EdgeFieldLevels | data/dicts/merge_actions.py:169-172 | A WARN is logged exactly when one of `to`, `label` or `style` is given and is not a string. |
| DictMerge.EdgeFieldsWarnFree | data/dicts/merge_actions.py:169-172 | `to`, `label` and `style` are each absent or a string exactly when the edge rule is warning-free. |
| DictMerge.RefLevels | data/dicts/merge_actions.py:100-115 | A reference gets an ERROR exactly when it is not well shaped, and a WARN exactly when its role is given and is not a string. |
| DictMerge.ContextLevels | data/dicts/merge_actions.py:121-131 | A context reference gets an ERROR exactly when its source or type is not a non-empty string, and a WARN exactly for a non-string role. |
| DictMerge.FieldLevels | data/dicts/merge_actions.py:137-152 | A value field gets an ERROR exactly when its index or name is bad, and a WARN exactly for a non-string unit. |
| DictMerge.EdgeLevels | data/dicts/merge_actions.py:158-172 | An edge rule gets an ERROR exactly for a bad `from_param`, and a WARN exactly for a non-string `to`/`label`/`style`. |
| DictMerge.ItemLevels | data/dicts/merge_actions.py:100-172 | An item gets an ERROR exactly when it is not well shaped (including not a dict) and a WARN exactly when it is not warning-free. It never gets an INFO. |
| DictMerge.ItemsLevels | data/dicts/merge_actions.py:100-115 | The items of a section get an ERROR exactly when one is not well shaped, and a WARN exactly when one is not warning-free. |
| DictMerge.SectionLevels | data/dicts/merge_actions.py:96-172 | A section gets an ERROR exactly when it is neither absent nor a list of well-shaped items, and a WARN exactly when an item is not warning-free. |
| DictMerge.ParamTypeLevels | data/dicts/merge_actions.py:84-86 | The parameter types get a WARN exactly when one of them is not a string. |
| DictMerge.ParamsLevels | data/dicts/merge_actions.py:77-86 | `params` gets an ERROR exactly when it is not a list of an allowed length, and a WARN exactly when such a list holds a non-string. |
| DictMerge.NeedsStringLevels | data/dicts/merge_conditions.py:88-90 | `needs_string` gets a WARN exactly when conditions give a non-boolean one (or when actions give one at all, lines 88-89 of merge_actions.py). |
| DictMerge.KeyLevels | data/dicts/merge_actions.py:91-94 | The keys get an INFO exactly when one of them is not allowed. They never get an ERROR or WARN. |
| DictMerge.KeysKnown | data/dicts/merge_conditions.py:33-36 | An entry has only known keys exactly when each of its keys is allowed. |
| DictMerge.HeadLevels | data/dicts/merge_actions.py:73-94 | Name, params, `needs_string` and keys give an ERROR, WARN or INFO exactly when the corresponding check fails. |
| DictMerge.SectionsLevels | data/dicts/merge_actions.py:95-172 | The four sections give an ERROR exactly when one is not well shaped, and a WARN exactly when one is not warning-free. |
| DictMerge.EntryLevels | data/dicts/merge_actions.py:72-172 | `validate_action` logs an ERROR exactly when the entry is not well shaped, a WARN exactly when it is not warning-free and an INFO exactly when it has an unknown key. The same holds for `validate_condition` in merge_conditions.py. |
| DictMerge.TopOf | data/dicts/merge_conditions.py:182-188 | Conditions read a file without the `conditions` key as a flat mapping. Actions report it missing. Entries come from a mapping exactly when the key holds one, or for the flat case. |
| DictMerge.StepEntriesSnoc | data/dicts/merge_actions.py:189-204 | One more entry of a file is one more merge step. |
| DictMerge.LastIn | data/dicts/merge_actions.py:189-202 | A file has a last accepted entry for an id exactly when some accepted entry carries that id. |
| DictMerge.StepEntryStores | data/dicts/merge_actions.py:189-202 | An accepted entry is stored under its id with its file's name. Any other entry leaves both maps alone. |
| DictMerge.StoreHolds | data/dicts/merge_actions.py:201-202 | Storing under an id makes that id hold the new entry and file, and leaves every other id as it was. |
| DictMerge.StepEntryHolds | data/dicts/merge_actions.py:189-202 | An accepted entry takes over its id. Nothing else changes any id. |
| DictMerge.StepEntriesHolds | data/dicts/merge_actions.py:189-202 | Within one file the last accepted entry for an id wins. An id the file does not accept keeps what it had. |
| DictMerge.StepFileHolds | data/dicts/merge_actions.py:176-202 | A file's accepted entries take over their ids, and the two maps keep the same ids. |
| DictMerge.MergeWinner | data/dicts/merge_actions.py:174-204 | Later files override earlier ones. Each id holds the last accepted entry of the last file that accepts it, with that file's name. No other ids are held. |
| DictMerge.StepEntryLevels | data/dicts/merge_actions.py:189-204 | One entry adds an ERROR exactly when it is rejected or not well shaped, and a WARN exactly when it is accepted and not warning-free. |
| DictMerge.StepEntriesLevels | data/dicts/merge_actions.py:189-204 | A file's entries add an ERROR exactly when one is rejected or not well shaped, and a WARN exactly when an accepted one is not warning-free. |
| DictMerge.StepFileLevels | data/dicts/merge_actions.py:176-204 | A file adds an ERROR exactly when it fails to read, its top value is not a mapping, or an entry is bad. It adds a WARN exactly when the top key is missing or an accepted entry warns. |
| DictMerge.MergeLevels | data/dicts/merge_actions.py:174-212 | The merge logs an ERROR exactly when some file is not error-free, and a WARN exactly when some file is not warning-free. |
| DictMerge.ExitStatusMeaning | data/dicts/merge_actions.py:262-269 | With input files the status is 0 exactly when every file is error-free (and under `--strict` warning-free), 1 exactly when one is not error-free, and 3 exactly when under `--strict` all are error-free but one warns. |
| DictMerge.OverrideAcrossFiles | data/dicts/merge_actions.py:200-204 | An `overridden` INFO is logged exactly when the id was last supplied by a file with a non-empty name other than the current one. |
| DictMerge.SortedEntries | data/dicts/merge_actions.py:210 | One entry per merged id, keyed by the ids in sorted order, each with its merged value. |
| DictMerge.SortedEntriesSpec | data/dicts/merge_actions.py:210 | The output mapping lists every merged id once, in strictly increasing order, with the entry merged under it, and nothing else. |
| DictMerge.Preamble | data/dicts/merge_actions.py:206-209 | Three header fields, none of them the top-level key. |
| DictMerge.MergedDoc | data/dicts/merge_actions.py:206-211 | The output document holds the sorted merged entries under the top-level key. |
| MergeRun.MergeState.constructor | data/dicts/merge_actions.py:45-50 | A new state has no entries, no sources and no issues. |
| MergeRun.MergeState.Log | data/dicts/merge_actions.py:52-53 | `log` appends exactly one issue. |
| MergeRun.MergeState.CheckParam | data/dicts/merge_actions.py:104-110 | Appends exactly the specified issues of a parameter index. |
| MergeRun.MergeState.CheckRequired | data/dicts/merge_actions.py:111-112 | Appends exactly the specified issues of a required field. |
| MergeRun.MergeState.CheckOptional | data/dicts/merge_actions.py:113-115 | Appends exactly the specified issues of an optional field. |
| MergeRun.MergeState.CheckEdgeFields | data/dicts/merge_actions.py:169-172 | The loop over `to`, `label` and `style` appends exactly their specified WARNs. |
| MergeRun.MergeState.CheckFromParam | data/dicts/merge_actions.py:162-168 | Appends exactly the specified issues of `from_param`. |
| MergeRun.MergeState.CheckEdge | data/dicts/merge_actions.py:162-172 | Appends exactly the specified issues of an edge rule. |
| MergeRun.MergeState.CheckRef | data/dicts/merge_actions.py:104-115 | Appends exactly the specified issues of a reference. |
| MergeRun.MergeState.CheckContext | data/dicts/merge_actions.py:125-131 | Appends exactly the specified issues of a context reference. |
| MergeRun.MergeState.CheckField | data/dicts/merge_actions.py:141-152 | Appends exactly the specified issues of a value field. |
| MergeRun.MergeState.CheckItem | data/dicts/merge_actions.py:100-103 | Appends exactly the specified issues of one item of a section. |
| MergeRun.MergeState.CheckSection | data/dicts/merge_actions.py:96-115 | The loop over a section appends exactly its specified issues. |
| MergeRun.MergeState.CheckParams | data/dicts/merge_actions.py:77-86 | The `params` checks and their loop append exactly the specified issues. |
| MergeRun.MergeState.CheckKeys | data/dicts/merge_actions.py:91-94 | The key loop appends exactly one INFO per unknown key, in order. |
| MergeRun.MergeState.CheckName | data/dicts/merge_actions.py:74-75 | Appends exactly the specified issues of `name`. |
| MergeRun.MergeState.CheckNeedsString | data/dicts/merge_actions.py:88-89 | Appends exactly the specified issues of `needs_string`. |
| MergeRun.MergeState.CheckHead | data/dicts/merge_actions.py:73-94 | Appends exactly the specified issues of name, params, `needs_string` and keys. |
| MergeRun.MergeState.CheckSections | data/dicts/merge_actions.py:95-172 | Appends exactly the specified issues of the four sections. |
| MergeRun.MergeState.Validate | data/dicts/merge_actions.py:72-172 | `validate_action` appends exactly the entry's specified issues. |
| MergeRun.MergeState.AddEntry | data/dicts/merge_actions.py:189-204 | One `(k, v)` pair changes the state exactly as one merge step specifies. |
| MergeRun.MergeState.AddFile | data/dicts/merge_actions.py:176-204 | One input file changes the state exactly as one file step specifies. |
| MergeRun.MergeFiles | data/dicts/merge_actions.py:174-212 | `merge_files` returns the specified merged document and issue log. |
| MergeRun.Scan | data/dicts/merge_actions.py:263-264 | The two `any(...)` scans report exactly whether the log holds an ERROR and whether it holds a WARN. |
| MergeRun.RunMerge | data/dicts/merge_actions.py:250-269 | No files give 2. Otherwise 0 exactly when every file is error-free (and under `--strict` warning-free), 1 exactly when one is not error-free, and 3 exactly for warnings alone under `--strict`. |

## Left out

- I/O is left out of the model:
  - reading map files and writing the five JSON outputs (`parse_map_file`, `dump_json`, `make_output_dir_for_map` and the parser's `_main`);
  - loading JSON and YAML (a loaded document, or a read failure, is a `Source` parameter);
  - `write_outputs` and the timestamped log header;
  - all printing.
- `main`'s argument parsing, and its globbing and sorting of input file names, are left out: the model starts from the ordered list of files.
- The visualizer's configuration loading (`load_user_config`, `_deep_merge`) is left out.
- Dictionary loading and `merge_overrides` are left out, so the dictionaries are parameters.
- Everything after the graph is built is left out (`export_pyvis`, the HTML and JavaScript it writes, the HTTP server, map-directory resolution), because it is output formatting and not graph logic.
- A graph's nodes and edges are maps, so the insertion order `networkx` keeps is not modelled.
- Text is ASCII: `isdigit`, `isalpha`, `upper`/`lower` and `int()` accept only ASCII digits and letters, not the other Unicode characters Python also accepts. `int()` also accepts no `_` digit separators, where Python reads `1_0` as 10. Python 3.11 and later also refuse `int()` on text of more than 4,300 digits. On such text `_to_int_or_str` keeps the string, and `_to_int` and the merge's `to_int` give `None`; the model reads any length of digits as an integer.
- PyValue.Get: on a `JObj` that repeats a key, `Get` returns the first entry, where a Python dict keeps the last. The dict a loader returns holds each key once (`UniqueKeys`), and on such entries the two agree (`GetOfUniqueKeys`). The model does not carry `UniqueKeys` as an invariant of every loaded document.
- Text.PyStrRepr: characters above U+00FF are shown as they are; Python's `repr` escapes those that Unicode classes as non-printable (as `\u`/`\U` escapes); the model does not tabulate those classes.
- Floating-point values in the loaded documents are not modelled.
- Format.CanonLabel: requires a hashable label (or a falsy one). An unhashable label makes Python raise, and the build specification then returns `None`.
- GraphBuild.DiGraph.RecanonLabels: requires hashable labels, for the same reason. Every graph the builder makes has them.
- Normalize.IterNormalized: requires a container the generator can iterate. The inputs on which the Python generator raises a `TypeError` (a non-iterable container or loose `params` value) are not modelled.
- Format.FormatEntry: requires metadata the formatter can read: dict items, parameter indices naming existing parameters, and for each value field and each reference it actually shows, a text label and a value `_fmt_val_with_type` accepts (`MetaReady`). References skipped at line 561, with an invalid or already shown index, are asked nothing (`RepeatedRefsReady`). On other metadata Python raises, and the build specification returns `None` for it.
- Fallbacks.MainFallbacks: requires that a dictionary entry under a fallback code is a dict. Otherwise the second `setdefault` raises.
- MergeRun.MergeFiles: requires every loaded document to be falsy or a mapping. On a truthy non-mapping, `data.get` raises an `AttributeError` that the scripts do not catch.
- MergeRun.RunMerge: requires loadable documents, for the same reason.
- The `Issue` messages keep what each message reports (level, field, id, file name). The model renders a log line as ` - LEVEL: text` only in `LogLine`, and does not reproduce Python's `repr` of exotic key types in the message text.
