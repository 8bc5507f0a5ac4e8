# codecosmos core, modelled in Dafny

This project models the core of codecosmos, a terminal companion that indexes
a repository and produces improvement suggestions. It can also apply a chosen fix
to disk and ship it as a pull request. The model covers:

- the **suggestion store** (`src/suggest/mod.rs`): flags, the active view, priority and
  context ordering;
- the **static rules** (`src/suggest/static_rules.rs`);
- the **LLM-side text processing** (`src/suggest/llm.rs`): JSON extraction, label parsing,
  content truncation;
- the **indexer's own per-file analysis** (`src/index/mod.rs`);
- the **LLM grouping enhancement** (`src/grouping/llm_enhance.rs`);
- the **multi-file refactor engine** (`src/refactor.rs`): diff-plan parsing, then backup,
  apply and rollback against a file system with injected faults;
- the **background-message state machine and tasks** of `src/main.rs`: summary generation
  in tiers with a cache, applying a fix, shipping;
- the **interface state** of `src/ui/mod.rs`;
- the **text helpers** of `src/ui/panels.rs`, `src/ui/theme.rs`, `src/util.rs`;
- the **version comparison** of `src/update.rs`.

Modules follow the program's structure. Most source files are one module each; `src/main.rs` is
split into `MainTasks` (the background tasks) and `MainLoop` (the message loop and keys), and
`src/refactor.rs` into `Refactor` (plan parsing) and `RefactorApply` (backup, apply, rollback).
Objects the program updates in place are classes:

| class | source object |
|---|---|
| `FileSystem.Disk` | the disk |
| `Suggest.SuggestionEngine` | the suggestion engine |
| `Grouping.CodebaseGrouping` | the grouping |
| `Ui.App` | the interface state |
| `MainLoop.Session` | the state of the message loop |

Pure computations are functions with lemmas. Loops in the source are methods with invariants,
each proved equal to a specification function. The supporting modules are:

- `Results`: Option and Result;
- `Strings`: the `str` methods the code calls, over `seq<char>`, with a UTF-8 byte view for byte slicing;
- `Sorting`: Rust's stable `sort_by`, with proofs that insertion sort is the unique stable sort.

Throughout the model, these stand in for the source's collaborators:

- **UUIDs** (`Uuid::new_v4`) are natural numbers supplied by the caller.
- **The clock** is a parameter. One reading of it stamps a whole batch of new suggestions.
- **Language-model calls** are outcome values given as parameters.
- **File-system calls** are methods of a `Disk` whose calls fail at caller-chosen call numbers.
  Writes and copies are not atomic: a failing one may tear, leaving a caller-chosen prefix of
  the content in its target.
- **Git calls** are outcome values given as parameters.

## Model

| member | source | states |
|---|---|---|
| Util.Truncate | src/util.rs:7-23 | at most `max` characters; empty for 0; text that fits is kept; otherwise the first `max` characters (`max <= 3`) or the first `max - 3` and "..." |
| Util.TruncateKeepsPrefix | src/util.rs:7-23 | the result is the text itself or a character prefix of it, possibly followed by "..." |
| Util.TruncateIdempotent | src/util.rs:7-23 | truncating an already truncated text to the same width changes nothing |
| Util.TruncateExamples | src/util.rs:151-162 | the tests' cases: "ééééé" to 4 is "é...", "こんにちは" to 3 is "こんに" and to 0 is "" |
| Util.NormalPieces | src/util.rs:125 | the components `join` appends are never empty or `.` |
| Util.ResolveRepoPath | src/util.rs:102-145 | an empty, absolute or `..` path is rejected with its message before any file-system call; on success the root canonicalises, the joined path exists, its canonical form lies under the root, and the relative part is what follows the root; the joined path keeps a trailing `/` or `/.` of the candidate |
| Util.EscapeRejected | src/util.rs:135-137 | a path whose canonical form lies outside the canonical root is always an error |
| Util.TrailingSlashChecked | src/util.rs:125-129 | with `a.rs` a regular file, "a.rs" resolves while "a.rs/" is reported as not existing |
| Update.ParseU32 | src/update.rs:76-78 | a parsed number fits in 32 bits |
| Update.IsNewerVersion | src/update.rs:71-91 | true exactly when both strings parse to triples and the first is lexicographically greater |
| Update.NewerIrreflexiveAsymmetric | src/update.rs:86-90 | no version is newer than itself; two versions are never newer than each other |
| Update.NewerTransitive | src/update.rs:86-90 | newer-than is transitive |
| Update.NewerTotalOnParsed | src/update.rs:86-90 | two parsable versions are equal triples or one of them is newer |
| Update.UnparsableIsNeverNewer | src/update.rs:88-90 | an unparsable side makes the comparison false both ways |
| Update.LeadingVIgnored | src/update.rs:280-286 | a leading `v` on either side does not change the answer |
| Update.ParseRendered | src/update.rs:76-78 | the decimal rendering of a 32-bit number parses back to it |
| Update.ParseRenderedVersion | src/update.rs:72-84 | a rendered 32-bit triple followed by nothing, a `.` part or a `-` tag parses back to the same triple |
| Update.ParseVersion | src/update.rs:72-84 | definition of the version parse; `Update.ParseRenderedVersion`, `Update.ExtraPartsIgnored` and `Update.TwoPartsRejected` state what it accepts |
| Update.NewerIsNumericOrder | src/update.rs:261-277 | on rendered triples, newer is exactly the numeric lexicographic order (covers the major, minor and patch bump tests) |
| Update.PreReleaseIgnored | src/update.rs:289-294 | `X-tag` and `X` are neither newer than the other |
| Update.ExtraPartsIgnored | src/update.rs:72-84 | parts after the third do not change the comparison |
| Update.TwoPartsRejected | src/update.rs:297-305 | a two-part version is never newer nor older than anything |
| Update.ExampleComparisons | src/update.rs:261-277 | the tests' cases 0.3.10 > 0.3.9, 1.0.0 > 0.99.99, and 0.3.0 not newer than 0.3.1 |
| Theme.ScoreColor | src/ui/theme.rs:146-154 | the five score bands map to white, grey 100, 200, 300 and 400 |
| Theme.ScoreColorMonotone | src/ui/theme.rs:146-154 | on 0..100 a higher score is never dimmer |
| Theme.Gauge | src/ui/theme.rs:396-407 | a gauge has `total` cells, the first `filled` of them filled |
| Theme.GaugeCount | src/ui/theme.rs:396-407 | a gauge shows exactly `min(filled, total)` filled cells |
| Theme.PushCells | src/ui/theme.rs:398-405 | the push loop builds exactly the gauge |
| Theme.StarRating | src/ui/theme.rs:396-407 | `total` stars, the first `min(filled, total)` filled |
| Theme.BarGauge | src/ui/theme.rs:450-463 | `width` cells, `value * width / 100` (capped) filled |
| Theme.DotGauge | src/ui/theme.rs:466-479 | `max_dots` dots, `(value * max_dots + 50) / 100` (capped) filled |
| Theme.BarGaugeWithinWidth | src/ui/theme.rs:450-452 | a percentage up to 100 never overfills; 100 fills the bar |
| Panels.AgeUnit | src/ui/panels.rs:522-536 | one of four units |
| Panels.FormatTimeAgo | src/ui/panels.rs:522-536 | "today", "1d", days, weeks, months and years at the thresholds 7, 30 and 365 |
| Panels.ShownCountMeaning | src/ui/panels.rs:528-535 | a positive age shows at least one unit, the age rounded down to whole units; a larger age never gets a smaller unit |
| Panels.TruncatePath | src/ui/panels.rs:538-545 | a path that fits is kept; otherwise "..." and a byte suffix of the path, exactly `max_len` bytes |
| Panels.TruncateAsciiPath | src/ui/panels.rs:538-545 | on ASCII paths the cut is always legal and keeps the last `max_len - 3` characters |
| Panels.TruncateText | src/ui/panels.rs:547-553 | text that fits is kept; otherwise a byte prefix of `max_len - 3` bytes (saturating) and "..." |
| Panels.TruncateTextNarrow | src/ui/panels.rs:547-553 | below width 3 a long text becomes "..." alone, wider than asked |
| Ui.OtherPanel | src/ui/mod.rs:133-138 | the other panel is never the current one |
| Ui.TogglePanelInvolution | src/ui/mod.rs:133-138 | toggling twice returns to the start |
| Ui.StepDown | src/ui/mod.rs:141-154 | one step down, never past the last entry (0 on an empty list) |
| Ui.StepUp | src/ui/mod.rs:157-168 | one step up, stopping at 0 |
| Ui.StepDownThenUp | src/ui/mod.rs:141-168 | stepping down then up returns to an entry that had one below it |
| Ui.VisibleScroll | src/ui/mod.rs:170-184 | the selection is on screen after the adjustment; an already visible one keeps the scroll; otherwise the smallest move |
| Ui.VisibleScrollIdempotent | src/ui/mod.rs:170-184 | adjusting twice is adjusting once |
| Ui.ToggledHelp | src/ui/mod.rs:208-213 | help closes; any other overlay is replaced by help |
| Ui.ScrolledDown | src/ui/mod.rs:240-249 | the three content overlays scroll one line; the others are unchanged |
| Ui.ScrolledUp | src/ui/mod.rs:252-261 | one line back, stopping at 0; the others are unchanged |
| Ui.ScrollRoundTrip | src/ui/mod.rs:240-261 | up undoes down, and scrolling keeps the overlay's kind |
| Ui.SelectedIn | src/ui/mod.rs:192-195 | a suggestion is selected exactly when the index is within the active view, and it is that entry, stored and active |
| Ui.UniqueFirstIndex | src/suggest/mod.rs:245-250 | with unique ids the search by id finds the entry's own position |
| Ui.DismissSelectedRemovesIt | src/ui/mod.rs:264-270 | with unique ids, dismissing the selection removes exactly it from the active view, which shrinks by one |
| Ui.App.constructor | src/ui/mod.rs:107-130 | project panel active, nothing selected or scrolled, no overlay or toast |
| Ui.App.TogglePanel | src/ui/mod.rs:133-138 | the active panel switches to the other one, and no other field may change |
| Ui.App.EnsureProjectVisible | src/ui/mod.rs:170-176 | the project scroll becomes the visible scroll for 15 rows |
| Ui.App.EnsureSuggestionVisible | src/ui/mod.rs:178-184 | the suggestion scroll becomes the visible scroll for 10 rows |
| Ui.App.NavigateDown | src/ui/mod.rs:141-154 | the active panel's selection steps down within its list and stays visible; the other panel's selection and scroll keep their values, and only the two selections and scrolls may change |
| Ui.App.NavigateUp | src/ui/mod.rs:157-168 | the active panel's selection steps up and stays visible; the other panel's selection and scroll keep their values, and only the two selections and scrolls may change |
| Ui.App.SelectedSuggestion | src/ui/mod.rs:192-195 | definition of the selection lookup; `Ui.SelectedIn` states what it returns |
| Ui.App.ShowSuggestionDetail | src/ui/mod.rs:198-205 | with a selection, the detail overlay of its id at scroll 0; otherwise no change |
| Ui.App.ToggleHelp | src/ui/mod.rs:208-213 | the overlay becomes the toggled help |
| Ui.App.CloseOverlay | src/ui/mod.rs:216-218 | no overlay |
| Ui.App.ShowInquiry | src/ui/mod.rs:221-223 | the inquiry overlay with the response at scroll 0 |
| Ui.App.ShowVerificationReview | src/main.rs:777 | the overlay becomes the verification review of the file, and no other field may change |
| Ui.App.OverlayScrollDown | src/ui/mod.rs:240-249 | the overlay scrolls down |
| Ui.App.OverlayScrollUp | src/ui/mod.rs:252-261 | the overlay scrolls up |
| Ui.App.DismissSelected | src/ui/mod.rs:264-270 | the selected entry is dismissed by id and a toast is shown; with no selection nothing changes; only the toast and the engine may change |
| Strings.Find | src/suggest/llm.rs:254 | the index found is an occurrence with none before it; None means no occurrence |
| Strings.RFindChar | src/suggest/llm.rs:322 | the index found holds the character with none after it; None means it does not occur |
| Strings.FindChar | src/suggest/llm.rs:254 | the index found holds the character with none before it; None means it does not occur |
| Strings.TrimStartMatches | src/update.rs:73 | the result is a suffix of the text |
| Strings.TrimEndMatches | src/refactor.rs:146 | the result is a prefix of the text |
| Strings.SplitOnce | src/refactor.rs:178 | a split exists exactly when the separator occurs; the text is the two parts around its first occurrence |
| Strings.Split | src/update.rs:73 | at least one piece, and no piece holds the separator |
| Strings.Lines | src/refactor.rs:136 | no line holds a newline; only the empty text has no lines |
| Strings.ToLower | src/index/mod.rs:27 | same length, every ASCII letter lowered |
| Strings.ToUpper | src/suggest/static_rules.rs:304 | same length, every ASCII letter raised |
| Strings.TrimStartFacts | src/index/mod.rs:295 | `trim_start` drops exactly a whitespace prefix and leaves a non-whitespace first character |
| Strings.TrimEndFacts | src/index/mod.rs:295 | `trim_end` drops exactly a whitespace suffix and leaves a non-whitespace last character |
| Strings.MatchCountMeaning | src/index/mod.rs:499-501 | the count is positive exactly when the keyword occurs; the counted occurrences do not overlap |
| Strings.Utf8Width | src/suggest/llm.rs:317 | 1 to 4 bytes per character, 1 exactly for ASCII |
| Strings.ByteLen | src/suggest/llm.rs:317 | `len()` is at least the number of characters |
| Strings.BytePrefix | src/suggest/llm.rs:321 | `&s[..n]` is a character prefix of exactly `n` bytes; None where the slice panics |
| Strings.ByteSuffix | src/ui/panels.rs:543 | `&s[n..]` is the rest after the `n`-byte prefix |
| Strings.AsciiBoundary | src/ui/panels.rs:543 | in ASCII text every index up to the length is a boundary, and the prefix is the first `n` characters |
| Strings.BoundaryWithin | src/suggest/llm.rs:321 | a boundary never lies past the end |
| Strings.TruncateBytes | src/main.rs:2570-2576 | at most `max` bytes; text that fits is kept; otherwise exactly `max` bytes ending in "..." after a prefix of the text (same function at src/ui/mod.rs:820-826 and src/suggest/static_rules.rs:396-402) |
| Sorting.LexTotal | src/suggest/mod.rs:322-349 | any two keys are ordered one way or the other, or are equal |
| Sorting.LexTransitive | src/suggest/mod.rs:322-349 | the key order is transitive |
| Sorting.SortByPermutes | src/suggest/mod.rs:276 | the sort is a permutation |
| Sorting.SortBySorted | src/suggest/mod.rs:276 | the result is sorted by descending key |
| Sorting.SortByStable | src/suggest/mod.rs:276 | elements of equal key keep their input order |
| Sorting.SortBySortedIdentity | src/suggest/mod.rs:276 | an already sorted sequence is unchanged |
| Sorting.StableSortUnique | src/suggest/mod.rs:276 | two sorted arrangements with the same per-key order are equal |
| Sorting.SortByIsTheStableSort | src/suggest/mod.rs:276 | any sorted, stable rearrangement of the input is exactly `SortBy` of it, so `SortBy` stands for the library's stable sort |
| Suggest.PriorityRank | src/suggest/mod.rs:92-96 | the declaration order Low < Medium < High |
| Suggest.FromSeverity | src/suggest/mod.rs:107-113 | High and Medium carry over; Low and Info both become Low |
| Suggest.NewSuggestion | src/suggest/mod.rs:139-160 | a new suggestion is neither dismissed nor applied, has no line, detail or extra files, and carries the given fields |
| Suggest.FileCount | src/suggest/mod.rs:178-192 | the count is the number of affected files, primary first; more than one exactly for a multi-file suggestion |
| Suggest.AffectedFiles | src/suggest/mod.rs:177-181 | definition: the primary file, then the additional ones; `Suggest.FileCount` states its length and multi-file reading |
| Suggest.ActiveAppend | src/suggest/mod.rs:228-233 | the active view keeps stored order (distributes over concatenation) |
| Suggest.ActiveExact | src/suggest/mod.rs:228-233 | an entry is in the view exactly when it is stored and neither dismissed nor applied |
| Suggest.ActiveAround | src/suggest/mod.rs:228-233 | the view of a store split around one entry |
| Suggest.SuggestionEngine.ActiveSuggestions | src/suggest/mod.rs:228-233 | definition: the active view of the stored entries; `Suggest.ActiveExact` and `Suggest.ActiveAppend` state what it holds and its order |
| Suggest.PrioritiesPartition | src/suggest/mod.rs:353-361 | every suggestion has exactly one of the three priorities |
| Suggest.Counts | src/suggest/mod.rs:353-361 | each of high, medium and low is the number of active entries of that priority, and high + medium + low = total = the size of the active view |
| Suggest.FirstIndexOf | src/suggest/mod.rs:246 | the position found holds the id with none before it; None means the id is absent |
| Suggest.EditFirst | src/suggest/mod.rs:245-263 | the store keeps its length; an absent id changes nothing |
| Suggest.EditChangesOneFlag | src/suggest/mod.rs:245-263 | an edit changes only the first entry with the id, and only its one flag, to the edit's value |
| Suggest.EditKeepsIds | src/suggest/mod.rs:245-263 | edits keep every id where it was |
| Suggest.EditIdempotent | src/suggest/mod.rs:245-263 | repeating an edit changes nothing more |
| Suggest.UnmarkUndoesMark | src/suggest/mod.rs:252-263 | `unmark_applied` undoes `mark_applied` on an entry that was not applied |
| Suggest.DismissLeavesActiveView | src/suggest/mod.rs:245-249 | dismissing an active entry removes exactly it from the active view |
| Suggest.PriorityCompareIsKeyOrder | src/suggest/mod.rs:282 | the priority comparator is the descending priority key |
| Suggest.ContextCompareIsKeyOrder | src/suggest/mod.rs:322-349 | the five-branch comparator is the descending lexicographic order of (changed, blast, priority, kind weight, time) |
| Suggest.SortedByPriority | src/suggest/mod.rs:280-283 | after the priority sort: a permutation, no entry compares Greater than a later one, equal priorities keep their order |
| Suggest.SortedByContext | src/suggest/mod.rs:286-350 | after the context sort: a permutation, no entry compares Greater than a later one, entries the comparator finds Equal keep their order |
| Suggest.BlastRadiusMeaning | src/suggest/mod.rs:293-307 | a file is in the blast radius exactly when it is not changed and some indexed changed file uses it or depends on it |
| Suggest.RefactoringSuggestionShape | src/suggest/mod.rs:376-437 | missing error handling, unused imports and TODOs give nothing; the others give an active static Refactoring suggestion at the pattern's file and line, High exactly for a god module, Low exactly for many parameters |
| Suggest.PatternToRefactoringSuggestion | src/suggest/mod.rs:376-437 | definition of the suggestion made from one pattern; `Suggest.RefactoringSuggestionShape` states which patterns give one and its fields |
| Suggest.StaticSuggestions | src/suggest/mod.rs:270-274 | at most one suggestion per pattern |
| Suggest.StaticSuggestionsSound | src/suggest/mod.rs:270-274 | every generated suggestion comes from one of the patterns |
| Suggest.StaticSuggestionsCount | src/suggest/mod.rs:270-274 | exactly one suggestion per refactoring-related pattern |
| Suggest.SuggestionEngine.constructor | src/suggest/mod.rs:220-225 | the engine starts empty over the index |
| Suggest.SuggestionEngine.FindById | src/suggest/mod.rs:246 | the search returns the first position of the id |
| Suggest.SuggestionEngine.Edit | src/suggest/mod.rs:245-263 | the store becomes the edited store |
| Suggest.SuggestionEngine.DismissSuggestion | src/suggest/mod.rs:245-249 | the first entry with the id is dismissed; nothing else changes |
| Suggest.SuggestionEngine.MarkSuggestionApplied | src/suggest/mod.rs:252-256 | the first entry with the id is applied; nothing else changes |
| Suggest.SuggestionEngine.UnmarkSuggestionApplied | src/suggest/mod.rs:259-263 | the first entry with the id is no longer applied; nothing else changes |
| Suggest.SuggestionEngine.AddLlmSuggestion | src/suggest/mod.rs:280-283 | the store is the stable priority sort of the old store plus the new suggestion |
| Suggest.SuggestionEngine.GenerateStaticSuggestions | src/suggest/mod.rs:269-277 | the store is the stable priority sort of the old store plus the pattern suggestions |
| Suggest.SuggestionEngine.ComputeBlastRadius | src/suggest/mod.rs:293-307 | the two loops compute exactly the blast radius |
| Suggest.SuggestionEngine.SortWithContext | src/suggest/mod.rs:286-350 | the store is the stable sort of the old store by the five keys |
| Suggest.CollectStaticSuggestions | src/suggest/mod.rs:270-274 | the loop collects exactly the pattern suggestions in order |
| Index.FromExtension | src/index/mod.rs:26-35 | Unknown exactly for an extension outside the known set once lower-cased; Rust exactly for "rs", Python exactly for "py"/"pyi" |
| Index.LowerIdempotent | src/index/mod.rs:27 | lowering twice is lowering once |
| Index.FromExtensionIgnoresCase | src/index/mod.rs:27 | upper- and lower-casing the extension does not change the language |
| Index.LineCount | src/index/mod.rs:62-64 | `end_line - line + 1`, and 1 when the end lies before the start |
| Index.SeverityRank | src/index/mod.rs:168-174 | the derived order of the four severities |
| Index.SeverityOrder | src/index/mod.rs:543-546 | Info < Low < Medium < High, ranks tell severities apart, deep nesting is more severe than an unused import |
| Index.HighSeverityKinds | src/index/mod.rs:141-152 | exactly deep nesting, god module and missing error handling are High |
| Index.Severity | src/index/mod.rs:139-152 | definition of each kind's severity; `Index.HighSeverityKinds` and `Index.SeverityOrder` state its properties |
| Index.LongFunctionsExact | src/index/mod.rs:305-316 | one long-function pattern per function or method of over 50 lines, and no other |
| Index.GodModulePatterns | src/index/mod.rs:319-326 | one god-module pattern at line 1 exactly when the file has over 500 lines |
| Index.Inspected | src/index/mod.rs:329-331 | one marker test and trimmed text per line |
| Index.TodoSoundAt | src/index/mod.rs:329-339 | every marker comes from a marked line, with its 1-based number and trimmed text |
| Index.TodoCompleteAt | src/index/mod.rs:329-339 | every marked line has its marker |
| Index.TodoOrderedAt | src/index/mod.rs:329-339 | markers are in strictly increasing line order |
| Index.TodoPatternsExact | src/index/mod.rs:329-339 | the markers are exactly one per marked line |
| Index.Sloc | src/index/mod.rs:294-296 | no more source lines than lines |
| Index.CalculateComplexity | src/index/mod.rs:490-504 | 1 plus the non-overlapping occurrences of every decision keyword |
| Index.KeywordRaisesComplexity | src/index/mod.rs:537-541 | text holding any decision keyword scores above 1 |
| Index.NoKeywordBaseComplexity | src/index/mod.rs:490-504 | text with no keyword scores exactly 1 |
| Index.DetectLongFunctions | src/index/mod.rs:305-316 | the loop produces exactly the long-function patterns |
| Index.ScanTodoMarkers | src/index/mod.rs:329-339 | the loop produces exactly the marker patterns |
| Index.IndexFile | src/index/mod.rs:286-355 | a parser error is passed on; otherwise the entry has the line counts, the parser's symbols and dependencies, the patterns in push order, the complexity and the modification time |
| Index.InDetected | src/index/mod.rs:302-339 | a pattern is detected exactly when it is a long-function, god-module or marker pattern |
| Index.GodModuleIff | src/index/mod.rs:319-326 | a god-module pattern is detected exactly when the file has over 500 lines, at line 1 |
| Index.DetectionComplete | src/index/mod.rs:302-339 | every long function or method and every marked line is reported |
| Index.IgnoredWithoutDot | src/index/mod.rs:507-520 | apart from dot names exactly six listed names are ignored |
| Index.IsIgnored | src/index/mod.rs:507-520 | definition of the ignore test; `Index.IgnoredWithoutDot` states which names it accepts |
| Index.HighPriorityCountFacts | src/index/mod.rs:376-378 | the high-severity count is bounded by the patterns and adds up over concatenation |
| Index.Stats | src/index/mod.rs:369-380 | the counts are those of the index, with high-severity patterns at most all patterns |
| Index.SlocBelowLoc | src/index/mod.rs:372-373 | the total source lines never exceed the total lines |
| StaticRules.IssuedAppend | src/suggest/static_rules.rs:11-35 | suggestions issued for the file stay so when collected together |
| StaticRules.CheckFileSize | src/suggest/static_rules.rs:38-76 | over 1000 lines one High improvement, over 500 one Medium quality note, otherwise nothing; all without a line and with a detail |
| StaticRules.FunctionCount | src/suggest/static_rules.rs:83-87 | at most the number of symbols |
| StaticRules.HighAverageMeaning | src/suggest/static_rules.rs:89-92 | the floating-point average test is `complexity > 15 * functions` with at least one function |
| StaticRules.CheckComplexity | src/suggest/static_rules.rs:79-135 | one High improvement when the average is high, then one Medium quality note for over 30 functions with the count in its summary |
| StaticRules.CheckFunctionLength | src/suggest/static_rules.rs:138-183 | one suggestion exactly for a function or method of over 50 lines, at its line: High improvement over 100 lines, Medium quality note otherwise |
| StaticRules.CheckFunctionComplexity | src/suggest/static_rules.rs:186-231 | one suggestion exactly for a function or method of complexity over 10, at its line: a High improvement with a detail over 20, a Low quality note without a detail otherwise |
| StaticRules.TodoPriority | src/suggest/static_rules.rs:302-311 | High exactly when the upper-cased text contains FIXME or BUG; Medium exactly when it contains neither but HACK |
| StaticRules.TodoSummary | src/suggest/static_rules.rs:316 | "TODO marker: " and at most 50 bytes of the text |
| StaticRules.PatternToSuggestion | src/suggest/static_rules.rs:234-331 | every kind gives a suggestion at the pattern's line with a detail; missing error handling is a High bug fix; a TODO is a Quality note with its text priority and a cut summary |
| StaticRules.PatternPriorities | src/suggest/static_rules.rs:235-300 | a long function keeps its description at Medium; High exactly for deep nesting, god module and missing error handling; unused import is a Low quality note; bug fix exactly for missing error handling |
| StaticRules.TodoPriorityFixme | src/suggest/static_rules.rs:445-458 | the test's "FIXME: this is broken" is High |
| StaticRules.TodoPriorityTodo | src/suggest/static_rules.rs:429-442 | the test's "TODO: implement this feature" is Low |
| StaticRules.LongFunctionExample | src/suggest/static_rules.rs:410-426 | the test's 120-line function gets one High suggestion |
| StaticRules.PublicFunctionCount | src/suggest/static_rules.rs:362-369 | at most the number of functions |
| StaticRules.LanguageSpecificChecks | src/suggest/static_rules.rs:334-393 | one Medium Testing suggestion exactly for a non-test path with over 3 symbols and at least 3 public functions, with the count in its summary |
| StaticRules.UnderscoreTestRedundant | src/suggest/static_rules.rs:356-358 | the `_test` check adds nothing to the `test` check |
| StaticRules.Stamp | src/suggest/static_rules.rs:11-35 | collected suggestions carry consecutive fresh ids |
| StaticRules.StampIssued | src/suggest/static_rules.rs:11-35 | giving ids changes nothing else |
| StaticRules.SymbolSuggestionsIssued | src/suggest/static_rules.rs:19-22 | at most two suggestions per symbol, all issued for the file |
| StaticRules.PatternSuggestionsIssued | src/suggest/static_rules.rs:25-29 | exactly one suggestion per pattern, all issued for the file |
| StaticRules.PatternSuggestionAt | src/suggest/static_rules.rs:25-29 | the `k`-th pattern suggestion is made from pattern `k`, at its line |
| StaticRules.CollectSymbolRules | src/suggest/static_rules.rs:19-22 | the loop collects both symbol rules symbol by symbol |
| StaticRules.CollectPatternRules | src/suggest/static_rules.rs:25-29 | the loop collects one suggestion per pattern |
| StaticRules.AnalyzeFile | src/suggest/static_rules.rs:11-35 | the file, symbol, pattern and language rules in that order, with consecutive ids |
| StaticRules.AnalyzeFileFacts | src/suggest/static_rules.rs:11-35 | every result is a fresh static suggestion about the file with a distinct id; between one per pattern and 4 + 2 per symbol + 1 per pattern of them |
| StaticRules.VeryLongFunction | src/suggest/static_rules.rs:138-183 | a function of over 100 lines gets one High improvement at its line |
| StaticRules.SymbolSuggestionsPrefix | src/suggest/static_rules.rs:19-22 | the suggestions of the first symbols are a prefix of those of more symbols |
| StaticRules.LongFunctionFlagged | src/suggest/static_rules.rs:19-22 | every function of over 100 lines has a High improvement at its line among the symbol suggestions |
| Llm.JsonSliceAsWritten | src/suggest/llm.rs:254-262 | the extraction as written: the whole reply when either bracket is missing; None where the backwards slice panics |
| Llm.JsonSliceAsWrittenPanics | src/suggest/llm.rs:254-262 | the slice panics exactly when the last `]` lies more than one position before the first `[` |
| Llm.JsonSlicePanicExample | src/suggest/llm.rs:256 | the reply "] [" makes the slice panic |
| Llm.JsonSpan | src/suggest/llm.rs:254-256 | the span starts at the first `[` and ends after the last `]`, with no `[` before and no `]` after it |
| Llm.JsonSpanNone | src/suggest/llm.rs:254-256 | there is no span exactly when no `]` lies at or after any `[` |
| Llm.JsonSlice | src/suggest/llm.rs:254-262 | the corrected extraction: the bracketed span when there is one, otherwise the whole reply |
| Llm.JsonSliceAgrees | src/suggest/llm.rs:254-262 | wherever a `]` follows the first `[`, the program's slice does not panic and equals the corrected one; with a bracket missing both are the whole reply |
| Llm.JsonSliceOfArray | src/suggest/llm.rs:254-262 | a bare array is taken whole |
| Llm.KindFromLabel | src/suggest/llm.rs:270-278 | six labels map to their kinds in both directions; every other label is an improvement, never a refactoring |
| Llm.PriorityFromLabel | src/suggest/llm.rs:280-284 | High exactly for "high", Low exactly for "low", Medium otherwise |
| Llm.KindLabelRoundTrip | src/suggest/llm.rs:153 | every kind the prompt offers reads back from its label; "refactoring" reads back as an improvement |
| Llm.PriorityLabelRoundTrip | src/suggest/llm.rs:154 | every priority reads back from its label |
| Llm.FromJson | src/suggest/llm.rs:286-298 | the suggestion carries the item's mapped kind and priority, summary, detail and line, the path, and is a fresh deep-analysis suggestion |
| Llm.FromJsonRoundTrip | src/suggest/llm.rs:286-298 | a fresh deep-analysis suggestion with a detail and a proposable kind is read back from its own item |
| Llm.ParseSuggestions | src/suggest/llm.rs:252-303 | on a reply whose slice, as written, does not panic: a decoding error becomes "Failed to parse suggestions: " and the message; otherwise one suggestion per item, in order |
| Llm.ParseSuggestionsFacts | src/suggest/llm.rs:252-303 | for the slice as written: every parsed suggestion is about the path, from deep analysis, active, with its item's detail, a line exactly when the item has one, and distinct ids |
| Llm.ParseSuggestionsExample | src/suggest/llm.rs:343-359 | the test's one-item array is its own slice as written, and gives one High improvement at line 10 |
| Llm.TruncateContent | src/suggest/llm.rs:316-328 | content of at most `max_chars` bytes is kept |
| Llm.TruncateContentCut | src/suggest/llm.rs:320-326 | longer content is cut at the last newline of its first `max_chars` bytes, then "\n... (truncated)"; with no newline there, those bytes and "... (truncated)" |
| Llm.MarkedPrefix | src/suggest/llm.rs:320-326 | a prefix of at most the limit followed by a mark ends with the mark and is at most the mark's bytes over the limit |
| Llm.CutAtNewline | src/suggest/llm.rs:322-323 | a cut at a newline is a prefix of at most `max_chars` bytes followed by the 16-byte line mark |
| Llm.CutWithoutNewline | src/suggest/llm.rs:324-325 | a cut without a newline is the first `max_chars` bytes followed by the 15-byte mark |
| Llm.TruncateContentBound | src/suggest/llm.rs:335-340 | a cut result is a content prefix of at most `max_chars` bytes and one of the two marks, so at most 16 bytes over the limit |
| Grouping.ParseLayer | src/grouping/llm_enhance.rs:174-186 | each layer name maps to its layer, case-insensitively, with "test" and "infrastructure" as synonyms; every other string gives Unknown |
| Grouping.ParseConfidence | src/grouping/llm_enhance.rs:189-195 | "high" is High, "medium" or "med" is Medium, case-insensitively; anything else is Low |
| Grouping.ParsersIgnoreCase | src/grouping/llm_enhance.rs:174-195 | upper-casing the reply's layer or confidence text never changes what it parses to |
| Grouping.ParseExamples | src/grouping/llm_enhance.rs:438-452 | the program's own examples of both parsers hold: "Frontend", "BACKEND", "api" and "unknown" for layers, "high", "medium" and "low" for confidence |
| Grouping.MiscFeatureFilesMembers | src/grouping/llm_enhance.rs:76-82 | a path is gathered from the catch-all features exactly when some feature whose name starts with "other" lists it |
| Grouping.EnhanceWhenAmbiguous | src/grouping/llm_enhance.rs:45-64 | with a key available, enhancement is wanted when at least five files are low-confidence, or when one catch-all feature of any layer lists at least five files |
| Grouping.ShouldEnhance | src/grouping/llm_enhance.rs:45-55 | definition of the enhancement test; `Grouping.EnhanceWhenAmbiguous` and `Grouping.NoMiscNoEnhance` state when it holds |
| Grouping.NoMiscNoEnhance | src/grouping/llm_enhance.rs:45-64 | with no catch-all feature and fewer than five low-confidence files, enhancement is never attempted |
| Grouping.InsertUniqueSorted | src/grouping/llm_enhance.rs:85-86 | inserting into a strictly increasing list keeps it strictly increasing |
| Grouping.SortDedupFacts | src/grouping/llm_enhance.rs:85-86 | sort followed by dedup yields a strictly increasing list with exactly the input's elements |
| Grouping.CollectAmbiguousFiles | src/grouping/llm_enhance.rs:67-88 | the result is the sorted, duplicate-free list of the low-confidence files followed by every catch-all feature's files |
| Grouping.CollectMiscFeatureFiles | src/grouping/llm_enhance.rs:76-82 | the files of one group's catch-all features, in feature order |
| Grouping.AmbiguousFilesFacts | src/grouping/llm_enhance.rs:67-88 | the ambiguous files are strictly increasing and are exactly the low-confidence files and the catch-all files |
| Grouping.Without | src/grouping/llm_enhance.rs:225 | retaining away a path removes it and keeps every other path present |
| Grouping.RemoveFromFeatures | src/grouping/llm_enhance.rs:224-226 | every feature keeps its name and no longer lists the path |
| Grouping.FindFeature | src/grouping/llm_enhance.rs:232 | the index of the first feature with the name, or None when no feature has it |
| Grouping.NonEmptyFeatures | src/grouping/llm_enhance.rs:251 | the kept features are exactly the features with at least one file |
| Grouping.DropEmptyFeatures | src/grouping/llm_enhance.rs:250-252 | the clean-up keeps every layer and every group's ungrouped files |
| Grouping.OccurrencesNonEmpty | src/grouping/llm_enhance.rs:251 | dropping empty features removes no file from any feature |
| Grouping.PlaceInGroupPlaces | src/grouping/llm_enhance.rs:222-238 | after the feature step the file occurs exactly once among the group's features, in the named feature, and not among the ungrouped files |
| Grouping.ApplyItemPlaces | src/grouping/llm_enhance.rs:203-245 | an entry naming a feature places its file in that feature of its new layer's group, leaves the other groups as the layer step left them, and records the feature on an assigned file |
| Grouping.ApplyItem | src/grouping/llm_enhance.rs:203-245 | definition of one reply entry's edit; `Grouping.ApplyItemPlaces` states where it puts the file |
| Grouping.DropEmptyFeaturesFacts | src/grouping/llm_enhance.rs:249-252 | after the clean-up no group keeps an empty feature, and every non-empty feature is kept |
| Grouping.PlacementSurvivesCleanup | src/grouping/llm_enhance.rs:249-252 | a file placed in a feature stays placed after the clean-up |
| Grouping.WithContext | src/grouping/llm_enhance.rs:91-93 | a file can be described exactly when it has an index entry and a layer assignment |
| Grouping.ContextBatch | src/grouping/llm_enhance.rs:272-275 | at most fifty describable files, a prefix of all of them, and all of them when fewer than fifty |
| Grouping.BatchIsAmbiguous | src/grouping/llm_enhance.rs:264-275 | every file sent is ambiguous, indexed and assigned, and no more than fifty are sent |
| Grouping.CodebaseGrouping.ApplyFileResponse | src/grouping/llm_enhance.rs:203-246 | one entry's layer step and feature step applied to the grouping in place, the enhanced flag untouched |
| Grouping.CodebaseGrouping.DropEmpty | src/grouping/llm_enhance.rs:249-252 | every group loses its empty features in place, and nothing else changes |
| Grouping.CodebaseGrouping.ApplyResponse | src/grouping/llm_enhance.rs:198-253 | every entry applied in order, then the empty features dropped |
| Grouping.CodebaseGrouping.EnhanceGrouping | src/grouping/llm_enhance.rs:258-294 | nothing is asked or changed unless enhancement is wanted and some ambiguous file can be described; a failed call changes nothing; a successful one applies the answer and marks the grouping enhanced |
| Grouping.Requests | src/grouping/llm_enhance.rs:375-416 | the number of requests lies between one more than the retries already made and four |
| Grouping.RequestsMeaning | src/grouping/llm_enhance.rs:375-416 | every request before the last was answered 429, and the last was not, unless it was the fourth |
| Grouping.CallLlmJson | src/grouping/llm_enhance.rs:303-432 | without a key no request is made; otherwise only 429 is retried, the last reply settles the result, and the waits are the backoff before each retry |
| Grouping.RetrySchedule | src/grouping/llm_enhance.rs:297-299 | at most four requests are made, and the waits before retries one to three are 2, 4 and 8 seconds |
| Grouping.OnlyRateLimitRetried | src/grouping/llm_enhance.rs:406-428 | a first reply other than 429 settles the call with one request |
| Grouping.RateLimitExhausted | src/grouping/llm_enhance.rs:418-428 | four 429 replies in a row end the call with a rate-limit error after three retries |
| Refactor.OperationType | src/refactor.rs:70-77 | the label is one of CREATE, MODIFY, DELETE, RENAME and names exactly the operation's kind |
| Refactor.CountsPartition | src/refactor.rs:25-36 | every operation is counted under exactly one kind: the four counts add up to the number of operations |
| Refactor.Stats | src/refactor.rs:25-36 | each counter is the number of operations of its kind, and the counters add up to the plan's length |
| Refactor.ClassifyLines | src/refactor.rs:136-186 | every line of the plan text is classified on its own, in order |
| Refactor.FinalizeOp | src/refactor.rs:208-220 | a pending create becomes a file whose content is the body joined with newlines; a pending modify succeeds exactly when the diff parser accepts the joined body, and otherwise carries its error |
| Refactor.Body | src/refactor.rs:184-186 | the body of a section is the longest run of text lines after its header, ending at the next header |
| Refactor.SkipText | src/refactor.rs:184-186 | text lines before the first header contribute nothing to the plan |
| Refactor.ExtendBody | src/refactor.rs:184-185 | a text line after a CREATE or MODIFY header joins the pending body |
| Refactor.FinalizeAtHeader | src/refactor.rs:139-142 | at the next header, the pending operation is finalized with exactly the body collected |
| Refactor.StartPendingSection | src/refactor.rs:138-158 | a CREATE or MODIFY header opens a pending operation on the text between its markers with an empty body |
| Refactor.SectionIgnoresBody | src/refactor.rs:159-183 | DELETE and RENAME sections do not depend on the lines that follow them |
| Refactor.StartClosedSection | src/refactor.rs:159-183 | a DELETE or RENAME header adds its operations at once and leaves nothing pending |
| Refactor.Texts | src/refactor.rs:184-186 | a body as plan lines: one text line per body line |
| Refactor.BodyOfSection | src/refactor.rs:184-186 | the body collected after a header is exactly the text lines up to the next header |
| Refactor.SectionDecomposition | src/refactor.rs:136-192 | a plan is its first section's operations followed by the plan of the rest |
| Refactor.CreateSection | src/refactor.rs:138-148 | a CREATE section yields one Create whose content is its body joined with newlines, before the rest's operations |
| Refactor.RenameSection | src/refactor.rs:170-183 | a RENAME header yields one Rename split at the first " -> ", and nothing when the arrow is missing |
| Refactor.DeleteSection | src/refactor.rs:159-169 | a DELETE header yields exactly one Delete, whatever text follows it |
| Refactor.LoudSection | src/refactor.rs:138-183 | every header other than an arrow-less RENAME yields an operation or an error |
| Refactor.LoudHeader | src/refactor.rs:138-183 | a plan starting with such a header is never an empty success |
| Refactor.SilentHeader | src/refactor.rs:170-183 | an arrow-less RENAME header and its body are skipped |
| Refactor.NoOperationsIffSilent | src/refactor.rs:136-196 | the lines yield no operation and no error exactly when every line is text or an arrow-less RENAME header |
| Refactor.SilentPrefix | src/refactor.rs:136-196 | past a silent prefix, the whole text is silent exactly when the rest is |
| Refactor.SilentTextRejected | src/refactor.rs:194-196 | text without any operation is refused with "No operations found in refactoring plan" |
| Refactor.AcceptedPlanIsNonEmpty | src/refactor.rs:194-199 | an accepted plan has at least one operation and the fixed description |
| Refactor.HeaderLine | src/refactor.rs:138-147 | a well-formed header is classified by its keyword, with the text between the markers as its argument |
| Refactor.OpenSection | src/refactor.rs:138-183 | the parser's state after a header line is the state the plan reading prescribes |
| Refactor.ParseMultiFileDiff | src/refactor.rs:131-200 | the line-by-line parser returns exactly the plan (or error) the section-by-section reading of its lines defines |
| RefactorApply.FaultFreeRollback | src/refactor.rs:342-356 | when none of the rollback's calls fails, the rollback is the full restore of every entry, last first |
| RefactorApply.BackupOne | src/refactor.rs:234-282 | as written: one operation's snapshots are read from the disk exactly as they stand (a rename's source only), and only an unreadable Modify target or a failing call stops the backup |
| RefactorApply.CollectBackups | src/refactor.rs:231-283 | as written: the backups are the snapshots of every operation's paths in plan order, and the phase fails only on a missing Modify target or a failing call |
| RefactorApply.ApplyDiffToFile | src/refactor.rs:312-315 | the file is rewritten with the diff applied; on error the tree is unchanged or the file holds a prefix of the patched text, and without a failing call the diff did not apply and nothing changed |
| RefactorApply.ApplyOperations | src/refactor.rs:297-340 | the operations are applied in order; on error the tree is what the completed ones give, except that the stopping Create or Modify may have left a prefix of its content; without a failing call that operation cannot succeed |
| RefactorApply.Rollback | src/refactor.rs:342-356 | every entry is restored last first, one call each; a failing call is skipped, after a partial write of its content when it tears |
| RefactorApply.ApplyWithRollback | src/refactor.rs:285-294 | success means every operation applied; a failure stops at one operation, leaves what that operation's failure leaves, rolls back from there with the given backups and prefixes the error |
| RefactorApply.AppliedAllStops | src/refactor.rs:298-338 | once an operation cannot succeed, the whole plan cannot |
| RefactorApply.ApplyRefactorPlan | src/refactor.rs:230-295 | as written: a failed backup changes nothing; success means every operation applied; a failure rolls back and prefixes the error, and a rollback without failing calls restores every path except rename destinations, whatever the failed write left |
| RefactorApply.BackupsAreSnapshots | src/refactor.rs:234-283 | every backup entry holds what its path had before the plan |
| RefactorApply.BackupsFollowPaths | src/refactor.rs:234-283 | each backup entry is about the path of one of the operations |
| RefactorApply.RestoreFromSnapshots | src/refactor.rs:342-356 | restoring snapshots gives back the old content on their paths and touches no other path |
| RefactorApply.BackupsGrow | src/refactor.rs:234-283 | the backups of a prefix of the plan are among the backups of the whole plan |
| RefactorApply.EntryPaths | src/refactor.rs:234-282 | the entries of one operation are about its own path, and there is one exactly when it is a create, a modify or an existing file |
| RefactorApply.RenameTargetsSnoc | src/refactor.rs:324-335 | the rename destinations of a plan grow by the last operation's destination |
| RefactorApply.AppliedTouches | src/refactor.rs:297-340 | applying operations changes only backed-up paths and rename destinations |
| RefactorApply.FailedLeavesBackedUp | src/refactor.rs:297-340 | what a failed operation leaves differs from the tree before it only on backed-up paths |
| RefactorApply.RollbackRestoresAllButRenameTargets | src/refactor.rs:230-295 | with the backups as written, a rollback without failing calls restores every path except the destinations of renames, whatever a failing write left in its file |
| RefactorApply.RenameTargetSurvivesRollback | src/refactor.rs:270-281 | renaming `a` to `b` and then failing leaves `b` behind after the rollback as written |
| RefactorApply.CoveringBackupsCover | src/refactor.rs:234-283 | the corrected backups are snapshots and cover every path as written plus every rename destination |
| RefactorApply.CoveringEntriesFacts | src/refactor.rs:270-281 | a rename's corrected entries add a snapshot of its destination |
| RefactorApply.CoveringRollbackIsExact | src/refactor.rs:286-292 | with the corrected backups, the rollback after a failure at any point gives back the tree exactly, whatever a failing write left in its file |
| RefactorApply.Backups | src/refactor.rs:234-283 | definition of the backups as written; `RefactorApply.BackupsAreSnapshots`, `RefactorApply.BackupsFollowPaths` and `RefactorApply.BackupsGrow` state its properties |
| RefactorApply.CoveringBackups | src/refactor.rs:270-281 | definition of the corrected backups; `RefactorApply.CoveringBackupsCover` states its properties |
| RefactorApply.BackupOneCovering | src/refactor.rs:270-281 | corrected: a rename's entries also snapshot its destination; the result is the corrected entries, and only an unreadable target or a failing call stops it |
| RefactorApply.CollectCoveringBackups | src/refactor.rs:231-283 | corrected: the backups are the corrected snapshots of every operation in plan order |
| RefactorApply.ApplyRefactorPlanCovering | src/refactor.rs:230-295 | corrected: the same as the plan as written, and a rollback without failing calls gives back the tree exactly as it was |
| FileSystem.Disk.Read | src/refactor.rs:250-252 | the content of an existing file; NotFound for a missing one; the injected error when the call fails |
| FileSystem.Disk.Write | src/refactor.rs:308-310 | creates or replaces the file; a failing call either changes nothing or, when it tears, leaves a prefix of the content in the file |
| FileSystem.Disk.Remove | src/refactor.rs:319-321 | removes an existing file; a missing file or a failing call changes nothing, and the error names which |
| FileSystem.Disk.Rename | src/refactor.rs:333-335 | moves the content to the destination, replacing it; a missing source or a failing call changes nothing, and the error names which |
| FileSystem.Disk.Copy | src/main.rs:1289 | the destination receives the source's content; a missing source changes nothing; a failing call on an existing source may leave a prefix of the content in the destination |
| FileSystem.Disk.CreateParentDirs | src/refactor.rs:304-306 | succeeds unless the call fails, and leaves the files unchanged |
| FileSystem.AfterFailedWrite | src/refactor.rs:308-310 | a failing write leaves the tree unchanged or a prefix of the content in its file, and unchanged when the call does not tear |
| MainTasks.SummaryScope | src/main.rs:348-358 | the wanted set is the changed files plus, for each changed file the index knows, the files that use it and the files it depends on |
| MainTasks.Retain | src/main.rs:359 | the kept files are exactly the files that are wanted, and no more than there were |
| MainTasks.RetainIsSubsequence | src/main.rs:359 | retaining keeps the files in their order |
| MainTasks.FilesNeedingSummary | src/main.rs:339-364 | with changed-only summarising only the blast radius of the changed files is kept; generation is needed exactly when some file is left |
| MainTasks.ChangedOnlyScope | src/main.rs:342-360 | a file is kept exactly when it needed a summary and is changed, or uses or is used by a changed file the index knows; the order is kept |
| MainTasks.FlattenAppend | src/main.rs:435 | concatenating two lists of batches concatenates their files |
| MainTasks.ChunksFacts | src/main.rs:434-435 | the batches are non-empty, hold at most 16 files, all but the last exactly 16, and together are the files in order |
| MainTasks.Chunks | src/main.rs:434-435 | definition of `chunks(16)`; `MainTasks.ChunksFacts` states its properties |
| MainTasks.TierBatchesCoverTiers | src/main.rs:422-438 | the batches walk the high, medium and low tiers in that order and cover exactly their files |
| MainTasks.FinalUsage | src/main.rs:474-478 | the closing usage is absent exactly when no token was counted, and is the total otherwise |
| MainTasks.SummaryRunsProgress | src/main.rs:438-471 | one progress message per answered batch, none for a failed one; the progress counts never go down and the last is the number of summaries completed |
| MainTasks.SummaryRunsCache | src/main.rs:442-446 | a cache entry is written only for a path with a known hash and carries that hash |
| MainTasks.CacheBatch | src/main.rs:442-446 | the cache after one batch is the cache with every hashed summary of the batch written |
| MainTasks.SummaryRunsAppend | src/main.rs:438-471 | processing two runs of batches one after the other is processing their concatenation |
| MainTasks.SummariseBatches | src/main.rs:438-471 | the loop over one tier's batches carries the summary task's state as the batch-by-batch fold prescribes |
| MainTasks.GenerateSummaries | src/main.rs:408-485 | the summary task's messages are the fold's progress messages followed by one SummariesReady with no summaries and the final usage, and the cache is the fold's cache |
| MainTasks.SummaryMessagesEnd | src/main.rs:456-485 | the summary task ends with exactly one SummariesReady, after progress messages only |
| MainTasks.ApplyFix | src/main.rs:1255-1330 | the task a fix preview spawns, and with `fromPreview` false its copy spawned by Enter in the Verify step (src/main.rs:2318-2385): each failure (branch, with the hint about uncommitted changes only from the preview; read; generation) sends its own error and leaves the tree as it was; a failing backup copy may tear the backup; a failing write of the fix restores from the backup and removes it, each call of which may fail in turn; success writes the new content, keeps the original in the backup and stages the file |
| MainTasks.ApplyFixSafety | src/main.rs:1287-1323 | after a failed write of the fix only the target and the backup change; the target keeps its content when the restoring copy succeeds or nothing tears, and holds a prefix of the original or of the fix otherwise; the backup survives exactly when its removal fails, holding the original |
| MainTasks.FailedRestoreLosesOriginal | src/main.rs:1316-1320 | a torn write followed by a torn, failing restore and a successful removal of the backup leaves the original content in no file |
| MainTasks.StagePhase | src/main.rs:1143-1157 | the stage calls are made in order up to and including the first failure, which is reported; none is reported exactly when every call succeeded |
| MainTasks.CommitPushPrOrdered | src/main.rs:1166-1197 | commit, push and pull request keep the ship order: progress only after a step that succeeded, exactly one final message, nothing after a failure |
| MainTasks.ShipInlineOrdered | src/main.rs:1142-1198 | the inline ship keeps the ship order and commits only after every stage call succeeded and the status did not report zero staged files |
| MainTasks.ShipConfirmedOrdered | src/main.rs:2409-2447 | the workflow ship keeps the ship order and reports Committing first |
| MainTasks.CommitPushPrTask | src/main.rs:1166-1197 | the commit, push and pull-request steps run and report as the ship order prescribes |
| MainTasks.StagePhaseSnoc | src/main.rs:1143-1157 | after a run of successful stage calls, one more path adds its stage call and any failure |
| MainTasks.StagePhaseFailed | src/main.rs:1152-1155 | nothing is staged after the first failure |
| MainTasks.StageFiles | src/main.rs:1143-1157 | the staging loop makes exactly the stage calls and reports exactly the failure the staging phase prescribes |
| MainTasks.StagePathsStep | src/main.rs:1144-1149 | one more pending file adds its repository-relative path, when it has one |
| MainTasks.StagePathsRest | src/main.rs:1143-1157 | the staged paths of a list are those of its first part followed by those of the rest |
| MainTasks.StagePathsAppend | src/main.rs:1143-1157 | the staged paths of two lists are their staged paths concatenated |
| MainTasks.ShipInline | src/main.rs:1142-1198 | the inline ship task runs the git steps and sends the messages its specification prescribes |
| MainTasks.ShipConfirmed | src/main.rs:2409-2447 | the workflow ship task runs the git steps and sends the messages its specification prescribes |
| MainLoop.SuggestionsReadyKeepsAll | src/main.rs:573-602 | new suggestions are all kept and nothing is lost, the list ends sorted by the context order, the model is recorded, and loading returns to summaries exactly when they are still running |
| MainLoop.AddAllPermutes | src/main.rs:575-580 | adding each new suggestion keeps every old and new suggestion exactly once |
| MainLoop.SummariesReadyFacts | src/main.rs:612-694 | summary generation ends; a waiting reset starts the analysis exactly when AI is enabled; otherwise the indicator clears unless suggestions are still on their way |
| MainLoop.FailureResetsWorkflow | src/main.rs:719-807 | a failed preview or apply clears loading and, in the Verify step, returns to Suggestions with a fresh Verify state; outside it only loading changes |
| MainLoop.DirectFixAppliedFacts | src/main.rs:728-798 | an applied fix marks its suggestion applied, records the branch, queues exactly one pending change with its backup, moves Verify on to Review, shows the verification review outside Verify and always asks for a verification of the file |
| MainLoop.ShipCompleteFacts | src/main.rs:817-828 | in the Ship step the PR URL is recorded; outside it the legacy ship is Done, the PR waits to be opened and no change is pending |
| MainLoop.DeferredFlagStep | src/main.rs:612-694 | no message raises the waiting flag, and the analysis is spawned only by a waiting reset, which consumes the flag |
| MainLoop.HandleKeepsTokens | src/main.rs:573-946 | one message never lowers the session's token count |
| MainLoop.TokensNeverDecrease | src/main.rs:571-946 | no run of messages lowers the session's token count |
| MainLoop.DeferredAnalysisAtMostOnce | src/main.rs:571-946 | the deferred analysis is spawned at most once, and never when no reset was waiting |
| MainLoop.Handle | src/main.rs:571-946 | definition of one message's effect; the `...Facts`, `KeepsAll` and token lemmas above state its properties |
| MainLoop.KeyAction | src/main.rs:2161-2473 | each workflow action happens exactly under its guards: Enter verifies only with a selection, a configured service and budget; applies only with a preview and its target; commits only in the Confirm ship step; f fixes only selected findings of an idle review; Esc goes back from any later step; a waiting PR takes Enter first |
| MainLoop.BusyReviewIgnoresKeys | src/main.rs:2161-2254 | while a review or a fix of findings is in flight the Review step ignores movement, Space and f |
| MainLoop.ServiceCallsNeedAi | src/main.rs:2255-2300 | no key starts a verification unless a suggestion is selected, the service is configured and the budget allows it |
| MainLoop.Session.constructor | src/main.rs:363 | a session starts idle in the Suggestions step with no progress, no tokens and nothing pending |
| MainLoop.Session.AcceptSuggestions | src/main.rs:575-581 | each new suggestion goes through the engine in turn, then the list is sorted around the changed files |
| MainLoop.Session.HandleMessage | src/main.rs:572-946 | the session after one message is the one the message specification gives, and the spawned task is the one it names |
| MainLoop.Session.HandleAnalysisMessage | src/main.rs:573-708 | the suggestion and summary arms perform the message specification |
| MainLoop.Session.HandleFixMessage | src/main.rs:709-807 | the preview and applied-fix arms perform the message specification, opening the verification review outside Verify |
| MainLoop.Session.HandleShipMessage | src/main.rs:808-843 | the ship and error arms perform the message specification and spawn nothing |
| MainLoop.Session.FinishSummaries | src/main.rs:612-694 | the tail of SummariesReady performs its specification: summaries end and a waiting analysis starts if AI is enabled |
| MainLoop.Session.DrainMessages | src/main.rs:571-946 | draining the queue handles every message in order, ending in the state and task list the fold over the messages gives |

## Left out

- Network calls: the HTTP requests of `call_llm`, `call_llm_json` and `check_for_update` are not modelled. A reply is an outcome value, and the prompts built for the model are not modelled.
- Concurrency: the `tokio::spawn` tasks and the `mpsc` channel are not modelled. Each task is a method that returns the messages it sends, and the loop handles one queued message at a time.
- Self-update: `run_update`, `exec_new_binary` and `suppress_output` are process replacement, not logic.
- Rendering: the `render_*` functions, the panel widgets, colours other than the palette's RGB triples, and terminal setup and event polling are not modelled.
- Floating point: `sparkline`, `moon_phase`, `suggestion_density`, `priority_indicator` and the danger and author-percentage thresholds are left out. The `{:.0}`/`{:.1}` renderings used in suggestion texts are the `FloatFormat` parameter.
- `session_cost`: the cost accounting in dollars is floating point. Only `session_tokens` is modelled, and whether the budget still allows a call is the `aiEnabled` / `aiAllowed` parameter.
- Toasts: the toast texts the message handler and the key handler show are not modelled.
- UUIDs: `Uuid::new_v4` is modelled as consecutive natural numbers chosen by the caller. The model therefore does not capture that two ids could, in principle, collide.
- Case mapping: `to_lowercase`/`to_uppercase` are modelled on ASCII letters only, while the program maps all of Unicode. This changes the layer, confidence, kind and extension parsers only for non-ASCII names. It also changes the marker scan: `Index.IsMarked` (and so `Index.TodoPatternsExact` and `Index.ScanTodoMarkers`) and `StaticRules.TodoPriority` upper-case the line before looking for TODO, FIXME, BUG or HACK. The program counts "// fıxme" (dotless ı upper-cases to I) and "// ﬁxme" (the ligature ﬁ upper-cases to FI) as High markers, while the model finds no marker in either.
- HashMap iteration order: sums, sorted lists and per-group edits do not depend on it. Where an order is needed, the layers are visited in declaration order.
- `PathBuf` ordering: it is a parameter (any strict total order) rather than Rust's component-wise order.
- `src/grouping/mod.rs` is not part of this model. Its `get_layer`, `reassign_file` and `low_confidence_files` are parameters.
- `src/diff.rs` is not part of this model. `parse_unified_diff` and the transformation inside `apply_diff_to_file` are parameters.
- The cache module is not part of this model. `get_files_needing_summary`, `normalize_paths` and `DomainGlossary::merge` are left out; only the summary cache writes are modelled.
- `git_ops` is not part of this model. Staging, status, commit, push, pull request and branch creation are outcome values.
- `WorkContext` is not part of this model. Its changed files are a set given by the caller.
- `with_extension("cosmos.bak")` is not modelled. The backup path is a parameter that differs from the file's path.
- `App::update_summaries` and the glossary reload of the `SummariesReady` arm are not modelled, since they only copy cache data into the interface.
- Unhandled messages: `QuestionResponse`, `VerificationComplete`, `VerificationFixComplete`, `ReviewReady` and `PRCreated` are not modelled. Their arms hand text to the inquiry and review panels, whose state is not part of this model.
- Workflow methods: `start_verify`, `start_review`, `workflow_back`, `review_passed` and `start_ship` on `App` are not part of this model. Their effect on the workflow fields is written out as field updates.
- `LoadingState`, `WorkflowStep`, `ShipStep` and the workflow states are defined outside the files modelled. Their variants here are the ones `src/main.rs` uses.
- `App` fields: the fields the message loop touches are grouped into records (`SummaryStatus`, `Workflow`, `Legacy`, `FixBranch`) instead of one flat struct.
- Keys: only the normal-mode keys whose effect depends on the workflow (Down, Up, Space, `f`, Enter, Esc) are modelled, as the decision each one selects. The other keys, the search, inquiry and overlay input modes and `src/app/input/*` are not modelled.
- The legacy fix-preview overlay: it is kept only as the fields the messages set. The keys that act on it are not modelled.
- The periodic git refresh and the tick of the main loop are not modelled.
- `run_command_with_timeout`: it runs child processes with threads and sleeps.
- `safe_apply::run`: the local checks the apply task runs after staging are not part of this model. Their result travels in `DirectFixApplied`, whose handler ignores it.
- `resolve_repo_path`: `canonicalize` and `exists` are parameters.
- Indexing: the `WalkDir` scan, the file read and metadata, and `parser::parse_file` (the parser module is not part of this model) are left out; `index_file` starts from the file's text, symbols and dependencies. The file tree is kept only as the list of entry paths, and `FileTree::insert` is not modelled (it ignores its argument).
- `Suggestion::display_summary` and `SuggestionEngine::high_priority_suggestions` are not modelled; they only format or filter for display.
- `build.rs` and `src/build_info.rs` read git and the build environment.
- `RefactorPlan::preview_lines` and `preview_refactor` are not modelled. They only format text for display.
- `FileOperation::path` is the helper `Refactor.Path`, which has no contract of its own.
- Directories: `create_dir_all` is a call that can fail and leaves no trace in the file map.
- The clock per suggestion: the program reads `Utc::now()` once for each new suggestion, while the model stamps a batch with one reading. Within a batch, the time key of `sort_with_context` therefore ties where the program's readings might differ by microseconds.
- The verification-review overlay: `show_verification_review` is modelled only as the overlay it opens. Its keys and the original and new text it displays are not part of this model.
- Llm.ParseSuggestions: it requires that slicing the reply as written does not panic, because the program panics on such a reply (`Llm.JsonSlicePanicExample`); the corrected slice (`Llm.JsonSliceAgrees`) gives every reply a result.
- Grouping.CallLlmJson: the text of the error messages is reduced to the `LlmError` variants (no key, transport failure, undecodable body, no choice in the reply, unparsable content, invalid key, rate limited after n retries, other status with its text).

## Findings

| source | as written | input that shows it | evidently intended | confidence | as-written member | corrected member |
|---|---|---|---|---|---|---|
| src/refactor.rs:270-281 | the backup of a rename records only its source, so the rollback never removes or restores the destination | an existing `a` and no `b`; the plan renames `a` to `b`, then modifies `a`, which no longer exists; the rollback restores `a` and leaves the new `b` behind | the plan is applied atomically: a failed plan leaves the tree as it was | not executed | RefactorApply.RenameTargetSurvivesRollback | RefactorApply.ApplyRefactorPlanCovering |
| src/suggest/llm.rs:254-262 | the reply is sliced from the first `[` to the last `]` without checking their order, so the slice panics when the last `]` lies two or more positions before the first `[` | the reply `] [` | take the array only when a `]` follows the first `[`, otherwise the whole reply, so that parsing reports an error instead of panicking | not executed | Llm.JsonSlicePanicExample | Llm.JsonSliceAgrees |
