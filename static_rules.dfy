/**
 * `src/suggest/static_rules.rs`: the free, rule-based suggestions made from
 * one file of the index. Each rule yields zero or one suggestion (two for the
 * file-complexity rule); `analyze_file` runs the rules in a fixed order.
 *
 * Every `Suggestion::new` draws a fresh UUID. Here the rules build their
 * suggestions with a placeholder id, and `analyze_file` gives the suggestions
 * it collects the ids `nextId`, `nextId + 1`, ... in the order they were made;
 * `now` is the clock reading they all share. The `{:.0}` and `{:.1}`
 * renderings of floating-point values are a parameter.
 */
module StaticRules {
  import opened Results
  import opened Strings
  import Index
  import opened Suggest

  /** How a floating-point value is rendered with no decimals and with one. */
  datatype FloatFormat = FloatFormat(whole: real -> string, oneDecimal: real -> string)

  /** The suggestions of `s` carry the ids `base`, `base + 1`, ... in order. */
  predicate Numbered(s: seq<Suggestion>, base: nat)
  {
    forall i :: 0 <= i < |s| ==> s[i].id == base + i
  }

  /** Every suggestion of `s` is a fresh static suggestion about `path`, made at `now`. */
  predicate Issued(s: seq<Suggestion>, path: string, now: int)
  {
    forall i :: 0 <= i < |s| ==>
      && s[i].file == path && s[i].source == Static && IsActive(s[i])
      && s[i].additionalFiles == [] && s[i].createdAt == now
  }

  lemma IssuedAppend(a: seq<Suggestion>, b: seq<Suggestion>, path: string, now: int)
    requires Issued(a, path, now) && Issued(b, path, now)
    ensures Issued(a + b, path, now)
  {
    assert forall i :: |a| <= i < |a| + |b| ==> (a + b)[i] == b[i - |a|];
  }

  /**
   * `Suggestion::new(kind, priority, path, summary, SuggestionSource::Static)`
   * followed by the optional `with_line` and `with_detail`; its id is a
   * placeholder until the suggestion is collected.
   */
  function StaticSuggestion(now: int, kind: SuggestionKind, priority: Priority, path: string,
                            summary: string, line: Option<nat>, detail: Option<string>): Suggestion
  {
    NewSuggestion(0, now, kind, priority, path, summary, Static).(line := line, detail := detail)
  }

  // ---- check_file_size ----

  const LargeFileSummaryTail := " lines) - consider splitting into modules"

  function LargeFileSummary(loc: nat): string
  {
    "Large file (" + NatToString(loc) + LargeFileSummaryTail
  }

  const LargeFileHead := "Files over 1000 lines become difficult to maintain. This file has "
  const LargeFileTail := " non-blank). Consider extracting related functionality into separate modules."

  function LargeFileDetail(loc: nat, sloc: nat): string
  {
    LargeFileHead + NatToString(loc) + " lines of code (" + NatToString(sloc) + LargeFileTail
  }

  function GrowingFileSummary(loc: nat): string
  {
    "Growing file (" + NatToString(loc) + " lines) - monitor complexity"
  }

  const GrowingFileDetail := "This file is approaching the 500+ line threshold where maintainability starts to decline. Consider if any functionality could be extracted."

  /** `check_file_size`: over 1000 lines a High improvement, over 500 a Medium quality note. */
  function CheckFileSize(path: string, fi: Index.FileIndex, now: int): (r: seq<Suggestion>)
    ensures |r| == (if fi.loc > 500 then 1 else 0)
    ensures fi.loc > 1000 ==> r[0].kind == Improvement && r[0].priority == High
    ensures 500 < fi.loc <= 1000 ==> r[0].kind == Quality && r[0].priority == Medium
    ensures forall i :: 0 <= i < |r| ==> r[i].line.None? && r[i].detail.Some?
    ensures Issued(r, path, now)
  {
    if fi.loc > 1000 then
      [StaticSuggestion(now, Improvement, High, path, LargeFileSummary(fi.loc), None, Some(LargeFileDetail(fi.loc, fi.sloc)))]
    else if fi.loc > 500 then
      [StaticSuggestion(now, Quality, Medium, path, GrowingFileSummary(fi.loc), None, Some(GrowingFileDetail))]
    else []
  }

  // ---- check_complexity ----

  /** The number of functions and methods among the symbols. */
  function FunctionCount(syms: seq<Index.Symbol>): (r: nat)
    ensures r <= |syms|
  {
    if syms == [] then 0
    else FunctionCount(syms[..|syms| - 1]) + (if Index.IsFunctionLike(syms[|syms| - 1]) then 1 else 0)
  }

  /** The average complexity per function exceeds 15; false when there are no functions. */
  predicate HighAverage(fi: Index.FileIndex)
  {
    var n := FunctionCount(fi.symbols);
    n > 0 && (fi.complexity as real) / (n as real) > 15.0
  }

  /** The average test needs no division: it is `complexity > 15 * functions`. */
  lemma HighAverageMeaning(fi: Index.FileIndex)
    ensures HighAverage(fi) <==> FunctionCount(fi.symbols) > 0 && fi.complexity > 15 * FunctionCount(fi.symbols)
  {
    var n := FunctionCount(fi.symbols);
    if n > 0 {
      var c := fi.complexity as real;
      var m := n as real;
      DivAbove(c, m, 15.0);
      assert 15.0 * m == (15 * n) as real;
      assert c > (15 * n) as real <==> fi.complexity > 15 * n;
    }
  }

  lemma DivAbove(c: real, m: real, t: real)
    requires m > 0.0
    ensures c / m > t <==> c > t * m
  {
    var q := c / m;
    assert q * m == c;
    assert (q - t) * m == c - t * m;
  }

  const HighAverageTail := ") - functions may be too complex"

  function HighAverageSummary(average: string): string
  {
    "High average complexity (" + average + HighAverageTail
  }

  const HighAverageDetail := "High cyclomatic complexity makes code harder to test and maintain. Consider breaking complex functions into smaller, focused units."

  const ManyFunctionsTail := ") - consider organizing into modules"

  function ManyFunctionsSummary(count: nat): string
  {
    "Many functions (" + NatToString(count) + ManyFunctionsTail
  }

  const ManyFunctionsDetail := "Having many functions in a single file can indicate mixed responsibilities. Group related functions into separate modules for better organization."

  /**
   * `check_complexity`: a High improvement when the average complexity per
   * function is above 15, then a Medium quality note when there are more than
   * 30 functions.
   */
  function CheckComplexity(path: string, fi: Index.FileIndex, fmt: FloatFormat, now: int): (r: seq<Suggestion>)
    ensures |r| == (if HighAverage(fi) then 1 else 0) + (if FunctionCount(fi.symbols) > 30 then 1 else 0)
    ensures HighAverage(fi) ==> r[0].kind == Improvement && r[0].priority == High
    ensures FunctionCount(fi.symbols) > 30 ==>
      r[|r| - 1].kind == Quality && r[|r| - 1].priority == Medium
      && r[|r| - 1].summary == ManyFunctionsSummary(FunctionCount(fi.symbols))
    ensures forall i :: 0 <= i < |r| ==> r[i].line.None? && r[i].detail.Some?
    ensures Issued(r, path, now)
  {
    var n := FunctionCount(fi.symbols);
    var average :=
      if HighAverage(fi) then
        [StaticSuggestion(now, Improvement, High, path,
           HighAverageSummary(fmt.oneDecimal((fi.complexity as real) / (n as real))), None, Some(HighAverageDetail))]
      else [];
    var many :=
      if n > 30 then
        [StaticSuggestion(now, Quality, Medium, path, ManyFunctionsSummary(n), None, Some(ManyFunctionsDetail))]
      else [];
    IssuedAppend(average, many, path, now);
    average + many
  }

  // ---- check_function_length ----

  const VeryLongSummaryTail := " lines - strongly consider refactoring"

  function VeryLongSummary(name: string, lines: nat): string
  {
    "`" + name + "` is " + NatToString(lines) + VeryLongSummaryTail
  }

  const VeryLongTail := " lines, which is very long. Long functions are harder to understand, test, and maintain. Consider extracting logical sections into helper functions."

  function VeryLongDetail(name: string, lines: nat): string
  {
    "The function `" + name + "` spans " + NatToString(lines) + VeryLongTail
  }

  function LongSummary(name: string, lines: nat): string
  {
    "`" + name + "` is " + NatToString(lines) + " lines - consider splitting"
  }

  const LongTail := " lines. Functions over 50 lines often benefit from being broken down."

  function LongDetail(name: string, lines: nat): string
  {
    "The function `" + name + "` is getting long at " + NatToString(lines) + LongTail
  }

  /**
   * `check_function_length`: nothing for symbols that are not functions or
   * methods; above 100 lines a High improvement, above 50 a Medium quality
   * note, both at the symbol's line.
   */
  function CheckFunctionLength(path: string, sym: Index.Symbol, now: int): (r: seq<Suggestion>)
    ensures |r| == (if Index.IsFunctionLike(sym) && Index.LineCount(sym) > 50 then 1 else 0)
    ensures |r| == 1 && Index.LineCount(sym) > 100 ==> r[0].kind == Improvement && r[0].priority == High
    ensures |r| == 1 && Index.LineCount(sym) <= 100 ==> r[0].kind == Quality && r[0].priority == Medium
    ensures forall i :: 0 <= i < |r| ==> r[i].line == Some(sym.line) && r[i].detail.Some?
    ensures Issued(r, path, now)
  {
    if !Index.IsFunctionLike(sym) then []
    else
      var lines := Index.LineCount(sym);
      if lines > 100 then
        [StaticSuggestion(now, Improvement, High, path, VeryLongSummary(sym.name, lines),
                          Some(sym.line), Some(VeryLongDetail(sym.name, lines)))]
      else if lines > 50 then
        [StaticSuggestion(now, Quality, Medium, path, LongSummary(sym.name, lines),
                          Some(sym.line), Some(LongDetail(sym.name, lines)))]
      else []
  }

  // ---- check_function_complexity ----

  function HighComplexitySummary(name: string, complexity: string): string
  {
    "`" + name + "` has high complexity (" + complexity + ") - simplify logic"
  }

  const HighComplexityTail := ". High complexity often indicates too many code paths. Consider using early returns, extracting conditions, or breaking into smaller functions."

  function HighComplexityDetail(name: string, complexity: string): string
  {
    "The function `" + name + "` has a cyclomatic complexity of " + complexity + HighComplexityTail
  }

  function ModerateComplexitySummary(name: string, complexity: string): string
  {
    "`" + name + "` has moderate complexity (" + complexity + ")"
  }

  /**
   * `check_function_complexity`: for functions and methods, complexity above
   * 20 gives a High improvement with a detail text, above 10 a Low quality
   * note without one; both at the symbol's line.
   */
  function CheckFunctionComplexity(path: string, sym: Index.Symbol, fmt: FloatFormat, now: int): (r: seq<Suggestion>)
    ensures |r| == (if Index.IsFunctionLike(sym) && sym.complexity > 10.0 then 1 else 0)
    ensures |r| == 1 && sym.complexity > 20.0 ==>
      r[0].kind == Improvement && r[0].priority == High && r[0].detail.Some?
    ensures |r| == 1 && sym.complexity <= 20.0 ==>
      r[0].kind == Quality && r[0].priority == Low && r[0].detail.None?
    ensures forall i :: 0 <= i < |r| ==> r[i].line == Some(sym.line)
    ensures Issued(r, path, now)
  {
    if !Index.IsFunctionLike(sym) then []
    else if sym.complexity > 20.0 then
      [StaticSuggestion(now, Improvement, High, path, HighComplexitySummary(sym.name, fmt.whole(sym.complexity)),
                        Some(sym.line), Some(HighComplexityDetail(sym.name, fmt.whole(sym.complexity))))]
    else if sym.complexity > 10.0 then
      [StaticSuggestion(now, Quality, Low, path, ModerateComplexitySummary(sym.name, fmt.whole(sym.complexity)),
                        Some(sym.line), None)]
    else []
  }

  // ---- pattern_to_suggestion ----

  /** The TODO text can be cut to 50 bytes: it fits, or byte 47 is a character boundary. */
  predicate TodoTruncatable(p: Index.Pattern)
  {
    p.kind == Index.TodoMarker ==> ByteLen(p.description) <= 50 || IsCharBoundary(p.description, 47)
  }

  /** The priority of a TODO marker, read from its upper-cased text. */
  function TodoPriority(text: string): (r: Priority)
    ensures r == High <==> Contains(ToUpper(text), "FIXME") || Contains(ToUpper(text), "BUG")
    ensures r == Medium <==> !Contains(ToUpper(text), "FIXME") && !Contains(ToUpper(text), "BUG")
                              && Contains(ToUpper(text), "HACK")
  {
    var upper := ToUpper(text);
    if Contains(upper, "FIXME") || Contains(upper, "BUG") then High
    else if Contains(upper, "HACK") then Medium
    else Low
  }

  const DeepNestingSummary := "Deep nesting detected - flatten with early returns"
  const ManyParametersSummary := "Function has many parameters - consider using a struct"
  const DuplicateSummary := "Potential code duplication detected"
  const ErrorHandlingSummary := "Error handling may be missing"
  const UnusedImportSummary := "Unused import detected"

  function PatternSummary(p: Index.Pattern): string
    requires TodoTruncatable(p)
  {
    match p.kind
    case LongFunction => p.description
    case DeepNesting => DeepNestingSummary
    case ManyParameters => ManyParametersSummary
    case GodModule => "Large module - " + p.description
    case DuplicatePattern => DuplicateSummary
    case MissingErrorHandling => ErrorHandlingSummary
    case UnusedImport => UnusedImportSummary
    case TodoMarker => TodoSummary(p.description)
  }

  function TodoSummary(text: string): (r: string)
    requires ByteLen(text) <= 50 || IsCharBoundary(text, 47)
    ensures StartsWith(r, "TODO marker: ") && ByteLen(r) <= ByteLen("TODO marker: ") + 50
  {
    ByteLenAppend("TODO marker: ", TruncateBytes(text, 50));
    "TODO marker: " + TruncateBytes(text, 50)
  }

  const LongFunctionDetail := "Long functions are harder to understand and test. Break them into smaller, focused functions."
  const DeepNestingDetail := "Deeply nested code is hard to follow. Use early returns, guard clauses, or extract nested logic into helper functions."
  const ManyParametersDetail := "Functions with many parameters are hard to call correctly. Consider grouping related parameters into a struct or builder."
  const GodModuleDetail := "This module has grown large and likely has multiple responsibilities. Consider splitting into focused sub-modules."
  const DuplicateDetail := "Similar code patterns found. Consider extracting to a shared function or using abstractions to reduce duplication."
  const ErrorHandlingDetail := "This code path may not properly handle errors. Add appropriate error handling to prevent runtime failures."
  const UnusedImportDetail := "Remove unused imports to keep the code clean."

  function PatternDetail(p: Index.Pattern): string
  {
    match p.kind
    case LongFunction => LongFunctionDetail
    case DeepNesting => DeepNestingDetail
    case ManyParameters => ManyParametersDetail
    case GodModule => GodModuleDetail
    case DuplicatePattern => DuplicateDetail
    case MissingErrorHandling => ErrorHandlingDetail
    case UnusedImport => UnusedImportDetail
    case TodoMarker => "Found: " + p.description
  }

  function PatternKindAndPriority(p: Index.Pattern): (SuggestionKind, Priority)
  {
    match p.kind
    case LongFunction => (Improvement, FromSeverity(Index.Severity(p.kind)))
    case DeepNesting => (Improvement, High)
    case ManyParameters => (Quality, Medium)
    case GodModule => (Improvement, High)
    case DuplicatePattern => (Improvement, Medium)
    case MissingErrorHandling => (BugFix, High)
    case UnusedImport => (Quality, Low)
    case TodoMarker => (Quality, TodoPriority(p.description))
  }

  /**
   * `pattern_to_suggestion`: every pattern kind gives a suggestion, at the
   * pattern's line and with a detail text. A TODO summary is cut to 50 bytes,
   * which panics unless the cut is a character boundary.
   */
  function PatternToSuggestion(path: string, p: Index.Pattern, now: int): (r: Option<Suggestion>)
    requires TodoTruncatable(p)
    ensures r.Some?
    ensures r.value.line == Some(p.line) && r.value.detail.Some?
    ensures Issued([r.value], path, now)
    ensures p.kind == Index.MissingErrorHandling ==> r.value.kind == BugFix && r.value.priority == High
    ensures p.kind == Index.TodoMarker ==>
      r.value.kind == Quality && r.value.priority == TodoPriority(p.description)
      && StartsWith(r.value.summary, "TODO marker: ") && ByteLen(r.value.summary) <= ByteLen("TODO marker: ") + 50
  {
    var (kind, priority) := PatternKindAndPriority(p);
    var summary := PatternSummary(p);
    Some(StaticSuggestion(now, kind, priority, path, summary, Some(p.line), Some(PatternDetail(p))))
  }

  /**
   * The priority each kind gets: the long-function pattern's severity (Medium)
   * carries over, and only bug fixes and TODO markers differ from the kinds'
   * refactoring priorities.
   */
  lemma PatternPriorities(path: string, p: Index.Pattern, now: int)
    requires TodoTruncatable(p)
    ensures var s := PatternToSuggestion(path, p, now).value;
      && (p.kind == Index.LongFunction ==> s.priority == Medium && s.summary == p.description)
      && (p.kind in {Index.DeepNesting, Index.GodModule, Index.MissingErrorHandling} <==> s.priority == High && p.kind != Index.TodoMarker)
      && (p.kind == Index.UnusedImport ==> s.priority == Low && s.kind == Quality)
      && (s.kind == BugFix <==> p.kind == Index.MissingErrorHandling)
  {
    hide PatternDetail, TodoSummary, TodoPriority;
    var s := PatternToSuggestion(path, p, now).value;
    assert (s.kind, s.priority) == PatternKindAndPriority(p);
    if p.kind == Index.LongFunction {
      assert s.summary == p.description;
    }
  }

  /** A text lacking one of the characters of `p` does not contain `p`. */
  lemma {:induction false} AbsentLetter(s: string, p: string, i: nat)
    requires i < |p|
    requires forall j :: 0 <= j < |s| ==> s[j] != p[i]
    ensures !Contains(s, p)
    decreases |s|
  {
    if |s| > 0 {
      var t := s[1..];
      assert forall j :: 0 <= j < |t| ==> t[j] == s[j + 1];
      AbsentLetter(t, p, i);
    }
    if |p| <= |s| {
      assert s[..|p|][i] == s[i];
    }
  }

  /** The program's own check: "FIXME: this is broken" is High. */
  lemma TodoPriorityFixme()
    ensures TodoPriority("FIXME: this is broken") == High
  {
    var fixme := ToUpper("FIXME: this is broken");
    assert fixme[..5] == "FIXME";
  }

  /** The program's own check: "TODO: implement this feature" is Low: it has no X, G or K in any case. */
  lemma TodoPriorityTodo()
    ensures TodoPriority("TODO: implement this feature") == Low
  {
    var text := "TODO: implement this feature";
    var upper := ToUpper(text);
    assert forall j :: 0 <= j < |text| ==> text[j] !in "xXgGkK";
    AbsentLetter(upper, "FIXME", 2);
    AbsentLetter(upper, "BUG", 2);
    AbsentLetter(upper, "HACK", 3);
  }

  /** A symbol on lines 1 to 120 is a 120-line function: High. */
  lemma LongFunctionExample(path: string, now: int)
    ensures var s := CheckFunctionLength(path, Index.Symbol("long_function", Index.Function, "test.rs", 1, 120, 5.0, Index.Public), now);
      |s| == 1 && s[0].priority == High
  {
  }

  // ---- language_specific_checks ----

  /** The number of public functions and methods among the symbols. */
  function PublicFunctionCount(syms: seq<Index.Symbol>): (r: nat)
    ensures r <= FunctionCount(syms)
  {
    if syms == [] then 0
    else
      var last := syms[|syms| - 1];
      PublicFunctionCount(syms[..|syms| - 1]) + (if Index.IsFunctionLike(last) && last.visibility == Index.Public then 1 else 0)
  }

  /** The path does not look like a test: it contains neither "test", "spec" nor "_test". */
  predicate LooksUntested(path: string)
  {
    !Contains(path, "test") && !Contains(path, "spec") && !Contains(path, "_test")
  }

  const UntestedTail := " public functions without apparent tests"

  function UntestedSummary(count: nat): string
  {
    NatToString(count) + UntestedTail
  }

  const UntestedDetail := "This file has several public functions but no visible test file. Consider adding tests to ensure correctness."

  /**
   * `language_specific_checks`: the per-language branches are empty, so the
   * only rule is a Medium Testing suggestion for a file that does not look like
   * a test, has more than 3 symbols and at least 3 public functions.
   */
  function LanguageSpecificChecks(path: string, fi: Index.FileIndex, now: int): (r: seq<Suggestion>)
    ensures |r| == (if LooksUntested(path) && |fi.symbols| > 3 && PublicFunctionCount(fi.symbols) >= 3 then 1 else 0)
    ensures forall i :: 0 <= i < |r| ==>
      r[i].kind == Testing && r[i].priority == Medium && r[i].line.None?
      && r[i].summary == UntestedSummary(PublicFunctionCount(fi.symbols))
    ensures Issued(r, path, now)
  {
    if LooksUntested(path) && |fi.symbols| > 3 then
      var publicFunctions := PublicFunctionCount(fi.symbols);
      if publicFunctions >= 3 then
        [StaticSuggestion(now, Testing, Medium, path, UntestedSummary(publicFunctions), None, Some(UntestedDetail))]
      else []
    else []
  }

  /** The "_test" test adds nothing: a path containing "_test" contains "test". */
  lemma UnderscoreTestRedundant(path: string)
    ensures LooksUntested(path) <==> !Contains(path, "test") && !Contains(path, "spec")
  {
    if Contains(path, "_test") {
      var i := ContainsWitness(path, "_test");
      assert path[i + 1..i + 5] == "test";
      ContainsAt(path, "test", i + 1);
    }
  }

  // ---- analyze_file ----

  /** The suggestions `s` as collected: the one at position `i` gets the id `base + i`. */
  function Stamp(s: seq<Suggestion>, base: nat): (r: seq<Suggestion>)
    ensures |r| == |s| && Numbered(r, base)
  {
    seq(|s|, i requires 0 <= i < |s| => s[i].(id := base + i))
  }

  /** Stamping changes the ids and nothing else. */
  lemma StampIssued(s: seq<Suggestion>, base: nat, path: string, now: int)
    requires Issued(s, path, now)
    ensures Issued(Stamp(s, base), path, now)
  {
  }

  /** The two symbol rules over the first `n` symbols in order. */
  function SymbolSuggestions(path: string, syms: seq<Index.Symbol>, n: nat, fmt: FloatFormat, now: int): seq<Suggestion>
    requires n <= |syms|
  {
    if n == 0 then []
    else
      SymbolSuggestions(path, syms, n - 1, fmt, now)
      + CheckFunctionLength(path, syms[n - 1], now) + CheckFunctionComplexity(path, syms[n - 1], fmt, now)
  }

  /** The symbol rules give at most two suggestions per symbol, all issued for the file. */
  lemma {:induction false} SymbolSuggestionsIssued(path: string, syms: seq<Index.Symbol>, n: nat, fmt: FloatFormat, now: int)
    requires n <= |syms|
    ensures |SymbolSuggestions(path, syms, n, fmt, now)| <= 2 * n
    ensures Issued(SymbolSuggestions(path, syms, n, fmt, now), path, now)
    decreases n
  {
    hide CheckFunctionLength, CheckFunctionComplexity;
    if n > 0 {
      var prev := SymbolSuggestions(path, syms, n - 1, fmt, now);
      var length := CheckFunctionLength(path, syms[n - 1], now);
      var complexity := CheckFunctionComplexity(path, syms[n - 1], fmt, now);
      SymbolSuggestionsIssued(path, syms, n - 1, fmt, now);
      IssuedAppend(prev, length, path, now);
      IssuedAppend(prev + length, complexity, path, now);
    }
  }

  /** The suggestions of the first `n` patterns in order. */
  function PatternSuggestions(path: string, patterns: seq<Index.Pattern>, n: nat, now: int): seq<Suggestion>
    requires n <= |patterns|
    requires forall k :: 0 <= k < |patterns| ==> TodoTruncatable(patterns[k])
  {
    if n == 0 then []
    else PatternSuggestions(path, patterns, n - 1, now) + [PatternToSuggestion(path, patterns[n - 1], now).value]
  }

  /** One suggestion per pattern, all issued for the file. */
  lemma {:induction false} PatternSuggestionsIssued(path: string, patterns: seq<Index.Pattern>, n: nat, now: int)
    requires n <= |patterns|
    requires forall k :: 0 <= k < |patterns| ==> TodoTruncatable(patterns[k])
    ensures |PatternSuggestions(path, patterns, n, now)| == n
    ensures Issued(PatternSuggestions(path, patterns, n, now), path, now)
    decreases n
  {
    hide PatternToSuggestion;
    if n > 0 {
      var prev := PatternSuggestions(path, patterns, n - 1, now);
      var last := PatternToSuggestion(path, patterns[n - 1], now).value;
      PatternSuggestionsIssued(path, patterns, n - 1, now);
      IssuedAppend(prev, [last], path, now);
    }
  }

  /** The suggestion at position `k` is the one made from pattern `k`, so it sits at that pattern's line. */
  lemma {:induction false} PatternSuggestionAt(path: string, patterns: seq<Index.Pattern>, n: nat, now: int, k: nat)
    requires k < n <= |patterns|
    requires forall k :: 0 <= k < |patterns| ==> TodoTruncatable(patterns[k])
    ensures |PatternSuggestions(path, patterns, n, now)| == n
    ensures PatternSuggestions(path, patterns, n, now)[k] == PatternToSuggestion(path, patterns[k], now).value
    ensures PatternSuggestions(path, patterns, n, now)[k].line == Some(patterns[k].line)
    decreases n
  {
    hide PatternToSuggestion;
    PatternSuggestionsIssued(path, patterns, n - 1, now);
    if k < n - 1 {
      PatternSuggestionAt(path, patterns, n - 1, now, k);
    }
  }

  /** The suggestions in the order `analyze_file` makes them: file, symbol, pattern, language rules. */
  function Collected(path: string, fi: Index.FileIndex, fmt: FloatFormat, now: int): seq<Suggestion>
    requires forall k :: 0 <= k < |fi.patterns| ==> TodoTruncatable(fi.patterns[k])
  {
    CheckFileSize(path, fi, now) + CheckComplexity(path, fi, fmt, now)
    + SymbolSuggestions(path, fi.symbols, |fi.symbols|, fmt, now)
    + PatternSuggestions(path, fi.patterns, |fi.patterns|, now)
    + LanguageSpecificChecks(path, fi, now)
  }

  /** What `analyze_file` returns when its first suggestion gets the id `base`. */
  function AnalyzeFileSpec(path: string, fi: Index.FileIndex, fmt: FloatFormat, base: nat, now: int): seq<Suggestion>
    requires forall k :: 0 <= k < |fi.patterns| ==> TodoTruncatable(fi.patterns[k])
  {
    Stamp(Collected(path, fi, fmt, now), base)
  }

  /** The loop of `analyze_file` over the symbols: both symbol rules, symbol by symbol. */
  method CollectSymbolRules(path: string, syms: seq<Index.Symbol>, fmt: FloatFormat, now: int)
    returns (made: seq<Suggestion>)
    ensures made == SymbolSuggestions(path, syms, |syms|, fmt, now)
  {
    made := [];
    for i := 0 to |syms|
      invariant made == SymbolSuggestions(path, syms, i, fmt, now)
    {
      made := made + CheckFunctionLength(path, syms[i], now);
      made := made + CheckFunctionComplexity(path, syms[i], fmt, now);
    }
  }

  /** The loop of `analyze_file` over the patterns: one suggestion each. */
  method CollectPatternRules(path: string, patterns: seq<Index.Pattern>, now: int)
    returns (made: seq<Suggestion>)
    requires forall k :: 0 <= k < |patterns| ==> TodoTruncatable(patterns[k])
    ensures made == PatternSuggestions(path, patterns, |patterns|, now)
  {
    made := [];
    for i := 0 to |patterns|
      invariant made == PatternSuggestions(path, patterns, i, now)
    {
      var one := PatternToSuggestion(path, patterns[i], now);
      made := made + [one.value];
    }
  }

  /**
   * `analyze_file(path, file_index)`: the file rules, the symbol rules, the
   * pattern rules and the language rule in that order; the collected
   * suggestions get the ids from `nextId` on.
   */
  method AnalyzeFile(path: string, fi: Index.FileIndex, fmt: FloatFormat, nextId: nat, now: int)
    returns (suggestions: seq<Suggestion>)
    requires forall k :: 0 <= k < |fi.patterns| ==> TodoTruncatable(fi.patterns[k])
    ensures suggestions == AnalyzeFileSpec(path, fi, fmt, nextId, now)
  {
    var collected := CheckFileSize(path, fi, now);
    collected := collected + CheckComplexity(path, fi, fmt, now);
    var symbolRules := CollectSymbolRules(path, fi.symbols, fmt, now);
    collected := collected + symbolRules;
    var patternRules := CollectPatternRules(path, fi.patterns, now);
    collected := collected + patternRules;
    collected := collected + LanguageSpecificChecks(path, fi, now);
    suggestions := Stamp(collected, nextId);
  }

  /**
   * What `analyze_file` promises: every suggestion is a fresh static one about
   * the file, the ids are consecutive (so distinct), and there are between one
   * per pattern and four plus two per symbol plus one per pattern.
   */
  lemma AnalyzeFileFacts(path: string, fi: Index.FileIndex, fmt: FloatFormat, base: nat, now: int)
    requires forall k :: 0 <= k < |fi.patterns| ==> TodoTruncatable(fi.patterns[k])
    ensures var r := AnalyzeFileSpec(path, fi, fmt, base, now);
      && Numbered(r, base) && Issued(r, path, now)
      && (forall i, j :: 0 <= i < j < |r| ==> r[i].id != r[j].id)
      && |fi.patterns| <= |r| <= 4 + 2 * |fi.symbols| + |fi.patterns|
  {
    hide CheckFileSize, CheckComplexity, SymbolSuggestions, PatternSuggestions, LanguageSpecificChecks;
    var size := CheckFileSize(path, fi, now);
    var cx := CheckComplexity(path, fi, fmt, now);
    var syms := SymbolSuggestions(path, fi.symbols, |fi.symbols|, fmt, now);
    var pats := PatternSuggestions(path, fi.patterns, |fi.patterns|, now);
    var lang := LanguageSpecificChecks(path, fi, now);
    SymbolSuggestionsIssued(path, fi.symbols, |fi.symbols|, fmt, now);
    PatternSuggestionsIssued(path, fi.patterns, |fi.patterns|, now);
    IssuedAppend(size, cx, path, now);
    IssuedAppend(size + cx, syms, path, now);
    IssuedAppend(size + cx + syms, pats, path, now);
    IssuedAppend(size + cx + syms + pats, lang, path, now);
    StampIssued(Collected(path, fi, fmt, now), base, path, now);
  }

  predicate VeryLongAt(s: Suggestion, line: nat)
  {
    s.line == Some(line) && s.kind == Improvement && s.priority == High
  }

  /** A function of more than 100 lines gets one High improvement at its line from the length rule. */
  lemma VeryLongFunction(path: string, sym: Index.Symbol, now: int)
    requires Index.IsFunctionLike(sym) && Index.LineCount(sym) > 100
    ensures |CheckFunctionLength(path, sym, now)| == 1 && VeryLongAt(CheckFunctionLength(path, sym, now)[0], sym.line)
  {
  }

  /** The suggestions of the first `n - 1` symbols stay in front when the `n`-th is added. */
  lemma SymbolSuggestionsGrow(path: string, syms: seq<Index.Symbol>, n: nat, fmt: FloatFormat, now: int)
    requires 0 < n <= |syms|
    ensures var prev := SymbolSuggestions(path, syms, n - 1, fmt, now);
      SymbolSuggestions(path, syms, n, fmt, now)
      == prev + CheckFunctionLength(path, syms[n - 1], now) + CheckFunctionComplexity(path, syms[n - 1], fmt, now)
  {
  }

  /** The suggestions of the first `m` symbols are a prefix of those of the first `n`. */
  lemma {:induction false} SymbolSuggestionsPrefix(path: string, syms: seq<Index.Symbol>, m: nat, n: nat, fmt: FloatFormat, now: int)
    requires m <= n <= |syms|
    ensures |SymbolSuggestions(path, syms, m, fmt, now)| <= |SymbolSuggestions(path, syms, n, fmt, now)|
    ensures forall i :: 0 <= i < |SymbolSuggestions(path, syms, m, fmt, now)| ==>
      SymbolSuggestions(path, syms, n, fmt, now)[i] == SymbolSuggestions(path, syms, m, fmt, now)[i]
    decreases n
  {
    hide CheckFunctionLength, CheckFunctionComplexity;
    if m < n {
      SymbolSuggestionsPrefix(path, syms, m, n - 1, fmt, now);
      SymbolSuggestionsGrow(path, syms, n, fmt, now);
      var prev := SymbolSuggestions(path, syms, n - 1, fmt, now);
      forall i | 0 <= i < |prev| ensures SymbolSuggestions(path, syms, n, fmt, now)[i] == prev[i] {
        FrontOfTriple(prev, CheckFunctionLength(path, syms[n - 1], now), CheckFunctionComplexity(path, syms[n - 1], fmt, now), i);
      }
    }
  }

  /** A function of more than 100 lines always gets a High improvement at its line. */
  lemma LongFunctionFlagged(path: string, syms: seq<Index.Symbol>, n: nat, fmt: FloatFormat, now: int, k: nat)
    requires k < n <= |syms| && Index.IsFunctionLike(syms[k]) && Index.LineCount(syms[k]) > 100
    ensures exists j :: 0 <= j < |SymbolSuggestions(path, syms, n, fmt, now)|
                        && VeryLongAt(SymbolSuggestions(path, syms, n, fmt, now)[j], syms[k].line)
  {
    hide *;
    SymbolSuggestionsGrow(path, syms, k + 1, fmt, now);
    VeryLongFunction(path, syms[k], now);
    SymbolSuggestionsPrefix(path, syms, k + 1, n, fmt, now);
    var prev := SymbolSuggestions(path, syms, k, fmt, now);
    var all := SymbolSuggestions(path, syms, n, fmt, now);
    FlaggedInPrefix(prev, CheckFunctionLength(path, syms[k], now), CheckFunctionComplexity(path, syms[k], fmt, now), all, syms[k].line);
    assert 0 <= |prev| < |all| && VeryLongAt(all[|prev|], syms[k].line);
  }

  /** A flagged suggestion placed right after `prev` is found in any extension of `prev + length + rest`. */
  lemma FlaggedInPrefix(prev: seq<Suggestion>, length: seq<Suggestion>, rest: seq<Suggestion>, all: seq<Suggestion>, line: nat)
    requires |length| == 1 && VeryLongAt(length[0], line)
    requires |prev + length + rest| <= |all|
    requires forall i :: 0 <= i < |prev + length + rest| ==> all[i] == (prev + length + rest)[i]
    ensures |prev| < |all| && VeryLongAt(all[|prev|], line)
  {
    FrontOfTriple(prev, length, rest, |prev|);
  }

  /** The elements of the first two parts of a three-part concatenation keep their place. */
  lemma FrontOfTriple<T>(a: seq<T>, b: seq<T>, c: seq<T>, i: nat)
    requires i < |a| + |b|
    ensures i < |a + b + c|
    ensures (a + b + c)[i] == if i < |a| then a[i] else b[i - |a|]
  {
  }
}
