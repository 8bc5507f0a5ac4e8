/**
 * The codebase index: languages, symbols, detected code patterns and their
 * severities, per-file indexing (line counts, long functions, god modules,
 * TODO markers), the keyword complexity estimate, ignored directory names
 * and the index statistics.
 */
module Index {
  import opened Results
  import opened Strings

  datatype Language = Rust | JavaScript | TypeScript | Python | Go | Unknown

  /** The extensions the indexer recognises, in lower case. */
  const KnownExtensions: set<string> := {"rs", "js", "jsx", "mjs", "cjs", "ts", "tsx", "py", "pyi", "go"}

  /** `Language::from_extension`: the extension compared in lower case. */
  function FromExtension(ext: string): (r: Language)
    ensures r == Unknown <==> ToLower(ext) !in KnownExtensions
    ensures r == Rust <==> ToLower(ext) == "rs"
    ensures r == Python <==> ToLower(ext) in {"py", "pyi"}
  {
    match ToLower(ext)
    case "rs" => Rust
    case "js" => JavaScript
    case "jsx" => JavaScript
    case "mjs" => JavaScript
    case "cjs" => JavaScript
    case "ts" => TypeScript
    case "tsx" => TypeScript
    case "py" => Python
    case "pyi" => Python
    case "go" => Go
    case _ => Unknown
  }

  lemma LowerIdempotent(s: string)
    ensures ToLower(ToLower(s)) == ToLower(s)
  {
  }

  lemma LowerOfUpper(s: string)
    ensures ToLower(ToUpper(s)) == ToLower(s)
  {
    assert forall k :: 0 <= k < |s| ==> AsciiLowerChar(AsciiUpperChar(s[k])) == AsciiLowerChar(s[k]);
  }

  /** The classification ignores the case of the extension: "RS", "Rs" and "rs" agree. */
  lemma FromExtensionIgnoresCase(ext: string)
    ensures FromExtension(ToUpper(ext)) == FromExtension(ext)
    ensures FromExtension(ToLower(ext)) == FromExtension(ext)
  {
    LowerOfUpper(ext);
    LowerIdempotent(ext);
  }

  datatype SymbolKind = Function | Method | Struct | Class | Enum | Interface | Trait | Module | Constant | Variable

  datatype Visibility = Public | Private | Internal

  /** A symbol found by the parser; `complexity` is the parser's floating-point estimate. */
  datatype Symbol = Symbol(name: string, kind: SymbolKind, file: string, line: nat, endLine: nat,
                           complexity: real, visibility: Visibility)

  predicate IsFunctionLike(s: Symbol) { s.kind == Function || s.kind == Method }

  /** `Symbol::line_count`: `end_line.saturating_sub(line) + 1`. */
  function LineCount(s: Symbol): (r: nat)
    ensures r >= 1
    ensures s.endLine >= s.line ==> r == s.endLine - s.line + 1
    ensures s.endLine < s.line ==> r == 1
  {
    (if s.endLine >= s.line then s.endLine - s.line else 0) + 1
  }

  datatype Dependency = Dependency(fromFile: string, importPath: string, line: nat, isExternal: bool)

  datatype PatternKind = LongFunction | DeepNesting | ManyParameters | GodModule | DuplicatePattern
                       | MissingErrorHandling | UnusedImport | TodoMarker

  datatype PatternSeverity = Info | Low | Medium | High

  /** The declaration order of `PatternSeverity`, which its derived `Ord` follows. */
  function SeverityRank(s: PatternSeverity): (r: nat)
    ensures r <= 3
  {
    match s
    case Info => 0
    case Low => 1
    case Medium => 2
    case High => 3
  }

  /** `PatternKind::severity`. */
  function Severity(k: PatternKind): PatternSeverity
  {
    match k
    case LongFunction => Medium
    case DeepNesting => High
    case ManyParameters => Low
    case GodModule => High
    case DuplicatePattern => Medium
    case MissingErrorHandling => High
    case UnusedImport => Low
    case TodoMarker => Info
  }

  /** The severity order is Info < Low < Medium < High and ranks tell severities apart. */
  lemma SeverityOrder()
    ensures SeverityRank(Info) < SeverityRank(Low) < SeverityRank(Medium) < SeverityRank(High)
    ensures forall a, b :: SeverityRank(a) == SeverityRank(b) ==> a == b
    ensures SeverityRank(Severity(DeepNesting)) > SeverityRank(Severity(UnusedImport))
  {
  }

  /** Exactly three kinds are of high severity. */
  lemma HighSeverityKinds(k: PatternKind)
    ensures SeverityRank(Severity(k)) >= SeverityRank(High)
      <==> k == DeepNesting || k == GodModule || k == MissingErrorHandling
  {
  }

  datatype Pattern = Pattern(kind: PatternKind, file: string, line: nat, description: string)

  /** One file of the index; `lastModified` is the file's modification time. */
  datatype FileIndex = FileIndex(path: string, language: Language, loc: nat, sloc: nat,
                                 symbols: seq<Symbol>, dependencies: seq<Dependency>,
                                 patterns: seq<Pattern>, complexity: nat, lastModified: int)

  // ---- pattern detection of `index_file` ----

  predicate IsLong(s: Symbol) { IsFunctionLike(s) && LineCount(s) > 50 }

  function LongFunctionPattern(path: string, s: Symbol): Pattern
  {
    Pattern(LongFunction, path, s.line, s.name + " is " + NatToString(LineCount(s)) + " lines")
  }

  /** The long-function patterns, one per long function or method, in symbol order. */
  function LongFunctionPatterns(path: string, syms: seq<Symbol>): seq<Pattern>
  {
    if syms == [] then []
    else LongFunctionPatterns(path, syms[..|syms| - 1])
         + (if IsLong(syms[|syms| - 1]) then [LongFunctionPattern(path, syms[|syms| - 1])] else [])
  }

  function CountLong(syms: seq<Symbol>): nat
  {
    if syms == [] then 0 else CountLong(syms[..|syms| - 1]) + (if IsLong(syms[|syms| - 1]) then 1 else 0)
  }

  /** Every long symbol has its pattern, every pattern comes from a long symbol, and there is one per long symbol. */
  lemma {:induction false} LongFunctionsExact(path: string, syms: seq<Symbol>)
    ensures |LongFunctionPatterns(path, syms)| == CountLong(syms) <= |syms|
    ensures forall j :: 0 <= j < |syms| && IsLong(syms[j]) ==> LongFunctionPattern(path, syms[j]) in LongFunctionPatterns(path, syms)
    ensures forall q :: q in LongFunctionPatterns(path, syms) ==>
      exists j :: 0 <= j < |syms| && IsLong(syms[j]) && q == LongFunctionPattern(path, syms[j])
  {
    if syms != [] {
      var init := syms[..|syms| - 1];
      LongFunctionsExact(path, init);
      forall q | q in LongFunctionPatterns(path, syms)
        ensures exists j :: 0 <= j < |syms| && IsLong(syms[j]) && q == LongFunctionPattern(path, syms[j])
      {
        if q in LongFunctionPatterns(path, init) {
          var j :| 0 <= j < |init| && IsLong(init[j]) && q == LongFunctionPattern(path, init[j]);
          assert syms[j] == init[j];
        } else {
          assert q == LongFunctionPattern(path, syms[|syms| - 1]);
        }
      }
      forall j | 0 <= j < |syms| && IsLong(syms[j])
        ensures LongFunctionPattern(path, syms[j]) in LongFunctionPatterns(path, syms)
      {
        if j < |init| {
          assert syms[j] == init[j];
        }
      }
    }
  }

  function GodModulePatterns(path: string, loc: nat): (r: seq<Pattern>)
    ensures |r| <= 1
    ensures r != [] <==> loc > 500
    ensures forall q :: q in r ==> q.kind == GodModule && q.line == 1
  {
    if loc > 500 then [Pattern(GodModule, path, 1, "File has " + NatToString(loc) + " lines")] else []
  }

  /** The marker test: the upper-cased line contains TODO, FIXME or HACK. */
  predicate IsMarked(line: string)
  {
    var upper := ToUpper(line);
    Contains(upper, "TODO") || Contains(upper, "FIXME") || Contains(upper, "HACK")
  }

  /** What the marker scan sees of a line: whether it is marked, and its trimmed text. */
  datatype LineInfo = LineInfo(marked: bool, trimmed: string)

  function Inspect(line: string): LineInfo
  {
    LineInfo(IsMarked(line), Trim(line))
  }

  function Inspected(lines: seq<string>): (r: seq<LineInfo>)
    ensures |r| == |lines|
    ensures forall i :: 0 <= i < |lines| ==> r[i] == Inspect(lines[i])
  {
    seq(|lines|, i requires 0 <= i < |lines| => Inspect(lines[i]))
  }

  /** TODO markers of the first `n` lines, with 1-based line numbers and the trimmed line as description. */
  function TodoPatterns(path: string, infos: seq<LineInfo>, n: nat): seq<Pattern>
    requires n <= |infos|
  {
    if n == 0 then []
    else TodoPatterns(path, infos, n - 1)
         + (if infos[n - 1].marked then [Pattern(TodoMarker, path, n, infos[n - 1].trimmed)] else [])
  }

  /** The `k`-th marker comes from a marked line and carries its 1-based number and its trimmed text. */
  lemma {:induction false} TodoSoundAt(path: string, infos: seq<LineInfo>, n: nat, k: nat)
    requires n <= |infos| && k < |TodoPatterns(path, infos, n)|
    ensures var q := TodoPatterns(path, infos, n)[k];
      q.kind == TodoMarker && 1 <= q.line <= n && infos[q.line - 1].marked && q.description == infos[q.line - 1].trimmed
  {
    if k < |TodoPatterns(path, infos, n - 1)| {
      TodoSoundAt(path, infos, n - 1, k);
    }
  }

  /** A marked line among the first `n` has its marker. */
  lemma {:induction false} TodoCompleteAt(path: string, infos: seq<LineInfo>, n: nat, i: nat) returns (k: nat)
    requires i < n <= |infos| && infos[i].marked
    ensures k < |TodoPatterns(path, infos, n)| && TodoPatterns(path, infos, n)[k] == Pattern(TodoMarker, path, i + 1, infos[i].trimmed)
  {
    var prev := TodoPatterns(path, infos, n - 1);
    if i < n - 1 {
      k := TodoCompleteAt(path, infos, n - 1, i);
      assert TodoPatterns(path, infos, n)[k] == prev[k];
    } else {
      k := |prev|;
    }
  }

  /** Markers appear in line order, so no line has two. */
  lemma {:induction false} TodoOrderedAt(path: string, infos: seq<LineInfo>, n: nat, a: nat, b: nat)
    requires n <= |infos| && a < b < |TodoPatterns(path, infos, n)|
    ensures TodoPatterns(path, infos, n)[a].line < TodoPatterns(path, infos, n)[b].line
  {
    if b < |TodoPatterns(path, infos, n - 1)| {
      TodoOrderedAt(path, infos, n - 1, a, b);
    } else {
      TodoSoundAt(path, infos, n - 1, a);
    }
  }

  /** One marker per marked line, and nothing else. */
  lemma TodoPatternsExact(path: string, infos: seq<LineInfo>, n: nat)
    requires n <= |infos|
    ensures forall i :: 0 <= i < n ==>
      (infos[i].marked <==> Pattern(TodoMarker, path, i + 1, infos[i].trimmed) in TodoPatterns(path, infos, n))
    ensures forall q :: q in TodoPatterns(path, infos, n) ==>
      q.kind == TodoMarker && 1 <= q.line <= n && infos[q.line - 1].marked && q.description == infos[q.line - 1].trimmed
  {
    var ps := TodoPatterns(path, infos, n);
    forall q | q in ps
      ensures q.kind == TodoMarker && 1 <= q.line <= n && infos[q.line - 1].marked && q.description == infos[q.line - 1].trimmed
    {
      var k :| 0 <= k < |ps| && ps[k] == q;
      TodoSoundAt(path, infos, n, k);
    }
    forall i | 0 <= i < n && infos[i].marked
      ensures Pattern(TodoMarker, path, i + 1, infos[i].trimmed) in ps
    {
      var k := TodoCompleteAt(path, infos, n, i);
      assert ps[k] in ps;
    }
  }

  /** Source lines: the lines that are not blank after trimming. */
  function Sloc(lines: seq<string>): (r: nat)
    ensures r <= |lines|
  {
    if lines == [] then 0 else Sloc(lines[..|lines| - 1]) + (if Trim(lines[|lines| - 1]) != [] then 1 else 0)
  }

  /** The patterns `index_file` detects, in the order it pushes them. */
  function DetectedPatterns(path: string, content: string, syms: seq<Symbol>): seq<Pattern>
  {
    var lines := Lines(content);
    LongFunctionPatterns(path, syms) + GodModulePatterns(path, |lines|) + TodoPatterns(path, Inspected(lines), |lines|)
  }

  // ---- complexity estimate ----

  const DecisionKeywords: seq<string> :=
    ["if ", "else ", "elif ", "for ", "while ", "match ", "case ", "catch ", "&&", "||", "?", "try ", "switch "]

  /** Occurrences of the first `n` keywords, each counted without overlap. */
  function KeywordMatches(content: string, n: nat): nat
    requires n <= |DecisionKeywords|
  {
    if n == 0 then 0 else KeywordMatches(content, n - 1) + MatchCount(content, DecisionKeywords[n - 1])
  }

  /** `calculate_complexity`: 1 plus the occurrences of every decision keyword. */
  method CalculateComplexity(content: string) returns (complexity: nat)
    ensures complexity == 1 + KeywordMatches(content, |DecisionKeywords|)
    ensures complexity >= 1
  {
    complexity := 1;
    for k := 0 to |DecisionKeywords|
      invariant complexity == 1 + KeywordMatches(content, k)
    {
      complexity := complexity + MatchCount(content, DecisionKeywords[k]);
    }
  }

  /** Text holding any decision keyword scores above the base complexity of 1. */
  lemma {:induction false} KeywordRaisesComplexity(content: string, n: nat, k: nat)
    requires k < n <= |DecisionKeywords| && Contains(content, DecisionKeywords[k])
    ensures KeywordMatches(content, n) > 0
  {
    if k == n - 1 {
      MatchCountMeaning(content, DecisionKeywords[k]);
    } else {
      KeywordRaisesComplexity(content, n - 1, k);
    }
  }

  /** With no keyword in the text the complexity is the base 1. */
  lemma {:induction false} NoKeywordBaseComplexity(content: string, n: nat)
    requires n <= |DecisionKeywords|
    requires forall k :: 0 <= k < n ==> !Contains(content, DecisionKeywords[k])
    ensures KeywordMatches(content, n) == 0
  {
    if n > 0 {
      NoKeywordBaseComplexity(content, n - 1);
      MatchCountMeaning(content, DecisionKeywords[n - 1]);
    }
  }

  /** The long-function loop of `index_file`. */
  method DetectLongFunctions(path: string, symbols: seq<Symbol>) returns (patterns: seq<Pattern>)
    ensures patterns == LongFunctionPatterns(path, symbols)
  {
    patterns := [];
    for i := 0 to |symbols|
      invariant patterns == LongFunctionPatterns(path, symbols[..i])
    {
      assert symbols[..i + 1][..i] == symbols[..i];
      var sym := symbols[i];
      if IsFunctionLike(sym) && LineCount(sym) > 50 {
        patterns := patterns + [LongFunctionPattern(path, sym)];
      }
    }
    assert symbols[..|symbols|] == symbols;
  }

  /** The TODO/FIXME loop of `index_file`. */
  method ScanTodoMarkers(path: string, lines: seq<string>) returns (patterns: seq<Pattern>)
    ensures patterns == TodoPatterns(path, Inspected(lines), |lines|)
  {
    hide Inspect, IsMarked, Trim;
    patterns := [];
    ghost var infos := Inspected(lines);
    for i := 0 to |lines|
      invariant patterns == TodoPatterns(path, infos, i)
    {
      var info := Inspect(lines[i]);
      if info.marked {
        patterns := patterns + [Pattern(TodoMarker, path, i + 1, info.trimmed)];
      }
    }
  }

  /**
   * `index_file` once the file has been read and parsed: `parsed` is the
   * parser's outcome (symbols and dependencies, or its error) and `modified`
   * the file's modification time.
   */
  method IndexFile(path: string, content: string, language: Language,
                   parsed: Result<(seq<Symbol>, seq<Dependency>), string>, modified: int)
    returns (r: Result<FileIndex, string>)
    ensures parsed.Err? <==> r.Err?
    ensures parsed.Err? ==> r.error == parsed.error
    ensures r.Ok? ==>
      && r.value.path == path && r.value.language == language
      && r.value.loc == |Lines(content)| && r.value.sloc == Sloc(Lines(content))
      && r.value.symbols == parsed.value.0 && r.value.dependencies == parsed.value.1
      && r.value.patterns == DetectedPatterns(path, content, parsed.value.0)
      && r.value.complexity == 1 + KeywordMatches(content, |DecisionKeywords|)
      && r.value.lastModified == modified
  {
    var lines := Lines(content);
    var loc := |lines|;
    var sloc := Sloc(lines);
    if parsed.Err? {
      return Err(parsed.error);
    }
    var (symbols, deps) := parsed.value;
    var long := DetectLongFunctions(path, symbols);
    var god := [];
    if loc > 500 {
      god := [Pattern(GodModule, path, 1, "File has " + NatToString(loc) + " lines")];
    }
    var todo := ScanTodoMarkers(path, lines);
    var complexity := CalculateComplexity(content);
    r := Ok(FileIndex(path, language, loc, sloc, symbols, deps, long + god + todo, complexity, modified));
  }

  lemma InDetected(path: string, content: string, syms: seq<Symbol>, q: Pattern)
    ensures q in DetectedPatterns(path, content, syms) <==>
      q in LongFunctionPatterns(path, syms) || q in GodModulePatterns(path, |Lines(content)|)
      || q in TodoPatterns(path, Inspected(Lines(content)), |Lines(content)|)
  {
  }

  /** A file has a god-module pattern exactly when it has more than 500 lines, and it sits at line 1. */
  lemma GodModuleIff(path: string, content: string, syms: seq<Symbol>)
    ensures var ps := DetectedPatterns(path, content, syms);
      && ((exists q :: q in ps && q.kind == GodModule) <==> |Lines(content)| > 500)
      && (forall q :: q in ps && q.kind == GodModule ==> q.line == 1)
  {
    var lines := Lines(content);
    var ps := DetectedPatterns(path, content, syms);
    LongFunctionsExact(path, syms);
    TodoPatternsExact(path, Inspected(lines), |lines|);
    forall q | q in LongFunctionPatterns(path, syms) ensures q.kind == LongFunction {
      var j :| 0 <= j < |syms| && IsLong(syms[j]) && q == LongFunctionPattern(path, syms[j]);
    }
    forall q
      ensures q in ps <==> (q in LongFunctionPatterns(path, syms) || q in GodModulePatterns(path, |lines|)
                            || q in TodoPatterns(path, Inspected(lines), |lines|))
    {
      InDetected(path, content, syms, q);
    }
    if |lines| > 500 {
      var g := GodModulePatterns(path, |lines|)[0];
      assert g in ps;
    }
  }

  /** Every long function or method and every marked line is reported. */
  lemma DetectionComplete(path: string, content: string, syms: seq<Symbol>)
    ensures var ps := DetectedPatterns(path, content, syms);
      var lines := Lines(content);
      && (forall j :: 0 <= j < |syms| && IsLong(syms[j]) ==> LongFunctionPattern(path, syms[j]) in ps)
      && (forall i :: 0 <= i < |lines| && IsMarked(lines[i]) ==> Pattern(TodoMarker, path, i + 1, Trim(lines[i])) in ps)
  {
    var lines := Lines(content);
    LongFunctionsExact(path, syms);
    TodoPatternsExact(path, Inspected(lines), |lines|);
    forall q | q in LongFunctionPatterns(path, syms) || q in TodoPatterns(path, Inspected(lines), |lines|)
      ensures q in DetectedPatterns(path, content, syms) {
      InDetected(path, content, syms, q);
    }
  }

  // ---- ignored paths and statistics ----

  const IgnoredNames: set<string> :=
    {"target", "node_modules", ".git", ".svn", ".hg", "dist", "build", "__pycache__", ".pytest_cache",
     "vendor", ".idea", ".vscode", ".cosmos"}

  /** `is_ignored` on a path's file name: a listed name or any name starting with a dot. */
  predicate IsIgnored(name: string)
  {
    name in IgnoredNames || StartsWith(name, ".")
  }

  /** Apart from dot names, exactly six listed names are ignored. */
  lemma IgnoredWithoutDot(name: string)
    requires !StartsWith(name, ".")
    ensures IsIgnored(name) <==> name in {"target", "node_modules", "dist", "build", "__pycache__", "vendor"}
  {
  }

  /** The aggregated index; `files` holds one entry per indexed path. */
  datatype CodebaseIndex = CodebaseIndex(root: string, files: seq<FileIndex>, symbols: seq<Symbol>,
                                         dependencies: seq<Dependency>, patterns: seq<Pattern>, cachedAt: int)

  datatype IndexStats = IndexStats(fileCount: nat, totalLoc: nat, totalSloc: nat, symbolCount: nat,
                                   patternCount: nat, highPriorityPatterns: nat)

  function TotalLoc(files: seq<FileIndex>): nat
  {
    if files == [] then 0 else TotalLoc(files[..|files| - 1]) + files[|files| - 1].loc
  }

  function TotalSloc(files: seq<FileIndex>): nat
  {
    if files == [] then 0 else TotalSloc(files[..|files| - 1]) + files[|files| - 1].sloc
  }

  /** Patterns whose severity is at least High. */
  function HighPriorityCount(ps: seq<Pattern>): nat
  {
    if ps == [] then 0
    else HighPriorityCount(ps[..|ps| - 1]) + (if SeverityRank(Severity(ps[|ps| - 1].kind)) >= SeverityRank(High) then 1 else 0)
  }

  /** The count is bounded by the number of patterns and adds up over concatenation. */
  lemma {:induction false} HighPriorityCountFacts(a: seq<Pattern>, b: seq<Pattern>)
    ensures HighPriorityCount(a) <= |a|
    ensures HighPriorityCount(a + b) == HighPriorityCount(a) + HighPriorityCount(b)
    decreases |a| + |b|
  {
    if b == [] {
      assert a + b == a;
      if a != [] { HighPriorityCountFacts(a[..|a| - 1], []); }
    } else {
      assert (a + b)[..|a + b| - 1] == a + b[..|b| - 1];
      HighPriorityCountFacts(a, b[..|b| - 1]);
    }
  }

  /** `CodebaseIndex::stats`. */
  function Stats(index: CodebaseIndex): (r: IndexStats)
    ensures r.highPriorityPatterns <= r.patternCount == |index.patterns|
    ensures r.fileCount == |index.files| && r.symbolCount == |index.symbols|
  {
    HighPriorityCountFacts(index.patterns, []);
    IndexStats(|index.files|, TotalLoc(index.files), TotalSloc(index.files), |index.symbols|,
               |index.patterns|, HighPriorityCount(index.patterns))
  }

  /** No file has more source lines than lines, so neither has the whole index. */
  lemma {:induction false} SlocBelowLoc(files: seq<FileIndex>)
    requires forall i :: 0 <= i < |files| ==> files[i].sloc <= files[i].loc
    ensures TotalSloc(files) <= TotalLoc(files)
  {
    if files != [] {
      SlocBelowLoc(files[..|files| - 1]);
    }
  }
}
