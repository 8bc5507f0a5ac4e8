/**
 * The suggestion store of `src/suggest/mod.rs`: suggestion records, the
 * active view and its counts, flag edits by id, the priority sort after each
 * insertion, and the five-key ordering of `sort_with_context`.
 *
 * A suggestion's id (a random UUID in the program) and its creation time
 * (the clock) are parameters of the functions that create suggestions.
 */
module Suggest {
  import opened Results
  import Index
  import Sorting

  datatype SuggestionSource = Static | Cached | LlmFast | LlmDeep

  datatype SuggestionKind = Improvement | BugFix | Feature | Optimization | Quality
                          | Documentation | Testing | Refactoring

  datatype Priority = Low | Medium | High

  /** The declaration order of `Priority`, which its derived `Ord` follows. */
  function PriorityRank(p: Priority): (r: nat)
    ensures r <= 2
  {
    match p
    case Low => 0
    case Medium => 1
    case High => 2
  }

  /** `Priority::from_severity`: High and Medium carry over, Low and Info both become Low. */
  function FromSeverity(s: Index.PatternSeverity): (r: Priority)
    ensures PriorityRank(r) == if Index.SeverityRank(s) == 0 then 0 else Index.SeverityRank(s) - 1
  {
    match s
    case High => High
    case Medium => Medium
    case Low => Low
    case Info => Low
  }

  datatype Suggestion = Suggestion(
    id: nat,
    kind: SuggestionKind,
    priority: Priority,
    file: string,
    additionalFiles: seq<string>,
    line: Option<nat>,
    summary: string,
    detail: Option<string>,
    source: SuggestionSource,
    createdAt: int,
    dismissed: bool,
    applied: bool)

  /** `Suggestion::new` with the UUID `id` and the clock reading `now`. */
  function NewSuggestion(id: nat, now: int, kind: SuggestionKind, priority: Priority, file: string,
                         summary: string, source: SuggestionSource): (r: Suggestion)
    ensures !r.dismissed && !r.applied && r.additionalFiles == []
    ensures r.line.None? && r.detail.None?
    ensures r.id == id && r.createdAt == now && r.kind == kind && r.priority == priority
    ensures r.file == file && r.summary == summary && r.source == source
  {
    Suggestion(id, kind, priority, file, [], None, summary, None, source, now, false, false)
  }

  /** `affected_files`: the primary file followed by the additional ones. */
  function AffectedFiles(s: Suggestion): seq<string>
  {
    [s.file] + s.additionalFiles
  }

  /** `file_count` counts exactly the affected files, the primary one included. */
  function FileCount(s: Suggestion): (r: nat)
    ensures r == |AffectedFiles(s)| && r >= 1
    ensures AffectedFiles(s)[0] == s.file && AffectedFiles(s)[1..] == s.additionalFiles
    ensures r > 1 <==> IsMultiFile(s)
  {
    1 + |s.additionalFiles|
  }

  predicate IsMultiFile(s: Suggestion) { s.additionalFiles != [] }

  // ---- the active view and its counts ----

  predicate IsActive(s: Suggestion) { !s.dismissed && !s.applied }

  /** `active_suggestions`: the entries neither dismissed nor applied, in stored order. */
  function Active(s: seq<Suggestion>): seq<Suggestion>
  {
    if s == [] then [] else Active(s[..|s| - 1]) + (if IsActive(s[|s| - 1]) then [s[|s| - 1]] else [])
  }

  /** The view keeps stored order: it distributes over concatenation. */
  lemma {:induction false} ActiveAppend(a: seq<Suggestion>, b: seq<Suggestion>)
    ensures Active(a + b) == Active(a) + Active(b)
    decreases |b|
  {
    if b == [] {
      assert a + b == a;
    } else {
      assert (a + b)[..|a + b| - 1] == a + b[..|b| - 1];
      ActiveAppend(a, b[..|b| - 1]);
    }
  }

  /** An entry is in the view exactly when it is stored and active. */
  lemma {:induction false} ActiveExact(s: seq<Suggestion>, x: Suggestion)
    ensures x in Active(s) <==> x in s && IsActive(x)
    ensures |Active(s)| <= |s|
  {
    if s != [] {
      ActiveExact(s[..|s| - 1], x);
      assert s == s[..|s| - 1] + [s[|s| - 1]];
    }
  }

  datatype SuggestionCounts = SuggestionCounts(total: nat, high: nat, medium: nat, low: nat)

  function CountPriority(s: seq<Suggestion>, p: Priority): nat
  {
    if s == [] then 0 else CountPriority(s[..|s| - 1], p) + (if s[|s| - 1].priority == p then 1 else 0)
  }

  lemma {:induction false} PrioritiesPartition(s: seq<Suggestion>)
    ensures CountPriority(s, High) + CountPriority(s, Medium) + CountPriority(s, Low) == |s|
  {
    if s != [] {
      PrioritiesPartition(s[..|s| - 1]);
    }
  }

  /** `counts`: every active suggestion is counted under exactly one priority. */
  function Counts(s: seq<Suggestion>): (r: SuggestionCounts)
    ensures r.high + r.medium + r.low == r.total == |Active(s)|
    ensures r.high == CountPriority(Active(s), High)
    ensures r.medium == CountPriority(Active(s), Medium) && r.low == CountPriority(Active(s), Low)
  {
    var active := Active(s);
    PrioritiesPartition(active);
    SuggestionCounts(|active|, CountPriority(active, High), CountPriority(active, Medium), CountPriority(active, Low))
  }

  // ---- flag edits by id ----

  /** Position of the first entry with this id. */
  function FirstIndexOf(s: seq<Suggestion>, id: nat): (r: Option<nat>)
    ensures r.Some? ==> r.value < |s| && s[r.value].id == id
                        && forall i :: 0 <= i < r.value ==> s[i].id != id
    ensures r.None? ==> forall i :: 0 <= i < |s| ==> s[i].id != id
  {
    if s == [] then None
    else if s[0].id == id then Some(0)
    else match FirstIndexOf(s[1..], id)
      case None => None
      case Some(k) => Some(k + 1)
  }

  /** The three edits: `dismiss`, `mark_applied` and `unmark_applied`. */
  datatype FlagEdit = Dismiss | MarkApplied | UnmarkApplied

  function WithFlag(x: Suggestion, e: FlagEdit): Suggestion
  {
    match e
    case Dismiss => x.(dismissed := true)
    case MarkApplied => x.(applied := true)
    case UnmarkApplied => x.(applied := false)
  }

  /** The store after editing the first entry with this id; unchanged when there is none. */
  function EditFirst(s: seq<Suggestion>, id: nat, e: FlagEdit): (r: seq<Suggestion>)
    ensures |r| == |s|
    ensures (forall i :: 0 <= i < |s| ==> s[i].id != id) ==> r == s
  {
    match FirstIndexOf(s, id)
    case None => s
    case Some(k) => s[k := WithFlag(s[k], e)]
  }

  /** Two records that agree on every field except possibly the two flags. */
  predicate SameButFlags(a: Suggestion, b: Suggestion)
  {
    a.(dismissed := false, applied := false) == b.(dismissed := false, applied := false)
  }

  /**
   * An edit changes one flag of one entry, the first with that id, to the
   * edit's value, and nothing else.
   */
  lemma EditChangesOneFlag(s: seq<Suggestion>, id: nat, e: FlagEdit, k: nat)
    requires FirstIndexOf(s, id) == Some(k)
    ensures forall i :: 0 <= i < |s| && i != k ==> EditFirst(s, id, e)[i] == s[i]
    ensures SameButFlags(EditFirst(s, id, e)[k], s[k])
    ensures e == Dismiss ==> EditFirst(s, id, e)[k].dismissed && EditFirst(s, id, e)[k].applied == s[k].applied
    ensures e == MarkApplied ==> EditFirst(s, id, e)[k].applied && EditFirst(s, id, e)[k].dismissed == s[k].dismissed
    ensures e == UnmarkApplied ==> !EditFirst(s, id, e)[k].applied && EditFirst(s, id, e)[k].dismissed == s[k].dismissed
  {
    assert EditFirst(s, id, e) == s[k := WithFlag(s[k], e)];
  }

  /** Edits keep ids, so the first position of every id stays where it was. */
  lemma {:induction false} EditKeepsIds(s: seq<Suggestion>, id: nat, e: FlagEdit, other: nat)
    ensures FirstIndexOf(EditFirst(s, id, e), other) == FirstIndexOf(s, other)
  {
    var r := EditFirst(s, id, e);
    assert forall i :: 0 <= i < |s| ==> r[i].id == s[i].id;
    FirstIndexSameIds(s, r, other);
  }

  lemma {:induction false} FirstIndexSameIds(s: seq<Suggestion>, t: seq<Suggestion>, id: nat)
    requires |s| == |t| && forall i :: 0 <= i < |s| ==> s[i].id == t[i].id
    ensures FirstIndexOf(s, id) == FirstIndexOf(t, id)
  {
    if s != [] && s[0].id != id {
      FirstIndexSameIds(s[1..], t[1..], id);
    }
  }

  /** Repeating an edit changes nothing more. */
  lemma EditIdempotent(s: seq<Suggestion>, id: nat, e: FlagEdit)
    ensures EditFirst(EditFirst(s, id, e), id, e) == EditFirst(s, id, e)
  {
    EditKeepsIds(s, id, e, id);
  }

  /** `unmark_applied` undoes `mark_applied` on an entry that was not applied. */
  lemma UnmarkUndoesMark(s: seq<Suggestion>, id: nat, k: nat)
    requires FirstIndexOf(s, id) == Some(k) && !s[k].applied
    ensures EditFirst(EditFirst(s, id, MarkApplied), id, UnmarkApplied) == s
  {
    EditKeepsIds(s, id, MarkApplied, id);
    assert EditFirst(EditFirst(s, id, MarkApplied), id, UnmarkApplied)[k] == s[k];
  }

  /** Dismissing an active entry removes exactly that entry from the active view. */
  lemma DismissLeavesActiveView(s: seq<Suggestion>, id: nat, k: nat)
    requires FirstIndexOf(s, id) == Some(k) && IsActive(s[k])
    ensures Active(s) == Active(s[..k]) + [s[k]] + Active(s[k + 1..])
    ensures Active(EditFirst(s, id, Dismiss)) == Active(s[..k]) + Active(s[k + 1..])
  {
    var r := EditFirst(s, id, Dismiss);
    assert r == s[k := s[k].(dismissed := true)];
    ActiveAround(s, k);
    ActiveAround(r, k);
    assert r[..k] == s[..k] && r[k + 1..] == s[k + 1..];
  }

  /** The view of a store split around position `k`. */
  lemma ActiveAround(s: seq<Suggestion>, k: nat)
    requires k < |s|
    ensures Active(s) == Active(s[..k]) + (if IsActive(s[k]) then [s[k]] else []) + Active(s[k + 1..])
  {
    var upto, post := s[..k + 1], s[k + 1..];
    var here := if IsActive(s[k]) then [s[k]] else [];
    assert s == upto + post;
    assert upto[..k] == s[..k];
    assert Active(upto) == Active(s[..k]) + here;
    ActiveAppend(upto, post);
    assert Active(s) == Active(upto) + Active(post);
  }

  // ---- orderings ----

  datatype Ordering = Less | Equal | Greater

  /** `Ord::cmp` on integers. */
  function Cmp(a: int, b: int): Ordering
  {
    if a < b then Less else if a == b then Equal else Greater
  }

  function Bit(b: bool): int { if b then 1 else 0 }

  /** The per-kind weights of `sort_with_context`. */
  function KindWeight(k: SuggestionKind): int
  {
    match k
    case BugFix => 40
    case Refactoring => 30
    case Optimization => 25
    case Testing => 20
    case Quality => 15
    case Documentation => 10
    case Improvement => 10
    case Feature => 0
  }

  /** The comparator of `add_llm_suggestion` and `generate_static_suggestions`: higher priority first. */
  function PriorityCompare(a: Suggestion, b: Suggestion): Ordering
  {
    Cmp(PriorityRank(b.priority), PriorityRank(a.priority))
  }

  function PriorityKey(s: Suggestion): seq<int> { [PriorityRank(s.priority)] }

  /** The comparator of `sort_with_context`, branch for branch. */
  function ContextCompare(a: Suggestion, b: Suggestion, changed: set<string>, blast: set<string>): Ordering
  {
    var aChanged, bChanged := a.file in changed, b.file in changed;
    if aChanged != bChanged then Cmp(Bit(bChanged), Bit(aChanged))
    else
      var aBlast, bBlast := a.file in blast, b.file in blast;
      if aBlast != bBlast then Cmp(Bit(bBlast), Bit(aBlast))
      else
        var pri := Cmp(PriorityRank(b.priority), PriorityRank(a.priority));
        if pri != Equal then pri
        else
          var kw := Cmp(KindWeight(b.kind), KindWeight(a.kind));
          if kw != Equal then kw
          else Cmp(b.createdAt, a.createdAt)
  }

  /** The five sort keys, most significant first; larger keys sort earlier. */
  function ContextKey(s: Suggestion, changed: set<string>, blast: set<string>): seq<int>
  {
    [Bit(s.file in changed), Bit(s.file in blast), PriorityRank(s.priority), KindWeight(s.kind), s.createdAt]
  }

  function ContextKeyOf(changed: set<string>, blast: set<string>): Suggestion -> seq<int>
  {
    x => ContextKey(x, changed, blast)
  }

  /** A comparator that orders `a` before `b` exactly when `key(a)` is the larger key. */
  predicate DescendingBy<T>(cmp: (T, T) -> Ordering, key: T -> seq<int>, a: T, b: T)
  {
    && (cmp(a, b) == Less <==> Sorting.LexLess(key(b), key(a)))
    && (cmp(a, b) == Equal <==> key(a) == key(b))
    && (cmp(a, b) == Greater <==> Sorting.LexLess(key(a), key(b)))
  }

  lemma LexStep(x: int, y: int, a: seq<int>, b: seq<int>)
    ensures Sorting.LexLess([x] + a, [y] + b) <==> x < y || (x == y && Sorting.LexLess(a, b))
  {
    assert ([x] + a)[1..] == a && ([y] + b)[1..] == b;
  }

  /** `sort_with_context`'s comparator is the descending lexicographic order of the five keys. */
  lemma ContextCompareIsKeyOrder(a: Suggestion, b: Suggestion, changed: set<string>, blast: set<string>)
    ensures DescendingBy((x, y) => ContextCompare(x, y, changed, blast), ContextKeyOf(changed, blast), a, b)
  {
    var ka, kb := ContextKey(a, changed, blast), ContextKey(b, changed, blast);
    LexStep(ka[4], kb[4], [], []);
    LexStep(kb[4], ka[4], [], []);
    LexStep(ka[3], kb[3], ka[4..], kb[4..]);
    LexStep(kb[3], ka[3], kb[4..], ka[4..]);
    LexStep(ka[2], kb[2], ka[3..], kb[3..]);
    LexStep(kb[2], ka[2], kb[3..], ka[3..]);
    LexStep(ka[1], kb[1], ka[2..], kb[2..]);
    LexStep(kb[1], ka[1], kb[2..], ka[2..]);
    LexStep(ka[0], kb[0], ka[1..], kb[1..]);
    LexStep(kb[0], ka[0], kb[1..], ka[1..]);
    assert ka == [ka[0]] + ka[1..] && kb == [kb[0]] + kb[1..];
    assert ka[1..] == [ka[1]] + ka[2..] && kb[1..] == [kb[1]] + kb[2..];
    assert ka[2..] == [ka[2]] + ka[3..] && kb[2..] == [kb[2]] + kb[3..];
    assert ka[3..] == [ka[3]] + ka[4..] && kb[3..] == [kb[3]] + kb[4..];
    assert ka[4..] == [ka[4]] + [] && kb[4..] == [kb[4]] + [];
    Sorting.LexIrreflexive(ka);
    Sorting.LexTotal(ka, kb);
    Sorting.LexAsymmetric(ka, kb);
  }

  /** The priority comparator is the descending order of the priority key. */
  lemma PriorityCompareIsKeyOrder(a: Suggestion, b: Suggestion)
    ensures DescendingBy(PriorityCompare, PriorityKey, a, b)
  {
    LexStep(PriorityRank(a.priority), PriorityRank(b.priority), [], []);
    LexStep(PriorityRank(b.priority), PriorityRank(a.priority), [], []);
  }

  /**
   * The sorted store: a permutation of the input in which no entry compares
   * Greater than a later one, and entries of equal rank keep their order.
   */
  lemma SortedByPriority(s: seq<Suggestion>)
    ensures multiset(Sorting.SortBy(s, PriorityKey)) == multiset(s)
    ensures forall i, j :: 0 <= i < j < |s| ==>
      PriorityRank(Sorting.SortBy(s, PriorityKey)[i].priority) >= PriorityRank(Sorting.SortBy(s, PriorityKey)[j].priority)
    ensures forall p :: Sorting.Filter(Sorting.SortBy(s, PriorityKey), PriorityKey, [PriorityRank(p)])
                     == Sorting.Filter(s, PriorityKey, [PriorityRank(p)])
  {
    var r := Sorting.SortBy(s, PriorityKey);
    Sorting.SortByPermutes(s, PriorityKey);
    Sorting.SortBySorted(s, PriorityKey);
    forall i, j | 0 <= i < j < |s| ensures PriorityRank(r[i].priority) >= PriorityRank(r[j].priority) {
      LexStep(PriorityRank(r[i].priority), PriorityRank(r[j].priority), [], []);
      assert !Sorting.LexLess(PriorityKey(r[i]), PriorityKey(r[j]));
    }
    forall p ensures Sorting.Filter(r, PriorityKey, [PriorityRank(p)]) == Sorting.Filter(s, PriorityKey, [PriorityRank(p)]) {
      Sorting.SortByStable(s, PriorityKey, [PriorityRank(p)]);
    }
  }

  /**
   * After `sort_with_context` no entry compares Greater than a later entry,
   * the entries are those of the input, and entries the comparator finds
   * Equal keep their input order.
   */
  lemma SortedByContext(s: seq<Suggestion>, changed: set<string>, blast: set<string>)
    ensures multiset(Sorting.SortBy(s, ContextKeyOf(changed, blast))) == multiset(s)
    ensures forall i, j :: 0 <= i < j < |s| ==>
      ContextCompare(Sorting.SortBy(s, ContextKeyOf(changed, blast))[i],
                     Sorting.SortBy(s, ContextKeyOf(changed, blast))[j], changed, blast) != Greater
    ensures forall k :: Sorting.Filter(Sorting.SortBy(s, ContextKeyOf(changed, blast)), ContextKeyOf(changed, blast), k)
                     == Sorting.Filter(s, ContextKeyOf(changed, blast), k)
  {
    var key := ContextKeyOf(changed, blast);
    var r := Sorting.SortBy(s, key);
    Sorting.SortByPermutes(s, key);
    Sorting.SortBySorted(s, key);
    forall i, j | 0 <= i < j < |s| ensures ContextCompare(r[i], r[j], changed, blast) != Greater {
      ContextCompareIsKeyOrder(r[i], r[j], changed, blast);
    }
    forall k ensures Sorting.Filter(r, key, k) == Sorting.Filter(s, key, k) {
      Sorting.SortByStable(s, key, k);
    }
  }

  // ---- blast radius ----

  /** The `used_by` and `depends_on` lists of a file's summary. */
  datatype FileSummary = FileSummary(usedBy: seq<string>, dependsOn: seq<string>)

  function Neighbours(f: FileSummary): set<string>
  {
    set x | x in f.usedBy + f.dependsOn
  }

  /** Every neighbour of an indexed file in `from`. */
  function Reach(graph: map<string, FileSummary>, from: set<string>): set<string>
  {
    set p, u | p in from && p in graph && u in Neighbours(graph[p]) :: u
  }

  /** The neighbours of the changed files, minus the changed files themselves. */
  function BlastRadius(graph: map<string, FileSummary>, changed: set<string>): set<string>
  {
    Reach(graph, changed) - changed
  }

  lemma ReachAdd(graph: map<string, FileSummary>, from: set<string>, p: string)
    ensures Reach(graph, from + {p}) == Reach(graph, from) + (if p in graph then Neighbours(graph[p]) else {})
  {
  }

  lemma BlastRadiusMeaning(graph: map<string, FileSummary>, changed: set<string>, u: string)
    ensures u in BlastRadius(graph, changed) <==>
      u !in changed && exists p :: p in changed && p in graph && (u in graph[p].usedBy || u in graph[p].dependsOn)
  {
    if u in BlastRadius(graph, changed) {
      var p :| p in changed && p in graph && u in Neighbours(graph[p]);
      assert u in graph[p].usedBy + graph[p].dependsOn;
    }
    if u !in changed && exists p :: p in changed && p in graph && (u in graph[p].usedBy || u in graph[p].dependsOn) {
      var p :| p in changed && p in graph && (u in graph[p].usedBy || u in graph[p].dependsOn);
      assert u in graph[p].usedBy + graph[p].dependsOn;
      assert u in Neighbours(graph[p]);
    }
  }

  // ---- pattern-derived suggestions ----

  /** The priority `pattern_to_refactoring_suggestion` gives a kind; None for the kinds it skips. */
  function RefactoringPriority(k: Index.PatternKind): Option<Priority>
  {
    match k
    case LongFunction => Some(Medium)
    case DeepNesting => Some(Medium)
    case ManyParameters => Some(Low)
    case GodModule => Some(High)
    case DuplicatePattern => Some(Medium)
    case MissingErrorHandling => None
    case UnusedImport => None
    case TodoMarker => None
  }

  function RefactoringSummary(p: Index.Pattern): string
  {
    match p.kind
    case LongFunction => "This function is " + p.description + " - consider breaking it into smaller, focused functions"
    case DeepNesting => "Deeply nested code makes logic hard to follow - consider early returns or extracting helpers"
    case ManyParameters => p.description + " - consider grouping related parameters into a struct"
    case GodModule => p.description + " - consider splitting into focused modules"
    case DuplicatePattern => "Duplicate code pattern detected - consider extracting into a shared utility"
    case _ => ""
  }

  function RefactoringDetail(k: Index.PatternKind): string
  {
    match k
    case LongFunction =>
      "Long functions are harder to test, understand, and maintain. Look for logical sections that could become separate functions with clear names."
    case DeepNesting =>
      "Deep nesting often indicates complex conditional logic. Try using early returns (guard clauses) to reduce nesting, or extract nested blocks into well-named helper functions."
    case ManyParameters =>
      "Functions with many parameters are hard to call correctly and suggest the function may be doing too much. Group related parameters into a configuration struct or builder pattern."
    case GodModule =>
      "Large files are hard to navigate and often contain multiple responsibilities. Look for natural groupings of functions and types that could become separate modules."
    case DuplicatePattern =>
      "Repeated code makes maintenance harder and increases bug risk. Extract the common pattern into a reusable function or module."
    case _ => ""
  }

  /** `pattern_to_refactoring_suggestion` with the UUID `id` and the clock reading `now`. */
  function PatternToRefactoringSuggestion(p: Index.Pattern, id: nat, now: int): Option<Suggestion>
  {
    match RefactoringPriority(p.kind)
    case None => None
    case Some(priority) =>
      Some(NewSuggestion(id, now, Refactoring, priority, p.file, RefactoringSummary(p), Static)
             .(line := Some(p.line), detail := Some(RefactoringDetail(p.kind))))
  }

  /**
   * Only missing error handling, unused imports and TODO markers give no
   * suggestion; the others give an active Refactoring suggestion at the
   * pattern's file and line, High exactly for a god module and Low exactly
   * for many parameters.
   */
  lemma RefactoringSuggestionShape(p: Index.Pattern, id: nat, now: int)
    ensures PatternToRefactoringSuggestion(p, id, now).None?
      <==> p.kind in {Index.MissingErrorHandling, Index.UnusedImport, Index.TodoMarker}
    ensures PatternToRefactoringSuggestion(p, id, now).Some? ==>
      var r := PatternToRefactoringSuggestion(p, id, now).value;
      && r.kind == Refactoring && r.line == Some(p.line) && r.file == p.file
      && r.source == Static && r.detail.Some? && IsActive(r)
      && r.additionalFiles == [] && r.id == id && r.createdAt == now
      && (r.priority == High <==> p.kind == Index.GodModule)
      && (r.priority == Low <==> p.kind == Index.ManyParameters)
  {
  }

  function AsSeq<T>(o: Option<T>): seq<T>
  {
    match o
    case None => []
    case Some(x) => [x]
  }

  /** The suggestions made from the patterns in order; `ids[i]` is the UUID drawn for pattern `i`. */
  function StaticSuggestions(patterns: seq<Index.Pattern>, ids: seq<nat>, now: int): (r: seq<Suggestion>)
    requires |ids| == |patterns|
    ensures |r| <= |patterns|
  {
    if patterns == [] then []
    else
      var n := |patterns| - 1;
      StaticSuggestions(patterns[..n], ids[..n], now) + AsSeq(PatternToRefactoringSuggestion(patterns[n], ids[n], now))
  }

  lemma StaticSuggestionsStep(patterns: seq<Index.Pattern>, ids: seq<nat>, now: int, i: nat)
    requires |ids| == |patterns| && i < |patterns|
    ensures StaticSuggestions(patterns[..i + 1], ids[..i + 1], now)
         == StaticSuggestions(patterns[..i], ids[..i], now) + AsSeq(PatternToRefactoringSuggestion(patterns[i], ids[i], now))
  {
    hide PatternToRefactoringSuggestion;
    assert patterns[..i + 1][..i] == patterns[..i] && ids[..i + 1][..i] == ids[..i];
  }

  /** Each generated suggestion comes from one refactoring pattern and cites its file and line. */
  lemma {:induction false} StaticSuggestionsSound(patterns: seq<Index.Pattern>, ids: seq<nat>, now: int, i: nat)
    requires |ids| == |patterns| && i < |StaticSuggestions(patterns, ids, now)|
    ensures exists j :: 0 <= j < |patterns| && PatternToRefactoringSuggestion(patterns[j], ids[j], now)
                          == Some(StaticSuggestions(patterns, ids, now)[i])
  {
    hide PatternToRefactoringSuggestion;
    var n := |patterns| - 1;
    var prefix := StaticSuggestions(patterns[..n], ids[..n], now);
    if i < |prefix| {
      StaticSuggestionsSound(patterns[..n], ids[..n], now, i);
      var j :| 0 <= j < n && PatternToRefactoringSuggestion(patterns[..n][j], ids[..n][j], now) == Some(prefix[i]);
      assert patterns[..n][j] == patterns[j] && ids[..n][j] == ids[j];
    } else {
      assert PatternToRefactoringSuggestion(patterns[n], ids[n], now) == Some(StaticSuggestions(patterns, ids, now)[i]);
    }
  }

  /** Number of patterns that yield a refactoring suggestion. */
  function RefactoringPatternCount(patterns: seq<Index.Pattern>): nat
  {
    if patterns == [] then 0
    else
      var last := patterns[|patterns| - 1].kind;
      RefactoringPatternCount(patterns[..|patterns| - 1])
        + (if last in {Index.MissingErrorHandling, Index.UnusedImport, Index.TodoMarker} then 0 else 1)
  }

  /** One suggestion per refactoring-related pattern, none for the others. */
  lemma {:induction false} StaticSuggestionsCount(patterns: seq<Index.Pattern>, ids: seq<nat>, now: int)
    requires |ids| == |patterns|
    ensures |StaticSuggestions(patterns, ids, now)| == RefactoringPatternCount(patterns)
  {
    if patterns != [] {
      var n := |patterns| - 1;
      StaticSuggestionsCount(patterns[..n], ids[..n], now);
      RefactoringSuggestionShape(patterns[n], ids[n], now);
    }
  }

  // ---- the engine ----

  /**
   * `SuggestionEngine`: the stored suggestions and the index they came from.
   * `graph` holds each indexed file's `used_by`/`depends_on` summary.
   */
  class SuggestionEngine {
    var suggestions: seq<Suggestion>
    const index: Index.CodebaseIndex
    const graph: map<string, FileSummary>

    /** `SuggestionEngine::new` starts empty. */
    constructor (index: Index.CodebaseIndex, graph: map<string, FileSummary>)
      ensures suggestions == [] && this.index == index && this.graph == graph
    {
      suggestions := [];
      this.index := index;
      this.graph := graph;
    }

    function ActiveSuggestions(): seq<Suggestion>
      reads this
    {
      Active(suggestions)
    }

    function CurrentCounts(): SuggestionCounts
      reads this
    {
      Counts(suggestions)
    }

    /** The search of `iter_mut().find(|s| s.id == id)`. */
    method FindById(id: nat) returns (r: Option<nat>)
      ensures r == FirstIndexOf(suggestions, id)
    {
      var i := 0;
      while i < |suggestions| && suggestions[i].id != id
        invariant 0 <= i <= |suggestions|
        invariant forall k :: 0 <= k < i ==> suggestions[k].id != id
      {
        i := i + 1;
      }
      if i < |suggestions| {
        r := Some(i);
      } else {
        r := None;
      }
      FirstIndexFound(suggestions, id, r);
    }

    method Edit(id: nat, e: FlagEdit)
      modifies this
      ensures suggestions == EditFirst(old(suggestions), id, e)
    {
      var found := FindById(id);
      if found.Some? {
        var k := found.value;
        suggestions := suggestions[k := WithFlag(suggestions[k], e)];
      }
    }

    /** `dismiss`. */
    method DismissSuggestion(id: nat)
      modifies this
      ensures suggestions == EditFirst(old(suggestions), id, Dismiss)
    {
      Edit(id, Dismiss);
    }

    /** `mark_applied`. */
    method MarkSuggestionApplied(id: nat)
      modifies this
      ensures suggestions == EditFirst(old(suggestions), id, MarkApplied)
    {
      Edit(id, MarkApplied);
    }

    /** `unmark_applied`. */
    method UnmarkSuggestionApplied(id: nat)
      modifies this
      ensures suggestions == EditFirst(old(suggestions), id, UnmarkApplied)
    {
      Edit(id, UnmarkApplied);
    }

    /** `add_llm_suggestion`: push, then the library's stable sort by priority, highest first. */
    method AddLlmSuggestion(s: Suggestion)
      modifies this
      ensures suggestions == Sorting.SortBy(old(suggestions) + [s], PriorityKey)
    {
      suggestions := suggestions + [s];
      suggestions := Sorting.SortBy(suggestions, PriorityKey);
    }

    /** `generate_static_suggestions`: one push per refactoring pattern, then the priority sort. */
    method GenerateStaticSuggestions(ids: seq<nat>, now: int)
      requires |ids| == |index.patterns|
      modifies this
      ensures suggestions == Sorting.SortBy(old(suggestions) + StaticSuggestions(index.patterns, ids, now), PriorityKey)
    {
      var made := CollectStaticSuggestions(index.patterns, ids, now);
      suggestions := suggestions + made;
      suggestions := Sorting.SortBy(suggestions, PriorityKey);
    }

    /** The two set-building loops of `sort_with_context`. */
    method ComputeBlastRadius(changed: set<string>) returns (blast: set<string>)
      ensures blast == BlastRadius(graph, changed)
    {
      var todo := changed;
      blast := {};
      while todo != {}
        invariant todo <= changed
        invariant blast == Reach(graph, changed - todo)
        decreases |todo|
      {
        var p :| p in todo;
        ReachAdd(graph, changed - todo, p);
        if p in graph {
          blast := blast + Neighbours(graph[p]);
        }
        assert changed - (todo - {p}) == (changed - todo) + {p};
        todo := todo - {p};
      }
      ghost var reach := blast;
      todo := changed;
      while todo != {}
        invariant todo <= changed
        invariant blast == reach - (changed - todo)
        decreases |todo|
      {
        var c :| c in todo;
        blast := blast - {c};
        todo := todo - {c};
      }
    }

    /** `sort_with_context`: the stable sort by the five keys, with the changed files taken as given. */
    method SortWithContext(changed: set<string>)
      modifies this
      ensures suggestions == Sorting.SortBy(old(suggestions), ContextKeyOf(changed, BlastRadius(graph, changed)))
    {
      var blast := ComputeBlastRadius(changed);
      suggestions := Sorting.SortBy(suggestions, ContextKeyOf(changed, blast));
    }
  }

  /** The loop of `generate_static_suggestions` over the index's patterns. */
  method CollectStaticSuggestions(patterns: seq<Index.Pattern>, ids: seq<nat>, now: int) returns (made: seq<Suggestion>)
    requires |ids| == |patterns|
    ensures made == StaticSuggestions(patterns, ids, now)
  {
    hide PatternToRefactoringSuggestion;
    made := [];
    var i := 0;
    while i < |patterns|
      invariant 0 <= i <= |patterns|
      invariant made == StaticSuggestions(patterns[..i], ids[..i], now)
    {
      StaticSuggestionsStep(patterns, ids, now, i);
      var next := PatternToRefactoringSuggestion(patterns[i], ids[i], now);
      if next.Some? {
        made := made + [next.value];
      }
      i := i + 1;
    }
    assert patterns[..i] == patterns && ids[..i] == ids;
  }

  lemma FirstIndexFound(s: seq<Suggestion>, id: nat, r: Option<nat>)
    requires r.Some? ==> r.value < |s| && s[r.value].id == id && forall k :: 0 <= k < r.value ==> s[k].id != id
    requires r.None? ==> forall k :: 0 <= k < |s| ==> s[k].id != id
    ensures r == FirstIndexOf(s, id)
  {
    var f := FirstIndexOf(s, id);
    if r.Some? && f.Some? {
      assert !(f.value < r.value) && !(r.value < f.value);
    }
  }
}
