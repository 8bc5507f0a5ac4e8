/**
 * `src/grouping/llm_enhance.rs`: the optional language-model pass that
 * refines the layer and feature of ambiguous files.
 *
 * The grouping types live in `src/grouping/mod.rs`, which is not part of this
 * model; they are reduced here to the fields this file reads and writes. Its
 * `get_layer` and `reassign_file` are parameters, and so is the list
 * `low_confidence_files` returns. The HTTP exchange is a sequence of replies,
 * one per request; the prompts are not modelled. `PathBuf` ordering is a
 * parameter too: any strict total order on paths.
 *
 * The hash map of layer groups is iterated in the declaration order of
 * `Layer`; every result here (a sum, a sorted list, per-group edits) is
 * independent of that order.
 */
module Grouping {
  import opened Results
  import opened Strings

  datatype Layer = Frontend | Backend | API | Database | Shared | Config | Tests | Infra | Unknown

  datatype Confidence = High | Medium | Low

  datatype Feature = Feature(name: string, files: seq<string>)

  datatype LayerGroup = LayerGroup(features: seq<Feature>, ungroupedFiles: seq<string>)

  datatype FileAssignment = FileAssignment(layer: Layer, confidence: Confidence, feature: Option<string>)

  /** One entry of the model's answer (`FileGroupingResponse`). */
  datatype FileGroupingResponse = FileGroupingResponse(path: string, layer: string, feature: Option<string>, confidence: string)

  /** `MIN_MISC_FOR_LLM`. */
  const MinMiscForLlm := 5

  /** `MAX_BATCH_SIZE`. */
  const MaxBatchSize := 50

  /** The layers in declaration order, the order the layer groups are visited in. */
  const AllLayers := [Frontend, Backend, API, Database, Shared, Config, Tests, Infra, Unknown]

  // ---- parse_layer / parse_confidence ----

  /** `parse_layer`: the lower-cased name, with "test"/"tests" and "infra"/"infrastructure" as aliases; anything else is Unknown. */
  function ParseLayer(s: string): (l: Layer)
    ensures l == Frontend <==> ToLower(s) == "frontend"
    ensures l == Backend <==> ToLower(s) == "backend"
    ensures l == API <==> ToLower(s) == "api"
    ensures l == Database <==> ToLower(s) == "database"
    ensures l == Shared <==> ToLower(s) == "shared"
    ensures l == Config <==> ToLower(s) == "config"
    ensures l == Tests <==> ToLower(s) == "tests" || ToLower(s) == "test"
    ensures l == Infra <==> ToLower(s) == "infra" || ToLower(s) == "infrastructure"
  {
    var t := ToLower(s);
    if t == "frontend" then Frontend
    else if t == "backend" then Backend
    else if t == "api" then API
    else if t == "database" then Database
    else if t == "shared" then Shared
    else if t == "config" then Config
    else if t == "tests" || t == "test" then Tests
    else if t == "infra" || t == "infrastructure" then Infra
    else Unknown
  }

  /** `parse_confidence`: "high", "medium" or "med" in any case; anything else is Low. */
  function ParseConfidence(s: string): (c: Confidence)
    ensures c == High <==> ToLower(s) == "high"
    ensures c == Medium <==> ToLower(s) == "medium" || ToLower(s) == "med"
  {
    var t := ToLower(s);
    if t == "high" then High
    else if t == "medium" || t == "med" then Medium
    else Low
  }

  /** Lower-casing an upper-cased character gives the lower-cased character. */
  lemma LowerOfUpper(s: string)
    ensures ToLower(ToUpper(s)) == ToLower(s)
  {
  }

  /** Both parsers ignore case. */
  lemma ParsersIgnoreCase(s: string)
    ensures ParseLayer(ToUpper(s)) == ParseLayer(s)
    ensures ParseConfidence(ToUpper(s)) == ParseConfidence(s)
  {
    LowerOfUpper(s);
  }

  /** The program's own checks on `parse_layer` and `parse_confidence`. */
  lemma ParseExamples()
    ensures ParseLayer("Frontend") == Frontend && ParseLayer("BACKEND") == Backend
    ensures ParseLayer("api") == API && ParseLayer("unknown") == Unknown
    ensures ParseConfidence("high") == High && ParseConfidence("medium") == Medium && ParseConfidence("low") == Low
  {
    assert ToLower("Frontend") == "frontend";
    assert ToLower("BACKEND") == "backend";
    assert ToLower("api") == "api";
    assert ToLower("unknown") == "unknown";
    assert ToLower("high") == "high";
    assert ToLower("medium") == "medium";
    assert ToLower("low") == "low";
  }

  // ---- should_enhance / count_misc_files ----

  /** A feature that `count_misc_files` and `collect_ambiguous_files` treat as a catch-all. */
  predicate IsMisc(f: Feature) { StartsWith(f.name, "other") }

  /** The files of the catch-all features among the first `n` features, in order. */
  function MiscFeatureFiles(features: seq<Feature>, n: nat): seq<string>
    requires n <= |features|
  {
    if n == 0 then []
    else MiscFeatureFiles(features, n - 1) + (if IsMisc(features[n - 1]) then features[n - 1].files else [])
  }

  /** The catch-all files of the groups of the first `n` layers, in order. */
  function MiscFiles(groups: map<Layer, LayerGroup>, n: nat): seq<string>
    requires n <= |AllLayers|
  {
    if n == 0 then []
    else
      var layer := AllLayers[n - 1];
      MiscFiles(groups, n - 1)
      + (if layer in groups then MiscFeatureFiles(groups[layer].features, |groups[layer].features|) else [])
  }

  /** A path is a catch-all file exactly when some catch-all feature of some group lists it. */
  lemma {:induction false} MiscFeatureFilesMembers(features: seq<Feature>, n: nat, p: string)
    requires n <= |features|
    ensures p in MiscFeatureFiles(features, n) <==> exists i :: 0 <= i < n && IsMisc(features[i]) && p in features[i].files
    decreases n
  {
    if n > 0 {
      MiscFeatureFilesMembers(features, n - 1, p);
    }
  }

  /** `count_misc_files`: the number of files listed in catch-all features, over all groups. */
  function CountMiscFiles(groups: map<Layer, LayerGroup>): nat
  {
    |MiscFiles(groups, |AllLayers|)|
  }

  /**
   * `should_enhance`: only with a key available, and only when at least five
   * files have a low-confidence layer or at least five sit in catch-all features.
   */
  function ShouldEnhance(available: bool, lowConfidence: seq<string>, groups: map<Layer, LayerGroup>): bool
  {
    available && (|lowConfidence| >= MinMiscForLlm || CountMiscFiles(groups) >= MinMiscForLlm)
  }

  /** With no catch-all feature and fewer than five low-confidence files there is nothing to enhance. */
  lemma {:induction false} NoMiscNoEnhance(available: bool, lowConfidence: seq<string>, groups: map<Layer, LayerGroup>)
    requires |lowConfidence| < MinMiscForLlm
    requires forall l :: l in groups ==> forall i :: 0 <= i < |groups[l].features| ==> !IsMisc(groups[l].features[i])
    ensures !ShouldEnhance(available, lowConfidence, groups)
  {
    NoMiscFiles(groups, |AllLayers|);
  }

  /**
   * With a key available, five low-confidence files, or five files listed
   * by one catch-all feature of any group, are enough to ask for enhancement.
   */
  lemma EnhanceWhenAmbiguous(available: bool, lowConfidence: seq<string>, groups: map<Layer, LayerGroup>, l: Layer, i: nat)
    requires available
    requires || |lowConfidence| >= MinMiscForLlm
             || (l in groups && i < |groups[l].features| && IsMisc(groups[l].features[i])
                 && |groups[l].features[i].files| >= MinMiscForLlm)
    ensures ShouldEnhance(available, lowConfidence, groups)
  {
    if |lowConfidence| < MinMiscForLlm {
      var features := groups[l].features;
      MiscFeatureFilesHold(features, |features|, i);
      var k := match l
        case Frontend => 0 case Backend => 1 case API => 2 case Database => 3 case Shared => 4
        case Config => 5 case Tests => 6 case Infra => 7 case Unknown => 8;
      assert AllLayers[k] == l;
      MiscFilesHold(groups, |AllLayers|, k);
    }
  }

  lemma {:induction false} MiscFeatureFilesHold(features: seq<Feature>, n: nat, i: nat)
    requires i < n <= |features| && IsMisc(features[i])
    ensures |MiscFeatureFiles(features, n)| >= |features[i].files|
    decreases n
  {
    if i < n - 1 {
      MiscFeatureFilesHold(features, n - 1, i);
    }
  }

  lemma {:induction false} MiscFilesHold(groups: map<Layer, LayerGroup>, n: nat, k: nat)
    requires k < n <= |AllLayers| && AllLayers[k] in groups
    ensures |MiscFiles(groups, n)| >= |MiscFeatureFiles(groups[AllLayers[k]].features, |groups[AllLayers[k]].features|)|
    decreases n
  {
    if k < n - 1 {
      MiscFilesHold(groups, n - 1, k);
    }
  }

  lemma {:induction false} NoMiscFiles(groups: map<Layer, LayerGroup>, n: nat)
    requires n <= |AllLayers|
    requires forall l :: l in groups ==> forall i :: 0 <= i < |groups[l].features| ==> !IsMisc(groups[l].features[i])
    ensures MiscFiles(groups, n) == []
    decreases n
  {
    if n > 0 {
      NoMiscFiles(groups, n - 1);
      var layer := AllLayers[n - 1];
      if layer in groups {
        NoMiscFeatureFiles(groups[layer].features, |groups[layer].features|);
      }
    }
  }

  lemma {:induction false} NoMiscFeatureFiles(features: seq<Feature>, n: nat)
    requires n <= |features|
    requires forall i :: 0 <= i < |features| ==> !IsMisc(features[i])
    ensures MiscFeatureFiles(features, n) == []
    decreases n
  {
    if n > 0 {
      NoMiscFeatureFiles(features, n - 1);
    }
  }

  // ---- collect_ambiguous_files ----

  /** `less` is a strict total order, as `Ord` on `PathBuf` is. */
  ghost predicate StrictTotalOrder(less: (string, string) -> bool)
  {
    && (forall a :: !less(a, a))
    && (forall a, b, c :: less(a, b) && less(b, c) ==> less(a, c))
    && (forall a, b :: a != b ==> less(a, b) || less(b, a))
  }

  /** The elements of a list, as a set. */
  function Members(s: seq<string>): set<string> { set p | p in s }

  /** Strictly increasing, hence free of duplicates. */
  predicate StrictlySorted(s: seq<string>, less: (string, string) -> bool)
  {
    forall i, j :: 0 <= i < j < |s| ==> less(s[i], s[j])
  }

  /** `x` put into its place in a strictly sorted list, unless it is already there. */
  function InsertUnique(x: string, s: seq<string>, less: (string, string) -> bool): seq<string>
  {
    if s == [] then [x]
    else if x == s[0] then s
    else if less(x, s[0]) then [x] + s
    else [s[0]] + InsertUnique(x, s[1..], less)
  }

  /** `sort` followed by `dedup`: the distinct elements of `s` in increasing order. */
  function SortDedup(s: seq<string>, less: (string, string) -> bool): seq<string>
  {
    if s == [] then [] else InsertUnique(s[|s| - 1], SortDedup(s[..|s| - 1], less), less)
  }

  lemma {:induction false} InsertUniqueMembers(x: string, s: seq<string>, less: (string, string) -> bool)
    ensures Members(InsertUnique(x, s, less)) == Members(s) + {x}
    decreases |s|
  {
    if s != [] && x != s[0] && !less(x, s[0]) {
      var t := s[1..];
      InsertUniqueMembers(x, t, less);
      assert s == [s[0]] + t;
      assert Members(s) == {s[0]} + Members(t);
      assert Members([s[0]] + InsertUnique(x, t, less)) == {s[0]} + Members(InsertUnique(x, t, less));
    }
  }

  lemma {:induction false} InsertUniqueSorted(x: string, s: seq<string>, less: (string, string) -> bool)
    requires StrictTotalOrder(less) && StrictlySorted(s, less)
    ensures StrictlySorted(InsertUnique(x, s, less), less)
    decreases |s|
  {
    if s != [] && x != s[0] && !less(x, s[0]) {
      var t := s[1..];
      assert forall i :: 0 <= i < |t| ==> t[i] == s[i + 1];
      InsertUniqueSorted(x, t, less);
      InsertUniqueMembers(x, t, less);
      var r := InsertUnique(x, t, less);
      forall i | 0 <= i < |r|
        ensures less(s[0], r[i])
      {
        assert r[i] in Members(r);
        if r[i] != x {
          assert r[i] in Members(t);
          var j :| 0 <= j < |t| && t[j] == r[i];
          assert s[j + 1] == r[i];
        }
      }
    }
  }

  /** Sorting and deduplicating yields a strictly increasing list of exactly the elements of the input. */
  lemma {:induction false} SortDedupFacts(s: seq<string>, less: (string, string) -> bool)
    requires StrictTotalOrder(less)
    ensures StrictlySorted(SortDedup(s, less), less)
    ensures Members(SortDedup(s, less)) == Members(s)
    decreases |s|
  {
    if s != [] {
      var init := s[..|s| - 1];
      SortDedupFacts(init, less);
      InsertUniqueSorted(s[|s| - 1], SortDedup(init, less), less);
      InsertUniqueMembers(s[|s| - 1], SortDedup(init, less), less);
      assert s == init + [s[|s| - 1]];
      assert Members(s) == Members(init) + {s[|s| - 1]};
    }
  }

  /** What `collect_ambiguous_files` gathers before sorting: the low-confidence files, then the catch-all files. */
  function Gathered(lowConfidence: seq<string>, groups: map<Layer, LayerGroup>): seq<string>
  {
    lowConfidence + MiscFiles(groups, |AllLayers|)
  }

  /**
   * `collect_ambiguous_files`: the low-confidence files and the files of every
   * catch-all feature, sorted and without duplicates.
   */
  method CollectAmbiguousFiles(lowConfidence: seq<string>, groups: map<Layer, LayerGroup>, less: (string, string) -> bool)
    returns (files: seq<string>)
    ensures files == SortDedup(Gathered(lowConfidence, groups), less)
  {
    hide SortDedup;
    files := [];
    for i := 0 to |lowConfidence|
      invariant files == lowConfidence[..i]
    {
      files := files + [lowConfidence[i]];
    }
    assert lowConfidence[..|lowConfidence|] == lowConfidence;
    for n := 0 to |AllLayers|
      invariant files == lowConfidence + MiscFiles(groups, n)
    {
      var layer := AllLayers[n];
      if layer in groups {
        var more := CollectMiscFeatureFiles(groups[layer].features);
        files := files + more;
      }
    }
    files := SortDedup(files, less);
  }

  /** The inner loop of `collect_ambiguous_files`: the files of the catch-all features of one group. */
  method CollectMiscFeatureFiles(features: seq<Feature>) returns (files: seq<string>)
    ensures files == MiscFeatureFiles(features, |features|)
  {
    files := [];
    for k := 0 to |features|
      invariant files == MiscFeatureFiles(features, k)
    {
      if StartsWith(features[k].name, "other") {
        files := files + features[k].files;
      }
    }
  }

  /**
   * The result is strictly sorted (so duplicate-free) and holds exactly the
   * low-confidence files and the files of catch-all features.
   */
  lemma AmbiguousFilesFacts(lowConfidence: seq<string>, groups: map<Layer, LayerGroup>, less: (string, string) -> bool)
    requires StrictTotalOrder(less)
    ensures var files := SortDedup(Gathered(lowConfidence, groups), less);
      && StrictlySorted(files, less)
      && forall p :: p in files <==> p in lowConfidence || p in MiscFiles(groups, |AllLayers|)
  {
    var all := Gathered(lowConfidence, groups);
    SortDedupFacts(all, less);
    forall p
      ensures p in SortDedup(all, less) <==> p in lowConfidence || p in MiscFiles(groups, |AllLayers|)
    {
      assert p in SortDedup(all, less) <==> p in Members(SortDedup(all, less));
      assert p in all <==> p in Members(all);
    }
  }

  // ---- apply_response ----

  /** The part of `CodebaseGrouping` that `apply_response` reads and writes. */
  datatype GroupingState = GroupingState(groups: map<Layer, LayerGroup>, assignments: map<string, FileAssignment>)

  /** `get_layer` and `reassign_file` of `CodebaseGrouping`, defined in `src/grouping/mod.rs`. */
  datatype GroupingOps = GroupingOps(
    getLayer: (GroupingState, string) -> Option<Layer>,
    reassign: (GroupingState, string, Layer, Confidence) -> GroupingState)

  /** `files.retain(|p| p != path)`. */
  function Without(files: seq<string>, path: string): (r: seq<string>)
    ensures path !in r && |r| <= |files|
    ensures forall q :: q != path ==> (q in r <==> q in files)
  {
    if files == [] then []
    else (if files[0] == path then [] else [files[0]]) + Without(files[1..], path)
  }

  /** Every feature of the group with `path` retained away. */
  function RemoveFromFeatures(features: seq<Feature>, path: string): (r: seq<Feature>)
    ensures |r| == |features|
    ensures forall i :: 0 <= i < |r| ==> r[i].name == features[i].name && path !in r[i].files
  {
    seq(|features|, i requires 0 <= i < |features| => features[i].(files := Without(features[i].files, path)))
  }

  /** `iter_mut().find(|f| f.name == feature_name)`: the first feature of that name. */
  function FindFeature(features: seq<Feature>, name: string): (r: Option<nat>)
    ensures r.Some? ==> r.value < |features| && features[r.value].name == name
    ensures r.Some? ==> forall j :: 0 <= j < r.value ==> features[j].name != name
    ensures r.None? ==> forall j :: 0 <= j < |features| ==> features[j].name != name
  {
    if features == [] then None
    else if features[0].name == name then Some(0)
    else match FindFeature(features[1..], name)
      case None => None
      case Some(i) => Some(i + 1)
  }

  /** The feature step for one group: out of every feature and the ungrouped list, into the named feature (made if missing). */
  function PlaceInGroup(g: LayerGroup, path: string, name: string): LayerGroup
  {
    var cleared := RemoveFromFeatures(g.features, path);
    var ungrouped := Without(g.ungroupedFiles, path);
    match FindFeature(cleared, name)
    case Some(i) => LayerGroup(cleared[i := cleared[i].(files := cleared[i].files + [path])], ungrouped)
    case None => LayerGroup(cleared + [Feature(name, [path])], ungrouped)
  }

  /** The layer step: reassign when the layer changes, otherwise only refresh the confidence of an assigned file. */
  function Relayer(st: GroupingState, path: string, layer: Layer, confidence: Confidence, ops: GroupingOps): GroupingState
  {
    if ops.getLayer(st, path) != Some(layer) then ops.reassign(st, path, layer, confidence)
    else if path in st.assignments then
      st.(assignments := st.assignments[path := st.assignments[path].(confidence := confidence)])
    else st
  }

  /** The feature a response entry names, when it names a non-empty one. */
  predicate NamesFeature(item: FileGroupingResponse) { item.feature.Some? && item.feature.value != "" }

  /** One iteration of the loop of `apply_response`. */
  function ApplyItem(st: GroupingState, item: FileGroupingResponse, ops: GroupingOps): GroupingState
  {
    var layer := ParseLayer(item.layer);
    var next := Relayer(st, item.path, layer, ParseConfidence(item.confidence), ops);
    if NamesFeature(item) && layer in next.groups then
      GroupingState(
        next.groups[layer := PlaceInGroup(next.groups[layer], item.path, item.feature.value)],
        if item.path in next.assignments
        then next.assignments[item.path := next.assignments[item.path].(feature := item.feature)]
        else next.assignments)
    else next
  }

  /** The first `n` entries applied in order. */
  function ApplyItems(st: GroupingState, items: seq<FileGroupingResponse>, ops: GroupingOps, n: nat): GroupingState
    requires n <= |items|
  {
    if n == 0 then st else ApplyItem(ApplyItems(st, items, ops, n - 1), items[n - 1], ops)
  }

  /** `features.retain(|f| !f.files.is_empty())`. */
  function NonEmptyFeatures(features: seq<Feature>): (r: seq<Feature>)
    ensures forall f :: f in r <==> f in features && f.files != []
  {
    if features == [] then []
    else (if features[0].files == [] then [] else [features[0]]) + NonEmptyFeatures(features[1..])
  }

  /** The clean-up at the end of `apply_response`, over every group. */
  function DropEmptyFeatures(groups: map<Layer, LayerGroup>): (r: map<Layer, LayerGroup>)
    ensures r.Keys == groups.Keys
    ensures forall l :: l in r ==> r[l].ungroupedFiles == groups[l].ungroupedFiles
  {
    map l | l in groups :: groups[l].(features := NonEmptyFeatures(groups[l].features))
  }

  /** What `apply_response` leaves: every entry applied in order, then the empty features dropped. */
  function ApplyResponseSpec(st: GroupingState, items: seq<FileGroupingResponse>, ops: GroupingOps): GroupingState
  {
    var applied := ApplyItems(st, items, ops, |items|);
    applied.(groups := DropEmptyFeatures(applied.groups))
  }

  /** How many times `path` occurs across the files of all the features. */
  function Occurrences(features: seq<Feature>, path: string): nat
  {
    if features == [] then 0 else multiset(features[0].files)[path] + Occurrences(features[1..], path)
  }

  /**
   * `path` occurs once across all the features of the group, in a feature
   * named `name`, and not among the ungrouped files: so it is in that feature
   * exactly once and in no other.
   */
  ghost predicate PlacedIn(g: LayerGroup, path: string, name: string)
  {
    && Occurrences(g.features, path) == 1
    && path !in g.ungroupedFiles
    && exists f :: f in g.features && f.name == name && path in f.files
  }

  lemma {:induction false} OccurrencesNone(features: seq<Feature>, path: string)
    requires forall i :: 0 <= i < |features| ==> path !in features[i].files
    ensures Occurrences(features, path) == 0
    decreases |features|
  {
    if features != [] {
      OccurrencesNone(features[1..], path);
    }
  }

  lemma {:induction false} OccurrencesAppend(features: seq<Feature>, f: Feature, path: string)
    ensures Occurrences(features + [f], path) == Occurrences(features, path) + multiset(f.files)[path]
    decreases |features|
  {
    if features != [] {
      assert (features + [f])[1..] == features[1..] + [f];
      OccurrencesAppend(features[1..], f, path);
    }
  }

  lemma {:induction false} OccurrencesUpdate(features: seq<Feature>, i: nat, f: Feature, path: string)
    requires i < |features|
    ensures Occurrences(features[i := f], path) + multiset(features[i].files)[path]
      == Occurrences(features, path) + multiset(f.files)[path]
    decreases |features|
  {
    if i > 0 {
      assert features[i := f][1..] == features[1..][i - 1 := f];
      OccurrencesUpdate(features[1..], i - 1, f, path);
    }
  }

  /** Dropping empty features removes no file. */
  lemma {:induction false} OccurrencesNonEmpty(features: seq<Feature>, path: string)
    ensures Occurrences(NonEmptyFeatures(features), path) == Occurrences(features, path)
    decreases |features|
  {
    if features != [] {
      OccurrencesNonEmpty(features[1..], path);
      var rest := NonEmptyFeatures(features[1..]);
      if features[0].files == [] {
        assert NonEmptyFeatures(features) == rest;
      } else {
        var kept := [features[0]] + rest;
        assert NonEmptyFeatures(features) == kept;
        assert kept[0] == features[0] && kept[1..] == rest;
      }
    }
  }

  /**
   * An entry that names a feature puts its file into exactly that feature of
   * its new layer's group, once, and nowhere else in that group.
   */
  lemma PlaceInGroupPlaces(g: LayerGroup, path: string, name: string)
    ensures PlacedIn(PlaceInGroup(g, path, name), path, name)
  {
    var cleared := RemoveFromFeatures(g.features, path);
    var r := PlaceInGroup(g, path, name);
    OccurrencesNone(cleared, path);
    match FindFeature(cleared, name)
    case Some(i) =>
      var f := cleared[i].(files := cleared[i].files + [path]);
      OccurrencesUpdate(cleared, i, f, path);
      assert multiset(cleared[i].files)[path] == 0;
      assert r.features[i] == f && f in r.features;
    case None =>
      var f := Feature(name, [path]);
      OccurrencesAppend(cleared, f, path);
      assert r.features[|cleared|] == f;
  }

  /**
   * `apply_response` on one entry naming a feature: the file ends up placed in
   * that feature of its new layer's group, the other groups are as the layer
   * step left them, and an assigned file records the feature.
   */
  lemma ApplyItemPlaces(st: GroupingState, item: FileGroupingResponse, ops: GroupingOps)
    requires NamesFeature(item)
    requires ParseLayer(item.layer) in Relayer(st, item.path, ParseLayer(item.layer), ParseConfidence(item.confidence), ops).groups
    ensures var layer := ParseLayer(item.layer);
      var next := Relayer(st, item.path, layer, ParseConfidence(item.confidence), ops);
      var r := ApplyItem(st, item, ops);
      && layer in r.groups && PlacedIn(r.groups[layer], item.path, item.feature.value)
      && (forall l :: l in next.groups && l != layer ==> l in r.groups && r.groups[l] == next.groups[l])
      && (item.path in next.assignments ==> r.assignments[item.path].feature == item.feature)
  {
    var layer := ParseLayer(item.layer);
    var next := Relayer(st, item.path, layer, ParseConfidence(item.confidence), ops);
    PlaceInGroupPlaces(next.groups[layer], item.path, item.feature.value);
  }

  /** After the clean-up no group keeps an empty feature, and every non-empty feature is kept. */
  lemma DropEmptyFeaturesFacts(groups: map<Layer, LayerGroup>)
    ensures var r := DropEmptyFeatures(groups);
      forall l :: l in r ==>
        && (forall i :: 0 <= i < |r[l].features| ==> r[l].features[i].files != [])
        && (forall f :: f in groups[l].features && f.files != [] ==> f in r[l].features)
  {
    var r := DropEmptyFeatures(groups);
    forall l, i | l in r && 0 <= i < |r[l].features|
      ensures r[l].features[i].files != []
    {
      assert r[l].features[i] in r[l].features;
    }
  }

  /** The clean-up keeps a placed file placed: its feature is not empty. */
  lemma PlacementSurvivesCleanup(g: LayerGroup, path: string, name: string)
    requires PlacedIn(g, path, name)
    ensures PlacedIn(g.(features := NonEmptyFeatures(g.features)), path, name)
  {
    OccurrencesNonEmpty(g.features, path);
    var f :| f in g.features && f.name == name && path in f.files;
    assert f in NonEmptyFeatures(g.features);
  }

  // ---- enhance_grouping ----

  /**
   * The files `build_file_context` can describe: those with an index entry
   * (`indexed`) and a layer assignment, in their order.
   */
  function WithContext(files: seq<string>, indexed: set<string>, assignments: map<string, FileAssignment>): (r: seq<string>)
    ensures |r| <= |files|
    ensures forall p :: p in r <==> p in files && p in indexed && p in assignments
  {
    if files == [] then []
    else
      (if files[0] in indexed && files[0] in assignments then [files[0]] else [])
      + WithContext(files[1..], indexed, assignments)
  }

  /**
   * `filter_map(build_file_context).take(MAX_BATCH_SIZE)`: the first fifty
   * describable files, or all of them when there are fewer.
   */
  function ContextBatch(files: seq<string>, indexed: set<string>, assignments: map<string, FileAssignment>): (r: seq<string>)
    ensures |r| <= MaxBatchSize
    ensures forall p :: p in r ==> p in files && p in indexed && p in assignments
    ensures r <= WithContext(files, indexed, assignments)
    ensures |r| < MaxBatchSize ==> r == WithContext(files, indexed, assignments)
  {
    var all := WithContext(files, indexed, assignments);
    if |all| <= MaxBatchSize then all else all[..MaxBatchSize]
  }

  /** Every file sent is ambiguous, indexed and assigned, and at most fifty are sent. */
  lemma BatchIsAmbiguous(lowConfidence: seq<string>, groups: map<Layer, LayerGroup>, indexed: set<string>,
                         assignments: map<string, FileAssignment>, less: (string, string) -> bool)
    requires StrictTotalOrder(less)
    ensures var batch := ContextBatch(SortDedup(Gathered(lowConfidence, groups), less), indexed, assignments);
      && |batch| <= MaxBatchSize
      && forall p :: p in batch ==>
           (p in lowConfidence || p in MiscFiles(groups, |AllLayers|)) && p in indexed && p in assignments
  {
    AmbiguousFilesFacts(lowConfidence, groups, less);
  }

  /** What `call_llm_json` settles on when its requests are answered by `reply`. */
  function CallOutcome<T, U>(reply: nat -> Reply<U>, decode: string -> Result<T, string>): Result<(T, Option<U>), LlmError>
  {
    var n := Requests(reply, 0);
    Settle(reply(n - 1), n - 1, decode)
  }

  /** The grouping being refined; `apply_response` and `enhance_grouping` edit it in place. */
  class CodebaseGrouping {
    var groups: map<Layer, LayerGroup>
    var assignments: map<string, FileAssignment>
    var llmEnhanced: bool

    constructor(groups: map<Layer, LayerGroup>, assignments: map<string, FileAssignment>)
      ensures this.groups == groups && this.assignments == assignments && !llmEnhanced
    {
      this.groups := groups;
      this.assignments := assignments;
      llmEnhanced := false;
    }

    function State(): GroupingState
      reads this
    {
      GroupingState(groups, assignments)
    }

    /** One iteration of the loop of `apply_response`. */
    method ApplyFileResponse(item: FileGroupingResponse, ops: GroupingOps)
      modifies this
      ensures State() == ApplyItem(old(State()), item, ops)
      ensures llmEnhanced == old(llmEnhanced)
    {
      var path := item.path;
      var newLayer := ParseLayer(item.layer);
      var confidence := ParseConfidence(item.confidence);
      var currentLayer := ops.getLayer(State(), path);
      if currentLayer != Some(newLayer) {
        var next := ops.reassign(State(), path, newLayer, confidence);
        groups, assignments := next.groups, next.assignments;
      } else if path in assignments {
        assignments := assignments[path := assignments[path].(confidence := confidence)];
      }
      if item.feature.Some? {
        var featureName := item.feature.value;
        if featureName != "" && newLayer in groups {
          var group := groups[newLayer];
          var features := group.features;
          for i := 0 to |features|
            invariant |features| == |group.features|
            invariant forall k :: 0 <= k < i ==> features[k] == group.features[k].(files := Without(group.features[k].files, path))
            invariant forall k :: i <= k < |features| ==> features[k] == group.features[k]
          {
            features := features[i := features[i].(files := Without(features[i].files, path))];
          }
          assert features == RemoveFromFeatures(group.features, path);
          var ungrouped := Without(group.ungroupedFiles, path);
          match FindFeature(features, featureName) {
            case Some(i) =>
              features := features[i := features[i].(files := features[i].files + [path])];
            case None =>
              features := features + [Feature(featureName, [path])];
          }
          groups := groups[newLayer := LayerGroup(features, ungrouped)];
          if path in assignments {
            assignments := assignments[path := assignments[path].(feature := Some(featureName))];
          }
        }
      }
    }

    /** The clean-up loop of `apply_response`: every group loses its empty features, in any order. */
    method DropEmpty()
      modifies this
      ensures groups == DropEmptyFeatures(old(groups))
      ensures assignments == old(assignments) && llmEnhanced == old(llmEnhanced)
    {
      var todo := groups.Keys;
      while todo != {}
        invariant todo <= groups.Keys && groups.Keys == old(groups).Keys
        invariant forall l :: l in groups ==>
          groups[l] == if l in todo then old(groups)[l] else old(groups)[l].(features := NonEmptyFeatures(old(groups)[l].features))
        invariant assignments == old(assignments) && llmEnhanced == old(llmEnhanced)
        decreases |todo|
      {
        var layer :| layer in todo;
        groups := groups[layer := groups[layer].(features := NonEmptyFeatures(groups[layer].features))];
        todo := todo - {layer};
      }
    }

    /** `apply_response(grouping, response)`: every entry in order, then the empty features dropped. */
    method ApplyResponse(items: seq<FileGroupingResponse>, ops: GroupingOps)
      modifies this
      ensures State() == ApplyResponseSpec(old(State()), items, ops)
      ensures llmEnhanced == old(llmEnhanced)
    {
      for n := 0 to |items|
        invariant State() == ApplyItems(old(State()), items, ops, n)
        invariant llmEnhanced == old(llmEnhanced)
      {
        ApplyFileResponse(items[n], ops);
      }
      DropEmpty();
    }

    /**
     * `enhance_grouping`: nothing is asked unless `should_enhance` holds and
     * some ambiguous file can be described; otherwise the first fifty
     * describable ambiguous files are sent, and a successful answer is
     * applied and marks the grouping enhanced. A failed call changes nothing.
     * `reply(batch)` stands for the service's answers to the prompt built
     * from `batch`.
     */
    method EnhanceGrouping<U>(apiKey: Option<string>, lowConfidence: seq<string>, indexed: set<string>,
                              less: (string, string) -> bool, reply: seq<string> -> nat -> Reply<U>,
                              decode: string -> Result<seq<FileGroupingResponse>, string>, ops: GroupingOps)
      returns (r: Result<Option<U>, LlmError>)
      modifies this
      ensures var st := old(State());
        var batch := ContextBatch(SortDedup(Gathered(lowConfidence, st.groups), less), indexed, st.assignments);
        if !ShouldEnhance(apiKey.Some?, lowConfidence, st.groups) || batch == [] then
          r == Ok(None) && State() == st && llmEnhanced == old(llmEnhanced)
        else match CallOutcome(reply(batch), decode)
          case Err(e) => r == Err(e) && State() == st && llmEnhanced == old(llmEnhanced)
          case Ok(answer) => r == Ok(answer.1) && State() == ApplyResponseSpec(st, answer.0, ops) && llmEnhanced
    {
      if !ShouldEnhance(apiKey.Some?, lowConfidence, groups) {
        return Ok(None);
      }
      var ambiguous := CollectAmbiguousFiles(lowConfidence, groups, less);
      if ambiguous == [] {
        return Ok(None);
      }
      var contexts := ContextBatch(ambiguous, indexed, assignments);
      if contexts == [] {
        return Ok(None);
      }
      var result, _, _ := CallLlmJson(apiKey, reply(contexts), decode);
      match result {
        case Err(e) =>
          r := Err(e);
        case Ok(answer) =>
          ApplyResponse(answer.0, ops);
          llmEnhanced := true;
          r := Ok(answer.1);
      }
    }
  }

  // ---- call_llm_json ----

  /** `MAX_RETRIES`, `INITIAL_BACKOFF_SECS` and `BACKOFF_MULTIPLIER`. */
  const MaxRetries := 3
  const InitialBackoffSecs := 2
  const BackoffMultiplier := 2

  function Pow(b: nat, e: nat): nat
  {
    if e == 0 then 1 else b * Pow(b, e - 1)
  }

  /** The wait before retry `k` (counting from 1): 2, 4, 8 seconds. */
  function Backoff(k: nat): nat
    requires k >= 1
  {
    InitialBackoffSecs * Pow(BackoffMultiplier, k - 1)
  }

  /** The decoded body of a successful reply: the message contents of the choices, and the usage report. */
  datatype ChatBody<U> = ChatBody(contents: seq<string>, usage: Option<U>)

  /** What one request produced: a transport error, or a status, its text and the decoding of its JSON body. */
  datatype Reply<U> =
    | SendFailed(error: string)
    | Answered(status: nat, text: string, body: Result<ChatBody<U>, string>)

  /** The errors `call_llm_json` reports. */
  datatype LlmError =
    | NoApiKey
    | Transport(message: string)
    | BadBody(message: string)
    | NoResponse
    | ParseFailed(message: string)
    | InvalidKey
    | RateLimited(retries: nat)
    | ApiError(status: nat, text: string)

  predicate IsSuccess(status: nat) { 200 <= status <= 299 }

  /** A reply that is retried when retries remain: status 429. */
  predicate IsRateLimited<U>(r: Reply<U>) { r.Answered? && r.status == 429 }

  /** The result of the request whose reply is not retried, after `retries` retries. */
  function Settle<T, U>(r: Reply<U>, retries: nat, decode: string -> Result<T, string>): Result<(T, Option<U>), LlmError>
  {
    match r
    case SendFailed(e) => Err(Transport(e))
    case Answered(status, text, body) =>
      if IsSuccess(status) then
        match body
        case Err(e) => Err(BadBody(e))
        case Ok(chat) =>
          if chat.contents == [] then Err(NoResponse)
          else match decode(chat.contents[0])
            case Err(e) => Err(ParseFailed(e))
            case Ok(t) => Ok((t, chat.usage))
      else if status == 401 then Err(InvalidKey)
      else if status == 429 then Err(RateLimited(retries))
      else Err(ApiError(status, text))
  }

  /** The number of requests made when the replies come from `reply`: the first that is not a retried 429 ends it. */
  function Requests<U>(reply: nat -> Reply<U>, retries: nat): (n: nat)
    requires retries <= MaxRetries
    ensures retries < n <= MaxRetries + 1
    decreases MaxRetries - retries
  {
    if IsRateLimited(reply(retries)) && retries < MaxRetries then Requests(reply, retries + 1) else retries + 1
  }

  /** Every request before the last was rate-limited, and the last is either not rate-limited or the fourth. */
  lemma {:induction false} RequestsMeaning<U>(reply: nat -> Reply<U>, retries: nat)
    requires retries <= MaxRetries
    ensures var n := Requests(reply, retries);
      && (forall k :: retries <= k < n - 1 ==> IsRateLimited(reply(k)))
      && (!IsRateLimited(reply(n - 1)) || n == MaxRetries + 1)
    decreases MaxRetries - retries
  {
    if IsRateLimited(reply(retries)) && retries < MaxRetries {
      RequestsMeaning(reply, retries + 1);
    }
  }

  /**
   * `call_llm_json`: without a key, no request. Otherwise up to
   * `MAX_RETRIES + 1` requests; only a 429 is retried, after waiting
   * 2 * 2^(k-1) seconds before retry k, and every other reply settles the call.
   * `requests` counts the requests and `waits` the sleeps.
   */
  method CallLlmJson<T, U>(apiKey: Option<string>, reply: nat -> Reply<U>, decode: string -> Result<T, string>)
    returns (result: Result<(T, Option<U>), LlmError>, requests: nat, waits: seq<nat>)
    ensures apiKey.None? ==> result == Err(NoApiKey) && requests == 0 && waits == []
    ensures apiKey.Some? ==> requests == Requests(reply, 0)
                             && result == Settle(reply(requests - 1), requests - 1, decode)
    ensures |waits| == (if requests == 0 then 0 else requests - 1)
    ensures forall k :: 0 <= k < |waits| ==> waits[k] == Backoff(k + 1)
  {
    requests := 0;
    waits := [];
    if apiKey.None? {
      result := Err(NoApiKey);
      return;
    }
    var lastError := RateLimited(0);
    var retryCount: nat := 0;
    var settled := false;
    result := Err(lastError);
    while !settled && retryCount <= MaxRetries
      invariant retryCount <= MaxRetries
      invariant Requests(reply, retryCount) == Requests(reply, 0)
      invariant requests == retryCount + (if settled then 1 else 0)
      invariant |waits| == retryCount
      invariant forall k :: 0 <= k < |waits| ==> waits[k] == Backoff(k + 1)
      invariant settled ==> requests == Requests(reply, 0) && result == Settle(reply(retryCount), retryCount, decode)
      decreases (if settled then 0 else 1), MaxRetries - retryCount
    {
      var response := reply(retryCount);
      requests := requests + 1;
      if IsRateLimited(response) && retryCount < MaxRetries {
        retryCount := retryCount + 1;
        var backoffSecs := InitialBackoffSecs * Pow(BackoffMultiplier, retryCount - 1);
        lastError := RateLimited(retryCount);
        waits := waits + [backoffSecs];
      } else {
        result := Settle(response, retryCount, decode);
        settled := true;
      }
    }
    if !settled {
      result := Err(lastError);
    }
  }

  /** At most four requests; the waits are 2, 4 and 8 seconds in that order, one before each retry. */
  lemma RetrySchedule<U>(reply: nat -> Reply<U>)
    ensures 1 <= Requests(reply, 0) <= 4
    ensures forall k :: 0 <= k < Requests(reply, 0) - 1 ==> IsRateLimited(reply(k))
    ensures Backoff(1) == 2 && Backoff(2) == 4 && Backoff(3) == 8
  {
    RequestsMeaning(reply, 0);
  }

  /** A reply other than 429 is never retried: the first request settles the call. */
  lemma OnlyRateLimitRetried<U>(reply: nat -> Reply<U>)
    requires !IsRateLimited(reply(0))
    ensures Requests(reply, 0) == 1
  {
  }

  /** Four 429 replies in a row exhaust the retries: the call fails after 3 retries. */
  lemma RateLimitExhausted<T, U>(reply: nat -> Reply<U>, decode: string -> Result<T, string>)
    requires forall k :: 0 <= k < 4 ==> IsRateLimited(reply(k))
    ensures Requests(reply, 0) == 4
    ensures Settle(reply(3), 3, decode) == Err(RateLimited(3))
  {
    assert IsRateLimited(reply(0)) && IsRateLimited(reply(1)) && IsRateLimited(reply(2)) && IsRateLimited(reply(3));
  }
}
