/**
 * The background tasks `src/main.rs` spawns, with the services they call
 * (the summariser, git, the file system) reduced to outcome values:
 * choosing which files to summarise, the tiered batch schedule of summary
 * generation, the single-file apply with its backup, and the ship sequence.
 * Each task's effect on the main loop is the list of messages it sends.
 */
module MainTasks {
  import opened Results
  import Strings
  import Suggest
  import FileSystem

  /** Token counts reported by the service. */
  datatype Usage = Usage(promptTokens: nat, completionTokens: nat, totalTokens: nat)

  datatype ShipStep = Confirm | Committing | Pushing | CreatingPR | Done

  /** The messages the tasks send to the main loop (the ones this model handles). */
  datatype BackgroundMessage =
    | SuggestionsReady(suggestions: seq<Suggest.Suggestion>, usage: Option<Usage>, model: string)
    | SuggestionsError(error: string)
    | SummariesReady(summaries: map<string, string>, usage: Option<Usage>)
    | SummaryProgress(completed: nat, total: nat, summaries: map<string, string>)
    | SummariesError(error: string)
    | PreviewReady(suggestionId: nat, filePath: string, summary: string, preview: string)
    | PreviewError(error: string)
    | DirectFixApplied(suggestionId: nat, filePath: string, description: string, modifiedAreas: seq<string>,
                       backupPath: string, usage: Option<Usage>, branchName: string)
    | DirectFixError(error: string)
    | ShipProgress(step: ShipStep)
    | ShipComplete(url: string)
    | ShipError(error: string)
    | Error(error: string)

  // ---- summarize_changed_only ----

  /**
   * The `wanted` set: the changed files and, for each changed file the index
   * knows, the files that use it and the files it depends on.
   */
  method SummaryScope(changed: set<string>, graph: map<string, Suggest.FileSummary>) returns (wanted: set<string>)
    ensures wanted == changed + Suggest.Reach(graph, changed)
  {
    var reached: set<string> := {};
    var todo := changed;
    while todo != {}
      invariant todo <= changed
      invariant reached == Suggest.Reach(graph, changed - todo)
      decreases todo
    {
      var c :| c in todo;
      ReachStep(graph, changed, todo, c);
      if c in graph {
        reached := reached + Suggest.Neighbours(graph[c]);
      }
      todo := todo - {c};
    }
    wanted := changed + reached;
  }

  lemma ReachStep(graph: map<string, Suggest.FileSummary>, changed: set<string>, todo: set<string>, c: string)
    requires c in todo && todo <= changed
    ensures Suggest.Reach(graph, changed - (todo - {c}))
      == Suggest.Reach(graph, changed - todo) + (if c in graph then Suggest.Neighbours(graph[c]) else {})
  {
    Suggest.ReachAdd(graph, changed - todo, c);
    assert changed - (todo - {c}) == (changed - todo) + {c};
  }

  /** `retain(|p| wanted.contains(p))`. */
  function Retain(files: seq<string>, wanted: set<string>): (r: seq<string>)
    ensures |r| <= |files|
    ensures forall p :: p in r <==> p in files && p in wanted
  {
    if files == [] then []
    else (if files[0] in wanted then [files[0]] else []) + Retain(files[1..], wanted)
  }

  /** `a` is `b` with some elements deleted, the rest in their order. */
  ghost predicate IsSubsequence(a: seq<string>, b: seq<string>)
    decreases |b|
  {
    if a == [] then true
    else if b == [] then false
    else if a[0] == b[0] then IsSubsequence(a[1..], b[1..])
    else IsSubsequence(a, b[1..])
  }

  lemma {:induction false} RetainIsSubsequence(files: seq<string>, wanted: set<string>)
    ensures IsSubsequence(Retain(files, wanted), files)
    decreases |files|
  {
    if files != [] {
      RetainIsSubsequence(files[1..], wanted);
      var r := Retain(files, wanted);
      if files[0] in wanted {
        assert r[0] == files[0] && r[1..] == Retain(files[1..], wanted);
      } else {
        assert r == Retain(files[1..], wanted);
        assert r != [] ==> r[0] in r;
      }
    }
  }

  /**
   * The files left to summarise: with `summarize_changed_only` only those in
   * the changed files' blast radius, in their order; and generation is
   * needed exactly when some file is left.
   */
  method FilesNeedingSummary(needing: seq<string>, changedOnly: bool, changed: set<string>,
                             graph: map<string, Suggest.FileSummary>)
    returns (files: seq<string>, needsGeneration: bool)
    ensures files == if changedOnly then Retain(needing, changed + Suggest.Reach(graph, changed)) else needing
    ensures needsGeneration <==> |files| > 0
  {
    files := needing;
    if changedOnly {
      var wanted := SummaryScope(changed, graph);
      files := Retain(files, wanted);
    }
    needsGeneration := |files| > 0;
  }

  /**
   * With `summarize_changed_only` a file is kept exactly when it needed a
   * summary and is changed, or uses or is used by a changed file the index
   * knows; the kept files are a subsequence of the original list.
   */
  lemma ChangedOnlyScope(needing: seq<string>, changed: set<string>, graph: map<string, Suggest.FileSummary>, p: string)
    ensures var kept := Retain(needing, changed + Suggest.Reach(graph, changed));
      && IsSubsequence(kept, needing)
      && (p in kept <==>
            (p in needing && (p in changed || exists c :: c in changed && c in graph && (p in graph[c].usedBy || p in graph[c].dependsOn))))
  {
    RetainIsSubsequence(needing, changed + Suggest.Reach(graph, changed));
    if p !in changed {
      Suggest.BlastRadiusMeaning(graph, changed, p);
    }
  }

  // ---- the summary schedule ----

  /** `chunks(batch_size)` with the batch size of 16. */
  const SummaryBatchSize := 16

  function Chunks(files: seq<string>): seq<seq<string>>
    decreases |files|
  {
    if files == [] then []
    else if |files| <= SummaryBatchSize then [files]
    else [files[..SummaryBatchSize]] + Chunks(files[SummaryBatchSize..])
  }

  /** The concatenation of a list of lists. */
  function Flatten(parts: seq<seq<string>>): seq<string>
  {
    if parts == [] then [] else Flatten(parts[..|parts| - 1]) + parts[|parts| - 1]
  }

  lemma {:induction false} FlattenAppend(a: seq<seq<string>>, b: seq<seq<string>>)
    ensures Flatten(a + b) == Flatten(a) + Flatten(b)
    decreases |b|
  {
    if b == [] {
      assert a + b == a;
    } else {
      assert (a + b)[..|a + b| - 1] == a + b[..|b| - 1];
      assert (a + b)[|a + b| - 1] == b[|b| - 1];
      FlattenAppend(a, b[..|b| - 1]);
    }
  }

  /**
   * The batches are non-empty, hold at most 16 files, all but the last hold
   * exactly 16, and together they are the files in their order.
   */
  lemma {:induction false} ChunksFacts(files: seq<string>)
    ensures var bs := Chunks(files);
      && (forall i :: 0 <= i < |bs| ==> 0 < |bs[i]| <= SummaryBatchSize)
      && (forall i :: 0 <= i < |bs| - 1 ==> |bs[i]| == SummaryBatchSize)
      && Flatten(bs) == files
    decreases |files|
  {
    if |files| > SummaryBatchSize {
      var rest := files[SummaryBatchSize..];
      ChunksFacts(rest);
      FlattenAppend([files[..SummaryBatchSize]], Chunks(rest));
      assert Flatten([files[..SummaryBatchSize]]) == files[..SummaryBatchSize] by {
        assert [files[..SummaryBatchSize]][..0] == [];
      }
      assert files == files[..SummaryBatchSize] + rest;
    } else if files != [] {
      assert [files][..0] == [];
    }
  }

  /** The batches of the tiers in tier order; an empty tier has none. */
  function TierBatches(tiers: seq<seq<string>>): seq<seq<string>>
  {
    if tiers == [] then [] else TierBatches(tiers[..|tiers| - 1]) + Chunks(tiers[|tiers| - 1])
  }

  /** The batches walk the tiers high, medium, low: their files are the tiers' files in that order. */
  lemma {:induction false} TierBatchesCoverTiers(tiers: seq<seq<string>>)
    ensures Flatten(TierBatches(tiers)) == Flatten(tiers)
    decreases |tiers|
  {
    if tiers != [] {
      var init := tiers[..|tiers| - 1];
      TierBatchesCoverTiers(init);
      FlattenAppend(TierBatches(init), Chunks(tiers[|tiers| - 1]));
      ChunksFacts(tiers[|tiers| - 1]);
    }
  }

  /** What the summariser returns for one batch: the summaries by path and the usage report. */
  datatype BatchResult = BatchResult(summaries: map<string, string>, usage: Option<Usage>)

  /** A cached summary with the content hash it was made from. */
  datatype CacheEntry = CacheEntry(summary: string, hash: string)

  /** The state the summary task carries from batch to batch. */
  datatype SummaryRun = SummaryRun(completed: nat, cache: map<string, CacheEntry>, messages: seq<BackgroundMessage>, usage: Usage)

  /** Only summaries of paths with a known hash are cached, each with that hash. */
  function CacheSummaries(cache: map<string, CacheEntry>, summaries: map<string, string>, hashes: map<string, string>): map<string, CacheEntry>
  {
    map p | p in cache.Keys + (summaries.Keys * hashes.Keys) ::
      if p in summaries && p in hashes then CacheEntry(summaries[p], hashes[p]) else cache[p]
  }

  function AddUsage(total: Usage, u: Option<Usage>): Usage
  {
    match u
    case None => total
    case Some(v) => Usage(total.promptTokens + v.promptTokens, total.completionTokens + v.completionTokens,
                          total.totalTokens + v.totalTokens)
  }

  /** One batch: a failed one is skipped; a successful one is cached, counted, reported and its usage added. */
  function SummaryStep(run: SummaryRun, batch: seq<string>, total: nat, hashes: map<string, string>,
                       outcome: seq<string> -> Option<BatchResult>): SummaryRun
  {
    match outcome(batch)
    case None => run
    case Some(res) =>
      var done := run.completed + |res.summaries|;
      SummaryRun(done, CacheSummaries(run.cache, res.summaries, hashes),
                 run.messages + [SummaryProgress(done, total, res.summaries)], AddUsage(run.usage, res.usage))
  }

  /** The batches processed in order. */
  function SummaryRuns(batches: seq<seq<string>>, start: SummaryRun, total: nat, hashes: map<string, string>,
                       outcome: seq<string> -> Option<BatchResult>): SummaryRun
  {
    if batches == [] then start
    else SummaryStep(SummaryRuns(batches[..|batches| - 1], start, total, hashes, outcome), batches[|batches| - 1], total, hashes, outcome)
  }

  /** The usage of the closing message: none when no token was counted. */
  function FinalUsage(u: Usage): (r: Option<Usage>)
    ensures r.None? <==> u.totalTokens == 0
    ensures r.Some? ==> r.value == u
  {
    if u.totalTokens > 0 then Some(u) else None
  }

  /** The number of batches the summariser answered. */
  function Successes(batches: seq<seq<string>>, outcome: seq<string> -> Option<BatchResult>): nat
  {
    if batches == [] then 0
    else Successes(batches[..|batches| - 1], outcome) + (if outcome(batches[|batches| - 1]).Some? then 1 else 0)
  }

  /** The files the summariser answered for, counted batch by batch. */
  function Answered(batches: seq<seq<string>>, outcome: seq<string> -> Option<BatchResult>): nat
  {
    if batches == [] then 0
    else
      var last := batches[|batches| - 1];
      Answered(batches[..|batches| - 1], outcome) + (if outcome(last).Some? then |outcome(last).value.summaries| else 0)
  }

  /**
   * The summary task sends one progress message per answered batch and
   * nothing for a failed one; `completed` grows by the number of summaries
   * each answered batch returned, so the progress counts never go down and
   * the last equals the total completed.
   */
  lemma {:induction false} SummaryRunsProgress(batches: seq<seq<string>>, total: nat, hashes: map<string, string>,
                                               outcome: seq<string> -> Option<BatchResult>)
    ensures var run := SummaryRuns(batches, SummaryRun(0, map[], [], Usage(0, 0, 0)), total, hashes, outcome);
      && |run.messages| == Successes(batches, outcome)
      && run.completed == Answered(batches, outcome)
      && (forall k :: 0 <= k < |run.messages| ==> run.messages[k].SummaryProgress? && run.messages[k].total == total)
      && (forall i, j :: 0 <= i <= j < |run.messages| ==> run.messages[i].completed <= run.messages[j].completed)
      && (run.messages != [] ==> run.messages[|run.messages| - 1].completed == run.completed)
    decreases |batches|
  {
    if batches != [] {
      SummaryRunsProgress(batches[..|batches| - 1], total, hashes, outcome);
      var before := SummaryRuns(batches[..|batches| - 1], SummaryRun(0, map[], [], Usage(0, 0, 0)), total, hashes, outcome);
      assert forall k :: 0 <= k < |before.messages| ==> before.messages[k].completed <= before.completed by {
        forall k | 0 <= k < |before.messages|
          ensures before.messages[k].completed <= before.completed
        {
          assert before.messages[k].completed <= before.messages[|before.messages| - 1].completed;
        }
      }
    }
  }

  /**
   * A cache entry is written only for a path with a known hash, and carries
   * that hash; every other entry is the one the cache started with.
   */
  lemma {:induction false} SummaryRunsCache(batches: seq<seq<string>>, start: SummaryRun, total: nat, hashes: map<string, string>,
                                            outcome: seq<string> -> Option<BatchResult>)
    ensures var cache := SummaryRuns(batches, start, total, hashes, outcome).cache;
      forall p :: p in cache ==>
        (p in start.cache && cache[p] == start.cache[p]) || (p in hashes && cache[p].hash == hashes[p])
    decreases |batches|
  {
    if batches != [] {
      SummaryRunsCache(batches[..|batches| - 1], start, total, hashes, outcome);
    }
  }

  /** The loop over one batch's summaries that writes the cache. */
  method CacheBatch(cache: map<string, CacheEntry>, summaries: map<string, string>, hashes: map<string, string>)
    returns (updated: map<string, CacheEntry>)
    ensures updated == CacheSummaries(cache, summaries, hashes)
  {
    updated := cache;
    var todo := summaries.Keys;
    while todo != {}
      invariant todo <= summaries.Keys
      invariant forall p :: p in updated <==> p in cache || (p in summaries && p !in todo && p in hashes)
      invariant forall p :: p in updated ==>
        updated[p] == if p in summaries && p !in todo && p in hashes then CacheEntry(summaries[p], hashes[p]) else cache[p]
      decreases todo
    {
      var path :| path in todo;
      if path in hashes {
        updated := updated[path := CacheEntry(summaries[path], hashes[path])];
      }
      todo := todo - {path};
    }
  }

  /** Folding batches one after the other is folding their concatenation. */
  lemma {:induction false} SummaryRunsAppend(a: seq<seq<string>>, b: seq<seq<string>>, start: SummaryRun, total: nat,
                                             hashes: map<string, string>, outcome: seq<string> -> Option<BatchResult>)
    ensures SummaryRuns(a + b, start, total, hashes, outcome)
      == SummaryRuns(b, SummaryRuns(a, start, total, hashes, outcome), total, hashes, outcome)
    decreases |b|
  {
    if b == [] {
      assert a + b == a;
    } else {
      assert (a + b)[..|a + b| - 1] == a + b[..|b| - 1];
      assert (a + b)[|a + b| - 1] == b[|b| - 1];
      SummaryRunsAppend(a, b[..|b| - 1], start, total, hashes, outcome);
    }
  }

  /** The inner loop over the batches of one tier. */
  method SummariseBatches(batches: seq<seq<string>>, total: nat, hashes: map<string, string>,
                          outcome: seq<string> -> Option<BatchResult>,
                          completed0: nat, cache0: map<string, CacheEntry>, messages0: seq<BackgroundMessage>, usage0: Usage)
    returns (completed: nat, cache: map<string, CacheEntry>, messages: seq<BackgroundMessage>, totalUsage: Usage)
    ensures SummaryRun(completed, cache, messages, totalUsage)
      == SummaryRuns(batches, SummaryRun(completed0, cache0, messages0, usage0), total, hashes, outcome)
  {
    completed, cache, messages, totalUsage := completed0, cache0, messages0, usage0;
    for b := 0 to |batches|
      invariant SummaryRun(completed, cache, messages, totalUsage)
        == SummaryRuns(batches[..b], SummaryRun(completed0, cache0, messages0, usage0), total, hashes, outcome)
    {
      var batch := batches[b];
      assert batches[..b + 1][..b] == batches[..b];
      match outcome(batch) {
        case None =>
        case Some(res) =>
          cache := CacheBatch(cache, res.summaries, hashes);
          completed := completed + |res.summaries|;
          messages := messages + [SummaryProgress(completed, total, res.summaries)];
          totalUsage := AddUsage(totalUsage, res.usage);
      }
    }
    assert batches[..|batches|] == batches;
  }

  /**
   * The summary task: the tiers in order, each cut into batches of 16, each
   * batch summarised once with no retry, and finally one `SummariesReady`
   * with an empty map and the usage (none when no token was counted).
   */
  method GenerateSummaries(tiers: seq<seq<string>>, total: nat, hashes: map<string, string>,
                           cache0: map<string, CacheEntry>, outcome: seq<string> -> Option<BatchResult>)
    returns (messages: seq<BackgroundMessage>, cache: map<string, CacheEntry>)
    ensures var run := SummaryRuns(TierBatches(tiers), SummaryRun(0, cache0, [], Usage(0, 0, 0)), total, hashes, outcome);
      && messages == run.messages + [SummariesReady(map[], FinalUsage(run.usage))]
      && cache == run.cache
  {
    ghost var start := SummaryRun(0, cache0, [], Usage(0, 0, 0));
    var completed: nat := 0;
    var totalUsage := Usage(0, 0, 0);
    messages := [];
    cache := cache0;
    for t := 0 to |tiers|
      invariant SummaryRun(completed, cache, messages, totalUsage) == SummaryRuns(TierBatches(tiers[..t]), start, total, hashes, outcome)
    {
      var files := tiers[t];
      assert tiers[..t + 1][..t] == tiers[..t];
      SummaryRunsAppend(TierBatches(tiers[..t]), Chunks(files), start, total, hashes, outcome);
      if files == [] {
        continue;
      }
      var batches := Chunks(files);
      completed, cache, messages, totalUsage := SummariseBatches(batches, total, hashes, outcome, completed, cache, messages, totalUsage);
    }
    assert tiers[..|tiers|] == tiers;
    messages := messages + [SummariesReady(map[], FinalUsage(totalUsage))];
  }

  /** The summary task ends with exactly one `SummariesReady`, which carries no summaries; every earlier message is progress. */
  lemma SummaryMessagesEnd(tiers: seq<seq<string>>, total: nat, hashes: map<string, string>,
                           outcome: seq<string> -> Option<BatchResult>)
    ensures var run := SummaryRuns(TierBatches(tiers), SummaryRun(0, map[], [], Usage(0, 0, 0)), total, hashes, outcome);
      var messages := run.messages + [SummariesReady(map[], FinalUsage(run.usage))];
      && (forall k :: 0 <= k < |messages| - 1 ==> messages[k].SummaryProgress?)
      && messages[|messages| - 1] == SummariesReady(map[], FinalUsage(run.usage))
      && (FinalUsage(run.usage).None? <==> run.usage.totalTokens == 0)
  {
    SummaryRunsProgress(TierBatches(tiers), total, hashes, outcome);
  }

  // ---- single-file apply ----

  /** What `generate_fix_content` returns. */
  datatype AppliedFix = AppliedFix(newContent: string, description: string, modifiedAreas: seq<string>, usage: Option<Usage>)

  const BranchHint := ". Please ensure you have no uncommitted changes and 'main' or 'master' branch exists."

  /**
   * The tree the apply task leaves when its write of the fix, call number
   * `t`, fails: the backup holds the original, the write may have truncated
   * the file, the restoring copy (call `t + 1`, result ignored) puts the
   * original back or itself fails, possibly truncating again, and the backup
   * is removed (call `t + 2`, result ignored).
   */
  function AfterFailedFix(f0: map<string, string>, path: string, backup: string, newContent: string,
                          t: nat, faults: set<nat>, torn: map<nat, nat>): map<string, string>
    requires path in f0
  {
    var written := FileSystem.AfterFailedWrite(f0[backup := f0[path]], path, newContent, t, torn);
    var restored := if t + 1 in faults then FileSystem.AfterFailedWrite(written, path, f0[path], t + 1, torn)
                    else written[path := f0[path]];
    if t + 2 in faults then restored else restored - {backup}
  }

  /**
   * The apply task: create the fix branch, read the file, generate the new
   * content, copy the file to its backup, write the new content and stage
   * it. The program spawns it from two places, a fix preview accepted in
   * its overlay (`fromPreview`) and Enter in the Verify step; the two copies
   * differ only in the branch error, which only the first follows with a
   * hint. The branch outcome and the generator are given; `backup` is the
   * path `with_extension("cosmos.bak")` makes, which differs from `path`.
   * `staged` says whether `stage_file` was called (its result is ignored).
   */
  method ApplyFix(disk: FileSystem.Disk, fromPreview: bool, suggestionId: nat, path: string, backup: string,
                  branch: Result<string, string>, generate: string -> Result<AppliedFix, string>)
    returns (message: BackgroundMessage, staged: bool)
    requires path != backup
    modifies disk
    ensures var f0 := old(disk.files);
      var t0 := old(disk.tick);
      if branch.Err? then
        message == DirectFixError("Failed to create fix branch: " + branch.error + (if fromPreview then BranchHint else ""))
        && disk.files == f0 && !staged
      else if t0 in disk.faults || path !in f0 then
        message == DirectFixError("Failed to read file: "
                                  + FileSystem.Describe(if t0 in disk.faults then FileSystem.Injected(t0) else FileSystem.NotFound))
        && disk.files == f0 && !staged
      else match generate(f0[path])
        case Err(e) => message == DirectFixError(e) && disk.files == f0 && !staged
        case Ok(fix) =>
          if t0 + 1 in disk.faults then
            message == DirectFixError("Failed to create backup: " + FileSystem.Describe(FileSystem.Injected(t0 + 1)))
            && disk.files == FileSystem.AfterFailedWrite(f0, backup, f0[path], t0 + 1, disk.torn) && !staged
          else if t0 + 2 in disk.faults then
            message == DirectFixError("Failed to write fix: " + FileSystem.Describe(FileSystem.Injected(t0 + 2)))
            && !staged
            && disk.files == AfterFailedFix(f0, path, backup, fix.newContent, t0 + 2, disk.faults, disk.torn)
          else
            message == DirectFixApplied(suggestionId, path, fix.description, fix.modifiedAreas, backup, fix.usage, branch.value)
            && disk.files == f0[backup := f0[path]][path := fix.newContent]
            && staged
  {
    staged := false;
    if branch.Err? {
      var hint := if fromPreview then BranchHint else "";
      return DirectFixError("Failed to create fix branch: " + branch.error + hint), false;
    }
    var read := disk.Read(path);
    if read.Err? {
      return DirectFixError("Failed to read file: " + FileSystem.Describe(read.error)), false;
    }
    var content := read.value;
    match generate(content) {
      case Err(e) =>
        message := DirectFixError(e);
      case Ok(fix) =>
        var copied := disk.Copy(path, backup);
        if copied.Err? {
          return DirectFixError("Failed to create backup: " + FileSystem.Describe(copied.error)), false;
        }
        var written := disk.Write(path, fix.newContent);
        if written.Ok? {
          staged := true;
          message := DirectFixApplied(suggestionId, path, fix.description, fix.modifiedAreas, backup, fix.usage, branch.value);
        } else {
          var _ := disk.Copy(backup, path);
          var _ := disk.Remove(backup);
          message := DirectFixError("Failed to write fix: " + FileSystem.Describe(written.error));
        }
    }
  }

  /**
   * After a failed write of the fix, only the target and the backup can
   * differ from the tree before the task. The target holds its original
   * content when the restoring copy succeeds or nothing was truncated, and
   * otherwise a prefix of the original or of the fix; the backup is gone
   * unless its removal failed, in which case it holds the original.
   */
  lemma ApplyFixSafety(f0: map<string, string>, path: string, backup: string, newContent: string,
                       t: nat, faults: set<nat>, torn: map<nat, nat>)
    requires path != backup && path in f0
    ensures var f1 := AfterFailedFix(f0, path, backup, newContent, t, faults, torn);
      && path in f1
      && (t + 1 !in faults || (t !in torn && t + 1 !in torn) ==> f1[path] == f0[path])
      && (f1[path] == f0[path] || f1[path] <= f0[path] || f1[path] <= newContent)
      && (backup in f1 <==> t + 2 in faults)
      && (backup in f1 ==> f1[backup] == f0[path])
      && forall q :: q != path && q != backup ==> (q in f1 <==> q in f0) && (q in f1 ==> f1[q] == f0[q])
  {
    var withBackup := f0[backup := f0[path]];
    var written := FileSystem.AfterFailedWrite(withBackup, path, newContent, t, torn);
    assert written == withBackup || (path in written && written == withBackup[path := written[path]] && written[path] <= newContent);
    if t + 1 in faults {
      var restored := FileSystem.AfterFailedWrite(written, path, f0[path], t + 1, torn);
      assert restored == written || (path in restored && restored == written[path := restored[path]] && restored[path] <= f0[path]);
    }
  }

  /**
   * The program's restore can lose the file: when the write of the fix
   * truncates it and the restoring copy fails after truncating it too, the
   * backup is still removed, and the original content is left nowhere.
   */
  lemma FailedRestoreLosesOriginal()
    ensures var f0 := map["a.rs" := "fn main() {}"];
      var f1 := AfterFailedFix(f0, "a.rs", "a.cosmos.bak", "fn main() { run() }", 7, {8}, map[7 := 3, 8 := 0]);
      && f1 == map["a.rs" := ""]
      && forall q :: q in f1 ==> f1[q] != f0["a.rs"]
  {
    var f0 := map["a.rs" := "fn main() {}"];
    var withBackup := f0["a.cosmos.bak" := "fn main() {}"];
    var written := withBackup["a.rs" := "fn "];
    assert "fn main() { run() }"[..3] == "fn ";
    assert FileSystem.AfterFailedWrite(withBackup, "a.rs", "fn main() { run() }", 7, map[7 := 3, 8 := 0]) == written;
    assert FileSystem.AfterFailedWrite(written, "a.rs", "fn main() {}", 8, map[7 := 3, 8 := 0]) == written["a.rs" := ""];
    assert written["a.rs" := ""] - {"a.cosmos.bak"} == map["a.rs" := ""];
  }

  // ---- shipping ----

  /** The git operations of the ship tasks, in the order they may run. */
  datatype GitStep = Stage(path: string) | Status | Commit | Push | CreatePr

  /**
   * The outcomes git gives: per staged path, the number of staged files the
   * status reports (or its error), the commit, the push and the pull request.
   */
  datatype GitOutcomes = GitOutcomes(
    stage: string -> Result<(), string>,
    stagedCount: Result<nat, string>,
    commit: Result<(), string>,
    push: Result<(), string>,
    pr: Result<string, string>)

  /** The paths staged for the pending files: relative ones as they are, absolute ones inside the repository made relative. */
  function StagePaths(files: seq<string>, relative: string -> Option<string>): seq<string>
  {
    if files == [] then []
    else (match relative(files[0]) case Some(p) => [p] case None => []) + StagePaths(files[1..], relative)
  }

  /** The staging loop: the stage calls made, up to and including the first that fails, and that failure. */
  function StagePhase(paths: seq<string>, stage: string -> Result<(), string>): (r: (seq<GitStep>, Option<string>))
    ensures |r.0| <= |paths|
    ensures forall k :: 0 <= k < |r.0| ==> r.0[k] == Stage(paths[k])
    ensures r.1.None? <==> |r.0| == |paths| && forall k :: 0 <= k < |paths| ==> stage(paths[k]).Ok?
    ensures r.1.Some? ==>
      (|r.0| > 0 && stage(paths[|r.0| - 1]) == Err(r.1.value) && forall k :: 0 <= k < |r.0| - 1 ==> stage(paths[k]).Ok?)
  {
    if paths == [] then ([], None)
    else match stage(paths[0])
      case Err(e) => ([Stage(paths[0])], Some(e))
      case Ok(_) =>
        var rest := StagePhase(paths[1..], stage);
        ([Stage(paths[0])] + rest.0, rest.1)
  }

  /** Commit, push and open the pull request, reporting progress before the push and before the pull request. */
  function CommitPushPr(git: GitOutcomes, labelled: bool): (seq<GitStep>, seq<BackgroundMessage>)
  {
    if git.commit.Err? then
      ([Commit], [ShipError(if labelled then "Commit failed: " + git.commit.error else git.commit.error)])
    else if git.push.Err? then
      ([Commit, Push], [ShipProgress(Pushing), ShipError(if labelled then "Push failed: " + git.push.error else git.push.error)])
    else match git.pr
      case Ok(url) => ([Commit, Push, CreatePr], [ShipProgress(Pushing), ShipProgress(CreatingPR), ShipComplete(url)])
      case Err(e) =>
        ([Commit, Push, CreatePr],
         [ShipProgress(Pushing), ShipProgress(CreatingPR),
          ShipError(if labelled then "Pushed, but PR creation failed: " + e + ". Create PR manually." else e)])
  }

  /** The inline ship task: stage every pending file, check something is staged, then commit, push and open the PR. */
  function ShipInlineSpec(files: seq<string>, relative: string -> Option<string>, git: GitOutcomes): (seq<GitStep>, seq<BackgroundMessage>)
  {
    var staging := StagePhase(StagePaths(files, relative), git.stage);
    if staging.1.Some? then (staging.0, [ShipError("Stage failed: " + staging.1.value)])
    else if git.stagedCount == Ok(0) then (staging.0 + [Status], [ShipError("No files staged")])
    else
      var tail := CommitPushPr(git, true);
      (staging.0 + [Status] + tail.0, tail.1)
  }

  /** The ship task of the workflow's Ship step: the files are already staged. */
  function ShipConfirmedSpec(git: GitOutcomes): (seq<GitStep>, seq<BackgroundMessage>)
  {
    var tail := CommitPushPr(git, false);
    (tail.0, [ShipProgress(Committing)] + tail.1)
  }

  /**
   * The ship order both tasks keep: exactly one final message, an error or
   * the pull request's URL, after progress messages only; `Pushing` is sent
   * exactly when the commit ran and succeeded, `CreatingPR` exactly when the
   * push ran and succeeded; no step runs after one that failed.
   */
  ghost predicate ShipOrdered(steps: seq<GitStep>, messages: seq<BackgroundMessage>, git: GitOutcomes)
  {
    && |messages| >= 1
    && (messages[|messages| - 1].ShipError? || messages[|messages| - 1].ShipComplete?)
    && (forall k :: 0 <= k < |messages| - 1 ==> messages[k].ShipProgress?)
    && (ShipProgress(Pushing) in messages <==> Commit in steps && git.commit.Ok?)
    && (ShipProgress(CreatingPR) in messages <==> Push in steps && git.push.Ok?)
    && (Push in steps ==> Commit in steps && git.commit.Ok?)
    && (CreatePr in steps ==> Push in steps && git.push.Ok?)
    && (messages[|messages| - 1].ShipComplete? <==> CreatePr in steps && git.pr.Ok?)
  }

  lemma CommitPushPrOrdered(git: GitOutcomes, labelled: bool)
    ensures var r := CommitPushPr(git, labelled); ShipOrdered(r.0, r.1, git) && r.0[0] == Commit
  {
  }

  /** The inline ship keeps the ship order, and commits only after every stage call succeeded and something is staged. */
  lemma ShipInlineOrdered(files: seq<string>, relative: string -> Option<string>, git: GitOutcomes)
    ensures var r := ShipInlineSpec(files, relative, git);
      && ShipOrdered(r.0, r.1, git)
      && (Commit in r.0 ==> (forall p :: p in StagePaths(files, relative) ==> git.stage(p).Ok?) && git.stagedCount != Ok(0))
  {
    var paths := StagePaths(files, relative);
    var staging := StagePhase(paths, git.stage);
    assert forall k :: 0 <= k < |staging.0| ==> staging.0[k].Stage?;
    var tail := CommitPushPr(git, true);
    CommitPushPrOrdered(git, true);
    var r := ShipInlineSpec(files, relative, git);
    if staging.1.None? && git.stagedCount != Ok(0) {
      assert r.0 == staging.0 + [Status] + tail.0;
      forall g | g in r.0 && !g.Stage? && g != Status
        ensures g in tail.0
      {
      }
      forall g | g in tail.0
        ensures g in r.0
      {
      }
    } else {
      assert Commit !in r.0;
      assert Push !in r.0;
      assert CreatePr !in r.0;
    }
  }

  /** The workflow ship keeps the ship order and reports `Committing` first. */
  lemma ShipConfirmedOrdered(git: GitOutcomes)
    ensures var r := ShipConfirmedSpec(git);
      ShipOrdered(r.0, r.1, git) && r.1[0] == ShipProgress(Committing)
  {
    var tail := CommitPushPr(git, false);
    CommitPushPrOrdered(git, false);
    var r := ShipConfirmedSpec(git);
    assert forall k :: 1 <= k < |r.1| ==> r.1[k] == tail.1[k - 1];
    assert ShipProgress(Pushing) in r.1 <==> ShipProgress(Pushing) in tail.1;
    assert ShipProgress(CreatingPR) in r.1 <==> ShipProgress(CreatingPR) in tail.1;
  }

  /** The commit, push and pull-request steps the two ship tasks share. */
  method CommitPushPrTask(git: GitOutcomes, labelled: bool) returns (steps: seq<GitStep>, messages: seq<BackgroundMessage>)
    ensures (steps, messages) == CommitPushPr(git, labelled)
  {
    steps := [Commit];
    if git.commit.Err? {
      return steps, [ShipError(if labelled then "Commit failed: " + git.commit.error else git.commit.error)];
    }
    messages := [ShipProgress(Pushing)];
    steps := steps + [Push];
    if git.push.Err? {
      assert steps == [Commit, Push];
      return steps, [ShipProgress(Pushing), ShipError(if labelled then "Push failed: " + git.push.error else git.push.error)];
    }
    messages := messages + [ShipProgress(CreatingPR)];
    steps := steps + [CreatePr];
    assert steps == [Commit, Push, CreatePr];
    assert messages == [ShipProgress(Pushing), ShipProgress(CreatingPR)];
    match git.pr {
      case Ok(url) =>
        messages := messages + [ShipComplete(url)];
        assert messages == [ShipProgress(Pushing), ShipProgress(CreatingPR), ShipComplete(url)];
        assert CommitPushPr(git, labelled).1 == messages;
        assert CommitPushPr(git, labelled).0 == steps;
      case Err(e) =>
        messages := messages + [ShipError(if labelled then "Pushed, but PR creation failed: " + e + ". Create PR manually." else e)];
        assert CommitPushPr(git, labelled).1 == messages;
        assert CommitPushPr(git, labelled).0 == steps;
    }
  }

  /** Staging one more path after a run of successful ones. */
  lemma {:induction false} StagePhaseSnoc(a: seq<string>, p: string, stage: string -> Result<(), string>)
    requires StagePhase(a, stage).1.None?
    ensures StagePhase(a + [p], stage)
      == (StagePhase(a, stage).0 + [Stage(p)], if stage(p).Err? then Some(stage(p).error) else None)
    decreases |a|
  {
    if a == [] {
      assert a + [p] == [p];
      assert [p][1..] == [];
      assert StagePhase([p][1..], stage) == ([], None);
      var empty: seq<GitStep> := [];
      assert empty + [Stage(p)] == [Stage(p)] + empty == [Stage(p)];
    } else {
      assert (a + [p])[1..] == a[1..] + [p];
      assert (a + [p])[0] == a[0];
      StagePhaseSnoc(a[1..], p, stage);
      var rest := StagePhase(a[1..], stage).0;
      assert [Stage(a[0])] + (rest + [Stage(p)]) == ([Stage(a[0])] + rest) + [Stage(p)];
    }
  }

  /** Nothing is staged after the first failure. */
  lemma {:induction false} StagePhaseFailed(a: seq<string>, b: seq<string>, stage: string -> Result<(), string>)
    requires StagePhase(a, stage).1.Some?
    ensures StagePhase(a + b, stage) == StagePhase(a, stage)
    decreases |a|
  {
    if stage(a[0]).Ok? {
      assert (a + b)[1..] == a[1..] + b;
      StagePhaseFailed(a[1..], b, stage);
    }
  }

  /**
   * The staging loop of the inline ship task: stage each pending file that
   * lies inside the repository, stopping at the first failure. `failed`
   * carries the git error of that failure.
   */
  method StageFiles(files: seq<string>, relative: string -> Option<string>, stage: string -> Result<(), string>)
    returns (steps: seq<GitStep>, failed: Option<string>)
    ensures (steps, failed) == StagePhase(StagePaths(files, relative), stage)
  {
    steps := [];
    ghost var staged: seq<string> := [];
    for i := 0 to |files|
      invariant staged == StagePaths(files[..i], relative)
      invariant StagePhase(staged, stage) == (steps, None)
    {
      StagePathsStep(files, i, relative);
      match relative(files[i]) {
        case None =>
          assert staged + [] == staged;
        case Some(path) =>
          StagePhaseSnoc(staged, path, stage);
          steps := steps + [Stage(path)];
          staged := staged + [path];
          if stage(path).Err? {
            StagePathsRest(files, i + 1, relative);
            StagePhaseFailed(staged, StagePaths(files[i + 1..], relative), stage);
            return steps, Some(stage(path).error);
          }
      }
    }
    assert files[..|files|] == files;
    failed := None;
  }

  /** One more file of the staging loop adds its repository path, if it has one. */
  lemma StagePathsStep(files: seq<string>, i: nat, relative: string -> Option<string>)
    requires i < |files|
    ensures StagePaths(files[..i + 1], relative)
      == StagePaths(files[..i], relative) + (match relative(files[i]) case Some(p) => [p] case None => [])
  {
    assert files[..i + 1] == files[..i] + [files[i]];
    StagePathsAppend(files[..i], [files[i]], relative);
    assert StagePaths([files[i]], relative) == match relative(files[i]) case Some(p) => [p] case None => [];
  }

  /** The files are split at `i` into those seen and those left. */
  lemma {:induction false} StagePathsRest(files: seq<string>, i: nat, relative: string -> Option<string>)
    requires i <= |files|
    ensures StagePaths(files, relative) == StagePaths(files[..i], relative) + StagePaths(files[i..], relative)
    decreases i
  {
    if i == 0 {
      assert files[..0] == [];
      assert files[0..] == files;
    } else {
      StagePathsRest(files[1..], i - 1, relative);
      assert files[..i][0] == files[0];
      assert files[..i][1..] == files[1..][..i - 1];
      assert files[1..][i - 1..] == files[i..];
    }
  }

  /**
   * The inline ship task: the staging loop over the pending files, then the
   * status check, commit, push and PR. `steps` lists the git operations run
   * and `messages` what was sent.
   */
  method ShipInline(files: seq<string>, relative: string -> Option<string>, git: GitOutcomes)
    returns (steps: seq<GitStep>, messages: seq<BackgroundMessage>)
    ensures (steps, messages) == ShipInlineSpec(files, relative, git)
  {
    var failed;
    steps, failed := StageFiles(files, relative, git.stage);
    if failed.Some? {
      return steps, [ShipError("Stage failed: " + failed.value)];
    }
    steps := steps + [Status];
    if git.stagedCount == Ok(0) {
      return steps, [ShipError("No files staged")];
    }
    var tail, sent := CommitPushPrTask(git, true);
    steps := steps + tail;
    messages := sent;
  }

  /** The ship task of the workflow's Ship step. */
  method ShipConfirmed(git: GitOutcomes) returns (steps: seq<GitStep>, messages: seq<BackgroundMessage>)
    ensures (steps, messages) == ShipConfirmedSpec(git)
  {
    var sent;
    steps, sent := CommitPushPrTask(git, false);
    messages := [ShipProgress(Committing)] + sent;
  }

  lemma {:induction false} StagePathsAppend(a: seq<string>, b: seq<string>, relative: string -> Option<string>)
    ensures StagePaths(a + b, relative) == StagePaths(a, relative) + StagePaths(b, relative)
    decreases |a|
  {
    if a != [] {
      assert (a + b)[1..] == a[1..] + b;
      StagePathsAppend(a[1..], b, relative);
    } else {
      assert a + b == b;
    }
  }
}
