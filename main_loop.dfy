/**
 * The event loop of `src/main.rs`: how each message from a background task
 * changes the session (loading indicator, summary status, token count,
 * workflow, pending changes, ship progress) and which follow-up task it
 * spawns, and the guards that decide what a key press in normal mode does.
 *
 * `Handle` is the specification of one message; `Session.HandleMessage`
 * performs it on the session's fields and on the suggestion engine, and
 * `Session.DrainMessages` is the `while let Ok(msg) = rx.try_recv()` loop.
 */
module MainLoop {
  import opened Results
  import Strings
  import Sorting
  import Suggest
  import Ui
  import opened MainTasks

  datatype WorkflowStep = Suggestions | Verify | Review | Ship

  /** `LoadingState`; its `None` variant is called `Idle` here. */
  datatype LoadingState =
    | Idle
    | GeneratingSuggestions
    | GeneratingSummaries
    | GeneratingPreview
    | GeneratingFix
    | ReviewingChanges
    | Answering
    | Discarding
    | Resetting
    | Stashing

  /** The Verify step: which suggestion, which file, the preview once it arrives. */
  datatype VerifyState = VerifyState(suggestionId: Option<nat>, filePath: Option<string>, preview: Option<string>, loading: bool)

  /** `VerifyState::default()`. */
  const DefaultVerify := VerifyState(None, None, None, false)

  /** Summary generation: its progress, whether it still has to run, and whether suggestions wait for it. */
  datatype SummaryStatus = SummaryStatus(progress: Option<(nat, nat)>, needsGeneration: bool, deferredSuggestions: bool)

  /** The guided workflow: its step, the Verify state, the file under Review, the Ship step and its PR. */
  datatype Workflow = Workflow(step: WorkflowStep, verify: VerifyState, reviewFile: Option<string>,
                               shipStep: ShipStep, prUrl: Option<string>)

  /** The legacy fix-preview overlay. */
  datatype FixPreview = FixPreview(suggestionId: nat, filePath: string, summary: string, preview: string)

  /** The overlay-mode state outside the workflow: the fix preview, the ship step and the PR waiting to be opened. */
  datatype Legacy = Legacy(fixPreview: Option<FixPreview>, shipStep: Option<ShipStep>, prUrl: Option<string>)

  /** A change applied on the fix branch and waiting to be shipped. */
  datatype PendingChange = PendingChange(suggestionId: nat, filePath: string, description: string, diff: string, backupPath: string)

  /** The fix branch and the changes applied on it. */
  datatype FixBranch = FixBranch(branch: Option<string>, pending: seq<PendingChange>)

  /** The background task a message handler spawns. */
  datatype Task = AnalyzeCodebase | VerifyChanges(filePath: string)

  /** Everything the message handler reads or writes. */
  datatype SessionState = SessionState(
    loading: LoadingState,
    summaries: SummaryStatus,
    tokens: nat,
    activeModel: Option<string>,
    workflow: Workflow,
    legacy: Legacy,
    fixes: FixBranch,
    overlay: Ui.Overlay,
    suggestions: seq<Suggest.Suggestion>)

  /** The session token count after a reply that may report usage. */
  function AddTokens(tokens: nat, usage: Option<Usage>): nat
  {
    if usage.Some? then tokens + usage.value.totalTokens else tokens
  }

  /** `add_llm_suggestion` applied to each new suggestion in turn. */
  function AddAll(s: seq<Suggest.Suggestion>, news: seq<Suggest.Suggestion>): seq<Suggest.Suggestion>
  {
    if news == [] then s
    else Sorting.SortBy(AddAll(s, news[..|news| - 1]) + [news[|news| - 1]], Suggest.PriorityKey)
  }

  /** The loading state once suggestions arrived or failed: back to summaries if those still run. */
  function AfterSuggestions(s: SummaryStatus): LoadingState
  {
    if s.needsGeneration && s.progress.Some? then GeneratingSummaries else Idle
  }

  /** Summaries finished or failed: clear the indicator unless suggestions are still on their way. */
  function UnlessSuggesting(l: LoadingState): LoadingState
  {
    if l == GeneratingSuggestions then l else Idle
  }

  /**
   * The message handler of the main loop, one message: the new session and
   * the background task it spawns. `changed` and `graph` are what `sort_with_context`
   * reads from the git context and the index; `aiEnabled` is whether the
   * service is configured and the budget still allows a call.
   */
  function Handle(st: SessionState, msg: BackgroundMessage, changed: set<string>,
                  graph: map<string, Suggest.FileSummary>, aiEnabled: bool): (SessionState, Option<Task>)
  {
    match msg
    case SuggestionsReady(news, usage, model) =>
      var ordered := Sorting.SortBy(AddAll(st.suggestions, news), Suggest.ContextKeyOf(changed, Suggest.BlastRadius(graph, changed)));
      (st.(suggestions := ordered, tokens := AddTokens(st.tokens, usage), loading := AfterSuggestions(st.summaries),
           activeModel := Some(model)), None)
    case SuggestionsError(_) =>
      (st.(loading := AfterSuggestions(st.summaries)), None)
    case SummariesReady(_, usage) =>
      OnSummariesReady(st.(tokens := AddTokens(st.tokens, usage)), aiEnabled)
    case SummaryProgress(completed, total, _) =>
      (st.(summaries := st.summaries.(progress := Some((completed, total)))), None)
    case SummariesError(_) =>
      (st.(loading := UnlessSuggesting(st.loading), summaries := st.summaries.(progress := None)), None)
    case PreviewReady(id, file, summary, preview) =>
      if st.workflow.step == Verify then
        (st.(loading := Idle, workflow := st.workflow.(verify := st.workflow.verify.(preview := Some(preview), loading := false))), None)
      else (st.(loading := Idle, legacy := st.legacy.(fixPreview := Some(FixPreview(id, file, summary, preview)))), None)
    case PreviewError(_) =>
      (st.(loading := Idle, workflow := ResetVerify(st.workflow)), None)
    case DirectFixApplied(id, file, description, areas, backup, usage, branch) =>
      var fixes := FixBranch(Some(branch), st.fixes.pending + [FixChange(id, file, description, areas, backup)]);
      (st.(tokens := AddTokens(st.tokens, usage), loading := Idle,
           suggestions := Suggest.EditFirst(st.suggestions, id, Suggest.MarkApplied),
           fixes := fixes, workflow := ReviewAfterFix(st.workflow, file),
           overlay := if st.workflow.step == Verify then st.overlay else Ui.Overlay.VerificationReview(file)),
       Some(VerifyChanges(file)))
    case DirectFixError(_) =>
      (st.(loading := Idle, workflow := ResetVerify(st.workflow)), None)
    case ShipProgress(step) =>
      if st.workflow.step == Ship then (st.(workflow := st.workflow.(shipStep := step)), None)
      else (st.(legacy := st.legacy.(shipStep := Some(step))), None)
    case ShipComplete(url) =>
      if st.workflow.step == Ship then (st.(workflow := st.workflow.(prUrl := Some(url))), None)
      else (st.(legacy := st.legacy.(shipStep := Some(Done), prUrl := Some(url)), fixes := st.fixes.(pending := [])), None)
    case ShipError(_) =>
      (st.(legacy := st.legacy.(shipStep := None), overlay := Ui.Overlay.None), None)
    case Error(_) =>
      (st.(loading := Idle), None)
  }

  /** The messages about suggestions and summaries, as opposed to the fix and ship workflow. */
  predicate IsAnalysisMessage(msg: BackgroundMessage)
  {
    msg.SuggestionsReady? || msg.SuggestionsError? || msg.SummariesReady? || msg.SummaryProgress? || msg.SummariesError?
  }

  /** The messages about previews and applied fixes. */
  predicate IsFixMessage(msg: BackgroundMessage)
  {
    msg.PreviewReady? || msg.PreviewError? || msg.DirectFixApplied? || msg.DirectFixError?
  }

  /**
   * Summaries are done; a reset that deferred the suggestion analysis
   * starts it now if AI is enabled, otherwise the loading indicator settles.
   */
  function OnSummariesReady(st: SessionState, aiEnabled: bool): (SessionState, Option<Task>)
  {
    var done := SummaryStatus(None, false, false);
    if st.summaries.deferredSuggestions then
      if aiEnabled then (st.(summaries := done, loading := GeneratingSuggestions), Some(AnalyzeCodebase))
      else (st.(summaries := done, loading := Idle), None)
    else (st.(summaries := done, loading := UnlessSuggesting(st.loading)), None)
  }

  /** A failed preview or apply: the Verify step falls back to Suggestions with a fresh Verify state. */
  function ResetVerify(w: Workflow): Workflow
  {
    if w.step == Verify then w.(step := Suggestions, verify := DefaultVerify) else w
  }

  /** `start_review`: the Verify step moves on to Review of the fixed file. */
  function ReviewAfterFix(w: Workflow, file: string): Workflow
  {
    if w.step == Verify then w.(step := Review, reviewFile := Some(file)) else w
  }

  /** The pending change an applied fix records; its diff lists the modified areas. */
  function FixChange(id: nat, file: string, description: string, areas: seq<string>, backup: string): PendingChange
  {
    PendingChange(id, file, description, "Modified areas: " + Strings.Join(areas, ", "), backup)
  }

  function TasksOf(t: Option<Task>): seq<Task>
  {
    if t.Some? then [t.value] else []
  }

  /** The messages handled in order: the final session and the tasks spawned. */
  function HandleAll(st: SessionState, msgs: seq<BackgroundMessage>, changed: set<string>,
                     graph: map<string, Suggest.FileSummary>, aiEnabled: bool): (SessionState, seq<Task>)
  {
    if msgs == [] then (st, [])
    else
      var before := HandleAll(st, msgs[..|msgs| - 1], changed, graph, aiEnabled);
      var step := Handle(before.0, msgs[|msgs| - 1], changed, graph, aiEnabled);
      (step.0, before.1 + TasksOf(step.1))
  }

  // ---- what one message does ----

  /** New suggestions are all kept, nothing is lost, and the list ends in the context order. */
  lemma SuggestionsReadyKeepsAll(st: SessionState, news: seq<Suggest.Suggestion>, usage: Option<Usage>, model: string,
                                 changed: set<string>, graph: map<string, Suggest.FileSummary>, aiEnabled: bool)
    ensures var r := Handle(st, SuggestionsReady(news, usage, model), changed, graph, aiEnabled).0;
      && multiset(r.suggestions) == multiset(st.suggestions) + multiset(news)
      && Sorting.Sorted(r.suggestions, Suggest.ContextKeyOf(changed, Suggest.BlastRadius(graph, changed)))
      && r.activeModel == Some(model)
      && (r.loading == GeneratingSummaries <==> st.summaries.needsGeneration && st.summaries.progress.Some?)
  {
    var key := Suggest.ContextKeyOf(changed, Suggest.BlastRadius(graph, changed));
    AddAllPermutes(st.suggestions, news);
    Sorting.SortByPermutes(AddAll(st.suggestions, news), key);
    Sorting.SortBySorted(AddAll(st.suggestions, news), key);
  }

  lemma {:induction false} AddAllPermutes(s: seq<Suggest.Suggestion>, news: seq<Suggest.Suggestion>)
    ensures multiset(AddAll(s, news)) == multiset(s) + multiset(news)
  {
    if news != [] {
      var init := news[..|news| - 1];
      AddAllPermutes(s, init);
      Sorting.SortByPermutes(AddAll(s, init) + [news[|news| - 1]], Suggest.PriorityKey);
      assert news == init + [news[|news| - 1]];
    }
  }

  /**
   * Summaries arriving end summary generation; a reset that was waiting for
   * them starts the suggestion analysis exactly when AI is enabled, and
   * only then.
   */
  lemma SummariesReadyFacts(st: SessionState, summaries: map<string, string>, usage: Option<Usage>,
                            changed: set<string>, graph: map<string, Suggest.FileSummary>, aiEnabled: bool)
    ensures var (r, t) := Handle(st, SummariesReady(summaries, usage), changed, graph, aiEnabled);
      && r.summaries == SummaryStatus(None, false, false)
      && (t == Some(AnalyzeCodebase) <==> st.summaries.deferredSuggestions && aiEnabled)
      && (r.loading == GeneratingSuggestions <==>
            (st.summaries.deferredSuggestions && aiEnabled) || (!st.summaries.deferredSuggestions && st.loading == GeneratingSuggestions))
      && (r.loading != GeneratingSuggestions ==> r.loading == Idle)
  {
  }

  /** A failed preview or apply while verifying returns the workflow to the suggestion list with a fresh Verify state. */
  lemma FailureResetsWorkflow(st: SessionState, msg: BackgroundMessage,
                              changed: set<string>, graph: map<string, Suggest.FileSummary>, aiEnabled: bool)
    requires msg.PreviewError? || msg.DirectFixError?
    ensures var (r, t) := Handle(st, msg, changed, graph, aiEnabled);
      && t == None && r.loading == Idle
      && (st.workflow.step == Verify ==> r.workflow.step == Suggestions && r.workflow.verify == DefaultVerify)
      && (st.workflow.step != Verify ==> r == st.(loading := Idle))
  {
  }

  /**
   * An applied fix marks the suggestion applied, records the fix branch,
   * queues exactly one pending change describing the modified areas, moves
   * the Verify step on to Review and always asks for a verification of the file.
   */
  lemma DirectFixAppliedFacts(st: SessionState, id: nat, file: string, description: string, areas: seq<string>,
                              backup: string, usage: Option<Usage>, branch: string,
                              changed: set<string>, graph: map<string, Suggest.FileSummary>, aiEnabled: bool)
    ensures var (r, t) := Handle(st, DirectFixApplied(id, file, description, areas, backup, usage, branch), changed, graph, aiEnabled);
      && t == Some(VerifyChanges(file))
      && r.loading == Idle && r.fixes.branch == Some(branch)
      && |r.fixes.pending| == |st.fixes.pending| + 1
      && r.fixes.pending[..|st.fixes.pending|] == st.fixes.pending
      && r.fixes.pending[|st.fixes.pending|].suggestionId == id
      && r.fixes.pending[|st.fixes.pending|].backupPath == backup
      && r.suggestions == Suggest.EditFirst(st.suggestions, id, Suggest.MarkApplied)
      && (st.workflow.step == Verify ==> r.workflow.step == Review && r.workflow.reviewFile == Some(file))
      && (st.workflow.step != Verify ==> r.workflow == st.workflow && r.overlay == Ui.Overlay.VerificationReview(file))
      && (st.workflow.step == Verify ==> r.overlay == st.overlay)
      && r.tokens >= st.tokens
  {
    var r := Handle(st, DirectFixApplied(id, file, description, areas, backup, usage, branch), changed, graph, aiEnabled).0;
    assert r.fixes.pending[..|st.fixes.pending|] == st.fixes.pending;
  }

  /**
   * A created PR outside the workflow finishes the legacy ship: the step is
   * Done, the PR waits to be opened and no change is pending any more.
   */
  lemma ShipCompleteFacts(st: SessionState, url: string,
                          changed: set<string>, graph: map<string, Suggest.FileSummary>, aiEnabled: bool)
    ensures var (r, t) := Handle(st, ShipComplete(url), changed, graph, aiEnabled);
      && t == None
      && (st.workflow.step == Ship ==> r == st.(workflow := st.workflow.(prUrl := Some(url))))
      && (st.workflow.step != Ship ==>
            r.legacy.shipStep == Some(Done) && r.legacy.prUrl == Some(url) && r.fixes.pending == []
            && r.fixes.branch == st.fixes.branch && r.workflow == st.workflow)
  {
  }

  // ---- over a run of messages ----

  function CountAnalyses(ts: seq<Task>): nat
  {
    if ts == [] then 0 else CountAnalyses(ts[..|ts| - 1]) + (if ts[|ts| - 1] == AnalyzeCodebase then 1 else 0)
  }

  lemma CountAnalysesAppend(a: seq<Task>, t: Option<Task>)
    ensures CountAnalyses(a + TasksOf(t)) == CountAnalyses(a) + (if t == Some(AnalyzeCodebase) then 1 else 0)
  {
    if t.Some? {
      assert (a + [t.value])[..|a|] == a;
    } else {
      assert a + [] == a;
    }
  }

  /** Only a waiting reset spawns the analysis, and it consumes the flag; no message raises the flag. */
  lemma DeferredFlagStep(st: SessionState, msg: BackgroundMessage, changed: set<string>,
                         graph: map<string, Suggest.FileSummary>, aiEnabled: bool)
    ensures var (r, t) := Handle(st, msg, changed, graph, aiEnabled);
      && (r.summaries.deferredSuggestions ==> st.summaries.deferredSuggestions)
      && (t == Some(AnalyzeCodebase) ==> st.summaries.deferredSuggestions && !r.summaries.deferredSuggestions)
  {
  }

  /** One message never lowers the token count. */
  lemma HandleKeepsTokens(st: SessionState, msg: BackgroundMessage, changed: set<string>,
                          graph: map<string, Suggest.FileSummary>, aiEnabled: bool)
    ensures Handle(st, msg, changed, graph, aiEnabled).0.tokens >= st.tokens
  {
  }

  /** No run of messages lowers the session's token count. */
  lemma {:induction false} TokensNeverDecrease(st: SessionState, msgs: seq<BackgroundMessage>, changed: set<string>,
                                               graph: map<string, Suggest.FileSummary>, aiEnabled: bool)
    ensures HandleAll(st, msgs, changed, graph, aiEnabled).0.tokens >= st.tokens
  {
    if msgs != [] {
      var before := HandleAll(st, msgs[..|msgs| - 1], changed, graph, aiEnabled);
      TokensNeverDecrease(st, msgs[..|msgs| - 1], changed, graph, aiEnabled);
      HandleKeepsTokens(before.0, msgs[|msgs| - 1], changed, graph, aiEnabled);
    }
  }

  /**
   * The suggestion analysis a reset defers until summaries are ready is
   * spawned at most once: never when no reset was waiting, and once
   * spawned the waiting flag is consumed for good.
   */
  lemma {:induction false} DeferredAnalysisAtMostOnce(st: SessionState, msgs: seq<BackgroundMessage>, changed: set<string>,
                                                      graph: map<string, Suggest.FileSummary>, aiEnabled: bool)
    ensures var (r, ts) := HandleAll(st, msgs, changed, graph, aiEnabled);
      CountAnalyses(ts) + (if r.summaries.deferredSuggestions then 1 else 0) <= (if st.summaries.deferredSuggestions then 1 else 0)
  {
    if msgs != [] {
      var before := HandleAll(st, msgs[..|msgs| - 1], changed, graph, aiEnabled);
      DeferredAnalysisAtMostOnce(st, msgs[..|msgs| - 1], changed, graph, aiEnabled);
      var step := Handle(before.0, msgs[|msgs| - 1], changed, graph, aiEnabled);
      CountAnalysesAppend(before.1, step.1);
      DeferredFlagStep(before.0, msgs[|msgs| - 1], changed, graph, aiEnabled);
    }
  }

  // ---- key guards in normal mode ----

  /** The keys of normal mode whose handling depends on the workflow. */
  datatype Key = Down | Up | Space | FixKey | Enter | Esc

  /** What the guards in the key handler read. */
  datatype KeyView = KeyView(
    panel: Ui.ActivePanel,
    step: WorkflowStep,
    reviewing: bool,            // a review request is in flight
    fixing: bool,               // a fix of review findings is in flight
    verifyLoading: bool,
    findingsSelected: nat,
    reviewFileKnown: bool,
    prUrlPending: bool,         // `app.pr_url` holds a PR to open
    suggestionSelected: bool,
    aiAvailable: bool,          // the service is configured
    aiAllowed: bool,            // the budget allows another call
    verifyPreview: bool,        // the Verify step has its preview
    verifyTargetFound: bool,    // its suggestion id and file are set and the suggestion is in the list
    reviewPassed: bool,
    shipStep: ShipStep,
    searchActive: bool,
    overlayOpen: bool)

  /** The effect a key press selects. */
  datatype KeyEffect =
    | Nothing
    | ReviewCursor | VerifyScroll | ShipScroll | Navigate
    | ToggleFinding | FixFindings
    | OpenPrUrl | ToggleGroup | SetupHint | BudgetRefused | StartVerify | ApplyFix | StartShip | ShipCommit | CompleteWorkflow
    | WorkflowBack | ExitSearch | CloseOverlay

  /** The Review step accepts input only while neither a review nor a fix is in flight. */
  predicate ReviewIdle(v: KeyView)
  {
    !v.reviewing && !v.fixing
  }

  /** The normal-mode key handler's decision for the keys that depend on the workflow. */
  function KeyAction(key: Key, v: KeyView): (r: KeyEffect)
    ensures r == StartVerify <==>
      key == Enter && !v.prUrlPending && v.panel.Suggestions? && v.step == Suggestions
      && v.suggestionSelected && v.aiAvailable && v.aiAllowed
    ensures r == ApplyFix <==>
      key == Enter && !v.prUrlPending && v.panel.Suggestions? && v.step == Verify && v.verifyPreview && v.verifyTargetFound
    ensures r == FixFindings <==>
      key == FixKey && v.panel.Suggestions? && v.step == Review && ReviewIdle(v) && v.findingsSelected > 0 && v.reviewFileKnown
    ensures r == ShipCommit <==>
      key == Enter && !v.prUrlPending && v.panel.Suggestions? && v.step == Ship && v.shipStep == Confirm
    ensures r == WorkflowBack <==> key == Esc && v.panel.Suggestions? && v.step != Suggestions
    ensures key == Enter && v.prUrlPending ==> r == OpenPrUrl
  {
    match key
    case Down => Move(v)
    case Up => Move(v)
    case Space =>
      if v.panel.Suggestions? && v.step == Review && ReviewIdle(v) then ToggleFinding else Nothing
    case FixKey =>
      if v.panel.Suggestions? && v.step == Review && ReviewIdle(v) && v.findingsSelected > 0 then
        (if v.reviewFileKnown then FixFindings else Nothing)
      else Nothing
    case Enter =>
      if v.prUrlPending then OpenPrUrl
      else if v.panel.Project? then ToggleGroup
      else EnterInWorkflow(v)
    case Esc =>
      if v.panel.Suggestions? && v.step != Suggestions then WorkflowBack
      else if v.searchActive then ExitSearch
      else if v.overlayOpen then CloseOverlay
      else Nothing
  }

  /** Down and Up: move within the current step, or navigate the lists. */
  function Move(v: KeyView): KeyEffect
  {
    if !v.panel.Suggestions? then Navigate
    else match v.step
      case Review => if ReviewIdle(v) then ReviewCursor else Nothing
      case Verify => if !v.verifyLoading then VerifyScroll else Nothing
      case Ship => ShipScroll
      case Suggestions => Navigate
  }

  /** Enter on the suggestion panel, by workflow step. */
  function EnterInWorkflow(v: KeyView): KeyEffect
  {
    match v.step
    case Suggestions =>
      if !v.suggestionSelected then Nothing
      else if !v.aiAvailable then SetupHint
      else if !v.aiAllowed then BudgetRefused
      else StartVerify
    case Verify => if v.verifyPreview && v.verifyTargetFound then ApplyFix else Nothing
    case Review => if v.reviewPassed then StartShip else Nothing
    case Ship =>
      match v.shipStep
      case Confirm => ShipCommit
      case Done => CompleteWorkflow
      case _ => Nothing
  }

  /** While a review or a fix of findings is in flight, the Review step ignores every key but Enter and Esc. */
  lemma BusyReviewIgnoresKeys(key: Key, v: KeyView)
    requires v.panel.Suggestions? && v.step == Review && !ReviewIdle(v)
    requires key in {Down, Up, Space, FixKey}
    ensures KeyAction(key, v) == Nothing
  {
  }

  /** No key starts a call to the service unless the service is configured and the budget allows it. */
  lemma ServiceCallsNeedAi(key: Key, v: KeyView)
    requires KeyAction(key, v) == StartVerify
    ensures v.aiAvailable && v.aiAllowed && v.suggestionSelected
  {
  }

  // ---- the session object ----

  /**
   * The part of `App` the message handler touches, over the interface state
   * of `Ui.App` (its overlay and its suggestion engine).
   */
  class Session {
    const app: Ui.App
    var loading: LoadingState
    var summaries: SummaryStatus
    var tokens: nat
    var activeModel: Option<string>
    var workflow: Workflow
    var legacy: Legacy
    var fixes: FixBranch

    /** A fresh session at start-up: idle, in the Suggestions step, nothing pending. */
    constructor (app: Ui.App, needsSummaries: bool, deferSuggestions: bool)
      ensures this.app == app
      ensures State() == SessionState(Idle, SummaryStatus(None, needsSummaries, deferSuggestions), 0, None,
                                       Workflow(Suggestions, DefaultVerify, None, Confirm, None), Legacy(None, None, None),
                                       FixBranch(None, []), app.overlay, app.engine.suggestions)
    {
      this.app := app;
      loading, summaries, tokens, activeModel := Idle, SummaryStatus(None, needsSummaries, deferSuggestions), 0, None;
      workflow := Workflow(Suggestions, DefaultVerify, None, Confirm, None);
      legacy, fixes := Legacy(None, None, None), FixBranch(None, []);
    }

    function State(): SessionState
      reads this, app, app.engine
    {
      SessionState(loading, summaries, tokens, activeModel, workflow, legacy, fixes, app.overlay, app.engine.suggestions)
    }

    /** Adds each new suggestion through the engine, then orders the list around the changed files. */
    method AcceptSuggestions(news: seq<Suggest.Suggestion>, changed: set<string>)
      modifies app.engine
      ensures app.engine.suggestions ==
        Sorting.SortBy(AddAll(old(app.engine.suggestions), news),
                       Suggest.ContextKeyOf(changed, Suggest.BlastRadius(app.engine.graph, changed)))
    {
      var engine := app.engine;
      ghost var s0 := engine.suggestions;
      for i := 0 to |news|
        invariant engine.suggestions == AddAll(s0, news[..i])
      {
        engine.AddLlmSuggestion(news[i]);
        assert news[..i + 1][..i] == news[..i];
      }
      assert news[..|news|] == news;
      engine.SortWithContext(changed);
    }

    /** One message of the main loop: the session becomes `Handle` of it, and the background task it names is spawned. */
    method HandleMessage(msg: BackgroundMessage, changed: set<string>, aiEnabled: bool) returns (spawned: Option<Task>)
      modifies this, app`overlay, app.engine
      ensures State() == Handle(old(State()), msg, changed, app.engine.graph, aiEnabled).0
      ensures spawned == Handle(old(State()), msg, changed, app.engine.graph, aiEnabled).1
    {
      if IsAnalysisMessage(msg) {
        spawned := HandleAnalysisMessage(msg, changed, aiEnabled);
      } else if IsFixMessage(msg) {
        spawned := HandleFixMessage(msg, changed, aiEnabled);
      } else {
        HandleShipMessage(msg, changed, aiEnabled);
        spawned := None;
      }
    }

    /** The arms for suggestions and summaries. */
    method HandleAnalysisMessage(msg: BackgroundMessage, changed: set<string>, aiEnabled: bool) returns (spawned: Option<Task>)
      requires IsAnalysisMessage(msg)
      modifies this, app.engine
      ensures State() == Handle(old(State()), msg, changed, app.engine.graph, aiEnabled).0
      ensures spawned == Handle(old(State()), msg, changed, app.engine.graph, aiEnabled).1
    {
      spawned := None;
      match msg {
        case SuggestionsReady(news, usage, model) =>
          AcceptSuggestions(news, changed);
          tokens, loading, activeModel := AddTokens(tokens, usage), AfterSuggestions(summaries), Some(model);
        case SuggestionsError(_) =>
          loading := AfterSuggestions(summaries);
        case SummariesReady(_, usage) =>
          tokens := AddTokens(tokens, usage);
          spawned := FinishSummaries(aiEnabled);
        case SummaryProgress(completed, total, _) =>
          summaries := summaries.(progress := Some((completed, total)));
        case SummariesError(_) =>
          if loading != GeneratingSuggestions {
            loading := Idle;
          }
          summaries := summaries.(progress := None);
      }
    }

    /** The arms for previews and applied fixes. */
    method HandleFixMessage(msg: BackgroundMessage, changed: set<string>, aiEnabled: bool) returns (spawned: Option<Task>)
      requires IsFixMessage(msg)
      modifies this, app`overlay, app.engine
      ensures State() == Handle(old(State()), msg, changed, app.engine.graph, aiEnabled).0
      ensures spawned == Handle(old(State()), msg, changed, app.engine.graph, aiEnabled).1
    {
      spawned := None;
      match msg {
        case PreviewReady(id, file, summary, preview) =>
          loading := Idle;
          if workflow.step == Verify {
            workflow := workflow.(verify := workflow.verify.(preview := Some(preview), loading := false));
          } else {
            legacy := legacy.(fixPreview := Some(FixPreview(id, file, summary, preview)));
          }
        case PreviewError(_) =>
          loading, workflow := Idle, ResetVerify(workflow);
        case DirectFixApplied(id, file, description, areas, backup, usage, branch) =>
          tokens, loading := AddTokens(tokens, usage), Idle;
          app.engine.MarkSuggestionApplied(id);
          fixes := FixBranch(Some(branch), fixes.pending + [FixChange(id, file, description, areas, backup)]);
          if workflow.step != Verify {
            app.ShowVerificationReview(file);
          }
          workflow := ReviewAfterFix(workflow, file);
          spawned := Some(VerifyChanges(file));
        case DirectFixError(_) =>
          loading, workflow := Idle, ResetVerify(workflow);
      }
    }

    /** The arms for ship progress and plain errors; none of them spawns a task. */
    method HandleShipMessage(msg: BackgroundMessage, changed: set<string>, aiEnabled: bool)
      requires !IsAnalysisMessage(msg) && !IsFixMessage(msg)
      modifies this, app`overlay
      ensures State() == Handle(old(State()), msg, changed, app.engine.graph, aiEnabled).0
      ensures Handle(old(State()), msg, changed, app.engine.graph, aiEnabled).1 == None
    {
      match msg {
        case ShipProgress(step) =>
          if workflow.step == Ship {
            workflow := workflow.(shipStep := step);
          } else {
            legacy := legacy.(shipStep := Some(step));
          }
        case ShipComplete(url) =>
          if workflow.step == Ship {
            workflow := workflow.(prUrl := Some(url));
          } else {
            legacy := legacy.(shipStep := Some(Done), prUrl := Some(url));
            fixes := fixes.(pending := []);
          }
        case ShipError(_) =>
          legacy := legacy.(shipStep := None);
          app.CloseOverlay();
        case Error(_) =>
          loading := Idle;
      }
    }

    /** The tail of `SummariesReady`: summary generation is over; a deferred analysis starts if AI is enabled. */
    method FinishSummaries(aiEnabled: bool) returns (spawned: Option<Task>)
      modifies this
      ensures State() == OnSummariesReady(old(State()), aiEnabled).0
      ensures spawned == OnSummariesReady(old(State()), aiEnabled).1
    {
      spawned := None;
      var deferred := summaries.deferredSuggestions;
      summaries := SummaryStatus(None, false, false);
      if deferred {
        if aiEnabled {
          loading := GeneratingSuggestions;
          spawned := Some(AnalyzeCodebase);
        } else {
          loading := Idle;
        }
      } else if loading != GeneratingSuggestions {
        loading := Idle;
      }
    }

    /** `while let Ok(msg) = rx.try_recv()`: every queued message, in order. */
    method DrainMessages(msgs: seq<BackgroundMessage>, changed: set<string>, aiEnabled: bool) returns (spawned: seq<Task>)
      modifies this, app`overlay, app.engine
      ensures (State(), spawned) == HandleAll(old(State()), msgs, changed, app.engine.graph, aiEnabled)
    {
      spawned := [];
      for i := 0 to |msgs|
        invariant (State(), spawned) == HandleAll(old(State()), msgs[..i], changed, app.engine.graph, aiEnabled)
      {
        var t := HandleMessage(msgs[i], changed, aiEnabled);
        assert msgs[..i + 1][..i] == msgs[..i];
        spawned := spawned + TasksOf(t);
      }
      assert msgs[..|msgs|] == msgs;
    }
  }
}
