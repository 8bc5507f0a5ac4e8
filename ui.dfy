/**
 * The interface state of `src/ui/mod.rs`: which panel is active, the
 * selection and scroll offset of each list, the overlay and its scroll
 * position, and dismissing the selected suggestion. Rendering is not
 * modelled; the file tree is kept only as the list of its entries' paths.
 */
module Ui {
  import Results
  import Suggest

  datatype ActivePanel = Project | Suggestions

  /**
   * The overlay drawn above the panels; the three content overlays carry a
   * scroll offset. `VerificationReview` is the review of an applied fix that
   * the main loop opens outside the workflow; only the reviewed file is kept.
   */
  datatype Overlay =
    | None
    | Help
    | SuggestionDetail(suggestionId: nat, scroll: nat)
    | Inquiry(response: string, scroll: nat)
    | ApplyConfirm(suggestionId: nat, diffPreview: string, scroll: nat)
    | VerificationReview(file: string)

  /** Rows of the project list and of the suggestion list that fit on screen. */
  const ProjectRows: nat := 15
  const SuggestionRows: nat := 10

  /** The panel `toggle_panel` switches to. */
  function OtherPanel(p: ActivePanel): (q: ActivePanel)
    ensures q != p
  {
    match p
    case Project => Suggestions
    case Suggestions => Project
  }

  /** Toggling twice returns to the panel one started from. */
  lemma TogglePanelInvolution(p: ActivePanel)
    ensures OtherPanel(OtherPanel(p)) == p
  {
  }

  /** `saturating_sub`. */
  function SaturatingSub(a: nat, b: nat): nat { if a >= b then a - b else 0 }

  /** `navigate_down` on a list of `len` entries: one step further, but not past the last entry (or 0). */
  function StepDown(selected: nat, len: nat): (r: nat)
    ensures r <= SaturatingSub(len, 1)
    ensures selected < SaturatingSub(len, 1) ==> r == selected + 1
    ensures selected >= SaturatingSub(len, 1) ==> r == SaturatingSub(len, 1)
  {
    var max := SaturatingSub(len, 1);
    if selected + 1 < max then selected + 1 else max
  }

  /** `navigate_up`: one step back, stopping at 0. */
  function StepUp(selected: nat): (r: nat)
    ensures selected > 0 ==> r == selected - 1
    ensures selected == 0 ==> r == 0
  {
    SaturatingSub(selected, 1)
  }

  /** Stepping down and then up returns to an entry that had one below it. */
  lemma StepDownThenUp(selected: nat, len: nat)
    requires selected + 1 < len
    ensures StepUp(StepDown(selected, len)) == selected
  {
  }

  /**
   * The scroll offset `ensure_*_visible` chooses for a window of `rows`
   * rows: unchanged when the selection is already visible, otherwise the
   * smallest move that brings it into view.
   */
  function VisibleScroll(selected: nat, scroll: nat, rows: nat): (r: nat)
    requires rows > 0
    ensures r <= selected < r + rows
    ensures scroll <= selected < scroll + rows ==> r == scroll
    ensures selected < scroll ==> r == selected
    ensures selected >= scroll + rows ==> r == selected - (rows - 1)
  {
    if selected < scroll then selected
    else if selected >= scroll + rows then SaturatingSub(selected, rows - 1)
    else scroll
  }

  /** Once the selection is visible, making it visible again changes nothing. */
  lemma VisibleScrollIdempotent(selected: nat, scroll: nat, rows: nat)
    requires rows > 0
    ensures VisibleScroll(selected, VisibleScroll(selected, scroll, rows), rows) == VisibleScroll(selected, scroll, rows)
  {
  }

  /** `toggle_help`: Help closes, anything else is replaced by Help. */
  function ToggledHelp(o: Overlay): (r: Overlay)
    ensures o == Help ==> r == None
    ensures o != Help ==> r == Help
  {
    match o
    case Help => None
    case _ => Help
  }

  /** `overlay_scroll_down`: the three content overlays scroll one line further; the others are unchanged. */
  function ScrolledDown(o: Overlay): (r: Overlay)
    ensures (o.SuggestionDetail? || o.Inquiry? || o.ApplyConfirm?) ==> r == o.(scroll := o.scroll + 1)
    ensures !(o.SuggestionDetail? || o.Inquiry? || o.ApplyConfirm?) ==> r == o
  {
    match o
    case SuggestionDetail(id, scroll) => SuggestionDetail(id, scroll + 1)
    case Inquiry(response, scroll) => Inquiry(response, scroll + 1)
    case ApplyConfirm(id, preview, scroll) => ApplyConfirm(id, preview, scroll + 1)
    case _ => o
  }

  /** `overlay_scroll_up`: one line back, stopping at 0; the others are unchanged. */
  function ScrolledUp(o: Overlay): (r: Overlay)
    ensures (o.SuggestionDetail? || o.Inquiry? || o.ApplyConfirm?) ==> r == o.(scroll := SaturatingSub(o.scroll, 1))
    ensures !(o.SuggestionDetail? || o.Inquiry? || o.ApplyConfirm?) ==> r == o
  {
    match o
    case SuggestionDetail(id, scroll) => SuggestionDetail(id, SaturatingSub(scroll, 1))
    case Inquiry(response, scroll) => Inquiry(response, SaturatingSub(scroll, 1))
    case ApplyConfirm(id, preview, scroll) => ApplyConfirm(id, preview, SaturatingSub(scroll, 1))
    case _ => o
  }

  /** Scrolling up undoes scrolling down, and scrolling keeps the kind of overlay and its content. */
  lemma ScrollRoundTrip(o: Overlay)
    ensures ScrolledUp(ScrolledDown(o)) == o
    ensures ScrolledDown(o).SuggestionDetail? == o.SuggestionDetail? && ScrolledUp(o).SuggestionDetail? == o.SuggestionDetail?
    ensures ScrolledDown(o).Inquiry? == o.Inquiry? && ScrolledUp(o).Inquiry? == o.Inquiry?
    ensures ScrolledDown(o).ApplyConfirm? == o.ApplyConfirm? && ScrolledUp(o).ApplyConfirm? == o.ApplyConfirm?
  {
  }

  predicate UniqueIds(s: seq<Suggest.Suggestion>)
  {
    forall i, j :: 0 <= i < j < |s| ==> s[i].id != s[j].id
  }

  /** `selected_suggestion`: the entry of the active view at the selection, if there is one. */
  function SelectedIn(s: seq<Suggest.Suggestion>, selected: nat): (r: Results.Option<Suggest.Suggestion>)
    ensures r.Some? <==> selected < |Suggest.Active(s)|
    ensures r.Some? ==> r.value == Suggest.Active(s)[selected] && r.value in s && Suggest.IsActive(r.value)
  {
    var active := Suggest.Active(s);
    if selected < |active| then
      Suggest.ActiveExact(s, active[selected]);
      Results.Some(active[selected])
    else Results.None
  }

  /** The stored position of an element is the first position of its id when ids are unique. */
  lemma UniqueFirstIndex(s: seq<Suggest.Suggestion>, j: nat)
    requires UniqueIds(s) && j < |s|
    ensures Suggest.FirstIndexOf(s, s[j].id) == Results.Some(j)
  {
    var f := Suggest.FirstIndexOf(s, s[j].id);
    assert f.Some?;
    assert f.value == j;
  }

  /**
   * With unique ids, dismissing the selected suggestion removes exactly that
   * entry from the active view: it is no longer active and the view shrinks by one.
   */
  lemma DismissSelectedRemovesIt(s: seq<Suggest.Suggestion>, selected: nat)
    requires UniqueIds(s) && selected < |Suggest.Active(s)|
    ensures var x := Suggest.Active(s)[selected];
      var after := Suggest.EditFirst(s, x.id, Suggest.Dismiss);
      x !in Suggest.Active(after) && |Suggest.Active(after)| + 1 == |Suggest.Active(s)|
  {
    var x := Suggest.Active(s)[selected];
    Suggest.ActiveExact(s, x);
    var j :| 0 <= j < |s| && s[j] == x;
    UniqueFirstIndex(s, j);
    Suggest.DismissLeavesActiveView(s, x.id, j);
    var pre, post := s[..j], s[j + 1..];
    assert x !in pre by {
      forall i | 0 <= i < |pre| ensures pre[i] != x { assert pre[i] == s[i]; }
    }
    assert x !in post by {
      forall i | 0 <= i < |post| ensures post[i] != x { assert post[i] == s[j + 1 + i]; }
    }
    Suggest.ActiveExact(pre, x);
    Suggest.ActiveExact(post, x);
  }

  /** `App`: the interface state over a suggestion engine and the flattened file tree. */
  class App {
    const engine: Suggest.SuggestionEngine
    var fileTree: seq<string>
    var activePanel: ActivePanel
    var projectScroll: nat
    var projectSelected: nat
    var suggestionScroll: nat
    var suggestionSelected: nat
    var overlay: Overlay
    var toast: Results.Option<string>
    var shouldQuit: bool

    /** `App::new`: the project panel is active, nothing is selected or scrolled, no overlay. */
    constructor (engine: Suggest.SuggestionEngine, fileTree: seq<string>)
      ensures this.engine == engine && this.fileTree == fileTree
      ensures activePanel == Project && overlay == None && toast == Results.None && !shouldQuit
      ensures projectScroll == 0 && projectSelected == 0 && suggestionScroll == 0 && suggestionSelected == 0
    {
      this.engine := engine;
      this.fileTree := fileTree;
      activePanel := Project;
      projectScroll, projectSelected := 0, 0;
      suggestionScroll, suggestionSelected := 0, 0;
      overlay := None;
      toast := Results.None;
      shouldQuit := false;
    }

    /** Both selections are on screen. */
    ghost predicate SelectionsVisible()
      reads this
    {
      && projectScroll <= projectSelected < projectScroll + ProjectRows
      && suggestionScroll <= suggestionSelected < suggestionScroll + SuggestionRows
    }

    function ActiveCount(): nat
      reads this, engine
    {
      |Suggest.Active(engine.suggestions)|
    }

    /** `toggle_panel`. */
    method TogglePanel()
      modifies this`activePanel
      ensures activePanel == OtherPanel(old(activePanel))
    {
      activePanel := OtherPanel(activePanel);
    }

    /** `ensure_project_visible`. */
    method EnsureProjectVisible()
      modifies this`projectScroll
      ensures projectScroll == VisibleScroll(projectSelected, old(projectScroll), ProjectRows)
      ensures projectScroll <= projectSelected < projectScroll + ProjectRows
    {
      if projectSelected < projectScroll {
        projectScroll := projectSelected;
      } else if projectSelected >= projectScroll + ProjectRows {
        projectScroll := SaturatingSub(projectSelected, ProjectRows - 1);
      }
    }

    /** `ensure_suggestion_visible`. */
    method EnsureSuggestionVisible()
      modifies this`suggestionScroll
      ensures suggestionScroll == VisibleScroll(suggestionSelected, old(suggestionScroll), SuggestionRows)
      ensures suggestionScroll <= suggestionSelected < suggestionScroll + SuggestionRows
    {
      if suggestionSelected < suggestionScroll {
        suggestionScroll := suggestionSelected;
      } else if suggestionSelected >= suggestionScroll + SuggestionRows {
        suggestionScroll := SaturatingSub(suggestionSelected, SuggestionRows - 1);
      }
    }

    /** `navigate_down`: the active panel's selection moves one entry down, never past its last entry. */
    method NavigateDown()
      modifies this`projectSelected, this`projectScroll, this`suggestionSelected, this`suggestionScroll
      ensures old(activePanel) == Project ==>
        && projectSelected == StepDown(old(projectSelected), |fileTree|)
        && projectScroll == VisibleScroll(projectSelected, old(projectScroll), ProjectRows)
        && suggestionSelected == old(suggestionSelected) && suggestionScroll == old(suggestionScroll)
      ensures old(activePanel) == Suggestions ==>
        && suggestionSelected == StepDown(old(suggestionSelected), ActiveCount())
        && suggestionScroll == VisibleScroll(suggestionSelected, old(suggestionScroll), SuggestionRows)
        && projectSelected == old(projectSelected) && projectScroll == old(projectScroll)
    {
      match activePanel {
        case Project =>
          projectSelected := StepDown(projectSelected, |fileTree|);
          EnsureProjectVisible();
        case Suggestions =>
          suggestionSelected := StepDown(suggestionSelected, |Suggest.Active(engine.suggestions)|);
          EnsureSuggestionVisible();
      }
    }

    /** `navigate_up`: the active panel's selection moves one entry up, stopping at 0. */
    method NavigateUp()
      modifies this`projectSelected, this`projectScroll, this`suggestionSelected, this`suggestionScroll
      ensures old(activePanel) == Project ==>
        && projectSelected == StepUp(old(projectSelected))
        && projectScroll == VisibleScroll(projectSelected, old(projectScroll), ProjectRows)
        && suggestionSelected == old(suggestionSelected) && suggestionScroll == old(suggestionScroll)
      ensures old(activePanel) == Suggestions ==>
        && suggestionSelected == StepUp(old(suggestionSelected))
        && suggestionScroll == VisibleScroll(suggestionSelected, old(suggestionScroll), SuggestionRows)
        && projectSelected == old(projectSelected) && projectScroll == old(projectScroll)
    {
      match activePanel {
        case Project =>
          projectSelected := StepUp(projectSelected);
          EnsureProjectVisible();
        case Suggestions =>
          suggestionSelected := StepUp(suggestionSelected);
          EnsureSuggestionVisible();
      }
    }

    /** `selected_suggestion`, read on the engine's store (see `SelectedIn`). */
    function SelectedSuggestion(): Results.Option<Suggest.Suggestion>
      reads this, engine
    {
      SelectedIn(engine.suggestions, suggestionSelected)
    }

    /** `show_suggestion_detail`: opens the detail overlay of the selected suggestion, scrolled to the top. */
    method ShowSuggestionDetail()
      modifies this`overlay
      ensures SelectedSuggestion().Some? ==> overlay == SuggestionDetail(SelectedSuggestion().value.id, 0)
      ensures SelectedSuggestion().None? ==> overlay == old(overlay)
    {
      var selected := SelectedSuggestion();
      if selected.Some? {
        overlay := SuggestionDetail(selected.value.id, 0);
      }
    }

    /** `toggle_help`. */
    method ToggleHelp()
      modifies this`overlay
      ensures overlay == ToggledHelp(old(overlay))
    {
      overlay := match overlay {
        case Help => None
        case _ => Help
      };
    }

    /** `close_overlay`. */
    method CloseOverlay()
      modifies this`overlay
      ensures overlay == None
    {
      overlay := None;
    }

    /** `show_inquiry`. */
    method ShowInquiry(response: string)
      modifies this`overlay
      ensures overlay == Inquiry(response, 0)
    {
      overlay := Inquiry(response, 0);
    }

    /** `show_verification_review`: the review overlay of the fixed file replaces any other. */
    method ShowVerificationReview(file: string)
      modifies this`overlay
      ensures overlay == VerificationReview(file)
    {
      overlay := VerificationReview(file);
    }

    /** `overlay_scroll_down`. */
    method OverlayScrollDown()
      modifies this`overlay
      ensures overlay == ScrolledDown(old(overlay))
    {
      match overlay {
        case SuggestionDetail(id, scroll) => overlay := SuggestionDetail(id, scroll + 1);
        case Inquiry(response, scroll) => overlay := Inquiry(response, scroll + 1);
        case ApplyConfirm(id, preview, scroll) => overlay := ApplyConfirm(id, preview, scroll + 1);
        case _ =>
      }
    }

    /** `overlay_scroll_up`. */
    method OverlayScrollUp()
      modifies this`overlay
      ensures overlay == ScrolledUp(old(overlay))
    {
      match overlay {
        case SuggestionDetail(id, scroll) => overlay := SuggestionDetail(id, SaturatingSub(scroll, 1));
        case Inquiry(response, scroll) => overlay := Inquiry(response, SaturatingSub(scroll, 1));
        case ApplyConfirm(id, preview, scroll) => overlay := ApplyConfirm(id, preview, SaturatingSub(scroll, 1));
        case _ =>
      }
    }

    /**
     * `dismiss_selected`: dismisses the selected entry of the active view by
     * its id and shows a toast; with no such entry nothing changes.
     */
    method DismissSelected()
      modifies this`toast, engine
      ensures old(SelectedSuggestion()).Some? ==>
        && engine.suggestions == Suggest.EditFirst(old(engine.suggestions), old(SelectedSuggestion()).value.id, Suggest.Dismiss)
        && toast == Results.Some("Suggestion dismissed")
      ensures old(SelectedSuggestion()).None? ==> engine.suggestions == old(engine.suggestions) && toast == old(toast)
    {
      var selected := SelectedSuggestion();
      if selected.Some? {
        engine.DismissSuggestion(selected.value.id);
        toast := Results.Some("Suggestion dismissed");
      }
    }
  }
}
