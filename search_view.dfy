/**
 * The view-state logic of the search panel (the left covering pane).
 *
 * The panel shows one of three "big text" messages (searching, instructions,
 * no results), a bottom menubar that appears while songs are selected, and a
 * save-selected button that only works for a signed-in user. The view decides
 * which of these are shown from the search state: whether a search request
 * is in flight, whether the user is typing, the committed search query, the
 * number of results and the number of selected results, and whether the user
 * is signed in.
 *
 * The DOM classes the view toggles are fields of the class `SearchView`; the
 * decisions themselves are the pure functions before it.
 */
module Search {
  import JQueryTrim

  /** The two tooltips the save-selected button can carry. */
  datatype SaveTitle = SaveSelectedMessage | CantSaveNotSignedInMessage

  /** Which of the three big-text messages carry the `hidden` class. */
  datatype Messages = Messages(searchingHidden: bool, instructionsHidden: bool, noResultsHidden: bool)

  /** No search request is in flight and the user is not typing. */
  predicate IsNotSearching(inFlight: bool, typing: bool) {
    !inFlight && !typing
  }

  predicate HasSearchResults(resultCount: nat) {
    resultCount > 0
  }

  predicate HasSearchQuery(searchQuery: string) {
    |searchQuery| > 0
  }

  /** The message visibility `toggleBigText` sets. The no-results message is
      never shown beside either of the other two, and a panel without results
      always shows at least one message. */
  function BigText(inFlight: bool, typing: bool, searchQuery: string, resultCount: nat): (m: Messages)
    ensures m.searchingHidden <==> !inFlight && !typing
    ensures m.instructionsHidden <==> resultCount > 0 || searchQuery != []
    ensures !m.noResultsHidden <==> !inFlight && !typing && searchQuery != [] && resultCount == 0
    ensures !m.noResultsHidden ==> m.searchingHidden && m.instructionsHidden
    ensures resultCount == 0 ==> !(m.searchingHidden && m.instructionsHidden && m.noResultsHidden)
  {
    var isNotSearching := IsNotSearching(inFlight, typing);
    var hasSearchResults := HasSearchResults(resultCount);
    var hasSearchQuery := HasSearchQuery(searchQuery);
    var hasNoResults := isNotSearching && hasSearchQuery && !hasSearchResults;
    Messages(isNotSearching, hasSearchResults || hasSearchQuery, !hasNoResults)
  }

  /** The phases of a search session, as the view tells them apart. */
  datatype Phase = Idle | Typing | Searching | HasResults | NoResults

  /** An independent reading of the search state as a phase: a request in
      flight wins over typing, which wins over whatever results are held. */
  function PhaseOf(inFlight: bool, typing: bool, searchQuery: string, resultCount: nat): Phase {
    if inFlight then Searching
    else if typing then Typing
    else if resultCount > 0 then HasResults
    else if searchQuery != [] then NoResults
    else Idle
  }

  /** The messages follow the phase: "searching" is shown exactly while typing
      or searching, "no results" exactly in the no-results phase, and the
      instructions exactly while neither a query nor a result is held, which
      includes the idle phase. */
  lemma BigTextFollowsPhase(inFlight: bool, typing: bool, searchQuery: string, resultCount: nat)
    ensures var m, p := BigText(inFlight, typing, searchQuery, resultCount), PhaseOf(inFlight, typing, searchQuery, resultCount);
      && (!m.searchingHidden <==> p == Typing || p == Searching)
      && (!m.noResultsHidden <==> p == NoResults)
      && (p == Idle ==> !m.instructionsHidden)
      && (!m.instructionsHidden ==> p == Idle || p == Typing || p == Searching)
  {
  }

  /** The `doToggle` condition of `toggleBottomMenubar`: the menubar is
      toggled exactly when the `extended` class disagrees with "nothing is
      selected". */
  function DoToggle(extended: bool, selectedCount: nat): (t: bool)
    ensures t <==> extended != (selectedCount == 0)
  {
    (extended && selectedCount > 0) || (!extended && selectedCount == 0)
  }

  /** The save-selected button's `disabled` class and its tooltip. */
  datatype SaveButton = SaveButton(disabled: bool, title: SaveTitle)

  /** What `toggleSaveSelected` makes of the sign-in state: disabled, with the
      "can't save" tooltip, exactly when the user is not signed in. */
  function SaveButtonFor(signedIn: bool): (b: SaveButton)
    ensures b.disabled <==> !signedIn
    ensures b.title == CantSaveNotSignedInMessage <==> !signedIn
  {
    SaveButton(!signedIn, if signedIn then SaveSelectedMessage else CantSaveNotSignedInMessage)
  }

  class SearchView {
    // the `hidden` class on the three big-text messages
    var searchingHidden: bool
    var instructionsHidden: bool
    var noResultsHidden: bool
    // the `extended` class on the big-text wrapper, and the menubar's visibility
    var extended: bool
    var menubarVisible: bool
    // the save-selected button
    var saveDisabled: bool
    var saveTitle: SaveTitle
    // ListHeightUpdated signals raised, save prompts shown, queries handed to the search model
    var listHeightUpdates: nat
    var savePromptsShown: nat
    var searches: seq<string>

    /** The menubar is shown exactly when the list is not extended. */
    ghost predicate MenubarMatchesExtended()
      reads this
    {
      menubarVisible == !extended
    }

    function CurrentMessages(): Messages
      reads this
    {
      Messages(searchingHidden, instructionsHidden, noResultsHidden)
    }

    /** A view over freshly rendered markup. The markup's initial classes are
        parameters; every other flag is set by `Render` before it is read. */
    constructor (extended: bool, menubarVisible: bool)
      ensures this.extended == extended && this.menubarVisible == menubarVisible
      ensures CurrentMessages() == Messages(false, false, false)
      ensures !saveDisabled && saveTitle == SaveSelectedMessage
      ensures listHeightUpdates == 0 && savePromptsShown == 0 && searches == []
    {
      this.extended := extended;
      this.menubarVisible := menubarVisible;
      searchingHidden, instructionsHidden, noResultsHidden := false, false, false;
      saveDisabled, saveTitle := false, SaveSelectedMessage;
      listHeightUpdates, savePromptsShown, searches := 0, 0, [];
    }

    /** `search`: the input text, trimmed, is handed to the search model. */
    method Search(input: string) returns (searchQuery: string)
      modifies this`searches
      ensures searchQuery == JQueryTrim.Trim(input)
      ensures searches == old(searches) + [searchQuery]
    {
      searchQuery := JQueryTrim.Trim(input);
      searches := searches + [searchQuery];
    }

    /** `toggleSaveSelected`: disable the button and swap its tooltip by sign-in. */
    method ToggleSaveSelected(signedIn: bool)
      modifies this`saveDisabled, this`saveTitle
      ensures saveDisabled <==> !signedIn
      ensures SaveButton(saveDisabled, saveTitle) == SaveButtonFor(signedIn)
    {
      var button := SaveButtonFor(signedIn);
      saveDisabled := button.disabled;
      saveTitle := button.title;
    }

    /** `toggleBottomMenubar`: afterwards the list is extended exactly when
        nothing is selected; the menubar and the ListHeightUpdated signal
        change only when `extended` flips, so a view whose menubar matched
        `extended` still does. */
    method ToggleBottomMenubar(selectedCount: nat)
      modifies this`extended, this`menubarVisible, this`listHeightUpdates
      ensures extended <==> selectedCount == 0
      ensures old(MenubarMatchesExtended()) ==> MenubarMatchesExtended()
      ensures old(extended) == extended ==> menubarVisible == old(menubarVisible)
      ensures old(extended) != extended ==> menubarVisible == (selectedCount > 0)
      ensures listHeightUpdates == old(listHeightUpdates) + if old(extended) != extended then 1 else 0
    {
      var doToggle := DoToggle(extended, selectedCount);
      if doToggle {
        menubarVisible := selectedCount > 0;
        extended := selectedCount == 0;
        listHeightUpdates := listHeightUpdates + 1;
      }
    }

    /** `toggleBigText`: set the three messages' `hidden` classes. */
    method ToggleBigText(inFlight: bool, typing: bool, searchQuery: string, resultCount: nat)
      modifies this`searchingHidden, this`instructionsHidden, this`noResultsHidden
      ensures CurrentMessages() == BigText(inFlight, typing, searchQuery, resultCount)
    {
      var m := BigText(inFlight, typing, searchQuery, resultCount);
      searchingHidden := m.searchingHidden;
      instructionsHidden := m.instructionsHidden;
      noResultsHidden := m.noResultsHidden;
    }

    /** `showSaveSelectedPrompt`: the prompt is shown, and the menu closes,
        exactly when the button is not disabled. */
    method ShowSaveSelectedPrompt() returns (closeMenu: bool)
      modifies this`savePromptsShown
      ensures closeMenu <==> !saveDisabled
      ensures savePromptsShown == old(savePromptsShown) + if closeMenu then 1 else 0
    {
      var disabled := saveDisabled;
      if !disabled {
        savePromptsShown := savePromptsShown + 1;
      }
      closeMenu := !disabled;
    }

    /** `onRender`: apply all three toggles to the current state. */
    method Render(inFlight: bool, typing: bool, searchQuery: string, resultCount: nat,
                  selectedCount: nat, signedIn: bool)
      modifies this
      ensures CurrentMessages() == BigText(inFlight, typing, searchQuery, resultCount)
      ensures extended <==> selectedCount == 0
      ensures old(MenubarMatchesExtended()) ==> (menubarVisible <==> selectedCount > 0)
      ensures old(extended) == extended ==> menubarVisible == old(menubarVisible)
      ensures old(extended) != extended ==> menubarVisible == (selectedCount > 0)
      ensures listHeightUpdates == old(listHeightUpdates) + if old(extended) != extended then 1 else 0
      ensures SaveButton(saveDisabled, saveTitle) == SaveButtonFor(signedIn)
      ensures savePromptsShown == old(savePromptsShown) && searches == old(searches)
    {
      ToggleBigText(inFlight, typing, searchQuery, resultCount);
      ToggleBottomMenubar(selectedCount);
      ToggleSaveSelected(signedIn);
    }
  }

  /** A second selection change with the same count finds nothing to do: the
      view, including its count of ListHeightUpdated signals, is unchanged. */
  method ToggleBottomMenubarTwice(view: SearchView, selectedCount: nat) returns (changedBySecond: bool)
    modifies view`extended, view`menubarVisible, view`listHeightUpdates
    ensures view.extended <==> selectedCount == 0
    ensures view.listHeightUpdates <= old(view.listHeightUpdates) + 1
    ensures !changedBySecond
  {
    view.ToggleBottomMenubar(selectedCount);
    var extended, visible, updates := view.extended, view.menubarVisible, view.listHeightUpdates;
    view.ToggleBottomMenubar(selectedCount);
    changedBySecond := view.extended != extended || view.menubarVisible != visible || view.listHeightUpdates != updates;
  }

  /** After rendering, a click on save-selected shows the prompt exactly when
      the user is signed in. */
  method RenderThenSave(inFlight: bool, typing: bool, searchQuery: string, resultCount: nat,
                        selectedCount: nat, signedIn: bool) returns (closeMenu: bool)
    ensures closeMenu <==> signedIn
  {
    var view := new SearchView(selectedCount == 0, selectedCount > 0);
    view.Render(inFlight, typing, searchQuery, resultCount, selectedCount, signedIn);
    closeMenu := view.ShowSaveSelectedPrompt();
  }

  /** The same for a view in any earlier state: the render decides the button
      by sign-in alone, and the click counts one prompt exactly when signed in. */
  method RenderThenSaveOn(view: SearchView, inFlight: bool, typing: bool, searchQuery: string,
                          resultCount: nat, selectedCount: nat, signedIn: bool) returns (closeMenu: bool)
    modifies view
    ensures closeMenu <==> signedIn
    ensures view.savePromptsShown == old(view.savePromptsShown) + if signedIn then 1 else 0
  {
    view.Render(inFlight, typing, searchQuery, resultCount, selectedCount, signedIn);
    closeMenu := view.ShowSaveSelectedPrompt();
  }
}
