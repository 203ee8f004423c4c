# Search panel view state

This project models the view-state logic of the search panel of a Chrome
extension that plays music. The panel searches for songs as the user types. From the search
state it decides three things:

- which "big text" message is shown (searching, instructions or no results);
- whether the bottom menubar is shown, because songs are selected, or the
  result list is extended over its space;
- whether the save-selected button works, which depends on sign-in.

It also trims the text of the search input before committing it as the
search query.

Two modules:

- `JQueryTrim` (`trim.dfy`) is jQuery's `$.trim`. It removes leading and
  trailing characters of ECMAScript's `\s` class. It is written as pure
  functions. Lemmas prove that it is the unique white-space-framed middle of
  its input, that it is idempotent, and that it is empty exactly for
  all-white-space input.
- `Search` (`search_view.dfy`) holds the view's decision rules as pure
  functions (`BigText`, `DoToggle`, `SaveButtonFor`) and the class
  `SearchView`. The class fields stand for the DOM classes the view toggles:
  - the `hidden` classes of the three messages;
  - the `extended` class and the menubar's visibility;
  - the save button's `disabled` class and tooltip;
  - counts of the `ListHeightUpdated` signals and of the save prompts shown;
  - the sequence of queries handed to the search model.

  The view's functions become methods over explicit inputs. These inputs
  are: request in flight, typing, committed query, result count, selected
  count and signed in.

Decisions worth knowing:

- "A request is in flight" stands for `searchJqXhr !== null` in the source.
- The markup template is not part of this model. The constructor therefore
  takes the initial `extended` class and the initial menubar visibility as
  parameters. Both can start inconsistent. That is why the menubar property
  is stated as "preserved if it held before".
- The source re-runs `toggleBigText` on four events: changes of the search
  model's `searchJqXhr`, `searchQuery` and `typing` attributes, and a
  `reset` of the result collection (searchView.js lines 55-61). Adding or
  removing single results does not re-run it. The source re-runs
  `toggleBottomMenubar` on a `change:selected` event of the collection, and
  `toggleSaveSelected` when the sign-in state changes. In the model, the
  caller invokes the corresponding method.
- `Search.PhaseOf` reads the search state as a session phase: idle, typing,
  searching, has results or no results. The view shows the instructions
  whenever the committed query and the result collection are both empty.
  That includes the typing and searching phases (searchView.js lines
  169-172). `BigTextFollowsPhase` states how the three messages relate to
  the phases.

## Model

| member | source | states |
|---|---|---|
| `JQueryTrim.TrimStart` | src/js/foreground/view/leftCoveringPane/searchView.js:137 | the result is a suffix of the input, everything dropped is white space, and the result does not start with white space |
| `JQueryTrim.TrimEnd` | src/js/foreground/view/leftCoveringPane/searchView.js:137 | the result is a prefix of the input, everything dropped is white space, and the result does not end with white space |
| `JQueryTrim.Trim` | src/js/foreground/view/leftCoveringPane/searchView.js:137 | the trimmed query has no white space at either end, and it is a slice of the input with only white space before and after it |
| `JQueryTrim.TrimCharacterised` | src/js/foreground/view/leftCoveringPane/searchView.js:137 | any split of the input into white space, a middle without edge white space, and white space has `Trim` as its middle, so trimming removes exactly the edge white space |
| `JQueryTrim.TrimIdempotent` | src/js/foreground/view/leftCoveringPane/searchView.js:137 | trimming a committed query again leaves it unchanged |
| `JQueryTrim.TrimEmptyIffAllWhitespace` | src/js/foreground/view/leftCoveringPane/searchView.js:137 | the committed query is empty exactly when the input was white space only |
| `Search.SearchView.Search` | src/js/foreground/view/leftCoveringPane/searchView.js:136-139 | the query handed to the search model, and recorded, is the trimmed input |
| `Search.BigText` | src/js/foreground/view/leftCoveringPane/searchView.js:164-177 | "searching" is hidden iff no request is in flight and nobody types; the instructions are hidden iff there are results or a query; "no results" is shown iff not searching, the query is non-empty and there are no results; "no results" never shows beside either other message; with no results at least one message shows |
| `Search.BigTextFollowsPhase` | src/js/foreground/view/leftCoveringPane/searchView.js:164-177 | the messages against the session phase: "searching" is shown exactly in the typing and searching phases, "no results" exactly in the no-results phase, and the instructions always in the idle phase and never with results or a finished query |
| `Search.SearchView.ToggleBigText` | src/js/foreground/view/leftCoveringPane/searchView.js:164-177 | the three `hidden` classes become those of `BigText` for the given state |
| `Search.DoToggle` | src/js/foreground/view/leftCoveringPane/searchView.js:152 | the toggle fires exactly when the `extended` class disagrees with "nothing is selected" |
| `Search.SearchView.ToggleBottomMenubar` | src/js/foreground/view/leftCoveringPane/searchView.js:148-161 | afterwards `extended` holds iff nothing is selected; the menubar and the `ListHeightUpdated` count change only when `extended` flips, and then the menubar shows iff something is selected; "menubar visible iff not extended" is preserved |
| `Search.ToggleBottomMenubarTwice` | src/js/foreground/view/leftCoveringPane/searchView.js:148-161 | a second call with the same selected count changes no class and raises no `ListHeightUpdated` signal |
| `Search.SaveButtonFor` | src/js/foreground/view/leftCoveringPane/searchView.js:141-147 | the save button is disabled, with the "can't save, not signed in" tooltip, exactly when the user is not signed in |
| `Search.SearchView.ToggleSaveSelected` | src/js/foreground/view/leftCoveringPane/searchView.js:141-147 | the button's `disabled` class and tooltip become those of `SaveButtonFor` for the sign-in state |
| `Search.SearchView.ShowSaveSelectedPrompt` | src/js/foreground/view/leftCoveringPane/searchView.js:189-199 | the prompt is shown, and `true` is returned so that the menu closes, iff the button is not disabled; otherwise nothing is shown and `false` is returned |
| `Search.SearchView.Render` | src/js/foreground/view/leftCoveringPane/searchView.js:102-106 | rendering applies all three toggles: the messages of `BigText`, `extended` iff nothing is selected, the menubar visible iff something is selected whenever `extended` flipped or the menubar matched `extended` before, the menubar untouched otherwise, one `ListHeightUpdated` signal exactly when `extended` flipped, and the save button of `SaveButtonFor`; prompts and searches are untouched |
| `Search.RenderThenSave` | src/js/foreground/view/leftCoveringPane/searchView.js:189-199 | after a render, clicking save shows the prompt exactly when the user is signed in |
| `Search.RenderThenSaveOn` | src/js/foreground/view/leftCoveringPane/searchView.js:189-199 | for a view in any earlier state, a render followed by a save click closes the menu, and adds one shown prompt, exactly when the user is signed in |

## Left out

- Event wiring: `events`, `modelEvents`, `collectionEvents` and `initialize` (lines 46-62 and 98-100) decide when the handlers run. In the model the caller invokes the methods instead.
- Rendering set-up: `ui` maps the selectors to elements, `childView`, `childViewOptions` and `resortView` (lines 20-30) control how the result rows render, and `behaviors` (lines 81-96) attaches the multi-select, sliding-render, sortable and tooltip behaviours.
- The search model's own operations (`model.search`, `startClearResultsTimer`, `stopClearResultsTimer`) are not part of this model. Their code holds the debouncing, request cancellation and result-retention timer. The model only records the query handed to `model.search`.
- The multi-select, sliding-render, sortable and tooltip behaviours are not part of this model. The selection rules and the windowed rendering live there. The selected count and the result count are inputs.
- `playSelected` and `addSelected` pass the selected songs to the background page's `StreamItems` (lines 179-187), and `showSaveSelectedPrompt` passes them to the save prompt (lines 193-195). `getSelectedSongs` and `StreamItems.addSongs` are foreign calls.
- Templates and `chrome.i18n` message lookups: the tooltip is one of two abstract messages.
- Animations, focus handling and timing: `onShow`, `hide`, `onDestroy`, the throttled `shake` and the input focus trick.
- The prompt is raised over an event bus. It is modelled only as a count of prompts shown.
- `JQueryTrim.IsWhitespace` uses the ECMAScript `\s` set of current engines. It leaves out U+180E, which older engines also trimmed.
- `Search.SearchView.constructor` sets the three message flags, the save button and the counters to fixed values. The real initial markup is not part of this model. `Render` overwrites every one of them except the two counters and the recorded searches.
