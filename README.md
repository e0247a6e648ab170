# PeliasSearchView interaction model

This is a Dafny model of the interaction controller in the Pelias Android SDK's search widget,
`PeliasSearchView`. With the Android plumbing removed, the widget is a small sequential
controller. It keeps six flags:

- `disableAutoComplete`
- `focusedViewHasFocus`
- `listItemClicked`
- `textSubmitted`
- `cacheSearchResults`
- `autoKeyboardShow`

It also holds the widget's collaborators: the Pelias client, the search callback, the submit,
back-press and secondary focus listeners, the autocomplete list view with its adapter, and the
saved-search history. It reacts to:

- query text changes;
- submits;
- focus changes of the query box;
- clicks on suggestion rows;
- suggest responses;
- the delayed back-press check.

Everything the widget does towards the outside is recorded as an event in a ghost log:

- suggest and search requests;
- stores into the history;
- submit and back-press notifications;
- callback results;
- setting the query text, clearing focus;
- showing or hiding the keyboard;
- forwarding a focus change.

The project has two layers.

- **`Interaction`** (`interaction.dfy`) holds the rules as pure functions. For each operation,
  a `...Step` function maps the flags and the wiring (which collaborators are set) to the new
  flags and the emitted events. Lemmas state what the rules promise:
  - the exact events of a submit or a feature click, and their order;
  - when the back-press listener fires.

  A trace function `Run` folds the rules over any sequence of inputs. Lemmas proved by
  induction over traces show that:
  - while caching is off nothing is stored;
  - a submit or a row click silences the next back-press check, whatever happens between.
- **`SearchView`** (`search_view.dfy`) holds the widget as a class. Its fields are the source's
  fields, and the list view, the adapter and the saved search are objects of their own, as in
  the source. Each handler is proved to follow its rule:
  - its new flags are `XStep(old wiring, old flags).flags`;
  - its log grows by exactly `XStep(...).events`;
  - the postconditions also state what happens to the list rows, the icon, the list's
    visibility and the history.

Two smaller modules complete it:

- `SavedSearches` (`saved_search.dfy`) is the history, with only the contract the widget's
  callers rely on.
- `SearchViewScenarios` (`scenarios.dfy`) exercises the scenarios of the widget's unit tests,
  some of them adapted as "## Left out" describes. Each one is proved from the handlers'
  contracts alone.

## Model

| member | source | states |
|---|---|---|
| Interaction.Utf16Length | lib/src/main/java/com/mapzen/pelias/widget/PeliasSearchView.java:204 | the text length the short-text test uses, counted in UTF-16 code units as Java's `String.length()` does; it lies between the number of characters and twice that |
| Interaction.TextChangeMode | lib/src/main/java/com/mapzen/pelias/widget/PeliasSearchView.java:200-210 | a text change resets when the text is empty or autocomplete is disabled; it shows saved searches exactly when the text is non-empty, autocomplete is enabled and the length is below 3; it fetches suggestions exactly when autocomplete is enabled and the length is at least 3 |
| Interaction.TextChangeStep | lib/src/main/java/com/mapzen/pelias/widget/PeliasSearchView.java:199-213 | after any text change autocomplete is enabled again and no other flag moves; at most one event is emitted, a suggest request for exactly that text, and it is emitted exactly when a client is set and the mode is fetch |
| Interaction.SubmitStep | lib/src/main/java/com/mapzen/pelias/widget/PeliasSearchView.java:183-197 | a submit sets `textSubmitted` and changes no other flag; focus cleared is always emitted, and it is the last event |
| Interaction.SubmitEvents | lib/src/main/java/com/mapzen/pelias/widget/PeliasSearchView.java:183-196 | a submit emits exactly: the search request for q when a client is set; the store of q without payload when a saved search is set and caching is on; the submit notification when a listener is set; focus cleared |
| Interaction.SubmitOrder | lib/src/main/java/com/mapzen/pelias/widget/PeliasSearchView.java:183-196 | a submit emits each of its events at most once, in the order search request, store, submit notification, focus cleared |
| Interaction.ItemClickStep | lib/src/main/java/com/mapzen/pelias/widget/PeliasSearchView.java:396-417 | in either branch, a click sets `listItemClicked` and changes no other flag; a plain row emits only the setting of the query to its text with submit on |
| Interaction.FeatureClickEvents | lib/src/main/java/com/mapzen/pelias/widget/PeliasSearchView.java:404-415 | a click on a feature row emits exactly: focus cleared; the query set to the label without submit; a callback result holding exactly that feature when a callback is set; the store of the label with the feature when a saved search is set and caching is on |
| Interaction.FeatureClickOrder | lib/src/main/java/com/mapzen/pelias/widget/PeliasSearchView.java:404-415 | those events come at most once each, in that order |
| Interaction.FocusChangeStep | lib/src/main/java/com/mapzen/pelias/widget/PeliasSearchView.java:114-145 | without a list view no focus handler is installed and nothing happens; with one, `focusedViewHasFocus` becomes the new focus and no other flag moves |
| Interaction.FocusChangeEvents | lib/src/main/java/com/mapzen/pelias/widget/PeliasSearchView.java:118-141 | with the handler installed, a focus change emits exactly: keyboard shown on a gain when automatic showing is on; keyboard hidden on a loss; the forwarded focus change when a secondary listener is set |
| Interaction.FocusChangeOrder | lib/src/main/java/com/mapzen/pelias/widget/PeliasSearchView.java:118-141 | with the handler installed, a focus change emits each of its events at most once: the keyboard show or hide is scheduled before the secondary listener is told |
| Interaction.BackPressCheckStep | lib/src/main/java/com/mapzen/pelias/widget/PeliasSearchView.java:451-460 | the back-press listener is told exactly when a listener is set and there is no focus, no click and no submit; nothing else is emitted; with a listener, `textSubmitted` and `listItemClicked` end false and no other flag moves; without one, nothing changes |
| Interaction.Next | lib/src/main/java/com/mapzen/pelias/widget/PeliasSearchView.java:153-479 | one input to the widget, dispatched to its rule. Only the collaborator setters change the wiring, and the setters emit nothing. Caching changes only through `setCacheSearchResults` (476-477) and automatic keyboard showing only through its enable and disable calls (153-162). Only a submit sets the submit mark (193) and only a row click the click mark (416); only `disableAutoComplete` (218-220) can turn autocomplete off |
| Interaction.Run | lib/src/main/java/com/mapzen/pelias/widget/PeliasSearchView.java:153-479 | a sequence of inputs, one after another. Over a trace without a collaborator setter the wiring is unchanged, and over one without a caching setter the caching flag is unchanged |
| Interaction.CacheOffStep | lib/src/main/java/com/mapzen/pelias/widget/PeliasSearchView.java:462-465 | with caching off, any one input other than switching caching on keeps it off and stores nothing |
| Interaction.CachingOffMeansNoStores | lib/src/main/java/com/mapzen/pelias/widget/PeliasSearchView.java:462-465 | with caching off, over any trace that never switches caching on, caching stays off and no event stores into the history |
| Interaction.MarksSurviveStep | lib/src/main/java/com/mapzen/pelias/widget/PeliasSearchView.java:451-460 | an input other than the back-press check never clears the submit or click mark and never notifies the back-press listener |
| Interaction.MarksSurvive | lib/src/main/java/com/mapzen/pelias/widget/PeliasSearchView.java:451-460 | the same over any trace without a back-press check |
| Interaction.NoBackPressAfterSubmitOrClick | lib/src/main/java/com/mapzen/pelias/widget/PeliasSearchView.java:183-197 | a submit or a row click, followed by any inputs other than a check (focus loss included) and then a check, never notifies the back-press listener |
| Interaction.SubmitBeforeGainCheckNotifies | lib/src/main/java/com/mapzen/pelias/widget/PeliasSearchView.java:142-143 | each focus change posts one check; a submit made right after a gain, before the gain's check has run, leaves two checks pending after the loss it causes, and the second of them tells the back-press listener |
| Interaction.BackPressAfterFocusLoss | lib/src/main/java/com/mapzen/pelias/widget/PeliasSearchView.java:117-145 | with a list view and a listener, and no click or submit pending: gain then loss of focus then a check notifies the listener, while gain then a check does not |
| SavedSearches.ItemsOf | lib/src/test/java/com/mapzen/pelias/widget/PeliasSearchViewTest.java:131-165 | the rows of a history are one row per entry, in order; an entry with a payload shows its feature, and one without shows its term |
| SavedSearches.FeatureEntryShowsFeature | lib/src/test/java/com/mapzen/pelias/widget/PeliasSearchViewTest.java:146-165 | a history of one entry stored with a feature shows exactly that feature, labelled with the feature's label |
| SavedSearches.SavedSearch.constructor | lib/src/test/java/com/mapzen/pelias/widget/PeliasSearchViewTest.java:124 | a new saved search is empty |
| SavedSearches.SavedSearch.Store | lib/src/test/java/com/mapzen/pelias/widget/PeliasSearchViewTest.java:123-129 | storing into an empty history leaves exactly the stored entry |
| SavedSearches.SavedSearch.Items | lib/src/main/java/com/mapzen/pelias/widget/PeliasSearchView.java:281 | the rows the history shows are one per entry, in history order, each the entry's row |
| SavedSearches.SavedSearch.Clear | lib/src/main/java/com/mapzen/pelias/widget/PeliasSearchView.java:490 | clearing leaves the history empty |
| SearchView.AutoCompleteAdapter.constructor | lib/src/test/java/com/mapzen/pelias/widget/PeliasSearchViewTest.java:133-134 | a new adapter holds the given rows |
| SearchView.AutoCompleteAdapter.SetIcon | lib/src/main/java/com/mapzen/pelias/widget/PeliasSearchView.java:229 | the adapter shows the given icon, and its rows are untouched |
| SearchView.AutoCompleteAdapter.Clear | lib/src/main/java/com/mapzen/pelias/widget/PeliasSearchView.java:251 | the adapter holds no rows |
| SearchView.AutoCompleteAdapter.AddAll | lib/src/main/java/com/mapzen/pelias/widget/PeliasSearchView.java:252 | the given rows are appended after the existing ones |
| SearchView.AutoCompleteListView.constructor | lib/src/test/java/com/mapzen/pelias/widget/PeliasSearchViewTest.java:54-55 | a new list view has the given adapter and visibility |
| SearchView.AutoCompleteListView.SetAdapter | lib/src/test/java/com/mapzen/pelias/widget/PeliasSearchViewTest.java:138 | the list view shows the given adapter |
| SearchView.AutoCompleteListView.SetVisible | lib/src/main/java/com/mapzen/pelias/widget/PeliasSearchView.java:122 | the list view's visibility is the given one |
| SearchView.SuggestionItems | lib/src/main/java/com/mapzen/pelias/widget/PeliasSearchView.java:240-244 | a suggest response gives one feature row per returned feature, in feature order |
| SearchView.BuildSuggestionItems | lib/src/main/java/com/mapzen/pelias/widget/PeliasSearchView.java:240-244 | the loop builds exactly `SuggestionItems(features)` |
| SearchView.PeliasSearchView.constructor | lib/src/main/java/com/mapzen/pelias/widget/PeliasSearchView.java:80-109 | a new widget has autocomplete enabled, no focus, no click, no submit, caching on and automatic keyboard showing on; no collaborator is set, the query text listener is attached and nothing has been emitted |
| SearchView.PeliasSearchView.SetAutoCompleteListView | lib/src/main/java/com/mapzen/pelias/widget/PeliasSearchView.java:114-115 | the widget's list view is exactly the given one, and the focus and row-click handlers then act on it |
| SearchView.PeliasSearchView.OnFocusChange | lib/src/main/java/com/mapzen/pelias/widget/PeliasSearchView.java:114-145 | the handler follows `FocusChangeStep`. With a list view: the list becomes visible exactly on a gain; text events are taken exactly on a gain; on a gain the rows are exactly the saved searches under the recent-search icon; on a loss the rows and the icon are untouched. The collaborators and the query text never change |
| SearchView.PeliasSearchView.FocusGained | lib/src/main/java/com/mapzen/pelias/widget/PeliasSearchView.java:118-141 | gaining focus sets `focusedViewHasFocus` only. It emits keyboard shown when automatic showing is on, then the forwarded focus when a secondary listener is set. The list shows the saved searches under the recent-search icon |
| SearchView.PeliasSearchView.FocusLost | lib/src/main/java/com/mapzen/pelias/widget/PeliasSearchView.java:128-141 | losing focus clears `focusedViewHasFocus` only; it emits keyboard hidden, then the forwarded focus when a secondary listener is set; the list is hidden and text events are no longer taken |
| SearchView.PeliasSearchView.RevealList | lib/src/main/java/com/mapzen/pelias/widget/PeliasSearchView.java:118-127 | the gain branch's list part: the recent-search icon and the saved rows are shown, the list is visible, the keyboard-shown event is emitted when automatic showing is on, and text events are taken |
| SearchView.PeliasSearchView.HideList | lib/src/main/java/com/mapzen/pelias/widget/PeliasSearchView.java:128-133 | the loss branch's list part: the list is hidden, the keyboard-hidden event is emitted and text events are no longer taken |
| SearchView.PeliasSearchView.ForwardFocus | lib/src/main/java/com/mapzen/pelias/widget/PeliasSearchView.java:137-140 | the forwarded focus change is emitted exactly when a secondary listener is set |
| SearchView.PeliasSearchView.DisableAutoKeyboardShow | lib/src/main/java/com/mapzen/pelias/widget/PeliasSearchView.java:153-155 | automatic keyboard showing is off |
| SearchView.PeliasSearchView.EnableAutoKeyboardShow | lib/src/main/java/com/mapzen/pelias/widget/PeliasSearchView.java:160-162 | automatic keyboard showing is on |
| SearchView.PeliasSearchView.OnQueryTextSubmit | lib/src/main/java/com/mapzen/pelias/widget/PeliasSearchView.java:183-197 | the handler returns false and follows `SubmitStep` in both flags and events. When caching was on, the history then holds what the store gives; otherwise it is untouched. The collaborators, the query text and the listener attachment do not change |
| SearchView.PeliasSearchView.RequestSearch | lib/src/main/java/com/mapzen/pelias/widget/PeliasSearchView.java:184-186 | the search request for exactly the query is emitted exactly when a client is set |
| SearchView.PeliasSearchView.NotifySubmitListener | lib/src/main/java/com/mapzen/pelias/widget/PeliasSearchView.java:190-192 | the submit notification is emitted exactly when a listener is set |
| SearchView.PeliasSearchView.OnQueryTextChange | lib/src/main/java/com/mapzen/pelias/widget/PeliasSearchView.java:199-213 | the handler returns false and follows `TextChangeStep`. Only the show-saved mode touches the rows, making them exactly the saved searches under the recent-search icon; the other modes keep the rows under the autocomplete icon. The history is not in its frame |
| SearchView.PeliasSearchView.DisableAutoComplete | lib/src/main/java/com/mapzen/pelias/widget/PeliasSearchView.java:218-220 | autocomplete is disabled for the next text change |
| SearchView.PeliasSearchView.SetAutoCompleteAdapterIcon | lib/src/main/java/com/mapzen/pelias/widget/PeliasSearchView.java:222-231 | when there are a list view and an adapter, the adapter shows the icon and its rows are untouched; otherwise nothing changes |
| SearchView.PeliasSearchView.FetchAutoCompleteSuggestions | lib/src/main/java/com/mapzen/pelias/widget/PeliasSearchView.java:233-238 | a suggest request for exactly that text is emitted exactly when a client is set |
| SearchView.PeliasSearchView.OnSuggestResponse | lib/src/main/java/com/mapzen/pelias/widget/PeliasSearchView.java:239-254 | without a list view the response is dropped; with a list view but no adapter it fails; otherwise the rows become exactly one feature row per returned feature, in order, with the icon kept |
| SearchView.PeliasSearchView.SetSavedSearch | lib/src/main/java/com/mapzen/pelias/widget/PeliasSearchView.java:265-268 | the saved search is set. With caching off, its history and the rows are emptied; with caching on, neither changes |
| SearchView.PeliasSearchView.LoadSavedSearches | lib/src/main/java/com/mapzen/pelias/widget/PeliasSearchView.java:273-284 | when there are a list view and an adapter, the rows become exactly the saved searches in history order, or none without a saved search; the icon is kept |
| SearchView.PeliasSearchView.SetPelias | lib/src/main/java/com/mapzen/pelias/widget/PeliasSearchView.java:289-291 | the client is set or removed |
| SearchView.PeliasSearchView.SetCallback | lib/src/main/java/com/mapzen/pelias/widget/PeliasSearchView.java:297-299 | the callback is set or removed |
| SearchView.PeliasSearchView.SetOnPeliasFocusChangeListener | lib/src/main/java/com/mapzen/pelias/widget/PeliasSearchView.java:309-311 | the secondary focus listener is set or removed |
| SearchView.PeliasSearchView.SetOnSubmitListener | lib/src/main/java/com/mapzen/pelias/widget/PeliasSearchView.java:348-350 | the submit listener is set or removed |
| SearchView.PeliasSearchView.SetRecentSearchIconResourceId | lib/src/main/java/com/mapzen/pelias/widget/PeliasSearchView.java:373-375 | the recent-search icon id is the given one |
| SearchView.PeliasSearchView.SetAutoCompleteIconResourceId | lib/src/main/java/com/mapzen/pelias/widget/PeliasSearchView.java:380-382 | the autocomplete icon id is the given one |
| SearchView.PeliasSearchView.SetQuery | lib/src/main/java/com/mapzen/pelias/widget/PeliasSearchView.java:401 | the query text is the given text, and the setting (with its submit flag) is emitted |
| SearchView.PeliasSearchView.ClearFocus | lib/src/main/java/com/mapzen/pelias/widget/PeliasSearchView.java:194 | focus cleared is emitted |
| SearchView.PeliasSearchView.OnItemClick | lib/src/main/java/com/mapzen/pelias/widget/PeliasSearchView.java:396-417 | for the clicked row, the handler follows `ItemClickStep` in flags and events. The query text becomes the row's text. The history is untouched for a plain row; for a feature row, when caching was on, it holds what storing the label with the feature gives. The collaborators do not change |
| SearchView.PeliasSearchView.SelectFeature | lib/src/main/java/com/mapzen/pelias/widget/PeliasSearchView.java:404-415 | the feature branch emits exactly `ItemClickStep`'s events for that feature and sets the query text to the feature's label |
| SearchView.PeliasSearchView.DeliverResult | lib/src/main/java/com/mapzen/pelias/widget/PeliasSearchView.java:411-413 | a callback result holding exactly the given features is emitted exactly when a callback is set |
| SearchView.PeliasSearchView.SetOnBackPressListener | lib/src/main/java/com/mapzen/pelias/widget/PeliasSearchView.java:443-445 | the back-press listener is set or removed |
| SearchView.PeliasSearchView.NotifyOnBackPressListener | lib/src/main/java/com/mapzen/pelias/widget/PeliasSearchView.java:451-460 | the check follows `BackPressCheckStep` in flags and events |
| SearchView.PeliasSearchView.StoreSavedSearch | lib/src/main/java/com/mapzen/pelias/widget/PeliasSearchView.java:462-471 | the store event is emitted exactly when a saved search is set and caching is on. The history then holds what the store gives; otherwise it is untouched |
| SearchView.PeliasSearchView.SetCacheSearchResults | lib/src/main/java/com/mapzen/pelias/widget/PeliasSearchView.java:476-479 | caching is the given setting. Switching it off empties the history and the rows; switching it on changes neither; the icon is kept |
| SearchView.PeliasSearchView.CacheSearchResults | lib/src/main/java/com/mapzen/pelias/widget/PeliasSearchView.java:484-486 | returns whether caching is on |
| SearchView.PeliasSearchView.UpdateSavedSearch | lib/src/main/java/com/mapzen/pelias/widget/PeliasSearchView.java:488-499 | with a saved search and caching off, the history is emptied, and so are the rows when there are a list view and an adapter; otherwise neither changes |
| SearchViewScenarios.SubmitSavesSearch | lib/src/test/java/com/mapzen/pelias/widget/PeliasSearchViewTest.java:123-129 | a submit into an empty saved search leaves exactly the query, stored without payload |
| SearchViewScenarios.LoadSavedSearchesShowsTerm | lib/src/test/java/com/mapzen/pelias/widget/PeliasSearchViewTest.java:131-144 | loading a history of one stored term shows exactly that term |
| SearchViewScenarios.LoadSavedSearchesShowsPayload | lib/src/test/java/com/mapzen/pelias/widget/PeliasSearchViewTest.java:146-165 | loading a history of one term stored with a feature shows exactly that feature, under the feature's label |
| SearchViewScenarios.ItemClickSetsQuery | lib/src/test/java/com/mapzen/pelias/widget/PeliasSearchViewTest.java:178-184 | adapted: clicking the second of two plain "query" rows sets the query to "query" |
| SearchViewScenarios.CachesByDefault | lib/src/test/java/com/mapzen/pelias/widget/PeliasSearchViewTest.java:248-250 | caching is on for a new widget |
| SearchViewScenarios.CacheOffSavesNothing | lib/src/test/java/com/mapzen/pelias/widget/PeliasSearchViewTest.java:261-269 | with caching switched off, a submit leaves the history empty |
| SearchViewScenarios.SetSavedSearchClearsWhenCacheOff | lib/src/test/java/com/mapzen/pelias/widget/PeliasSearchViewTest.java:271-277 | with caching off, handing the widget a history that holds a term empties it |
| SearchViewScenarios.FocusShowsList | lib/src/test/java/com/mapzen/pelias/widget/PeliasSearchViewTest.java:52-60 | gaining focus shows a hidden list |
| SearchViewScenarios.FocusLossHidesList | lib/src/test/java/com/mapzen/pelias/widget/PeliasSearchViewTest.java:62-70 | losing focus, with no gain before it, hides a shown list |
| SearchViewScenarios.KeyboardOnFocus | lib/src/test/java/com/mapzen/pelias/widget/PeliasSearchViewTest.java:94-115 | on focus the keyboard-shown event is the only event emitted, unless automatic showing was disabled and not enabled again; then nothing is emitted |
| SearchViewScenarios.SubmitNotifiesListener | lib/src/test/java/com/mapzen/pelias/widget/PeliasSearchViewTest.java:186-191 | a submit tells the submit listener |
| SearchViewScenarios.BackPressWithoutListView | lib/src/test/java/com/mapzen/pelias/widget/PeliasSearchViewTest.java:202-209 | without a list view the focus gain installs nothing, so the check notifies the listener, and that is the only event |
| SearchViewScenarios.NoBackPressAfterItemClick | lib/src/test/java/com/mapzen/pelias/widget/PeliasSearchViewTest.java:211-231 | adapted, with the delayed check made explicitly: clicking a saved feature row keeps the back-press listener silent at the next check |
| SearchViewScenarios.SubmitWithoutListView | lib/src/test/java/com/mapzen/pelias/widget/PeliasSearchViewTest.java:233-239 | as the test sets it up, with no list view: focus installs nothing and no check is made, so a submit notifies nobody of a back press |
| SearchViewScenarios.FocusWithoutListView | lib/src/test/java/com/mapzen/pelias/widget/PeliasSearchViewTest.java:241-246 | as the test sets it up, with no list view: gaining focus emits nothing at all |
| SearchViewScenarios.NoBackPressAfterSubmit | lib/src/main/java/com/mapzen/pelias/widget/PeliasSearchView.java:183-197 | adapts test 233-239 by installing a list view and making the checks: after the gain's check has run, a submit keeps the listener silent through the focus loss it causes and that loss's check |
| SearchViewScenarios.NoBackPressWhileFocused | lib/src/main/java/com/mapzen/pelias/widget/PeliasSearchView.java:451-460 | adapts test 241-246 by installing a list view and making the check: while the query box has focus, the check keeps the listener silent |

## Left out

- The soft-keyboard reflection helpers (`disableDefaultSoftKeyboardBehaviour`,
  `AutoCompleteTextViewReflector`, and the show and hide runnables) are platform calls with no
  logic of their own. Showing and hiding the keyboard become the `KeyboardShown` and
  `KeyboardHidden` events.
- Animations, `notifyDataSetChanged` and `resetCursorPosition` are rendering only.
  Visibility is kept, as a boolean of the list view.
- Timers are not modelled: `postDelayed` and `removeCallbacks`, including
  `onActionViewCollapsed`. The delayed back-press check is the explicit
  `NotifyOnBackPressListener` call: each focus change posts one check (line 142), and the
  model leaves making it to the caller.
- Retrofit's asynchronous execution is not modelled. A suggest response is the separate
  `OnSuggestResponse` call taking the returned features. The following are not modelled: races
  between responses, the failure branch (it only logs), and a response without a body.
- The search request's own response to the callback is not modelled. It belongs to the Pelias
  client, which is not part of this model.
- `setQuery` and `clearFocus` are platform methods. They are modelled by their effect on the
  query text and as events. The platform's re-entrant dispatch is not modelled: a submitting
  `setQuery` that runs `onQueryTextSubmit`; the text change of any `setQuery` (lines 401 and
  407) that runs `onQueryTextChange` while the text listener is attached; and a `clearFocus`
  that runs the focus handler.
  Callers make those calls themselves. So the test that fetches search results through
  `setQuery` is not replayed.
- Collaborators are modelled by their presence only: the client, the callback and the
  listeners are booleans. The `View` argument passed to the secondary focus listener is not
  modelled.
- Icon resource ids are opaque integers.
- The conversions of `SimpleFeature` and `Parcel` (`fromFeature`, `toFeature`, `toParcel`, the
  parcel written with a stored term) are not shown. They are modelled as the identity on
  `Feature`.
- SavedSearches.SavedSearch.Store: its contract is deliberately weak. It promises only that
  storing into an empty history leaves exactly that entry, which is all the callers rely on.
  Its body, which prepends, is one behaviour the contract admits. The history's order,
  duplicates and capacity are `SavedSearch`'s own, and its source is not part of this model.
- SearchView.PeliasSearchView.OnItemClick: it requires an adapter and a row at the clicked
  position, because the list view only delivers clicks on rows it shows. The source's null and
  index failures on other input are not modelled.
- SearchView.PeliasSearchView.SetAutoCompleteListView: it takes a list view that is not null.
  The source's `setAutoCompleteListView(null)` throws at line 146, and that failure is not
  modelled.
- Some scenarios adapt the tests they cite instead of replaying them:
  - Tests 233-239 and 241-246 set no list view, so no focus handler is installed and no
    back-press check is ever made; they pass because the check never runs.
    `SubmitWithoutListView` and `FocusWithoutListView` replay them as written.
    `NoBackPressAfterSubmit` and `NoBackPressWhileFocused` install a list view and make the
    checks. `NoBackPressAfterSubmit` runs the gain's check before the submit. With the test's
    own timing, the submit comes before the gain's check, and the source does not keep the
    promise of the test's name. Both checks are still pending after the loss: the first finds
    the submit and forgets it, and the second notifies the listener
    (`Interaction.SubmitBeforeGainCheckNotifies`). With no list view, a check after a focus
    gain does notify the listener (`BackPressWithoutListView`).
  - Test 211-231 makes no check either. `NoBackPressAfterItemClick` makes one after the click.
  - Test 178-184 clicks position 1 of a test adapter with one row, whose `getItem` ignores the
    position. An adapter that ignores positions is not modelled, so `ItemClickSetsQuery` uses
    two equal rows instead.
- SearchView.PeliasSearchView.OnSuggestResponse: a list view without an adapter is the
  `NullAdapter` outcome. In the source it is a null dereference.
- The trace lemmas in `Interaction` are over flags, wiring and events. The resulting history
  and list contents are stated per call, by the class's contracts.
- `Interaction.Input.Rewire` stands for every collaborator setter at once.
- `src/main/java/com/mapzen/pelias/PeliasService.java` is not part of this model. It is an
  HTTP interface declaration.
- `src/test/java/com/mapzen/pelias/PeliasTest.java` is not part of this model. It tests the
  Pelias client against a mock server.
