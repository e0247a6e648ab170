/** Uses of the widget that its test suite exercises, proved from the handlers' contracts alone. */
module SearchViewScenarios {
  import opened Types
  import opened Interaction
  import opened SavedSearches
  import opened SearchView

  /** Submitting with an empty saved search set stores exactly the query, without a payload. */
  method SubmitSavesSearch() returns (history: seq<SavedEntry>)
    ensures history == [SavedEntry("query", None)]
  {
    var view := new PeliasSearchView();
    var saved := new SavedSearch();
    view.SetSavedSearch(saved);
    var _ := view.OnQueryTextSubmit("query");
    history := saved.entries;
  }

  /** Loading the saved searches puts a stored term in the list. */
  method LoadSavedSearchesShowsTerm() returns (rows: seq<Item>)
    ensures rows == [TextItem("query")]
  {
    var view := new PeliasSearchView();
    var adapter := new AutoCompleteAdapter([]);
    var saved := new SavedSearch();
    saved.Store("query", None);
    var lv := new AutoCompleteListView(adapter, false);
    view.SetAutoCompleteListView(lv);
    view.SetSavedSearch(saved);
    view.LoadSavedSearches();
    rows := adapter.items;
  }

  /** A term stored with a feature shows as that feature, under the feature's label. */
  method LoadSavedSearchesShowsPayload(f: Feature) returns (rows: seq<Item>)
    ensures rows == [FeatureItem(f)] && rows[0].Text() == f.labelText
  {
    var view := new PeliasSearchView();
    var adapter := new AutoCompleteAdapter([]);
    var saved := new SavedSearch();
    saved.Store("Test SimpleFeature", Some(f));
    var lv := new AutoCompleteListView(adapter, false);
    view.SetAutoCompleteListView(lv);
    view.SetSavedSearch(saved);
    view.LoadSavedSearches();
    rows := adapter.items;
  }

  /** Clicking a plain row sets the query to its text. */
  method ItemClickSetsQuery() returns (query: string)
    ensures query == "query"
  {
    var view := new PeliasSearchView();
    var adapter := new AutoCompleteAdapter([TextItem("query"), TextItem("query")]);
    var lv := new AutoCompleteListView(adapter, false);
    view.SetAutoCompleteListView(lv);
    view.OnItemClick(1);
    query := view.queryText;
  }

  /** Caching is on when the widget is made. */
  method CachesByDefault() returns (on: bool)
    ensures on
  {
    var view := new PeliasSearchView();
    on := view.CacheSearchResults();
  }

  /** With caching off a submit leaves the history empty. */
  method CacheOffSavesNothing() returns (history: seq<SavedEntry>)
    ensures history == []
  {
    var view := new PeliasSearchView();
    var lv := new AutoCompleteListView(null, false);
    view.SetAutoCompleteListView(lv);
    var saved := new SavedSearch();
    view.SetSavedSearch(saved);
    view.SetCacheSearchResults(false);
    var _ := view.OnQueryTextSubmit("test");
    history := saved.entries;
  }

  /** With caching off, handing the widget a saved search empties it. */
  method SetSavedSearchClearsWhenCacheOff() returns (history: seq<SavedEntry>)
    ensures history == []
  {
    var view := new PeliasSearchView();
    view.SetCacheSearchResults(false);
    var saved := new SavedSearch();
    saved.Store("test", None);
    view.SetSavedSearch(saved);
    history := saved.entries;
  }

  /** Gaining focus shows a hidden list. */
  method FocusShowsList() returns (shown: bool)
    ensures shown
  {
    var view := new PeliasSearchView();
    var lv := new AutoCompleteListView(null, false);
    view.SetAutoCompleteListView(lv);
    view.OnFocusChange(true);
    shown := lv.visible;
  }

  /** Losing focus hides a shown list. */
  method FocusLossHidesList() returns (shown: bool)
    ensures !shown
  {
    var view := new PeliasSearchView();
    var lv := new AutoCompleteListView(null, true);
    view.SetAutoCompleteListView(lv);
    view.OnFocusChange(false);
    shown := lv.visible;
  }

  /** The keyboard is shown on focus unless automatic showing was switched off and not back on. */
  method KeyboardOnFocus(disable: bool, enable: bool) returns (ghost events: seq<Event>)
    ensures events == if disable && !enable then [] else [KeyboardShown]
  {
    var view := new PeliasSearchView();
    if disable {
      view.DisableAutoKeyboardShow();
    }
    if enable {
      view.EnableAutoKeyboardShow();
    }
    assert view.log == [] && view.autoKeyboardShow == (!disable || enable) && !view.hasFocusListener;
    var lv := new AutoCompleteListView(null, false);
    view.SetAutoCompleteListView(lv);
    view.OnFocusChange(true);
    events := view.log;
  }

  /** The submit listener hears of a submit. */
  method SubmitNotifiesListener() returns (ghost events: seq<Event>)
    ensures SubmitNotified in events
  {
    var view := new PeliasSearchView();
    view.SetOnSubmitListener(true);
    var _ := view.OnQueryTextSubmit("query");
    events := view.log;
  }

  /** Before a list view is set no focus handler is installed, so the check fires. */
  method BackPressWithoutListView() returns (ghost events: seq<Event>)
    ensures events == [BackPressNotified]
  {
    var view := new PeliasSearchView();
    view.SetOnBackPressListener(true);
    view.OnFocusChange(true);
    view.NotifyOnBackPressListener();
    events := view.log;
  }

  /** Without a list view no focus handler is installed, so no check is posted: a submit after
      focus notifies nobody of a back press. */
  method SubmitWithoutListView() returns (ghost events: seq<Event>)
    ensures BackPressNotified !in events
  {
    var view := new PeliasSearchView();
    view.SetOnBackPressListener(true);
    view.OnFocusChange(true);
    assert view.log == [];
    SubmitEvents(view.CurrentWiring(), view.CurrentFlags(), "Test");
    var _ := view.OnQueryTextSubmit("Test");
    events := view.log;
  }

  /** Without a list view, gaining focus does nothing at all. */
  method FocusWithoutListView() returns (ghost events: seq<Event>)
    ensures events == []
  {
    var view := new PeliasSearchView();
    view.SetOnBackPressListener(true);
    view.OnFocusChange(true);
    events := view.log;
  }

  /** A widget with a back-press listener whose list shows one saved feature. */
  method ViewShowingSavedFeature(f: Feature) returns (view: PeliasSearchView, adapter: AutoCompleteAdapter)
    ensures fresh(view) && fresh(adapter) && view.savedSearch != null && fresh(view.savedSearch)
    ensures view.log == [] && view.hasBackPressListener
    ensures view.Adapter() == adapter && adapter.items == [FeatureItem(f)]
  {
    view := new PeliasSearchView();
    view.SetOnBackPressListener(true);
    adapter := new AutoCompleteAdapter([]);
    var lv := new AutoCompleteListView(adapter, false);
    view.SetAutoCompleteListView(lv);
    assert view.log == [] && view.hasBackPressListener;
    var saved := new SavedSearch();
    saved.Store("Test", Some(f));
    view.SetSavedSearch(saved);
    view.LoadSavedSearches();
  }

  /** Clicking a saved feature row keeps the back-press listener silent at the next check. */
  method NoBackPressAfterItemClick(f: Feature) returns (ghost events: seq<Event>)
    ensures BackPressNotified !in events
  {
    var view, adapter := ViewShowingSavedFeature(f);
    ghost var w, fl := view.CurrentWiring(), view.CurrentFlags();
    FeatureClickEvents(w, fl, f);
    view.OnItemClick(0);
    view.NotifyOnBackPressListener();
    events := view.log;
  }

  /** A widget with a back-press listener and a list view whose query box has just gained focus. */
  method FocusedViewWithBackPressListener() returns (view: PeliasSearchView)
    ensures fresh(view) && view.listView != null && fresh(view.listView) && view.Adapter() == null
    ensures view.savedSearch == null
    ensures view.hasBackPressListener && view.focusedViewHasFocus && BackPressNotified !in view.log
  {
    view := new PeliasSearchView();
    view.SetOnBackPressListener(true);
    var lv := new AutoCompleteListView(null, false);
    view.SetAutoCompleteListView(lv);
    assert view.log == [] && view.savedSearch == null && view.hasBackPressListener;
    FocusChangeEvents(view.CurrentWiring(), view.CurrentFlags(), true);
    view.OnFocusChange(true);
  }

  /** With the gain's check made before the submit, the submit and the loss of focus it causes
      keep the back-press listener silent at the loss's check. */
  method NoBackPressAfterSubmit() returns (ghost events: seq<Event>)
    ensures BackPressNotified !in events
  {
    var view := FocusedViewWithBackPressListener();
    view.NotifyOnBackPressListener();
    assert BackPressNotified !in view.log && view.hasBackPressListener && view.savedSearch == null;
    SubmitEvents(view.CurrentWiring(), view.CurrentFlags(), "Test");
    var _ := view.OnQueryTextSubmit("Test");
    FocusChangeEvents(view.CurrentWiring(), view.CurrentFlags(), false);
    view.OnFocusChange(false);
    view.NotifyOnBackPressListener();
    events := view.log;
  }

  /** While the query box has focus the check stays silent. */
  method NoBackPressWhileFocused() returns (ghost events: seq<Event>)
    ensures BackPressNotified !in events
  {
    var view := FocusedViewWithBackPressListener();
    view.NotifyOnBackPressListener();
    events := view.log;
  }
}
