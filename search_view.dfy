/** The search widget as an object: its flags and collaborators are fields, its list view, the
    list's adapter and the saved search are objects of their own (the caller keeps references to
    them), and a ghost log records what the widget emits. Every handler is proved to follow the
    rules of module Interaction. */
module SearchView {
  import opened Types
  import opened Interaction
  import opened SavedSearches

  /** The adapter behind the suggestion list: its rows and the icon it shows beside them. */
  class AutoCompleteAdapter {
    var items: seq<Item>
    var icon: int

    constructor(items: seq<Item>)
      ensures this.items == items && icon == 0
    {
      this.items := items;
      icon := 0;
    }

    method SetIcon(resId: int)
      modifies this`icon
      ensures icon == resId
    {
      icon := resId;
    }

    method Clear()
      modifies this`items
      ensures items == []
    {
      items := [];
    }

    method AddAll(more: seq<Item>)
      modifies this`items
      ensures items == old(items) + more
    {
      items := items + more;
    }
  }

  /** The list view the suggestions are shown in; the caller may set or change its adapter. */
  class AutoCompleteListView {
    var visible: bool
    var adapter: AutoCompleteAdapter?

    constructor(adapter: AutoCompleteAdapter?, visible: bool)
      ensures this.adapter == adapter && this.visible == visible
    {
      this.adapter := adapter;
      this.visible := visible;
    }

    method SetAdapter(adapter: AutoCompleteAdapter?)
      modifies this`adapter
      ensures this.adapter == adapter
    {
      this.adapter := adapter;
    }

    method SetVisible(visible: bool)
      modifies this`visible
      ensures this.visible == visible
    {
      this.visible := visible;
    }
  }

  /** The rows a suggest response shows: one feature row per returned feature, in order. */
  function SuggestionItems(features: seq<Feature>): (items: seq<Item>)
    ensures |items| == |features|
    ensures forall k :: 0 <= k < |features| ==> items[k] == FeatureItem(features[k])
  {
    if features == [] then [] else [FeatureItem(features[0])] + SuggestionItems(features[1..])
  }

  /** Builds the rows of a suggest response one feature at a time. */
  method BuildSuggestionItems(features: seq<Feature>) returns (items: seq<Item>)
    ensures items == SuggestionItems(features)
  {
    items := [];
    var i := 0;
    while i < |features|
      invariant 0 <= i <= |features|
      invariant |items| == i
      invariant forall k :: 0 <= k < i ==> items[k] == FeatureItem(features[k])
    {
      items := items + [FeatureItem(features[i])];
      i := i + 1;
    }
  }

  /** How a suggest response ends: shown in the list, dropped because there is no list view, or
      failed on a list view without an adapter (a null dereference). */
  datatype ResponseOutcome = Shown | NoListView | NullAdapter

  /** What no interaction changes: the collaborators and the two icon ids. */
  datatype Settings = Settings(
    wiring: Wiring,
    listView: AutoCompleteListView?,
    savedSearch: SavedSearch?,
    recentSearchIcon: int,
    autoCompleteIcon: int)

  class PeliasSearchView {
    var listView: AutoCompleteListView?
    var savedSearch: SavedSearch?
    var hasPelias: bool
    var hasCallback: bool
    var hasSubmitListener: bool
    var hasFocusListener: bool
    var hasBackPressListener: bool
    var recentSearchIconResourceId: int
    var autoCompleteIconResourceId: int
    var disableAutoComplete: bool
    var focusedViewHasFocus: bool
    var listItemClicked: bool
    var textSubmitted: bool
    var cacheSearchResults: bool
    var autoKeyboardShow: bool
    /** Whether the platform hands query text changes and submits to this widget. */
    var queryTextListenerAttached: bool
    /** The text last set in the query box through `setQuery`; typing is not modelled. */
    var queryText: string
    ghost var log: seq<Event>

    function CurrentFlags(): Flags
      reads this`disableAutoComplete, this`focusedViewHasFocus, this`listItemClicked, this`textSubmitted,
            this`cacheSearchResults, this`autoKeyboardShow
    {
      Flags(disableAutoComplete, focusedViewHasFocus, listItemClicked, textSubmitted,
            cacheSearchResults, autoKeyboardShow)
    }

    function CurrentWiring(): Wiring
      reads this`hasPelias, this`hasCallback, this`hasSubmitListener, this`hasBackPressListener,
            this`hasFocusListener, this`listView, this`savedSearch
    {
      Wiring(hasPelias, hasCallback, hasSubmitListener, hasBackPressListener, hasFocusListener,
             listView != null, savedSearch != null)
    }

    function CurrentSettings(): Settings
      reads this`hasPelias, this`hasCallback, this`hasSubmitListener, this`hasBackPressListener,
            this`hasFocusListener, this`listView, this`savedSearch,
            this`recentSearchIconResourceId, this`autoCompleteIconResourceId
    {
      Settings(CurrentWiring(), listView, savedSearch, recentSearchIconResourceId, autoCompleteIconResourceId)
    }

    /** The adapter of the list view, when there are both. */
    function Adapter(): AutoCompleteAdapter?
      reads this, listView
    {
      if listView == null then null else listView.adapter
    }

    /** The rows the saved search shows; none without a saved search. */
    function SavedListing(): seq<Item>
      reads this, savedSearch
    {
      if savedSearch == null then [] else savedSearch.Items()
    }

    constructor()
      ensures CurrentFlags() == Flags(false, false, false, false, true, true)
      ensures CurrentWiring() == Wiring(false, false, false, false, false, false, false)
      ensures recentSearchIconResourceId == 0 && autoCompleteIconResourceId == 0
      ensures queryTextListenerAttached && queryText == [] && log == []
    {
      listView := null;
      savedSearch := null;
      hasPelias, hasCallback, hasSubmitListener, hasFocusListener, hasBackPressListener := false, false, false, false, false;
      recentSearchIconResourceId, autoCompleteIconResourceId := 0, 0;
      focusedViewHasFocus, listItemClicked, textSubmitted := false, false, false;
      cacheSearchResults, autoKeyboardShow := true, true;
      queryText := [];
      log := [];
      // setup()
      disableAutoComplete := false;
      queryTextListenerAttached := true;
    }

    /** Sets the list view; from then on focus changes and row clicks reach this widget. */
    method SetAutoCompleteListView(lv: AutoCompleteListView)
      modifies this`listView
      ensures listView == lv
    {
      listView := lv;
    }

    /** The focus handler installed with the list view. */
    method OnFocusChange(hasFocus: bool)
      modifies this, listView, Adapter()
      ensures CurrentSettings() == old(CurrentSettings()) && queryText == old(queryText)
      ensures CurrentFlags() == FocusChangeStep(old(CurrentWiring()), old(CurrentFlags()), hasFocus).flags
      ensures log == old(log) + FocusChangeStep(old(CurrentWiring()), old(CurrentFlags()), hasFocus).events
      ensures listView == null ==> queryTextListenerAttached == old(queryTextListenerAttached)
      ensures listView != null ==>
                && listView.adapter == old(listView.adapter)
                && listView.visible == hasFocus
                && queryTextListenerAttached == hasFocus
      // gaining focus shows the saved searches under the recent-search icon; losing it leaves the rows
      ensures Adapter() != null && hasFocus ==>
                Adapter().icon == recentSearchIconResourceId && Adapter().items == SavedListing()
      ensures Adapter() != null && !hasFocus ==>
                Adapter().icon == old(Adapter().icon) && Adapter().items == old(Adapter().items)
    {
      if listView == null {
        return;
      }
      if hasFocus {
        FocusGained();
      } else {
        FocusLost();
      }
    }

    /** The focus handler on gaining focus. */
    method FocusGained()
      requires listView != null
      modifies this, listView, Adapter()
      ensures CurrentSettings() == old(CurrentSettings()) && queryText == old(queryText)
      ensures CurrentFlags() == old(CurrentFlags()).(focusedViewHasFocus := true)
      ensures log == old(log) + Emit(autoKeyboardShow, KeyboardShown) + Emit(hasFocusListener, FocusForwarded(true))
      ensures listView.adapter == old(listView.adapter) && listView.visible && queryTextListenerAttached
      ensures Adapter() != null ==>
                Adapter().icon == recentSearchIconResourceId && Adapter().items == SavedListing()
    {
      RevealList();
      ForwardFocus(true);
      focusedViewHasFocus := true;
    }

    /** The focus handler on losing focus. */
    method FocusLost()
      requires listView != null
      modifies this, listView
      ensures CurrentSettings() == old(CurrentSettings()) && queryText == old(queryText)
      ensures CurrentFlags() == old(CurrentFlags()).(focusedViewHasFocus := false)
      ensures log == old(log) + [KeyboardHidden] + Emit(hasFocusListener, FocusForwarded(false))
      ensures listView.adapter == old(listView.adapter) && !listView.visible && !queryTextListenerAttached
    {
      HideList();
      ForwardFocus(false);
      focusedViewHasFocus := false;
    }

    /** Tells the secondary focus listener, when there is one. */
    method ForwardFocus(hasFocus: bool)
      modifies this`log
      ensures log == old(log) + Emit(hasFocusListener, FocusForwarded(hasFocus))
    {
      if hasFocusListener {
        log := log + [FocusForwarded(hasFocus)];
      }
    }

    /** The focus handler's gain branch: the saved searches are shown under the recent-search
        icon, the keyboard is shown unless automatic showing is off, and text events are taken. */
    method RevealList()
      requires listView != null
      modifies this`log, this`queryTextListenerAttached, listView, Adapter()
      ensures listView.adapter == old(listView.adapter) && listView.visible && queryTextListenerAttached
      ensures log == old(log) + Emit(autoKeyboardShow, KeyboardShown)
      ensures Adapter() != null ==>
                Adapter().icon == recentSearchIconResourceId && Adapter().items == SavedListing()
    {
      SetAutoCompleteAdapterIcon(recentSearchIconResourceId);
      LoadSavedSearches();
      listView.SetVisible(true);
      if autoKeyboardShow {
        log := log + [KeyboardShown];
      }
      queryTextListenerAttached := true;
    }

    /** The focus handler's loss branch: the list is hidden, the keyboard hidden and text events
        no longer taken. */
    method HideList()
      requires listView != null
      modifies this`log, this`queryTextListenerAttached, listView
      ensures listView.adapter == old(listView.adapter) && !listView.visible && !queryTextListenerAttached
      ensures log == old(log) + [KeyboardHidden]
    {
      listView.SetVisible(false);
      log := log + [KeyboardHidden];
      queryTextListenerAttached := false;
    }

    method DisableAutoKeyboardShow()
      modifies this`autoKeyboardShow
      ensures !autoKeyboardShow
    {
      autoKeyboardShow := false;
    }

    method EnableAutoKeyboardShow()
      modifies this`autoKeyboardShow
      ensures autoKeyboardShow
    {
      autoKeyboardShow := true;
    }

    method OnQueryTextSubmit(query: string) returns (handled: bool)
      modifies this, savedSearch
      ensures !handled
      ensures CurrentSettings() == old(CurrentSettings()) && queryText == old(queryText)
      ensures queryTextListenerAttached == old(queryTextListenerAttached)
      ensures CurrentFlags() == SubmitStep(old(CurrentWiring()), old(CurrentFlags()), query).flags
      ensures log == old(log) + SubmitStep(old(CurrentWiring()), old(CurrentFlags()), query).events
      ensures savedSearch != null ==>
                StoreOutcome(old(cacheSearchResults), old(savedSearch.entries), SavedEntry(query, None), savedSearch.entries)
    {
      ghost var log0, w, f := log, CurrentWiring(), CurrentFlags();
      RequestSearch(query);
      StoreSavedSearch(query, None);
      NotifySubmitListener();
      textSubmitted := true;
      ClearFocus();
      Regroup(log0, Emit(w.hasPelias, SearchRequest(query)),
              Emit(StoresHistory(w, f), HistoryStored(SavedEntry(query, None))),
              Emit(w.hasSubmitListener, SubmitNotified), [FocusCleared]);
      handled := false;
    }

    /** Hands the query to the client's search, when there is a client. */
    method RequestSearch(query: string)
      modifies this`log
      ensures log == old(log) + Emit(hasPelias, SearchRequest(query))
    {
      if hasPelias {
        log := log + [SearchRequest(query)];
      }
    }

    /** Tells the submit listener, when there is one. */
    method NotifySubmitListener()
      modifies this`log
      ensures log == old(log) + Emit(hasSubmitListener, SubmitNotified)
    {
      if hasSubmitListener {
        log := log + [SubmitNotified];
      }
    }

    method OnQueryTextChange(text: string) returns (handled: bool)
      modifies this, Adapter()
      ensures !handled
      ensures CurrentSettings() == old(CurrentSettings()) && queryText == old(queryText)
      ensures queryTextListenerAttached == old(queryTextListenerAttached)
      ensures CurrentFlags() == TextChangeStep(old(CurrentWiring()), old(CurrentFlags()), text).flags
      ensures log == old(log) + TextChangeStep(old(CurrentWiring()), old(CurrentFlags()), text).events
      // only the short-text mode touches the rows, and then they are exactly the saved searches
      ensures Adapter() != null ==>
                var mode := TextChangeMode(text, old(disableAutoComplete));
                && Adapter().icon == (if mode == ShowSaved then recentSearchIconResourceId else autoCompleteIconResourceId)
                && Adapter().items == (if mode == ShowSaved then SavedListing() else old(Adapter().items))
    {
      if text == [] || disableAutoComplete {
        SetAutoCompleteAdapterIcon(autoCompleteIconResourceId);
        disableAutoComplete := false;
        return false;
      } else if Utf16Length(text) < MIN_SUGGEST_LENGTH {
        SetAutoCompleteAdapterIcon(recentSearchIconResourceId);
        LoadSavedSearches();
      } else {
        SetAutoCompleteAdapterIcon(autoCompleteIconResourceId);
        FetchAutoCompleteSuggestions(text);
      }
      handled := false;
    }

    /** Stops suggestions being fetched for the next text change. */
    method DisableAutoComplete()
      modifies this`disableAutoComplete
      ensures disableAutoComplete
    {
      disableAutoComplete := true;
    }

    method SetAutoCompleteAdapterIcon(resId: int)
      modifies Adapter()
      ensures Adapter() != null ==> Adapter().icon == resId && Adapter().items == old(Adapter().items)
    {
      if listView == null {
        return;
      }
      var adapter := listView.adapter;
      if adapter != null {
        adapter.SetIcon(resId);
      }
    }

    /** Asks the client for suggestions for exactly this text, when there is a client. */
    method FetchAutoCompleteSuggestions(text: string)
      modifies this`log
      ensures log == old(log) + Emit(hasPelias, SuggestRequest(text))
    {
      if !hasPelias {
        return;
      }
      log := log + [SuggestRequest(text)];
    }

    /** The suggest request's response: the rows become the returned features. */
    method OnSuggestResponse(features: seq<Feature>) returns (outcome: ResponseOutcome)
      modifies Adapter()
      ensures outcome == NoListView <==> listView == null
      ensures outcome == NullAdapter <==> listView != null && listView.adapter == null
      ensures outcome == Shown ==>
                Adapter().items == SuggestionItems(features) && Adapter().icon == old(Adapter().icon)
    {
      var items := BuildSuggestionItems(features);
      if listView == null {
        return NoListView;
      }
      var adapter := listView.adapter;
      if adapter == null {
        return NullAdapter;
      }
      adapter.Clear();
      adapter.AddAll(items);
      outcome := Shown;
    }

    method SetSavedSearch(s: SavedSearch?)
      modifies this`savedSearch, s, Adapter()
      ensures savedSearch == s
      // with caching off the new history and the rows are emptied; with caching on nothing else moves
      ensures s != null ==> s.entries == (if cacheSearchResults then old(s.entries) else [])
      ensures Adapter() != null ==>
                && Adapter().items == (if s != null && !cacheSearchResults then [] else old(Adapter().items))
                && Adapter().icon == old(Adapter().icon)
    {
      savedSearch := s;
      UpdateSavedSearch();
    }

    /** Shows the saved searches in the list. */
    method LoadSavedSearches()
      modifies Adapter()
      ensures Adapter() != null ==> Adapter().items == SavedListing() && Adapter().icon == old(Adapter().icon)
    {
      if listView == null || listView.adapter == null {
        return;
      }
      var adapter := listView.adapter;
      adapter.Clear();
      if savedSearch != null {
        adapter.AddAll(savedSearch.Items());
      }
    }

    method SetPelias(present: bool)
      modifies this`hasPelias
      ensures hasPelias == present
    {
      hasPelias := present;
    }

    method SetCallback(present: bool)
      modifies this`hasCallback
      ensures hasCallback == present
    {
      hasCallback := present;
    }

    method SetOnPeliasFocusChangeListener(present: bool)
      modifies this`hasFocusListener
      ensures hasFocusListener == present
    {
      hasFocusListener := present;
    }

    method SetOnSubmitListener(present: bool)
      modifies this`hasSubmitListener
      ensures hasSubmitListener == present
    {
      hasSubmitListener := present;
    }

    method SetRecentSearchIconResourceId(resId: int)
      modifies this`recentSearchIconResourceId
      ensures recentSearchIconResourceId == resId
    {
      recentSearchIconResourceId := resId;
    }

    method SetAutoCompleteIconResourceId(resId: int)
      modifies this`autoCompleteIconResourceId
      ensures autoCompleteIconResourceId == resId
    {
      autoCompleteIconResourceId := resId;
    }

    /** The query box is set to `text`; with `submit` the platform goes on to submit it. */
    method SetQuery(text: string, submit: bool)
      modifies this`queryText, this`log
      ensures queryText == text && log == old(log) + [QuerySet(text, submit)]
    {
      queryText := text;
      log := log + [QuerySet(text, submit)];
    }

    /** Focus leaves the query box; the platform then reports the focus change. */
    method ClearFocus()
      modifies this`log
      ensures log == old(log) + [FocusCleared]
    {
      log := log + [FocusCleared];
    }

    /** The row-click handler installed with the list view. */
    method OnItemClick(position: nat)
      requires Adapter() != null && position < |Adapter().items|
      modifies this, savedSearch
      ensures CurrentSettings() == old(CurrentSettings())
      ensures queryTextListenerAttached == old(queryTextListenerAttached)
      ensures var item := old(Adapter().items[position]);
              && CurrentFlags() == ItemClickStep(old(CurrentWiring()), old(CurrentFlags()), item).flags
              && log == old(log) + ItemClickStep(old(CurrentWiring()), old(CurrentFlags()), item).events
              && queryText == item.Text()
              && (savedSearch != null ==>
                    if item.FeatureItem? then
                      StoreOutcome(old(cacheSearchResults), old(savedSearch.entries),
                                   SavedEntry(item.Text(), Some(item.feature)), savedSearch.entries)
                    else savedSearch.entries == old(savedSearch.entries))
    {
      var item := listView.adapter.items[position];
      match item {
        case TextItem(t) =>
          SetQuery(t, true);
        case FeatureItem(f) =>
          SelectFeature(f);
      }
      listItemClicked := true;
    }

    /** The row-click handler's feature branch: focus is cleared, the query set to the feature's
        label without submitting, the callback handed a result of exactly that feature, and the
        label stored with the feature. */
    method SelectFeature(f: Feature)
      modifies this`log, this`queryText, savedSearch
      ensures queryText == f.labelText
      ensures log == old(log) + ItemClickStep(old(CurrentWiring()), old(CurrentFlags()), FeatureItem(f)).events
      ensures savedSearch != null ==>
                StoreOutcome(cacheSearchResults, old(savedSearch.entries), SavedEntry(f.labelText, Some(f)),
                             savedSearch.entries)
    {
      ghost var log0, w, fl := log, CurrentWiring(), CurrentFlags();
      ClearFocus();
      SetQuery(f.labelText, false);
      DeliverResult([f]);
      StoreSavedSearch(f.labelText, Some(f));
      Regroup(log0, [FocusCleared], [QuerySet(f.labelText, false)], Emit(w.hasCallback, CallbackResult([f])),
              Emit(StoresHistory(w, fl), HistoryStored(SavedEntry(f.labelText, Some(f)))));
      assert [FocusCleared] + [QuerySet(f.labelText, false)] == [FocusCleared, QuerySet(f.labelText, false)];
    }

    /** Hands the callback a successful result holding these features, when there is a callback. */
    method DeliverResult(features: seq<Feature>)
      modifies this`log
      ensures log == old(log) + Emit(hasCallback, CallbackResult(features))
    {
      if hasCallback {
        log := log + [CallbackResult(features)];
      }
    }

    method SetOnBackPressListener(present: bool)
      modifies this`hasBackPressListener
      ensures hasBackPressListener == present
    {
      hasBackPressListener := present;
    }

    /** The delayed check after a focus change: tells the back-press listener when focus went away
        without a submit or a row click, then forgets both. */
    method NotifyOnBackPressListener()
      modifies this`textSubmitted, this`listItemClicked, this`log
      ensures CurrentFlags() == BackPressCheckStep(old(CurrentWiring()), old(CurrentFlags())).flags
      ensures log == old(log) + BackPressCheckStep(old(CurrentWiring()), old(CurrentFlags())).events
    {
      if !hasBackPressListener {
        return;
      }
      if !focusedViewHasFocus && !listItemClicked && !textSubmitted {
        log := log + [BackPressNotified];
      }
      textSubmitted := false;
      listItemClicked := false;
    }

    method StoreSavedSearch(term: string, payload: Option<Feature>)
      modifies this`log, savedSearch
      ensures log == old(log) + Emit(savedSearch != null && cacheSearchResults, HistoryStored(SavedEntry(term, payload)))
      ensures savedSearch != null ==>
                StoreOutcome(cacheSearchResults, old(savedSearch.entries), SavedEntry(term, payload), savedSearch.entries)
    {
      if savedSearch == null || !cacheSearchResults {
        return;
      }
      savedSearch.Store(term, payload);
      log := log + [HistoryStored(SavedEntry(term, payload))];
    }

    method SetCacheSearchResults(on: bool)
      modifies this`cacheSearchResults, savedSearch, Adapter()
      ensures cacheSearchResults == on
      // switching caching off empties the history and the rows; switching it on changes nothing else
      ensures savedSearch != null ==> savedSearch.entries == (if on then old(savedSearch.entries) else [])
      ensures Adapter() != null ==>
                && Adapter().items == (if savedSearch != null && !on then [] else old(Adapter().items))
                && Adapter().icon == old(Adapter().icon)
    {
      cacheSearchResults := on;
      UpdateSavedSearch();
    }

    method CacheSearchResults() returns (on: bool)
      ensures on == cacheSearchResults
    {
      on := cacheSearchResults;
    }

    method UpdateSavedSearch()
      modifies savedSearch, Adapter()
      ensures savedSearch != null ==>
                savedSearch.entries == (if cacheSearchResults then old(savedSearch.entries) else [])
      ensures Adapter() != null ==>
                && Adapter().items == (if savedSearch != null && !cacheSearchResults then [] else old(Adapter().items))
                && Adapter().icon == old(Adapter().icon)
    {
      if savedSearch != null && !cacheSearchResults {
        savedSearch.Clear();
        if listView != null {
          var adapter := listView.adapter;
          if adapter != null {
            adapter.Clear();
          }
        }
      }
    }
  }
}
