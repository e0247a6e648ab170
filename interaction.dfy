/** The interaction rules of the search widget, as pure functions from the wiring and the flags
    before an operation to the flags after it and the events it emits. The widget class in
    module SearchView is proved to follow these rules; the lemmas here state what the rules
    promise. */
module Interaction {
  import opened Types

  /** Texts shorter than this (in UTF-16 code units) show the saved searches instead of
      fetching suggestions. */
  const MIN_SUGGEST_LENGTH: nat := 3

  /** The length of `s` as the platform counts it: in UTF-16 code units, where a character
      outside the Basic Multilingual Plane takes two. */
  function Utf16Length(s: string): (n: nat)
    ensures |s| <= n <= 2 * |s|
  {
    if s == [] then 0 else (if s[0] as int > 0xFFFF then 2 else 1) + Utf16Length(s[1..])
  }

  /** The three things a text change can do. */
  datatype TextMode = ResetDisable | ShowSaved | FetchSuggestions

  function TextChangeMode(text: string, disableAutoComplete: bool): (m: TextMode)
    ensures m == ResetDisable <==> text == [] || disableAutoComplete
    ensures m == ShowSaved <==> text != [] && !disableAutoComplete && Utf16Length(text) < MIN_SUGGEST_LENGTH
    ensures m == FetchSuggestions <==> !disableAutoComplete && Utf16Length(text) >= MIN_SUGGEST_LENGTH
  {
    if text == [] || disableAutoComplete then ResetDisable
    else if Utf16Length(text) < MIN_SUGGEST_LENGTH then ShowSaved
    else FetchSuggestions
  }

  /** The flags after an operation, and what it emitted. */
  datatype Step = Step(flags: Flags, events: seq<Event>)

  /** A submitted or selected query goes to the history only when there is one and caching is on. */
  predicate StoresHistory(w: Wiring, f: Flags)
  {
    w.hasSavedSearch && f.cacheSearchResults
  }

  function TextChangeStep(w: Wiring, f: Flags, text: string): (s: Step)
    // whatever the mode, autocomplete is enabled afterwards and no other flag moves
    ensures s.flags == f.(disableAutoComplete := false)
    ensures s.events == [] || s.events == [SuggestRequest(text)]
    ensures s.events != [] <==> w.hasPelias && TextChangeMode(text, f.disableAutoComplete) == FetchSuggestions
  {
    match TextChangeMode(text, f.disableAutoComplete)
    case ResetDisable => Step(f.(disableAutoComplete := false), [])
    case ShowSaved => Step(f, [])
    case FetchSuggestions => Step(f, Emit(w.hasPelias, SuggestRequest(text)))
  }

  /** The order of a submit's events. */
  function SubmitRank(e: Event): nat
  {
    match e
    case SearchRequest(_) => 0
    case HistoryStored(_) => 1
    case SubmitNotified => 2
    case FocusCleared => 3
    case _ => 4
  }

  function SubmitStep(w: Wiring, f: Flags, q: string): (s: Step)
    ensures s.flags == f.(textSubmitted := true)
    ensures FocusCleared in s.events && s.events[|s.events| - 1] == FocusCleared
  {
    var es := Emit(w.hasPelias, SearchRequest(q))
              + Emit(StoresHistory(w, f), HistoryStored(SavedEntry(q, None)))
              + Emit(w.hasSubmitListener, SubmitNotified)
              + [FocusCleared];
    Step(f.(textSubmitted := true), es)
  }

  /** A submit emits exactly these events: search request, store without payload, submit
      notification, focus cleared, each only when its collaborator is there. */
  lemma SubmitEvents(w: Wiring, f: Flags, q: string)
    ensures forall e :: e in SubmitStep(w, f, q).events <==>
              || (e == SearchRequest(q) && w.hasPelias)
              || (e == HistoryStored(SavedEntry(q, None)) && StoresHistory(w, f))
              || (e == SubmitNotified && w.hasSubmitListener)
              || e == FocusCleared
  {
  }

  /** A submit emits each of its events at most once, in the order: search request, store,
      submit notification, focus cleared. */
  lemma SubmitOrder(w: Wiring, f: Flags, q: string)
    ensures StrictlyRanked(SubmitStep(w, f, q).events, SubmitRank)
  {
    RankedOptionalsThen(w.hasPelias, SearchRequest(q),
                        StoresHistory(w, f), HistoryStored(SavedEntry(q, None)),
                        w.hasSubmitListener, SubmitNotified, FocusCleared, SubmitRank);
  }

  /** The order of the events of a click on a feature row. */
  function ClickRank(e: Event): nat
  {
    match e
    case FocusCleared => 0
    case QuerySet(_, _) => 1
    case CallbackResult(_) => 2
    case HistoryStored(_) => 3
    case _ => 4
  }

  function ItemClickStep(w: Wiring, f: Flags, item: Item): (s: Step)
    ensures s.flags == f.(listItemClicked := true)
    // a plain row only sets the query, submitting it
    ensures item.TextItem? ==> s.events == [QuerySet(item.text, true)]
  {
    match item
    case TextItem(t) => Step(f.(listItemClicked := true), [QuerySet(t, true)])
    case FeatureItem(ft) =>
      var es := [FocusCleared, QuerySet(ft.labelText, false)]
                + Emit(w.hasCallback, CallbackResult([ft]))
                + Emit(StoresHistory(w, f), HistoryStored(SavedEntry(ft.labelText, Some(ft))));
      Step(f.(listItemClicked := true), es)
  }

  /** A click on a feature row clears focus, sets the query to the feature's label without
      submitting, hands the callback a result of exactly that feature and stores the label with
      the feature: exactly these events. */
  lemma FeatureClickEvents(w: Wiring, f: Flags, ft: Feature)
    ensures forall e :: e in ItemClickStep(w, f, FeatureItem(ft)).events <==>
              || e == FocusCleared
              || e == QuerySet(ft.labelText, false)
              || (e == CallbackResult([ft]) && w.hasCallback)
              || (e == HistoryStored(SavedEntry(ft.labelText, Some(ft))) && StoresHistory(w, f))
  {
  }

  /** A click on a feature row emits each of its events at most once, in that order. */
  lemma FeatureClickOrder(w: Wiring, f: Flags, ft: Feature)
    ensures StrictlyRanked(ItemClickStep(w, f, FeatureItem(ft)).events, ClickRank)
  {
    RankedThenOptionals(FocusCleared, QuerySet(ft.labelText, false),
                        w.hasCallback, CallbackResult([ft]),
                        StoresHistory(w, f), HistoryStored(SavedEntry(ft.labelText, Some(ft))), ClickRank);
  }

  function FocusChangeStep(w: Wiring, f: Flags, hasFocus: bool): (s: Step)
    // without a list view no focus handler is installed, so nothing happens
    ensures !w.hasListView ==> s == Step(f, [])
    ensures w.hasListView ==> s.flags == f.(focusedViewHasFocus := hasFocus)
  {
    if !w.hasListView then Step(f, [])
    else
      var keyboard := if hasFocus then Emit(f.autoKeyboardShow, KeyboardShown) else [KeyboardHidden];
      Step(f.(focusedViewHasFocus := hasFocus), keyboard + Emit(w.hasFocusListener, FocusForwarded(hasFocus)))
  }

  /** With the handler installed, gaining focus shows the keyboard (unless automatic showing is off),
      losing it hides the keyboard, and either way the secondary listener is told. */
  lemma FocusChangeEvents(w: Wiring, f: Flags, hasFocus: bool)
    requires w.hasListView
    ensures forall e :: e in FocusChangeStep(w, f, hasFocus).events <==>
              || (e == KeyboardShown && hasFocus && f.autoKeyboardShow)
              || (e == KeyboardHidden && !hasFocus)
              || (e == FocusForwarded(hasFocus) && w.hasFocusListener)
  {
  }

  /** The order of a focus change's events. */
  function FocusRank(e: Event): nat
  {
    match e
    case KeyboardShown => 0
    case KeyboardHidden => 0
    case FocusForwarded(_) => 1
    case _ => 2
  }

  /** A focus change emits each of its events at most once: the keyboard show or hide is
      scheduled first, then the secondary listener is told. */
  lemma FocusChangeOrder(w: Wiring, f: Flags, hasFocus: bool)
    requires w.hasListView
    ensures StrictlyRanked(FocusChangeStep(w, f, hasFocus).events, FocusRank)
  {
    var forward := Emit(w.hasFocusListener, FocusForwarded(hasFocus));
    if hasFocus && f.autoKeyboardShow {
      RankedThen([KeyboardShown], forward, FocusForwarded(hasFocus), FocusRank);
    } else if hasFocus {
      RankedThen([], forward, FocusForwarded(hasFocus), FocusRank);
      assert [] + forward == forward;
    } else {
      RankedThen([KeyboardHidden], forward, FocusForwarded(hasFocus), FocusRank);
    }
  }

  /** The back-press listener is told exactly when focus is gone and neither a row was clicked
      nor text submitted since the last check. */
  predicate BackPressFires(w: Wiring, f: Flags)
  {
    w.hasBackPressListener && !f.focusedViewHasFocus && !f.listItemClicked && !f.textSubmitted
  }

  function BackPressCheckStep(w: Wiring, f: Flags): (s: Step)
    ensures BackPressNotified in s.events <==>
              w.hasBackPressListener && !f.focusedViewHasFocus && !f.listItemClicked && !f.textSubmitted
    ensures s.events == [] || s.events == [BackPressNotified]
    // with a listener the click and submit marks are reset; without one nothing changes
    ensures w.hasBackPressListener ==> s.flags == f.(textSubmitted := false, listItemClicked := false)
    ensures !w.hasBackPressListener ==> s == Step(f, [])
  {
    if !w.hasBackPressListener then Step(f, [])
    else Step(f.(textSubmitted := false, listItemClicked := false), Emit(BackPressFires(w, f), BackPressNotified))
  }

  /** Everything the widget can be asked to do, as far as flags and events go. `Rewire` stands for
      every setter of a collaborator (client, callback, listeners, list view, saved search). */
  datatype Input =
    | TextChange(text: string)
    | Submit(query: string)
    | ItemClick(item: Item)
    | FocusChange(hasFocus: bool)
    | BackPressCheck
    | SetCache(on: bool)
    | DisableAutoComplete
    | SetAutoKeyboardShow(on: bool)
    | Rewire(wiring: Wiring)

  datatype Controller = Controller(wiring: Wiring, flags: Flags)

  function Next(c: Controller, i: Input): (r: (Controller, seq<Event>))
    // collaborators change only through their setters, and the setters emit nothing
    ensures !i.Rewire? ==> r.0.wiring == c.wiring
    ensures i.Rewire? || i.SetCache? || i.DisableAutoComplete? || i.SetAutoKeyboardShow? ==> r.1 == []
    // caching and automatic keyboard showing change only through their own setters
    ensures r.0.flags.cacheSearchResults != c.flags.cacheSearchResults ==> i == SetCache(r.0.flags.cacheSearchResults)
    ensures r.0.flags.autoKeyboardShow != c.flags.autoKeyboardShow ==> i == SetAutoKeyboardShow(r.0.flags.autoKeyboardShow)
    // only a submit marks a submit, only a row click marks a click
    ensures r.0.flags.textSubmitted && !c.flags.textSubmitted ==> i.Submit?
    ensures r.0.flags.listItemClicked && !c.flags.listItemClicked ==> i.ItemClick?
    // only disabling autocomplete disables it
    ensures r.0.flags.disableAutoComplete ==> i == DisableAutoComplete || c.flags.disableAutoComplete
  {
    var w, f := c.wiring, c.flags;
    match i
    case TextChange(t) => var s := TextChangeStep(w, f, t); (Controller(w, s.flags), s.events)
    case Submit(q) => var s := SubmitStep(w, f, q); (Controller(w, s.flags), s.events)
    case ItemClick(it) => var s := ItemClickStep(w, f, it); (Controller(w, s.flags), s.events)
    case FocusChange(h) => var s := FocusChangeStep(w, f, h); (Controller(w, s.flags), s.events)
    case BackPressCheck => var s := BackPressCheckStep(w, f); (Controller(w, s.flags), s.events)
    case SetCache(on) => (Controller(w, f.(cacheSearchResults := on)), [])
    case DisableAutoComplete => (Controller(w, f.(disableAutoComplete := true)), [])
    case SetAutoKeyboardShow(on) => (Controller(w, f.(autoKeyboardShow := on)), [])
    case Rewire(w') => (Controller(w', f), [])
  }

  /** The controller after a sequence of inputs, and everything emitted on the way. */
  function Run(c: Controller, trace: seq<Input>): (r: (Controller, seq<Event>))
    // over a trace without a setter of collaborators, or without a caching setter, those stay put
    ensures (forall k :: 0 <= k < |trace| ==> !trace[k].Rewire?) ==> r.0.wiring == c.wiring
    ensures (forall k :: 0 <= k < |trace| ==> !trace[k].SetCache?) ==>
              r.0.flags.cacheSearchResults == c.flags.cacheSearchResults
    decreases |trace|
  {
    if trace == [] then (c, [])
    else
      assert forall k :: 0 <= k < |trace[1..]| ==> trace[1..][k] == trace[k + 1];
      var first := Next(c, trace[0]);
      var rest := Run(first.0, trace[1..]);
      (rest.0, first.1 + rest.1)
  }

  lemma {:induction false} RunAppend(c: Controller, a: seq<Input>, b: seq<Input>)
    ensures Run(c, a + b) == (Run(Run(c, a).0, b).0, Run(c, a).1 + Run(Run(c, a).0, b).1)
    decreases |a|
  {
    if a == [] {
      assert a + b == b;
      assert [] + Run(c, b).1 == Run(c, b).1;
    } else {
      assert (a + b)[0] == a[0];
      assert (a + b)[1..] == a[1..] + b;
      var first := Next(c, a[0]);
      RunAppend(first.0, a[1..], b);
      var mid := Run(first.0, a[1..]).0;
      assert first.1 + (Run(first.0, a[1..]).1 + Run(mid, b).1)
          == (first.1 + Run(first.0, a[1..]).1) + Run(mid, b).1;
    }
  }

  /** Running `i` then `rest` is one step followed by the rest. */
  lemma RunCons(c: Controller, i: Input, rest: seq<Input>)
    ensures Run(c, [i] + rest) == (Run(Next(c, i).0, rest).0, Next(c, i).1 + Run(Next(c, i).0, rest).1)
  {
    assert ([i] + rest)[1..] == rest;
  }

  lemma RunSingle(c: Controller, i: Input)
    ensures Run(c, [i]) == Next(c, i)
  {
    assert [i][1..] == [];
    assert Next(c, i).1 + [] == Next(c, i).1;
  }

  /** One input that is not "caching on" keeps caching off and stores nothing. */
  lemma CacheOffStep(c: Controller, i: Input)
    requires !c.flags.cacheSearchResults && i != SetCache(true)
    ensures !Next(c, i).0.flags.cacheSearchResults
    ensures forall e :: e in Next(c, i).1 ==> !e.HistoryStored?
  {
    match i
    case Submit(q) => SubmitEvents(c.wiring, c.flags, q);
    case ItemClick(it) =>
      if it.FeatureItem? {
        FeatureClickEvents(c.wiring, c.flags, it.feature);
      }
    case FocusChange(h) =>
      if c.wiring.hasListView {
        FocusChangeEvents(c.wiring, c.flags, h);
      }
    case _ =>
  }

  /** While caching is off, nothing but switching it on again stores into the history: no
      submit, no click, nothing. */
  lemma {:induction false} CachingOffMeansNoStores(c: Controller, trace: seq<Input>)
    requires !c.flags.cacheSearchResults
    requires forall k :: 0 <= k < |trace| ==> trace[k] != SetCache(true)
    ensures !Run(c, trace).0.flags.cacheSearchResults
    ensures forall e :: e in Run(c, trace).1 ==> !e.HistoryStored?
    decreases |trace|
  {
    if trace != [] {
      CacheOffStep(c, trace[0]);
      var c1 := Next(c, trace[0]).0;
      assert forall k :: 0 <= k < |trace[1..]| ==> trace[1..][k] == trace[k + 1];
      CachingOffMeansNoStores(c1, trace[1..]);
    }
  }

  /** Only a check with a listener resets the submit and click marks, and only a check emits a
      back-press notification. */
  lemma MarksSurviveStep(c: Controller, i: Input)
    requires i != BackPressCheck
    ensures c.flags.textSubmitted ==> Next(c, i).0.flags.textSubmitted
    ensures c.flags.listItemClicked ==> Next(c, i).0.flags.listItemClicked
    ensures BackPressNotified !in Next(c, i).1
  {
    match i
    case Submit(q) => SubmitEvents(c.wiring, c.flags, q);
    case ItemClick(it) =>
      if it.FeatureItem? {
        FeatureClickEvents(c.wiring, c.flags, it.feature);
      }
    case FocusChange(h) =>
      if c.wiring.hasListView {
        FocusChangeEvents(c.wiring, c.flags, h);
      }
    case _ =>
  }

  lemma {:induction false} MarksSurvive(c: Controller, trace: seq<Input>)
    requires forall k :: 0 <= k < |trace| ==> trace[k] != BackPressCheck
    ensures c.flags.textSubmitted ==> Run(c, trace).0.flags.textSubmitted
    ensures c.flags.listItemClicked ==> Run(c, trace).0.flags.listItemClicked
    ensures BackPressNotified !in Run(c, trace).1
    decreases |trace|
  {
    if trace != [] {
      MarksSurviveStep(c, trace[0]);
      assert forall k :: 0 <= k < |trace[1..]| ==> trace[1..][k] == trace[k + 1];
      MarksSurvive(Next(c, trace[0]).0, trace[1..]);
    }
  }

  /** A submit or a row click suppresses the back-press notification up to and including the
      next check, whatever happens in between (focus loss included). */
  lemma NoBackPressAfterSubmitOrClick(c: Controller, i: Input, between: seq<Input>)
    requires i.Submit? || i.ItemClick?
    requires forall k :: 0 <= k < |between| ==> between[k] != BackPressCheck
    ensures BackPressNotified !in Run(c, [i] + between + [BackPressCheck]).1
  {
    var c1 := Next(c, i).0;
    assert c1.flags.textSubmitted || c1.flags.listItemClicked;
    MarksSurviveStep(c, i);
    RunSingle(c, i);
    MarksSurvive(c1, between);
    var c2 := Run(c1, between).0;
    RunAppend(c, [i], between);
    assert Run(c, [i] + between) == (c2, Next(c, i).1 + Run(c1, between).1);
    assert BackPressNotified !in Next(c2, BackPressCheck).1;
    RunSingle(c2, BackPressCheck);
    RunAppend(c, [i] + between, [BackPressCheck]);
  }

  /** Each focus change posts one check. When a submit comes right after a gain, two checks are
      pending after the loss the submit causes: the first finds the submit and forgets it, so
      the second tells the back-press listener. */
  lemma SubmitBeforeGainCheckNotifies(c: Controller, q: string)
    requires c.wiring.hasListView && c.wiring.hasBackPressListener
    ensures BackPressNotified in
              Run(c, [FocusChange(true), Submit(q), FocusChange(false), BackPressCheck, BackPressCheck]).1
  {
    var c1 := Next(c, FocusChange(true)).0;
    var c2 := Next(c1, Submit(q)).0;
    var c3 := Next(c2, FocusChange(false)).0;
    var c4 := Next(c3, BackPressCheck).0;
    assert c4.wiring == c.wiring && !c4.flags.focusedViewHasFocus;
    assert !c4.flags.textSubmitted && !c4.flags.listItemClicked;
    var last := Next(c4, BackPressCheck).1;
    assert last == [BackPressNotified];
    RunSingle(c4, BackPressCheck);
    RunCons(c3, BackPressCheck, [BackPressCheck]);
    RunCons(c2, FocusChange(false), [BackPressCheck, BackPressCheck]);
    RunCons(c1, Submit(q), [FocusChange(false), BackPressCheck, BackPressCheck]);
    RunCons(c, FocusChange(true), [Submit(q), FocusChange(false), BackPressCheck, BackPressCheck]);
  }

  /** Gaining focus then losing it, with neither a submit nor a click, is a back press. */
  lemma BackPressAfterFocusLoss(c: Controller)
    requires c.wiring.hasListView && c.wiring.hasBackPressListener
    requires !c.flags.listItemClicked && !c.flags.textSubmitted
    ensures BackPressNotified in Run(c, [FocusChange(true), FocusChange(false), BackPressCheck]).1
    ensures BackPressNotified !in Run(c, [FocusChange(true), BackPressCheck]).1
  {
    var t := [FocusChange(true), FocusChange(false), BackPressCheck];
    assert t[1..] == [FocusChange(false), BackPressCheck];
    assert t[1..][1..] == [BackPressCheck];
    var u := [FocusChange(true), BackPressCheck];
    assert u[1..] == [BackPressCheck];
  }
}
