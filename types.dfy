/** Values shared by the search widget model: places, list rows, history entries and the
    events the widget emits towards its collaborators. */
module Types {

  datatype Option<T> = None | Some(value: T)

  /** A place returned by the geocoding service. Its contents are opaque to the widget,
      except for the label (`labelText`) that is shown in the suggestion list. */
  datatype Feature = Feature(id: string, labelText: string)

  /** One row of the suggestion list: a plain term, or a place feature. */
  datatype Item = TextItem(text: string) | FeatureItem(feature: Feature)
  {
    /** The text the row shows; a feature row shows the feature's label. */
    function Text(): string
    {
      match this
      case TextItem(t) => t
      case FeatureItem(f) => f.labelText
    }
  }

  /** A saved-search entry: the term, and the serialized feature when one was stored with it. */
  datatype SavedEntry = SavedEntry(term: string, payload: Option<Feature>)

  /** What the widget hands to the world outside it, in the order it does so. */
  datatype Event =
    | SuggestRequest(text: string)          // the client's suggest request
    | SearchRequest(query: string)          // the client's search request
    | HistoryStored(entry: SavedEntry)      // a store into the saved search
    | SubmitNotified                        // the submit listener is told
    | BackPressNotified                     // the back-press listener is told
    | CallbackResult(features: seq<Feature>) // the search callback gets a successful result
    | QuerySet(text: string, submit: bool)  // the query text box is set
    | FocusCleared                          // focus is taken from the query text box
    | KeyboardShown                         // the (delayed) soft-keyboard show
    | KeyboardHidden                        // the (delayed) soft-keyboard hide
    | FocusForwarded(hasFocus: bool)        // the secondary focus listener is told

  /** The six interaction flags of the widget. */
  datatype Flags = Flags(
    disableAutoComplete: bool,
    focusedViewHasFocus: bool,
    listItemClicked: bool,
    textSubmitted: bool,
    cacheSearchResults: bool,
    autoKeyboardShow: bool)

  /** Which collaborators are set: the client, the callback, the three listeners, the list view
      (whose presence also means the focus and item-click handlers are installed) and the saved
      search. */
  datatype Wiring = Wiring(
    hasPelias: bool,
    hasCallback: bool,
    hasSubmitListener: bool,
    hasBackPressListener: bool,
    hasFocusListener: bool,
    hasListView: bool,
    hasSavedSearch: bool)

  /** The list that holds `e` exactly when `present`. */
  function Emit(present: bool, e: Event): (r: seq<Event>)
    ensures e in r <==> present
    ensures forall x :: x in r ==> x == e
    ensures |r| <= 1
  {
    if present then [e] else []
  }

  /** Appending four pieces one after another is appending their concatenation. */
  lemma Regroup<T>(s: seq<T>, a: seq<T>, b: seq<T>, c: seq<T>, d: seq<T>)
    ensures s + a + b + c + d == s + (a + b + c + d)
  {
  }

  /** Every event of `es` ranks strictly above the ones before it: so each rank occurs at most
      once, and in increasing order. */
  ghost predicate StrictlyRanked(es: seq<Event>, rank: Event -> nat)
  {
    forall i, j :: 0 <= i < j < |es| ==> rank(es[i]) < rank(es[j])
  }

  /** A ranked list whose ranks are all below `rank(e)`, followed by at most one `e`, is a ranked
      list whose ranks are at most `rank(e)`. */
  lemma RankedThen(a: seq<Event>, b: seq<Event>, e: Event, rank: Event -> nat)
    requires StrictlyRanked(a, rank)
    requires forall i :: 0 <= i < |a| ==> rank(a[i]) < rank(e)
    requires |b| <= 1 && forall x :: x in b ==> x == e
    ensures StrictlyRanked(a + b, rank)
    ensures forall i :: 0 <= i < |a + b| ==> rank((a + b)[i]) <= rank(e)
  {
    if b != [] {
      assert b[0] in b;
    }
  }

  /** Up to three optional events and a final one, ranked in that order, make a ranked list. */
  lemma RankedOptionalsThen(p1: bool, e1: Event, p2: bool, e2: Event, p3: bool, e3: Event, e4: Event,
                            rank: Event -> nat)
    requires rank(e1) < rank(e2) < rank(e3) < rank(e4)
    ensures StrictlyRanked(Emit(p1, e1) + Emit(p2, e2) + Emit(p3, e3) + [e4], rank)
  {
    RankedThen([], Emit(p1, e1), e1, rank);
    assert [] + Emit(p1, e1) == Emit(p1, e1);
    RankedThen(Emit(p1, e1), Emit(p2, e2), e2, rank);
    RankedThen(Emit(p1, e1) + Emit(p2, e2), Emit(p3, e3), e3, rank);
    RankedThen(Emit(p1, e1) + Emit(p2, e2) + Emit(p3, e3), [e4], e4, rank);
  }

  /** Two events followed by up to two optional ones, ranked in that order, make a ranked list. */
  lemma RankedThenOptionals(e1: Event, e2: Event, p3: bool, e3: Event, p4: bool, e4: Event,
                            rank: Event -> nat)
    requires rank(e1) < rank(e2) < rank(e3) < rank(e4)
    ensures StrictlyRanked([e1, e2] + Emit(p3, e3) + Emit(p4, e4), rank)
  {
    RankedThen([e1], [e2], e2, rank);
    assert [e1] + [e2] == [e1, e2];
    RankedThen([e1, e2], Emit(p3, e3), e3, rank);
    RankedThen([e1, e2] + Emit(p3, e3), Emit(p4, e4), e4, rank);
  }
}
