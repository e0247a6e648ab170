/** The saved-search history the widget reads and writes. Its own storage policy is not part of
    this model: the store promises only what the widget's callers rely on. */
module SavedSearches {
  import opened Types

  /** The row an entry shows: an entry stored with a feature shows that feature, under the
      feature's label; a plain entry shows its term. */
  function EntryItem(e: SavedEntry): Item
  {
    match e.payload
    case None => TextItem(e.term)
    case Some(f) => FeatureItem(f)
  }

  /** The rows of a history, one per entry, in history order. */
  function ItemsOf(entries: seq<SavedEntry>): (items: seq<Item>)
    ensures |items| == |entries|
    ensures forall k :: 0 <= k < |entries| ==> items[k] == EntryItem(entries[k])
  {
    if entries == [] then [] else [EntryItem(entries[0])] + ItemsOf(entries[1..])
  }

  /** What a store into `before` is known to give: storing into an empty history leaves exactly
      the stored entry. */
  ghost predicate StoredFrom(before: seq<SavedEntry>, e: SavedEntry, after: seq<SavedEntry>)
  {
    before == [] ==> after == [e]
  }

  /** The history after a store that happens only when `stored`. */
  ghost predicate StoreOutcome(stored: bool, before: seq<SavedEntry>, e: SavedEntry, after: seq<SavedEntry>)
  {
    if stored then StoredFrom(before, e, after) else after == before
  }

  class SavedSearch {
    var entries: seq<SavedEntry>

    constructor()
      ensures entries == []
    {
      entries := [];
    }

    /** Records a term, with its feature when there is one. Ordering, duplicates and capacity
        are the history's own business; this body is one behaviour the contract admits. */
    method Store(term: string, payload: Option<Feature>)
      modifies this
      ensures StoredFrom(old(entries), SavedEntry(term, payload), entries)
    {
      entries := [SavedEntry(term, payload)] + entries;
    }

    method Clear()
      modifies this
      ensures entries == []
    {
      entries := [];
    }

    /** The rows the history shows: one per entry, in history order. */
    function Items(): (items: seq<Item>)
      reads this
      ensures |items| == |entries|
      ensures forall k :: 0 <= k < |entries| ==> items[k] == EntryItem(entries[k])
    {
      ItemsOf(entries)
    }
  }

  /** A history holding one feature entry shows that feature, labelled by the feature rather than
      by the stored term. */
  lemma FeatureEntryShowsFeature(term: string, f: Feature)
    ensures ItemsOf([SavedEntry(term, Some(f))]) == [FeatureItem(f)]
    ensures ItemsOf([SavedEntry(term, Some(f))])[0].Text() == f.labelText
  {
  }
}
