/** The search-state context: a one-slot cell holding the last search, mirrored into a
    session-storage entry so that it survives navigation and is used once. Whether each
    storage write or removal succeeds is a parameter. */
module SearchContext {
  import opened Common

  /** The saved search form and its results. */
  datatype SearchState = SearchState(
    keyword: string,
    category: string,
    distance: string,
    location: string,
    autoDetect: bool,
    events: seq<EventSummary>,
    scrollPosition: int)

  /** The storage entry under "searchState": the serialisation of a state, or text that does
      not parse (the empty text being falsy, it is not even parsed). */
  datatype Entry = Serialized(state: SearchState) | Unparseable(text: string)

  class SearchStateCell {
    var searchState: Option<SearchState>
    /** The storage entry, absent when `None`. */
    var storage: Option<Entry>

    /** The provider starts with a null state, whatever the storage holds. */
    constructor (entry: Option<Entry>)
      ensures searchState == None && storage == entry
    {
      searchState, storage := None, entry;
    }

    /** The mount effect: a parseable entry becomes the state and is then removed (if the
        removal fails, the entry stays); an unparseable or empty entry is ignored and kept. */
    method Mount(removeOk: bool)
      modifies this
      ensures old(storage).Some? && old(storage).value.Serialized? ==>
        && searchState == Some(old(storage).value.state)
        && storage == (if removeOk then None else old(storage))
      ensures old(storage).None? || old(storage).value.Unparseable? ==>
        searchState == old(searchState) && storage == old(storage)
    {
      if storage.Some? {
        match storage.value
        case Serialized(state) =>
          searchState := Some(state);
          if removeOk {
            storage := None;
          }
        case Unparseable(_) =>
      }
    }

    /** `saveSearchState`: the state is set even when the storage write fails. */
    method Save(state: SearchState, writeOk: bool)
      modifies this
      ensures searchState == Some(state)
      ensures storage == (if writeOk then Some(Serialized(state)) else old(storage))
    {
      searchState := Some(state);
      if writeOk {
        storage := Some(Serialized(state));
      }
    }

    /** `clearSearchState`: the state becomes null and the entry is removed. */
    method Clear(removeOk: bool)
      modifies this
      ensures searchState == None
      ensures storage == (if removeOk then None else old(storage))
    {
      searchState := None;
      if removeOk {
        storage := None;
      }
    }

    /** `consumeSearchState`: returns the current state, then leaves the state null and the
        entry removed. */
    method Consume(removeOk: bool) returns (state: Option<SearchState>)
      modifies this
      ensures state == old(searchState)
      ensures searchState == None
      ensures storage == (if removeOk then None else old(storage))
    {
      state := searchState;
      searchState := None;
      if removeOk {
        storage := None;
      }
    }
  }

  /** Save then consume returns the saved state, whatever the storage did; a second consume
      returns null. */
  method SaveThenConsume(entry: Option<Entry>, state: SearchState, writeOk: bool, removeOk: bool)
    returns (first: Option<SearchState>, second: Option<SearchState>)
    ensures first == Some(state)
    ensures second == None
  {
    var cell := new SearchStateCell(entry);
    cell.Save(state, writeOk);
    first := cell.Consume(removeOk);
    second := cell.Consume(removeOk);
  }

  /** A state saved before a reload is restored once by the next provider's mount, and the
      entry is gone afterwards, so a further reload restores nothing. */
  method RestoreAfterReload(state: SearchState)
    returns (restored: Option<SearchState>, afterSecondReload: Option<SearchState>)
    ensures restored == Some(state)
    ensures afterSecondReload == None
  {
    var before := new SearchStateCell(None);
    before.Save(state, true);
    var after := new SearchStateCell(before.storage);
    after.Mount(true);
    restored := after.searchState;
    var again := new SearchStateCell(after.storage);
    again.Mount(true);
    afterSecondReload := again.searchState;
  }

  /** Text that does not parse is left in storage and the state stays null, mount after mount. */
  method UnparseableIgnored(text: string) returns (state: Option<SearchState>, entry: Option<Entry>)
    ensures state == None && entry == Some(Unparseable(text))
  {
    var cell := new SearchStateCell(Some(Unparseable(text)));
    cell.Mount(true);
    cell.Mount(true);
    state, entry := cell.searchState, cell.storage;
  }
}
