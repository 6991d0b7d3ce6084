/** The `preferences` slice of the store: the three preferred lists, their
    initial values taken from the saved object, and the three reducers, each of
    which replaces one list and saves the whole new state. */
module PreferencesSlice {
  import opened Js
  import opened InputAutocomplete

  /** The slice's state. */
  datatype PreferencesState = PreferencesState(
    preferredSources: seq<Suggestion>,
    preferredCategories: seq<Suggestion>,
    preferredAuthors: seq<Suggestion>)

  /** The object kept under the "preferences" storage key, as far as the slice
      reads it: each list may be missing. A missing key reads as `{}`. */
  datatype SavedPreferences = SavedPreferences(
    preferredSources: Option<seq<Suggestion>>,
    preferredCategories: Option<seq<Suggestion>>,
    preferredAuthors: Option<seq<Suggestion>>)

  const EmptyObject := SavedPreferences(None, None, None)

  /** The three reducers with their payloads. */
  datatype PreferencesAction =
    | SetPreferredSources(sources: seq<Suggestion>)
    | SetPreferredCategories(categories: seq<Suggestion>)
    | SetPreferredAuthors(authors: seq<Suggestion>)

  function OrEmptyList(l: Option<seq<Suggestion>>): (r: seq<Suggestion>)
    ensures l.Some? ==> r == l.value
    ensures l.None? ==> r == []
  {
    if l.Some? then l.value else []
  }

  /** `JSON.parse(localStorage.getItem("preferences") || "{}")` read field by
      field: a saved list is used, a missing one becomes `[]`. An array is
      truthy even when empty, so a saved `[]` is kept as it is. */
  function InitialState(saved: Option<SavedPreferences>): (s: PreferencesState)
    ensures saved.None? ==> s == PreferencesState([], [], [])
    ensures saved.Some? ==> s.preferredSources == OrEmptyList(saved.value.preferredSources)
    ensures saved.Some? ==> s.preferredCategories == OrEmptyList(saved.value.preferredCategories)
    ensures saved.Some? ==> s.preferredAuthors == OrEmptyList(saved.value.preferredAuthors)
  {
    var o := if saved.Some? then saved.value else EmptyObject;
    PreferencesState(OrEmptyList(o.preferredSources), OrEmptyList(o.preferredCategories), OrEmptyList(o.preferredAuthors))
  }

  /** `JSON.stringify(state)`: the whole state, every list present. */
  function Snapshot(s: PreferencesState): (saved: SavedPreferences)
    ensures saved.preferredSources == Some(s.preferredSources)
    ensures saved.preferredCategories == Some(s.preferredCategories)
    ensures saved.preferredAuthors == Some(s.preferredAuthors)
  {
    SavedPreferences(Some(s.preferredSources), Some(s.preferredCategories), Some(s.preferredAuthors))
  }

  /** Reading back a saved state restores it. */
  lemma ReloadRestoresState(s: PreferencesState)
    ensures InitialState(Some(Snapshot(s))) == s
  {
  }

  /** The state after a reducer: the payload replaces its list, the other two
      lists stay as they were. */
  function Reduce(s: PreferencesState, action: PreferencesAction): (r: PreferencesState)
    ensures action.SetPreferredSources? ==>
      r.preferredSources == action.sources
      && r.preferredCategories == s.preferredCategories && r.preferredAuthors == s.preferredAuthors
    ensures action.SetPreferredCategories? ==>
      r.preferredCategories == action.categories
      && r.preferredSources == s.preferredSources && r.preferredAuthors == s.preferredAuthors
    ensures action.SetPreferredAuthors? ==>
      r.preferredAuthors == action.authors
      && r.preferredSources == s.preferredSources && r.preferredCategories == s.preferredCategories
  {
    match action
    case SetPreferredSources(p) => s.(preferredSources := p)
    case SetPreferredCategories(p) => s.(preferredCategories := p)
    case SetPreferredAuthors(p) => s.(preferredAuthors := p)
  }

  /** Dispatching the same action twice is dispatching it once. */
  lemma ReduceIdempotent(s: PreferencesState, action: PreferencesAction)
    ensures Reduce(Reduce(s, action), action) == Reduce(s, action)
  {
  }

  /** Reducers for different lists commute. */
  lemma ReducersOfDifferentListsCommute(s: PreferencesState, a: PreferencesAction, b: PreferencesAction)
    requires !(a.SetPreferredSources? && b.SetPreferredSources?)
    requires !(a.SetPreferredCategories? && b.SetPreferredCategories?)
    requires !(a.SetPreferredAuthors? && b.SetPreferredAuthors?)
    ensures Reduce(Reduce(s, a), b) == Reduce(Reduce(s, b), a)
  {
  }

  /** The store: the state's three lists, updated in place by the reducers, and
      the saved object standing for the storage entry the reducers write. */
  class PreferencesStore {
    var preferredSources: seq<Suggestion>
    var preferredCategories: seq<Suggestion>
    var preferredAuthors: seq<Suggestion>
    ghost var saved: Option<SavedPreferences>

    function State(): PreferencesState
      reads this
    {
      PreferencesState(preferredSources, preferredCategories, preferredAuthors)
    }

    /** Once a reducer has run, the saved object is the whole current state, so
        a reload (`InitialState(saved)`) gives it back: see `ReloadRestoresState`. */
    ghost predicate SavedIsCurrent()
      reads this
    {
      saved == Some(Snapshot(State()))
    }

    /** The store as created at start-up from what storage holds. */
    constructor (stored: Option<SavedPreferences>)
      ensures State() == InitialState(stored)
      ensures saved == stored
    {
      var s := InitialState(stored);
      preferredSources := s.preferredSources;
      preferredCategories := s.preferredCategories;
      preferredAuthors := s.preferredAuthors;
      saved := stored;
    }

    method SetSources(payload: seq<Suggestion>)
      modifies this
      ensures State() == Reduce(old(State()), SetPreferredSources(payload))
      ensures SavedIsCurrent()
    {
      preferredSources := payload;
      saved := Some(Snapshot(State()));
    }

    method SetCategories(payload: seq<Suggestion>)
      modifies this
      ensures State() == Reduce(old(State()), SetPreferredCategories(payload))
      ensures SavedIsCurrent()
    {
      preferredCategories := payload;
      saved := Some(Snapshot(State()));
    }

    method SetAuthors(payload: seq<Suggestion>)
      modifies this
      ensures State() == Reduce(old(State()), SetPreferredAuthors(payload))
      ensures SavedIsCurrent()
    {
      preferredAuthors := payload;
      saved := Some(Snapshot(State()));
    }

    /** A dispatched action runs its reducer. */
    method Dispatch(action: PreferencesAction)
      modifies this
      ensures State() == Reduce(old(State()), action)
      ensures SavedIsCurrent()
    {
      match action
      case SetPreferredSources(p) => SetSources(p);
      case SetPreferredCategories(p) => SetCategories(p);
      case SetPreferredAuthors(p) => SetAuthors(p);
    }
  }
}
