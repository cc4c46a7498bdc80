/**
 * The application state container of src/context/AppContext.tsx: the reducer as a pure
 * function over a closed action datatype, the statistics fold, and the provider's helper
 * actions as methods of a class that holds the current state and dispatches actions to it.
 * Browser storage writes and toasts are not part of the model; the values read from storage
 * at start-up are constructor parameters.
 */
module AppContext {
  import opened Wrappers
  import opened Types
  import opened Seqs
  import opened Text
  import opened Counting

  /** A preference value: the preferences hold strings and booleans. */
  datatype PrefValue = PrefText(text: string) | PrefFlag(flag: bool)

  /** A preferences object; a partial one has only some of the keys. */
  type PreferenceMap = map<string, PrefValue>

  /** A breadcrumb entry; `caption` is the source's `label`, a reserved word here. */
  datatype Breadcrumb = Breadcrumb(caption: string, path: string)

  datatype AppState = AppState(
    animals: seq<Animal>,
    filteredAnimals: seq<Animal>,
    currentAnimal: Option<Animal>,
    favorites: seq<string>,
    isLoading: bool,
    error: Option<string>,
    searchTerm: string,
    filters: FilterOptions,
    preferences: PreferenceMap,
    stats: Option<AnimalStats>,
    currentPage: string,
    breadcrumbs: seq<Breadcrumb>)

  /** The action union; `Unrecognized` stands for any other object passed to `dispatch`. */
  datatype AppAction =
    | SetLoading(loading: bool)
    | SetError(message: Option<string>)
    | SetAnimals(animals: seq<Animal>)
    | SetFilteredAnimals(filtered: seq<Animal>)
    | SetCurrentAnimal(animal: Option<Animal>)
    | SetSearchTerm(term: string)
    | SetFilters(filters: FilterOptions)
    | AddToFavorites(id: string)
    | RemoveFromFavorites(id: string)
    | SetPreferences(preferences: PreferenceMap)
    | SetStats(stats: AnimalStats)
    | SetCurrentPage(page: string)
    | SetBreadcrumbs(breadcrumbs: seq<Breadcrumb>)
    | ResetFilters
    | Unrecognized(kind: string)

  /** The fields of `AppState`, to say which ones an action may change. */
  datatype Field =
    | Animals | FilteredAnimals | CurrentAnimal | Favorites | IsLoading | Error
    | SearchTerm | Filters | Preferences | Stats | CurrentPage | Breadcrumbs

  /** `s` and `t` hold the same value in field `f`. */
  predicate Agree(s: AppState, t: AppState, f: Field) {
    match f
    case Animals => s.animals == t.animals
    case FilteredAnimals => s.filteredAnimals == t.filteredAnimals
    case CurrentAnimal => s.currentAnimal == t.currentAnimal
    case Favorites => s.favorites == t.favorites
    case IsLoading => s.isLoading == t.isLoading
    case Error => s.error == t.error
    case SearchTerm => s.searchTerm == t.searchTerm
    case Filters => s.filters == t.filters
    case Preferences => s.preferences == t.preferences
    case Stats => s.stats == t.stats
    case CurrentPage => s.currentPage == t.currentPage
    case Breadcrumbs => s.breadcrumbs == t.breadcrumbs
  }

  /** The fields each action names in its spread. */
  function Writes(action: AppAction): set<Field> {
    match action
    case SetLoading(_) => {IsLoading}
    case SetError(_) => {Error, IsLoading}
    case SetAnimals(_) => {Animals, IsLoading}
    case SetFilteredAnimals(_) => {FilteredAnimals}
    case SetCurrentAnimal(_) => {CurrentAnimal}
    case SetSearchTerm(_) => {SearchTerm}
    case SetFilters(_) => {Filters}
    case AddToFavorites(_) => {Favorites}
    case RemoveFromFavorites(_) => {Favorites}
    case SetPreferences(_) => {Preferences}
    case SetStats(_) => {Stats}
    case SetCurrentPage(_) => {CurrentPage}
    case SetBreadcrumbs(_) => {Breadcrumbs}
    case ResetFilters => {Filters, SearchTerm, FilteredAnimals}
    case Unrecognized(_) => {}
  }

  /** `{ ...base, ...payload }` for filter options: a key present in the payload wins. */
  function MergeFilters(base: FilterOptions, payload: FilterOptions): (r: FilterOptions)
    ensures r.category == if payload.category.Some? then payload.category else base.category
    ensures r.conservationStatus == if payload.conservationStatus.Some? then payload.conservationStatus else base.conservationStatus
    ensures r.continent == if payload.continent.Some? then payload.continent else base.continent
    ensures r.searchTerm == if payload.searchTerm.Some? then payload.searchTerm else base.searchTerm
  {
    FilterOptions(
      if payload.category.Some? then payload.category else base.category,
      if payload.conservationStatus.Some? then payload.conservationStatus else base.conservationStatus,
      if payload.continent.Some? then payload.continent else base.continent,
      if payload.searchTerm.Some? then payload.searchTerm else base.searchTerm)
  }

  /** `appReducer(state, action)`. */
  function AppReducer(state: AppState, action: AppAction): (r: AppState)
    ensures action.SetError? || action.SetAnimals? ==> !r.isLoading
    ensures action.SetLoading? ==> r.isLoading == action.loading
    ensures action.SetError? ==> r.error == action.message
    ensures action.SetAnimals? ==> r.animals == action.animals
    ensures action.SetFilteredAnimals? ==> r.filteredAnimals == action.filtered
    ensures action.SetCurrentAnimal? ==> r.currentAnimal == action.animal
    ensures action.SetSearchTerm? ==> r.searchTerm == action.term
    ensures action.SetStats? ==> r.stats == Some(action.stats)
    ensures action.SetCurrentPage? ==> r.currentPage == action.page
    ensures action.SetBreadcrumbs? ==> r.breadcrumbs == action.breadcrumbs
    ensures action.Unrecognized? ==> r == state
  {
    match action
    case SetLoading(loading) => state.(isLoading := loading)
    case SetError(message) => state.(error := message, isLoading := false)
    case SetAnimals(animals) => state.(animals := animals, isLoading := false)
    case SetFilteredAnimals(filtered) => state.(filteredAnimals := filtered)
    case SetCurrentAnimal(animal) => state.(currentAnimal := animal)
    case SetSearchTerm(term) => state.(searchTerm := term)
    case SetFilters(filters) => state.(filters := MergeFilters(state.filters, filters))
    case AddToFavorites(id) => state.(favorites := state.favorites + [id])
    case RemoveFromFavorites(id) => state.(favorites := Filter(state.favorites, (x: string) => x != id))
    case SetPreferences(preferences) => state.(preferences := state.preferences + preferences)
    case SetStats(stats) => state.(stats := Some(stats))
    case SetCurrentPage(page) => state.(currentPage := page)
    case SetBreadcrumbs(breadcrumbs) => state.(breadcrumbs := breadcrumbs)
    case ResetFilters => state.(filters := NoFilters, searchTerm := "", filteredAnimals := state.animals)
    case Unrecognized(_) => state
  }

  /** Each action changes only the fields it names; an unrecognised one changes nothing. */
  lemma ReducerFrame(state: AppState, action: AppAction, f: Field)
    requires f !in Writes(action)
    ensures Agree(state, AppReducer(state, action), f)
  {
  }

  /** ADD_TO_FAVORITES appends the id at the end, duplicate or not. */
  lemma AddFavoriteAppends(state: AppState, id: string)
    ensures AppReducer(state, AddToFavorites(id)).favorites == state.favorites + [id]
  {
  }

  /** REMOVE_FROM_FAVORITES drops every occurrence of the id and keeps the others in order. */
  lemma RemoveFavoriteKeepsOthers(state: AppState, id: string)
    ensures var r := AppReducer(state, RemoveFromFavorites(id));
      (forall x :: x in r.favorites <==> x in state.favorites && x != id)
      && (forall x :: x != id ==> multiset(r.favorites)[x] == multiset(state.favorites)[x])
      && IsSubsequence(r.favorites, state.favorites)
  {
  }

  /** SET_FILTERS merges the payload over the current filters. */
  lemma SetFiltersMerges(state: AppState, payload: FilterOptions)
    ensures AppReducer(state, SetFilters(payload)).filters == MergeFilters(state.filters, payload)
  {
  }

  /**
   * The spread merge of filters: the empty payload changes nothing, merging onto no filters
   * gives the payload, merging the same payload twice is merging it once, and two merges in a
   * row are one merge of the second payload over the first.
   */
  lemma MergeFiltersLaws(base: FilterOptions, p: FilterOptions, q: FilterOptions)
    ensures MergeFilters(base, NoFilters) == base
    ensures MergeFilters(NoFilters, p) == p
    ensures MergeFilters(MergeFilters(base, p), p) == MergeFilters(base, p)
    ensures MergeFilters(MergeFilters(base, p), q) == MergeFilters(base, MergeFilters(p, q))
  {
  }

  /** Dispatching SET_FILTERS with no criteria changes nothing; dispatching the same SET_FILTERS twice is dispatching it once. */
  lemma SetFiltersIdempotent(state: AppState, payload: FilterOptions)
    ensures AppReducer(state, SetFilters(NoFilters)) == state
    ensures AppReducer(AppReducer(state, SetFilters(payload)), SetFilters(payload)) == AppReducer(state, SetFilters(payload))
  {
    MergeFiltersLaws(state.filters, payload, payload);
  }

  /** Dispatching SET_PREFERENCES with an empty payload changes nothing; dispatching the same one twice is dispatching it once. */
  lemma SetPreferencesIdempotent(state: AppState, payload: PreferenceMap)
    ensures AppReducer(state, SetPreferences(map[])) == state
    ensures AppReducer(AppReducer(state, SetPreferences(payload)), SetPreferences(payload)) == AppReducer(state, SetPreferences(payload))
  {
    assert state.preferences + map[] == state.preferences;
    var once := state.preferences + payload;
    assert once + payload == once;
  }

  /** SET_PREFERENCES merges the payload over the current preferences: payload keys win. */
  lemma SetPreferencesMerges(state: AppState, payload: PreferenceMap)
    ensures var r := AppReducer(state, SetPreferences(payload));
      r.preferences.Keys == state.preferences.Keys + payload.Keys
      && (forall k :: k in payload ==> r.preferences[k] == payload[k])
      && (forall k :: k in state.preferences && k !in payload ==> r.preferences[k] == state.preferences[k])
  {
  }

  /** RESET_FILTERS clears the filters and the term and shows every animal again. */
  lemma ResetFiltersClears(state: AppState)
    ensures var r := AppReducer(state, ResetFilters);
      r.filters == NoFilters && r.searchTerm == "" && r.filteredAnimals == state.animals
  {
  }

  /** Removing a favourite keeps a duplicate-free list duplicate-free. */
  lemma RemoveKeepsNoDuplicates(state: AppState, id: string)
    requires NoDuplicates(state.favorites)
    ensures NoDuplicates(AppReducer(state, RemoveFromFavorites(id)).favorites)
    ensures id !in AppReducer(state, RemoveFromFavorites(id)).favorites
  {
    var r := AppReducer(state, RemoveFromFavorites(id));
    SubsequenceNoDuplicates(r.favorites, state.favorites);
  }

  /** The four dispatches of the mount load, composed. */
  lemma LoadSequence(s0: AppState, data: seq<Animal>, stats: AnimalStats)
    ensures AppReducer(AppReducer(AppReducer(AppReducer(s0, SetLoading(true)), SetAnimals(data)),
                                  SetFilteredAnimals(data)), SetStats(stats))
            == s0.(animals := data, filteredAnimals := data, isLoading := false, stats := Some(stats))
  {
  }

  /** The default preferences, overridden by whatever was stored. */
  function DefaultPreferences(): PreferenceMap {
    map[
      "theme" := PrefText("light"),
      "language" := PrefText("fr"),
      "autoPlay" := PrefFlag(true),
      "showAnimations" := PrefFlag(true),
      "soundEnabled" := PrefFlag(false)]
  }

  /** The initial state, given the favourites and preferences read from storage. */
  function InitialState(storedFavorites: seq<string>, storedPreferences: PreferenceMap): (s: AppState)
    ensures s.animals == [] && s.filteredAnimals == [] && s.favorites == storedFavorites
    ensures s.preferences.Keys == DefaultPreferences().Keys + storedPreferences.Keys
    ensures !s.isLoading && s.error.None? && s.searchTerm == "" && s.filters == NoFilters
    ensures s.currentAnimal.None? && s.stats.None? && s.currentPage == "home" && s.breadcrumbs == []
    ensures forall k :: k in storedPreferences ==> s.preferences[k] == storedPreferences[k]
    ensures forall k :: k in DefaultPreferences() && k !in storedPreferences ==> s.preferences[k] == DefaultPreferences()[k]
  {
    AppState(
      [], [], None, storedFavorites, false, None, "", NoFilters,
      DefaultPreferences() + storedPreferences, None, "home", [])
  }

  /** `calculateStats(animals)`: the total and the counts by category, status and continent. */
  function CalculateStats(animals: seq<Animal>): (s: AnimalStats)
    ensures s.totalAnimals == |animals|
    ensures forall k :: CountOf(s.categoriesCount, k) == multiset(KeysOf(animals, ByCategory))[k]
    ensures forall k :: CountOf(s.conservationStats, k) == multiset(KeysOf(animals, ByConservation))[k]
    ensures forall k :: CountOf(s.continentStats, k) == multiset(KeysOf(animals, ByContinent))[k]
    ensures forall k :: k in s.categoriesCount ==> s.categoriesCount[k] > 0
    ensures forall k :: k in s.conservationStats ==> s.conservationStats[k] > 0
    ensures forall k :: k in s.continentStats ==> s.continentStats[k] > 0
    ensures Total(s.categoriesCount) == |animals|
    ensures Total(s.conservationStats) == |animals|
    ensures Total(s.continentStats) == |animals|
  {
    AnimalStats(
      |animals|,
      CountBy(animals, ByCategory),
      CountBy(animals, ByConservation),
      CountBy(animals, ByContinent))
  }

  /**
   * The criterion of the provider's `searchAnimals`: the lower-cased term occurs in the
   * lower-cased name, description, habitat, continent or one of the countries.
   */
  predicate MatchesSearch(a: Animal, term: string) {
    var t := Lower(term);
    Includes(Lower(a.name), t) || Includes(Lower(a.description), t) || Includes(Lower(a.habitat), t)
    || Includes(Lower(a.location.continent), t)
    || exists c :: c in a.location.countries && Includes(Lower(c), t)
  }

  /**
   * What the provider's `searchAnimals(term)` stores as the filtered list: every animal
   * when the term is blank, the matching ones in order otherwise.
   */
  function SearchResults(animals: seq<Animal>, term: string): (r: seq<Animal>)
    ensures IsBlank(term) ==> r == animals
    ensures !IsBlank(term) ==>
      (forall a :: a in r <==> a in animals && MatchesSearch(a, term))
      && (forall a :: MatchesSearch(a, term) ==> multiset(r)[a] == multiset(animals)[a])
      && IsSubsequence(r, animals)
  {
    if IsBlank(term) then animals
    else Filter(animals, (a: Animal) => MatchesSearch(a, term))
  }

  /** The category criterion of `filterAnimals`, true when no category is given. */
  predicate CategoryOk(a: Animal, filters: FilterOptions) {
    filters.category.Some? ==> a.category == filters.category.value
  }

  /** The status criterion of `filterAnimals`, true when no status is given. */
  predicate StatusOk(a: Animal, filters: FilterOptions) {
    filters.conservationStatus.Some? ==> a.conservationStatus == filters.conservationStatus.value
  }

  /** The continent criterion of `filterAnimals`: exact, case-sensitive equality. */
  predicate ContinentOk(a: Animal, filters: FilterOptions) {
    IsSet(filters.continent) ==> a.location.continent == filters.continent.value
  }

  /** The term criterion of `filterAnimals`: found in the lower-cased name or description. */
  predicate TermOk(a: Animal, filters: FilterOptions) {
    IsSet(filters.searchTerm) ==>
      Includes(Lower(a.name), Lower(filters.searchTerm.value))
      || Includes(Lower(a.description), Lower(filters.searchTerm.value))
  }

  /** Every criterion of `filterAnimals` that is set holds. */
  predicate MatchesFilters(a: Animal, filters: FilterOptions) {
    CategoryOk(a, filters) && StatusOk(a, filters) && ContinentOk(a, filters) && TermOk(a, filters)
  }

  /** The `let filtered` chain of `filterAnimals`: one filter per criterion that is set. */
  method SelectFiltered(animals: seq<Animal>, filters: FilterOptions) returns (filtered: seq<Animal>)
    ensures SelectionOf(filtered, animals, (a: Animal) => MatchesFilters(a, filters))
  {
    filtered := animals;
    SubsequenceReflexive(animals);
    assert SelectionOf(filtered, animals, (a: Animal) => true);
    if filters.category.Some? {
      var category := filters.category.value;
      var byCategory := (a: Animal) => a.category == category;
      FilterRefines(animals, filtered, (a: Animal) => true, byCategory, (a: Animal) => CategoryOk(a, filters));
      filtered := Filter(filtered, byCategory);
    } else {
      SelectionEquivalent(filtered, animals, (a: Animal) => true, (a: Animal) => CategoryOk(a, filters));
    }
    ghost var sofar := (a: Animal) => CategoryOk(a, filters) && StatusOk(a, filters);
    if filters.conservationStatus.Some? {
      var status := filters.conservationStatus.value;
      var byStatus := (a: Animal) => a.conservationStatus == status;
      FilterRefines(animals, filtered, (a: Animal) => CategoryOk(a, filters), byStatus, sofar);
      filtered := Filter(filtered, byStatus);
    } else {
      SelectionEquivalent(filtered, animals, (a: Animal) => CategoryOk(a, filters), sofar);
    }
    ghost var before := sofar;
    sofar := (a: Animal) => CategoryOk(a, filters) && StatusOk(a, filters) && ContinentOk(a, filters);
    if IsSet(filters.continent) {
      var continent := filters.continent.value;
      var byContinent := (a: Animal) => a.location.continent == continent;
      FilterRefines(animals, filtered, before, byContinent, sofar);
      filtered := Filter(filtered, byContinent);
    } else {
      SelectionEquivalent(filtered, animals, before, sofar);
    }
    before := sofar;
    sofar := (a: Animal) => MatchesFilters(a, filters);
    if IsSet(filters.searchTerm) {
      var term := Lower(filters.searchTerm.value);
      var byTerm := (a: Animal) => Includes(Lower(a.name), term) || Includes(Lower(a.description), term);
      FilterRefines(animals, filtered, before, byTerm, sofar);
      filtered := Filter(filtered, byTerm);
    } else {
      SelectionEquivalent(filtered, animals, before, sofar);
    }
  }

  /**
   * The provider: the current state and the helper actions, each a sequence of dispatches
   * computed from the state held when the helper is called.
   */
  class AppProvider {
    var state: AppState

    constructor (storedFavorites: seq<string>, storedPreferences: PreferenceMap)
      ensures state == InitialState(storedFavorites, storedPreferences)
    {
      state := InitialState(storedFavorites, storedPreferences);
    }

    /** `dispatch(action)`. */
    method Dispatch(action: AppAction)
      modifies this
      ensures state == AppReducer(old(state), action)
    {
      state := AppReducer(state, action);
    }

    /** The mount effect: loading, then the catalogue, the filtered list and the statistics. */
    method LoadCatalogue(data: seq<Animal>)
      modifies this
      ensures state == old(state).(animals := data, filteredAnimals := data, isLoading := false,
                                   stats := Some(CalculateStats(data)))
    {
      ghost var s0 := state;
      var stats := CalculateStats(data);
      Dispatch(SetLoading(true));
      Dispatch(SetAnimals(data));
      Dispatch(SetFilteredAnimals(data));
      Dispatch(SetStats(stats));
      LoadSequence(s0, data, stats);
    }

    /** `searchAnimals(term)`: stores the term, then the search results over the held animals. */
    method SearchAnimals(term: string)
      modifies this
      ensures state == old(state).(searchTerm := term, filteredAnimals := SearchResults(old(state).animals, term))
    {
      var held := state;
      Dispatch(SetSearchTerm(term));
      if IsBlank(term) {
        Dispatch(SetFilteredAnimals(held.animals));
        return;
      }
      var filtered := Filter(held.animals, (a: Animal) => MatchesSearch(a, term));
      Dispatch(SetFilteredAnimals(filtered));
    }

    /**
     * `filterAnimals(filters)`: merges the filters into the state, but selects the animals
     * by the filters passed in, not by the merged ones.
     */
    method FilterAnimals(filters: FilterOptions)
      modifies this
      ensures state.filters == MergeFilters(old(state).filters, filters)
      ensures SelectionOf(state.filteredAnimals, old(state).animals, (a: Animal) => MatchesFilters(a, filters))
      ensures forall f :: f != Filters && f != FilteredAnimals ==> Agree(old(state), state, f)
    {
      var held := state;
      Dispatch(SetFilters(filters));
      var filtered := SelectFiltered(held.animals, filters);
      Dispatch(SetFilteredAnimals(filtered));
    }

    /** `addToFavorites(id)`: appends the id only when it is not yet a favourite. */
    method AddToFavorites(id: string)
      modifies this
      ensures id in old(state).favorites ==> state == old(state)
      ensures id !in old(state).favorites ==> state == old(state).(favorites := old(state).favorites + [id])
      ensures NoDuplicates(old(state).favorites) ==> NoDuplicates(state.favorites)
    {
      if id !in state.favorites {
        if NoDuplicates(state.favorites) {
          AppendFreshNoDuplicates(state.favorites, id);
        }
        Dispatch(AppAction.AddToFavorites(id));
      }
    }

    /** `removeFromFavorites(id)`: removes every occurrence of the id. */
    method RemoveFromFavorites(id: string)
      modifies this
      ensures state == AppReducer(old(state), AppAction.RemoveFromFavorites(id))
      ensures id !in state.favorites
      ensures NoDuplicates(old(state).favorites) ==> NoDuplicates(state.favorites)
    {
      if NoDuplicates(state.favorites) {
        RemoveKeepsNoDuplicates(state, id);
      }
      Dispatch(AppAction.RemoveFromFavorites(id));
    }

    /** `toggleFavorite(id)`: a favourite is removed, any other id is added. */
    method ToggleFavorite(id: string)
      modifies this
      ensures id in state.favorites <==> id !in old(state).favorites
      ensures forall x :: x != id ==> (x in state.favorites <==> x in old(state).favorites)
      ensures forall f :: f != Favorites ==> Agree(old(state), state, f)
      ensures NoDuplicates(old(state).favorites) ==> NoDuplicates(state.favorites)
      ensures id in old(state).favorites ==> state == AppReducer(old(state), AppAction.RemoveFromFavorites(id))
      ensures id !in old(state).favorites ==> state.favorites == old(state).favorites + [id]
    {
      if id in state.favorites {
        RemoveFromFavorites(id);
      } else {
        AddToFavorites(id);
      }
    }

    /** `resetFilters()`. */
    method ResetFilters()
      modifies this
      ensures state == old(state).(filters := NoFilters, searchTerm := "", filteredAnimals := old(state).animals)
    {
      Dispatch(AppAction.ResetFilters);
    }
  }
}
