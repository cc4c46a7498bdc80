/**
 * The synchronous bodies of src/hooks/useAnimals.ts: the filter chain of the simulated fetch,
 * the id lookup of `useAnimal`, `useSimilarAnimals` and `useAnimalStats`. The catalogue they
 * read (`animalsData`) is the parameter `catalogue`.
 */
module AnimalsHook {
  import opened Wrappers
  import opened Types
  import opened Seqs
  import opened Text
  import opened Counting
  import Catalogue

  /** The category, status and continent criteria of the fetch; the continent ignores case. */
  predicate PassesFilters(a: Animal, options: FilterOptions) {
    (options.category.Some? ==> a.category == options.category.value)
    && (options.conservationStatus.Some? ==> a.conservationStatus == options.conservationStatus.value)
    && (IsSet(options.continent) ==> Lower(a.location.continent) == Lower(options.continent.value))
  }

  /**
   * The body of the simulated fetch: successive filters over a copy of the catalogue, where a
   * search term, when set, replaces the result by a catalogue search that ignores the other
   * criteria.
   */
  method FetchAnimals(catalogue: seq<Animal>, options: FilterOptions) returns (result: seq<Animal>)
    ensures IsSet(options.searchTerm) ==> result == Catalogue.SearchAnimals(catalogue, options.searchTerm.value)
    ensures !IsSet(options.searchTerm) ==>
      (forall a :: a in result <==> a in catalogue && PassesFilters(a, options))
      && (forall a :: PassesFilters(a, options) ==> multiset(result)[a] == multiset(catalogue)[a])
      && IsSubsequence(result, catalogue)
    ensures (options.category.None? && options.conservationStatus.None? && !IsSet(options.continent)
             && !IsSet(options.searchTerm)) ==> result == catalogue
  {
    var filtered := catalogue;
    SubsequenceReflexive(catalogue);
    if options.category.Some? {
      var next := Catalogue.GetAnimalsByCategory(filtered, options.category.value);
      SubsequenceTransitive(next, filtered, catalogue);
      filtered := next;
    }
    if options.conservationStatus.Some? {
      var next := Catalogue.GetAnimalsByConservationStatus(filtered, options.conservationStatus.value);
      SubsequenceTransitive(next, filtered, catalogue);
      filtered := next;
    }
    if IsSet(options.continent) {
      var wanted := Lower(options.continent.value);
      var next := Filter(filtered, (a: Animal) => Lower(a.location.continent) == wanted);
      SubsequenceTransitive(next, filtered, catalogue);
      filtered := next;
    }
    if IsSet(options.searchTerm) {
      filtered := Catalogue.SearchAnimals(catalogue, options.searchTerm.value);
    }
    result := filtered;
  }

  /** What `useAnimal(id)` ends with: the record, the loading flag and the error. */
  datatype AnimalLookup = AnimalLookup(animal: Option<Animal>, loading: bool, error: Option<AppError>)

  /** The message of the error thrown when no record has the id. */
  function NotFoundMessage(id: string): string {
    "Animal avec l'ID " + id + " non trouvé"
  }

  /**
   * The settled state of `useAnimal(id)`. An empty id never starts the load, so the hook stays
   * loading with neither record nor error.
   */
  function UseAnimal(catalogue: seq<Animal>, id: string): (r: AnimalLookup)
    ensures id == "" ==> r.loading && r.animal.None? && r.error.None?
    ensures id != "" ==> !r.loading && (r.animal.Some? <==> r.error.None?)
    ensures id != "" && (exists a :: a in catalogue && a.id == id) ==>
      r.animal.Some? && r.animal.value in catalogue && r.animal.value.id == id
    ensures id != "" && r.animal.Some? ==>
      exists i :: 0 <= i < |catalogue| && catalogue[i] == r.animal.value && Catalogue.FirstWithId(catalogue, id, i)
    ensures id != "" && (forall a :: a in catalogue ==> a.id != id) ==>
      r.error == Some(AppError("ANIMAL_NOT_FOUND", NotFoundMessage(id)))
  {
    if id == "" then AnimalLookup(None, true, None)
    else
      match Catalogue.GetAnimalById(catalogue, id)
      case Some(a) => AnimalLookup(Some(a), false, None)
      case None => AnimalLookup(None, false, Some(AppError("ANIMAL_NOT_FOUND", NotFoundMessage(id))))
  }

  /** Another record that shares the category, the continent or the conservation status. */
  predicate IsSimilar(a: Animal, current: Animal) {
    a.id != current.id
    && (a.category == current.category
        || a.location.continent == current.location.continent
        || a.conservationStatus == current.conservationStatus)
  }

  /** Every similar record, in catalogue order. */
  function AllSimilar(catalogue: seq<Animal>, current: Animal): seq<Animal> {
    Filter(catalogue, (a: Animal) => IsSimilar(a, current))
  }

  /**
   * `useSimilarAnimals(current, limit)`: the similar records cut by `slice(0, limit)`. The
   * result is a prefix of the full list of similar records; a negative limit drops that many
   * records from its end, as `slice` does.
   */
  function UseSimilarAnimals(catalogue: seq<Animal>, current: Option<Animal>, limit: int): (r: seq<Animal>)
    ensures current.None? ==> r == []
    ensures current.Some? ==> forall a :: a in r ==> a in catalogue && IsSimilar(a, current.value)
    ensures current.Some? ==> r <= AllSimilar(catalogue, current.value)
    ensures current.Some? && 0 <= limit ==>
      |r| == if limit < |AllSimilar(catalogue, current.value)| then limit else |AllSimilar(catalogue, current.value)|
    ensures current.Some? && limit < 0 ==>
      |r| == if |AllSimilar(catalogue, current.value)| + limit > 0 then |AllSimilar(catalogue, current.value)| + limit else 0
  {
    match current
    case None => []
    case Some(c) =>
      var all := AllSimilar(catalogue, c);
      all[..SliceEnd(|all|, limit)]
  }

  /** The `limit` a caller gets by leaving it out. */
  const DefaultSimilarLimit := 3

  /** `useSimilarAnimals(currentAnimal)` with the default limit: at most three similar records. */
  function UseSimilarAnimalsDefault(catalogue: seq<Animal>, current: Option<Animal>): (r: seq<Animal>)
    ensures |r| <= 3
    ensures current.None? ==> r == []
    ensures current.Some? ==> r <= AllSimilar(catalogue, current.value)
    ensures current.Some? ==>
      |r| == if |AllSimilar(catalogue, current.value)| < 3 then |AllSimilar(catalogue, current.value)| else 3
  {
    UseSimilarAnimals(catalogue, current, DefaultSimilarLimit)
  }

  /** One of the three `reduce` loops of `useAnimalStats`, with its mutated accumulator. */
  method Tally(animals: seq<Animal>, g: Grouping) returns (acc: map<string, nat>)
    ensures acc == CountBy(animals, g)
  {
    acc := map[];
    var i := 0;
    while i < |animals|
      invariant 0 <= i <= |animals|
      invariant acc == CountBy(animals[..i], g)
    {
      var key := GroupKey(animals[i], g);
      acc := Bump(acc, key);
      CountByExtend(animals, i, g);
      i := i + 1;
    }
    assert animals[..|animals|] == animals;
  }

  /** `useAnimalStats()`: the total and the three count maps of the catalogue. */
  method UseAnimalStats(catalogue: seq<Animal>) returns (stats: AnimalStats)
    ensures stats.totalAnimals == |catalogue|
    ensures forall k :: CountOf(stats.categoriesCount, k) == multiset(KeysOf(catalogue, ByCategory))[k]
    ensures forall k :: CountOf(stats.conservationStats, k) == multiset(KeysOf(catalogue, ByConservation))[k]
    ensures forall k :: CountOf(stats.continentStats, k) == multiset(KeysOf(catalogue, ByContinent))[k]
    ensures forall k :: k in stats.categoriesCount ==> stats.categoriesCount[k] > 0
    ensures forall k :: k in stats.conservationStats ==> stats.conservationStats[k] > 0
    ensures forall k :: k in stats.continentStats ==> stats.continentStats[k] > 0
    ensures Total(stats.categoriesCount) == |catalogue|
    ensures Total(stats.conservationStats) == |catalogue|
    ensures Total(stats.continentStats) == |catalogue|
  {
    var totalAnimals := |catalogue|;
    var categoriesCount := Tally(catalogue, ByCategory);
    var conservationStats := Tally(catalogue, ByConservation);
    var continentStats := Tally(catalogue, ByContinent);
    stats := AnimalStats(totalAnimals, categoriesCount, conservationStats, continentStats);
  }
}
