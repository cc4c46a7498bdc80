/**
 * The catalogue queries of src/data/animals.ts, over an arbitrary catalogue `animals`
 * instead of the seven literal records.
 */
module Catalogue {
  import opened Wrappers
  import opened Types
  import opened Seqs
  import opened Text

  /** `animals.find(a => a.id === id)`: the first record with that id, if any. */
  function GetAnimalById(animals: seq<Animal>, id: string): (r: Option<Animal>)
    ensures r.None? <==> forall a :: a in animals ==> a.id != id
    ensures r.Some? ==> r.value.id == id && exists i :: 0 <= i < |animals| && animals[i] == r.value && FirstWithId(animals, id, i)
    decreases |animals|
  {
    if animals == [] then None
    else if animals[0].id == id then
      assert FirstWithId(animals, id, 0);
      Some(animals[0])
    else
      var r := GetAnimalById(animals[1..], id);
      if r.Some? then
        var i :| 0 <= i < |animals[1..]| && animals[1..][i] == r.value && FirstWithId(animals[1..], id, i);
        assert FirstWithId(animals, id, i + 1) by {
          forall j | 0 <= j < i + 1 ensures animals[j].id != id {
            if j > 0 { assert animals[j] == animals[1..][j - 1]; }
          }
        }
        r
      else
        assert animals == [animals[0]] + animals[1..];
        r
  }

  /** No record before position `i` has id `id`. */
  predicate FirstWithId(animals: seq<Animal>, id: string, i: int) {
    forall j :: 0 <= j < i && j < |animals| ==> animals[j].id != id
  }

  /** `animals.filter(a => a.category === category)`. */
  function GetAnimalsByCategory(animals: seq<Animal>, category: AnimalCategory): (r: seq<Animal>)
    ensures forall a :: a in r <==> a in animals && a.category == category
    ensures forall a: Animal :: a.category == category ==> multiset(r)[a] == multiset(animals)[a]
    ensures IsSubsequence(r, animals) && |r| <= |animals|
  {
    Filter(animals, (a: Animal) => a.category == category)
  }

  /** `animals.filter(a => a.conservation_status === status)`. */
  function GetAnimalsByConservationStatus(animals: seq<Animal>, status: ConservationStatus): (r: seq<Animal>)
    ensures forall a :: a in r <==> a in animals && a.conservationStatus == status
    ensures forall a: Animal :: a.conservationStatus == status ==> multiset(r)[a] == multiset(animals)[a]
    ensures IsSubsequence(r, animals) && |r| <= |animals|
  {
    Filter(animals, (a: Animal) => a.conservationStatus == status)
  }

  /**
   * The search criterion of the catalogue: the lower-cased term occurs in the lower-cased
   * name, title, topic, description or habitat.
   */
  predicate MatchesTerm(a: Animal, term: string) {
    var t := Lower(term);
    Includes(Lower(a.name), t) || Includes(Lower(a.title), t) || Includes(Lower(a.topic), t)
    || Includes(Lower(a.description), t) || Includes(Lower(a.habitat), t)
  }

  /** `searchAnimals(term)`: the records matching the term, in catalogue order. */
  function SearchAnimals(animals: seq<Animal>, term: string): (r: seq<Animal>)
    ensures forall a :: a in r <==> a in animals && MatchesTerm(a, term)
    ensures forall a :: MatchesTerm(a, term) ==> multiset(r)[a] == multiset(animals)[a]
    ensures IsSubsequence(r, animals) && |r| <= |animals|
  {
    Filter(animals, (a: Animal) => MatchesTerm(a, term))
  }

  /** Searching for the empty term returns the whole catalogue. */
  lemma SearchEmptyTerm(animals: seq<Animal>)
    ensures SearchAnimals(animals, "") == animals
  {
    forall a | a in animals ensures MatchesTerm(a, "") {
      IncludesEmpty(Lower(a.name));
    }
    FilterKeepsAll(animals, (a: Animal) => MatchesTerm(a, ""));
  }
}
