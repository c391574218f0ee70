/**
 * SearchFragment and SearchFilters: the animal search screen. The visible list is
 * all animals, in order, that match the trimmed query (case-insensitive substring of
 * the name or the description) and the "with photo only" filter.
 */
module Search {
  import opened Wrappers
  import opened Text
  import opened Filtering

  const SpeciesAny: string := "any"
  const GenderAny: string := "any"
  const DefaultMinAgeYears: int := 0
  const DefaultMaxAgeYears: int := 20

  /** `Animal`, with the fields the search reads; null fields are `None`. */
  datatype Animal = Animal(
    id: string, name: Option<string>, description: Option<string>, imageUrl: Option<string>)

  /** `SearchFilters`: public mutable fields and a field-by-field `copy`. */
  class SearchFilters {
    var species: string
    var gender: string
    var minAgeYears: int
    var maxAgeYears: int
    var withPhotoOnly: bool
    var favoritesOnly: bool

    /** The field initialisers: any species, any gender, ages 0..20, both flags off. */
    constructor ()
      ensures species == SpeciesAny && gender == GenderAny
      ensures minAgeYears == DefaultMinAgeYears && maxAgeYears == DefaultMaxAgeYears
      ensures !withPhotoOnly && !favoritesOnly
    {
      species := SpeciesAny;
      gender := GenderAny;
      minAgeYears := DefaultMinAgeYears;
      maxAgeYears := DefaultMaxAgeYears;
      withPhotoOnly := false;
      favoritesOnly := false;
    }

    /** All six fields equal those of `other`. */
    predicate SameAs(other: SearchFilters)
      reads this, other
    {
      species == other.species && gender == other.gender &&
      minAgeYears == other.minAgeYears && maxAgeYears == other.maxAgeYears &&
      withPhotoOnly == other.withPhotoOnly && favoritesOnly == other.favoritesOnly
    }

    /** `copy`: a new object with equal fields; the original is not touched. */
    method Copy() returns (f: SearchFilters)
      ensures fresh(f) && f.SameAs(this)
    {
      f := new SearchFilters();
      f.species := species;
      f.gender := gender;
      f.minAgeYears := minAgeYears;
      f.maxAgeYears := maxAgeYears;
      f.withPhotoOnly := withPhotoOnly;
      f.favoritesOnly := favoritesOnly;
    }
  }

  /** Equal fields are an equivalence: a copy of a copy has the fields of the original. */
  lemma SameAsTransitive(a: SearchFilters, b: SearchFilters, c: SearchFilters)
    requires b.SameAs(a) && c.SameAs(b)
    ensures c.SameAs(a) && a.SameAs(c)
  {
  }

  /**
   * `matchesQuery`, given the already lowercased query: the empty query matches,
   * otherwise the lowercased name or description must contain it.
   */
  predicate MatchesQuery(animal: Animal, queryLower: string)
  {
    queryLower == [] ||
    Contains(ToLower(animal.name.GetOr([])), queryLower) ||
    Contains(ToLower(animal.description.GetOr([])), queryLower)
  }

  /** `matchesFilters`: only "with photo only" is checked; species, gender, age and favourites are not. */
  predicate MatchesFilters(animal: Animal, withPhotoOnly: bool)
  {
    !withPhotoOnly || (animal.imageUrl.Some? && !IsBlank(animal.imageUrl.value))
  }

  /** Both tests with the query and the photo flag fixed, as the element test of `Filter`. */
  function ShownFn(queryLower: string, withPhotoOnly: bool): Animal -> bool
  {
    (a: Animal) => MatchesQuery(a, queryLower) && MatchesFilters(a, withPhotoOnly)
  }

  /** The animals that pass both tests, in their original order, each as often as in the list. */
  function Selected(animals: seq<Animal>, queryLower: string, withPhotoOnly: bool): (r: seq<Animal>)
    ensures forall a :: a in r <==> a in animals && MatchesQuery(a, queryLower) && MatchesFilters(a, withPhotoOnly)
    ensures forall a :: multiset(r)[a] == if ShownFn(queryLower, withPhotoOnly)(a) then multiset(animals)[a] else 0
  {
    FilterCounts(animals, ShownFn(queryLower, withPhotoOnly));
    Filter(animals, ShownFn(queryLower, withPhotoOnly))
  }

  /** With an empty query and the photo filter off, every animal is shown, in order. */
  lemma EmptyQueryShowsAll(animals: seq<Animal>)
    ensures Selected(animals, [], false) == animals
  {
    FilterKeepsAll(animals, ShownFn([], false));
  }

  /** Typing more characters can only remove results. */
  lemma LongerQueryNarrows(animals: seq<Animal>, query: string, more: string, withPhotoOnly: bool)
    ensures forall a :: a in Selected(animals, ToLower(query + more), withPhotoOnly) ==>
                        a in Selected(animals, ToLower(query), withPhotoOnly)
  {
    ToLowerAppend(query, more);
    forall a | a in Selected(animals, ToLower(query + more), withPhotoOnly)
      ensures MatchesQuery(a, ToLower(query))
    {
      if ToLower(query) != [] {
        if Contains(ToLower(a.name.GetOr([])), ToLower(query) + ToLower(more)) {
          ContainsPrefixOfFound(ToLower(a.name.GetOr([])), ToLower(query), ToLower(more));
        } else {
          ContainsPrefixOfFound(ToLower(a.description.GetOr([])), ToLower(query), ToLower(more));
        }
      }
    }
  }

  /** A query found verbatim in the name matches whatever the case of either. */
  lemma VerbatimNameMatches(animal: Animal, query: string)
    requires animal.name.Some? && Contains(animal.name.value, query)
    ensures MatchesQuery(animal, ToLower(query))
  {
    ContainsToLower(animal.name.value, query);
  }

  class SearchFragment {
    var allAnimals: seq<Animal>
    var filteredAnimals: seq<Animal>
    var currentFilters: SearchFilters
    var currentQuery: string
    /** Visibility of the results list and of the empty-state view. */
    var resultsVisible: bool
    var emptyStateVisible: bool

    /** A fresh screen over `animals`: default filters, empty query, nothing filtered yet. */
    constructor (animals: seq<Animal>)
      ensures allAnimals == animals && filteredAnimals == [] && currentQuery == []
      ensures fresh(currentFilters)
      ensures currentFilters.species == SpeciesAny && currentFilters.gender == GenderAny
      ensures !currentFilters.withPhotoOnly && !currentFilters.favoritesOnly
    {
      allAnimals := animals;
      filteredAnimals := [];
      currentFilters := new SearchFilters();
      currentQuery := [];
      resultsVisible := true;
      emptyStateVisible := false;
    }

    /** `applyFiltersAndQuery` followed by `updateEmptyState`. */
    method ApplyFiltersAndQuery()
      modifies this`filteredAnimals, this`resultsVisible, this`emptyStateVisible
      ensures filteredAnimals == Selected(allAnimals, ToLower(currentQuery), currentFilters.withPhotoOnly)
      ensures emptyStateVisible <==> filteredAnimals == []
      ensures resultsVisible <==> !emptyStateVisible
    {
      filteredAnimals := SelectAnimals(allAnimals, ToLower(currentQuery), currentFilters.withPhotoOnly);
      UpdateEmptyState();
    }

    /** The loop of `applyFiltersAndQuery`: an animal is skipped when it fails the query or the filters. */
    static method SelectAnimals(animals: seq<Animal>, queryLower: string, withPhotoOnly: bool)
      returns (selected: seq<Animal>)
      ensures selected == Selected(animals, queryLower, withPhotoOnly)
    {
      selected := [];
      ghost var keep := ShownFn(queryLower, withPhotoOnly);
      var i := 0;
      while i < |animals|
        invariant 0 <= i <= |animals|
        invariant selected == Filter(animals[..i], keep)
      {
        var animal := animals[i];
        FilterStep(animals, i, keep);
        assert keep(animal) == (MatchesQuery(animal, queryLower) && MatchesFilters(animal, withPhotoOnly));
        if !MatchesQuery(animal, queryLower) {
        } else if !MatchesFilters(animal, withPhotoOnly) {
        } else {
          selected := selected + [animal];
        }
        i := i + 1;
      }
      assert animals[..|animals|] == animals;
    }

    /** `updateEmptyState`: exactly one of the list and the empty-state view is visible. */
    method UpdateEmptyState()
      modifies this`resultsVisible, this`emptyStateVisible
      ensures emptyStateVisible <==> filteredAnimals == []
      ensures resultsVisible <==> !emptyStateVisible
    {
      if filteredAnimals == [] {
        resultsVisible := false;
        emptyStateVisible := true;
      } else {
        resultsVisible := true;
        emptyStateVisible := false;
      }
    }

    /** `afterTextChanged`: the query is kept trimmed (a null text is ""), then the list is recomputed. */
    method AfterTextChanged(text: Option<string>)
      modifies this`currentQuery, this`filteredAnimals, this`resultsVisible, this`emptyStateVisible
      ensures currentQuery == TrimOrEmpty(text) && IsTrimmed(currentQuery)
      ensures filteredAnimals == Selected(allAnimals, ToLower(currentQuery), currentFilters.withPhotoOnly)
      ensures emptyStateVisible <==> filteredAnimals == []
    {
      var query := TrimOrEmpty(text);
      assert IsTrimmed(query);
      currentQuery := query;
      ApplyFiltersAndQuery();
    }

    /** `onFiltersApplied`: the sheet's filters replace the current ones and the list is recomputed. */
    method OnFiltersApplied(filters: SearchFilters)
      modifies this`currentFilters, this`filteredAnimals, this`resultsVisible, this`emptyStateVisible
      ensures currentFilters == filters
      ensures filteredAnimals == Selected(allAnimals, ToLower(currentQuery), filters.withPhotoOnly)
      ensures emptyStateVisible <==> filteredAnimals == []
    {
      currentFilters := filters;
      ApplyFiltersAndQuery();
    }
  }
}
