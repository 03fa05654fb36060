/**
 * The movies catalogue page (`MoviesPage`): the `loadMovies` pipeline over
 * `getIndonesianMovies` with its `all` sentinels, the `older` year bucket
 * and the `N+` rating options, and the filter, search and paging handlers.
 * Unlike the other pages it sorts before the search filter, always
 * replaces the shown list and copies `hasMore` from the response.
 */
module MoviesRoute {
  import opened Common
  import opened Text
  import opened Sorting
  import opened Catalog

  /** The value of a select box that applies no filter. */
  const AllValue: string := "all"

  /** The year option that selects the years before `OlderBound`. */
  const OlderValue: string := "older"

  const OlderBound: int := 2020

  const DefaultFilters: Filters := Filters("all", "all", "all", "trending")

  const LoadError: string := "Failed to load movies. Please try again."

  /** The cases of `switch (filters.sortBy)`; `trending` and any other value leave the order. */
  function MoviesOrder(sortBy: string): Option<Order> {
    if sortBy == "rating" then Some(ByRating)
    else if sortBy == "newest" then Some(ByYearNewest)
    else if sortBy == "oldest" then Some(ByYearOldest)
    else if sortBy == "title" then Some(ByTitle)
    else None
  }

  /** The year filter: the `older` bucket, or the exact year string. */
  function YearCriterion(year: string): Criterion {
    if year == OlderValue then YearBefore(OlderBound) else YearIs(year)
  }

  /** `parseFloat(rating.replace('+', ''))`; `None` is `NaN`. */
  function MinRating(rating: string): Option<real> {
    ParseFloat(RemoveFirst(rating, '+'))
  }

  /** Genre, year and rating filters, each skipped for `all`. */
  function MoviesFilter(items: seq<Film>, f: Filters): seq<Film> {
    var byGenre := KeepIf(items, f.genre != AllValue, GenreHas(f.genre));
    var byYear := KeepIf(byGenre, f.year != AllValue, YearCriterion(f.year));
    KeepIf(byYear, f.rating != AllValue, RatingAtLeast(MinRating(f.rating)))
  }

  /** The list one load shows: filtered, sorted, then searched. */
  function MoviesList(items: seq<Film>, f: Filters, query: string): seq<Film> {
    KeepIf(SortIf(MoviesFilter(items, f), MoviesOrder(f.sortBy)), query != "", TitleHas(query))
  }

  /** An item is shown exactly when every filter that is not `all`, and a non-empty search, holds. */
  predicate PassesMovies(x: Film, f: Filters, query: string) {
    && (f.genre != AllValue ==> Holds(GenreHas(f.genre), x))
    && (f.year != AllValue ==> Holds(YearCriterion(f.year), x))
    && (f.rating != AllValue ==> Holds(RatingAtLeast(MinRating(f.rating)), x))
    && (query != "" ==> Holds(TitleHas(query), x))
  }

  lemma MoviesFilterFacts(items: seq<Film>, f: Filters)
    ensures forall x :: x in MoviesFilter(items, f) <==> x in items && PassesMovies(x, f, "")
    ensures IsSubseq(MoviesFilter(items, f), items)
  {
    var byGenre := KeepIf(items, f.genre != AllValue, GenreHas(f.genre));
    var byYear := KeepIf(byGenre, f.year != AllValue, YearCriterion(f.year));
    KeepIfFacts(items, f.genre != AllValue, GenreHas(f.genre));
    KeepIfFacts(byGenre, f.year != AllValue, YearCriterion(f.year));
    KeepIfFacts(byYear, f.rating != AllValue, RatingAtLeast(MinRating(f.rating)));
    SubseqTransitive(byYear, byGenre, items);
    SubseqTransitive(MoviesFilter(items, f), byYear, items);
  }

  /** `all` in genre, year and rating leaves the page as it came. */
  lemma MoviesFilterAll(items: seq<Film>, sortBy: string)
    ensures MoviesFilter(items, Filters(AllValue, AllValue, AllValue, sortBy)) == items
  {
  }

  /** An `older` item is one whose year parses to a number below 2020; any other year is matched as text. */
  lemma YearCriterionMeaning(year: string, x: Film)
    ensures year == OlderValue ==>
              (Holds(YearCriterion(year), x) <==> ParseInt(x.year).Some? && ParseInt(x.year).value < 2020)
    ensures year != OlderValue ==> (Holds(YearCriterion(year), x) <==> x.year == year)
  {
  }

  /** The option `N+` keeps exactly the items rated at least `N`. */
  lemma RatingOptionMeaning(n: nat, x: Film)
    ensures Holds(RatingAtLeast(MinRating(NatToString(n) + "+")), x) <==> x.rating >= n as real
  {
    var d := NatToString(n);
    assert '+' !in d by {
      forall i | 0 <= i < |d|
        ensures d[i] != '+'
      {
        assert IsDigit(d[i]);
      }
    }
    assert (d + "+")[|d|] == '+';
    assert (d + "+")[..|d|] == d;
    assert RemoveFirst(d + "+", '+') == d;
    ParseFloatOfNat(n);
  }

  /**
   * The shown list is the filtered page in the chosen order with the
   * search applied afterwards: its items are exactly those that pass, it
   * is a subsequence of the sorted list and so keeps its order.
   */
  lemma MoviesListOrdered(items: seq<Film>, f: Filters, query: string)
    ensures forall x :: x in MoviesList(items, f, query) <==> x in items && PassesMovies(x, f, query)
    ensures IsSubseq(MoviesList(items, f, query), SortIf(MoviesFilter(items, f), MoviesOrder(f.sortBy)))
    ensures MoviesOrder(f.sortBy).Some? ==>
              SortedBy(MoviesList(items, f, query), Comparator(MoviesOrder(f.sortBy).value))
    ensures MoviesOrder(f.sortBy).None? && query == "" ==> MoviesList(items, f, query) == MoviesFilter(items, f)
  {
    var sorted := SortIf(MoviesFilter(items, f), MoviesOrder(f.sortBy));
    MoviesFilterFacts(items, f);
    SortIfFacts(MoviesFilter(items, f), MoviesOrder(f.sortBy));
    KeepIfFacts(sorted, query != "", TitleHas(query));
    if MoviesOrder(f.sortBy).Some? {
      SubseqSorted(MoviesList(items, f, query), sorted, Comparator(MoviesOrder(f.sortBy).value));
    }
  }

  /**
   * With the year sorts, items of equal year keep their page order once
   * every year on the page parses as a number.
   */
  lemma MoviesSortStable(items: seq<Film>, f: Filters, v: Film)
    requires MoviesOrder(f.sortBy).Some?
    requires Consistent(MoviesOrder(f.sortBy).value, MoviesFilter(items, f) + [v])
    ensures var lt := Comparator(MoviesOrder(f.sortBy).value);
            TiedWith(SortIf(MoviesFilter(items, f), MoviesOrder(f.sortBy)), lt, v)
            == TiedWith(MoviesFilter(items, f), lt, v)
  {
    SortFilmsStable(MoviesFilter(items, f), MoviesOrder(f.sortBy).value, v);
  }

  /**
   * The body of `loadMovies` between the `await` and the state updates:
   * `filteredMovies` reassigned by each filter, sorted, then searched.
   */
  method FilterAndSortMovies(items: seq<Film>, filters: Filters, searchQuery: string)
    returns (filteredMovies: seq<Film>)
    ensures filteredMovies == MoviesList(items, filters, searchQuery)
  {
    filteredMovies := items;
    if filters.genre != AllValue {
      filteredMovies := Keep(filteredMovies, GenreHas(filters.genre));
    }
    if filters.year != AllValue {
      if filters.year == OlderValue {
        filteredMovies := Keep(filteredMovies, YearBefore(OlderBound));
      } else {
        filteredMovies := Keep(filteredMovies, YearIs(filters.year));
      }
    }
    if filters.rating != AllValue {
      var minRating := ParseFloat(RemoveFirst(filters.rating, '+'));
      filteredMovies := Keep(filteredMovies, RatingAtLeast(minRating));
    }
    if filters.sortBy == "rating" {
      filteredMovies := SortFilms(filteredMovies, ByRating);
    } else if filters.sortBy == "newest" {
      filteredMovies := SortFilms(filteredMovies, ByYearNewest);
    } else if filters.sortBy == "oldest" {
      filteredMovies := SortFilms(filteredMovies, ByYearOldest);
    } else if filters.sortBy == "title" {
      filteredMovies := SortFilms(filteredMovies, ByTitle);
    }
    if searchQuery != "" {
      filteredMovies := Keep(filteredMovies, TitleHas(searchQuery));
    }
  }

  /** The React state of `MoviesPage` that the load and the handlers touch. */
  class MoviesPage {
    var movies: seq<Film>
    var loading: bool
    var error: Option<string>
    var searchQuery: string
    var currentPage: int
    var hasMore: bool
    var filters: Filters
    /** The `filters` and `searchQuery` the running `loadMovies` closure captured. */
    var loadFilters: Filters
    var loadQuery: string

    constructor()
      ensures movies == [] && loading && error == None && searchQuery == ""
      ensures currentPage == 1 && hasMore && filters == DefaultFilters
      ensures loadFilters == DefaultFilters && loadQuery == ""
    {
      movies := [];
      loading := true;
      error := None;
      searchQuery := "";
      currentPage := 1;
      hasMore := true;
      filters := DefaultFilters;
      loadFilters := DefaultFilters;
      loadQuery := "";
    }

    /** `loadMovies` up to the `await`, run by the effect on the current state. */
    method BeginLoad()
      modifies this
      ensures loading && error == None
      ensures movies == old(movies) && hasMore == old(hasMore)
      ensures searchQuery == old(searchQuery) && filters == old(filters) && currentPage == old(currentPage)
      ensures loadFilters == filters && loadQuery == searchQuery
    {
      loading := true;
      error := None;
      loadFilters := filters;
      loadQuery := searchQuery;
    }

    /**
     * `loadMovies` after `getIndonesianMovies(currentPage)` settled:
     * `Some(response)` when it resolved, `None` when it rejected. The
     * closure reads the values it captured, whatever the state holds by now.
     */
    method FinishLoad(response: Option<ApiResponse>)
      modifies this
      ensures response.Some? ==> movies == MoviesList(response.value.items, old(loadFilters), old(loadQuery))
      ensures unchanged(this`searchQuery, this`filters, this`currentPage)
      ensures unchanged(this`loadFilters, this`loadQuery)
      ensures !loading
      ensures response.None? ==> unchanged(this`movies, this`hasMore) && error == Some(LoadError)
      ensures response.Some? ==> hasMore == response.value.hasMore && unchanged(this`error)
    {
      if response.None? {
        error := Some(LoadError);
        loading := false;
        return;
      }
      var filteredMovies := FilterAndSortMovies(response.value.items, loadFilters, loadQuery);
      movies := filteredMovies;
      hasMore := response.value.hasMore;
      loading := false;
    }

    /** `handleFilterChange(key, value)`: one filter field, and back to the first page. */
    method HandleFilterChange(key: FilterKey, value: string)
      modifies this
      ensures Field(filters, key) == value
      ensures forall k :: k != key ==> Field(filters, k) == Field(old(filters), k)
      ensures currentPage == 1
      ensures movies == old(movies) && loading == old(loading) && error == old(error) && hasMore == old(hasMore)
      ensures searchQuery == old(searchQuery)
      ensures unchanged(this`loadFilters, this`loadQuery)
    {
      filters := WithFilter(filters, key, value);
      currentPage := 1;
    }

    /** `handleSearch(query)`, also bound to the clear button with `''`. */
    method HandleSearch(query: string)
      modifies this
      ensures searchQuery == query && currentPage == 1
      ensures movies == old(movies) && loading == old(loading) && error == old(error) && hasMore == old(hasMore)
      ensures filters == old(filters)
      ensures unchanged(this`loadFilters, this`loadQuery)
    {
      searchQuery := query;
      currentPage := 1;
    }

    /** `loadMore`: the next page, whatever the state. */
    method LoadMore()
      modifies this
      ensures currentPage == old(currentPage) + 1
      ensures movies == old(movies) && loading == old(loading) && error == old(error) && hasMore == old(hasMore)
      ensures searchQuery == old(searchQuery) && filters == old(filters)
      ensures unchanged(this`loadFilters, this`loadQuery)
    {
      currentPage := currentPage + 1;
    }

    /** The "Clear Filters" button of the empty view: default filters and no query; the page stays. */
    method ClearFilters()
      modifies this
      ensures filters == Filters("all", "all", "all", "trending") && searchQuery == ""
      ensures movies == old(movies) && loading == old(loading) && error == old(error) && hasMore == old(hasMore)
      ensures currentPage == old(currentPage)
      ensures unchanged(this`loadFilters, this`loadQuery)
    {
      filters := DefaultFilters;
      searchQuery := "";
    }
  }

  /**
   * A search typed on the first page while that page's load is in flight
   * does not change what the load shows: it filters by the query it captured.
   */
  method SearchWhileLoading(response: ApiResponse, query: string) returns (shown: seq<Film>)
    ensures shown == MoviesList(response.items, DefaultFilters, "")
  {
    var page := new MoviesPage();
    page.BeginLoad();
    page.HandleSearch(query);
    page.FinishLoad(Some(response));
    shown := page.movies;
  }
}
