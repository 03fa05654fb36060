/**
 * The anime catalogue page (`AnimePage`): the `loadAnime` pipeline that
 * filters one page of `getAnime` items, sorts them and replaces or extends
 * the shown list, and the `loadMore`, `clearFilters` and input handlers.
 *
 * `loadAnime` runs in two steps around its `await`: `BeginLoad` is the
 * part before it, `FinishLoad` the part after, given how the promise
 * settled. The effect that re-runs the load when `filters` or
 * `currentPage` change is the caller's business.
 */
module AnimeRoute {
  import opened Common
  import opened Text
  import opened Sorting
  import opened Catalog

  const DefaultFilters: Filters := Filters("", "", "", "rating")

  const LoadError: string := "Failed to load anime. Please try again."

  /** `hasMore` turns false from this page on. */
  const PageCap: int := 10

  /** The cases of `switch (filters.sortBy)`; any other value leaves the order. */
  function AnimeOrder(sortBy: string): Option<Order> {
    if sortBy == "rating" then Some(ByRating)
    else if sortBy == "year" then Some(ByYearText)
    else if sortBy == "title" then Some(ByTitle)
    else if sortBy == "episodes" then Some(ByEpisodes)
    else None
  }

  /** The filter chain of `loadAnime`: anime items, then each non-empty criterion in turn. */
  function AnimeFilter(items: seq<Film>, f: Filters, query: string): seq<Film> {
    var byKind := Keep(items, AnimeLike);
    var byGenre := KeepIf(byKind, f.genre != "", GenreHas(f.genre));
    var byYear := KeepIf(byGenre, f.year != "", YearIs(f.year));
    var byRating := KeepIf(byYear, f.rating != "", RatingAtLeast(ParseFloat(f.rating)));
    KeepIf(byRating, query != "", TitleHas(query))
  }

  /** The list one load shows for one page: filtered, then sorted. */
  function AnimeList(items: seq<Film>, f: Filters, query: string): seq<Film> {
    SortIf(AnimeFilter(items, f, query), AnimeOrder(f.sortBy))
  }

  /** An item is shown exactly when it is anime and every non-empty criterion holds. */
  predicate PassesAnime(x: Film, f: Filters, query: string) {
    && Holds(AnimeLike, x)
    && (f.genre != "" ==> Holds(GenreHas(f.genre), x))
    && (f.year != "" ==> Holds(YearIs(f.year), x))
    && (f.rating != "" ==> Holds(RatingAtLeast(ParseFloat(f.rating)), x))
    && (query != "" ==> Holds(TitleHas(query), x))
  }

  lemma AnimeFilterMembers(items: seq<Film>, f: Filters, query: string)
    ensures forall x :: x in AnimeFilter(items, f, query) <==> x in items && PassesAnime(x, f, query)
  {
    var byKind := Keep(items, AnimeLike);
    var byGenre := KeepIf(byKind, f.genre != "", GenreHas(f.genre));
    var byYear := KeepIf(byGenre, f.year != "", YearIs(f.year));
    var byRating := KeepIf(byYear, f.rating != "", RatingAtLeast(ParseFloat(f.rating)));
    KeepFacts(items, AnimeLike);
    KeepIfFacts(byKind, f.genre != "", GenreHas(f.genre));
    KeepIfFacts(byGenre, f.year != "", YearIs(f.year));
    KeepIfFacts(byYear, f.rating != "", RatingAtLeast(ParseFloat(f.rating)));
    KeepIfFacts(byRating, query != "", TitleHas(query));
  }

  /** The filtered items keep their relative order from the page. */
  lemma AnimeFilterSubseq(items: seq<Film>, f: Filters, query: string)
    ensures IsSubseq(AnimeFilter(items, f, query), items)
  {
    var byKind := Keep(items, AnimeLike);
    var byGenre := KeepIf(byKind, f.genre != "", GenreHas(f.genre));
    var byYear := KeepIf(byGenre, f.year != "", YearIs(f.year));
    var byRating := KeepIf(byYear, f.rating != "", RatingAtLeast(ParseFloat(f.rating)));
    KeepFacts(items, AnimeLike);
    KeepIfFacts(byKind, f.genre != "", GenreHas(f.genre));
    KeepIfFacts(byGenre, f.year != "", YearIs(f.year));
    KeepIfFacts(byYear, f.rating != "", RatingAtLeast(ParseFloat(f.rating)));
    KeepIfFacts(byRating, query != "", TitleHas(query));
    SubseqTransitive(byGenre, byKind, items);
    SubseqTransitive(byYear, byGenre, items);
    SubseqTransitive(byRating, byYear, items);
    SubseqTransitive(AnimeFilter(items, f, query), byRating, items);
  }

  /** With every criterion empty only the anime test applies. */
  lemma AnimeFilterInactive(items: seq<Film>, sortBy: string)
    ensures AnimeFilter(items, Filters("", "", "", sortBy), "") == Keep(items, AnimeLike)
  {
  }

  /**
   * The shown list is a permutation of the filtered items, ordered by the
   * chosen key when `sortBy` names one and in page order otherwise.
   */
  lemma AnimeListOrdered(items: seq<Film>, f: Filters, query: string)
    ensures multiset(AnimeList(items, f, query)) == multiset(AnimeFilter(items, f, query))
    ensures forall x :: x in AnimeList(items, f, query) <==> x in items && PassesAnime(x, f, query)
    ensures AnimeOrder(f.sortBy).Some? ==>
              SortedBy(AnimeList(items, f, query), Comparator(AnimeOrder(f.sortBy).value))
    ensures AnimeOrder(f.sortBy).None? ==> AnimeList(items, f, query) == AnimeFilter(items, f, query)
  {
    AnimeFilterMembers(items, f, query);
    SortIfFacts(AnimeFilter(items, f, query), AnimeOrder(f.sortBy));
  }

  /** Items the chosen key ties keep their page order: `sort` is stable. */
  lemma AnimeListStable(items: seq<Film>, f: Filters, query: string, v: Film)
    requires AnimeOrder(f.sortBy).Some?
    ensures var lt := Comparator(AnimeOrder(f.sortBy).value);
            TiedWith(AnimeList(items, f, query), lt, v) == TiedWith(AnimeFilter(items, f, query), lt, v)
  {
    SortFilmsStable(AnimeFilter(items, f, query), AnimeOrder(f.sortBy).value, v);
  }

  /**
   * The body of `loadAnime` between the `await` and the state updates:
   * `filteredAnime` reassigned by each filter in turn, then sorted.
   */
  method FilterAndSortAnime(items: seq<Film>, filters: Filters, searchQuery: string)
    returns (filteredAnime: seq<Film>)
    ensures filteredAnime == AnimeList(items, filters, searchQuery)
  {
    filteredAnime := Keep(items, AnimeLike);
    if filters.genre != "" {
      filteredAnime := Keep(filteredAnime, GenreHas(filters.genre));
    }
    if filters.year != "" {
      filteredAnime := Keep(filteredAnime, YearIs(filters.year));
    }
    if filters.rating != "" {
      filteredAnime := Keep(filteredAnime, RatingAtLeast(ParseFloat(filters.rating)));
    }
    if searchQuery != "" {
      filteredAnime := Keep(filteredAnime, TitleHas(searchQuery));
    }
    if filters.sortBy == "rating" {
      filteredAnime := SortFilms(filteredAnime, ByRating);
    } else if filters.sortBy == "year" {
      filteredAnime := SortFilms(filteredAnime, ByYearText);
    } else if filters.sortBy == "title" {
      filteredAnime := SortFilms(filteredAnime, ByTitle);
    } else if filters.sortBy == "episodes" {
      filteredAnime := SortFilms(filteredAnime, ByEpisodes);
    }
  }

  /** The React state of `AnimePage` that the load and the handlers touch. */
  class AnimePage {
    var anime: seq<Film>
    var loading: bool
    var error: Option<string>
    var searchQuery: string
    var filters: Filters
    var currentPage: int
    var hasMore: bool
    /** The `filters`, `searchQuery` and `currentPage` the running `loadAnime` closure captured. */
    var loadFilters: Filters
    var loadQuery: string
    var loadPage: int

    constructor()
      ensures anime == [] && loading && error == None && searchQuery == ""
      ensures filters == DefaultFilters && currentPage == 1 && hasMore
      ensures loadFilters == DefaultFilters && loadQuery == "" && loadPage == 1
    {
      anime := [];
      loading := true;
      error := None;
      searchQuery := "";
      filters := DefaultFilters;
      currentPage := 1;
      hasMore := true;
      loadFilters := DefaultFilters;
      loadQuery := "";
      loadPage := 1;
    }

    /** `loadAnime` up to the `await`, run by the effect on the current state. */
    method BeginLoad()
      modifies this
      ensures loading && error == None
      ensures anime == old(anime) && hasMore == old(hasMore)
      ensures searchQuery == old(searchQuery) && filters == old(filters) && currentPage == old(currentPage)
      ensures loadFilters == filters && loadQuery == searchQuery && loadPage == currentPage
    {
      loading := true;
      error := None;
      loadFilters := filters;
      loadQuery := searchQuery;
      loadPage := currentPage;
    }

    /**
     * `loadAnime` after `getAnime(loadPage)` settled: `Some(response)`
     * when it resolved, `None` when it rejected. The closure reads the
     * values it captured, whatever the state holds by now; `setAnime(prev
     * => ...)` appends to the current list.
     */
    method FinishLoad(response: Option<ApiResponse>)
      modifies this
      ensures !loading
      ensures searchQuery == old(searchQuery) && filters == old(filters) && currentPage == old(currentPage)
      ensures unchanged(this`loadFilters, this`loadQuery, this`loadPage)
      ensures response.None? ==> anime == old(anime) && hasMore == old(hasMore) && error == Some(LoadError)
      ensures response.Some? ==>
                var shown := AnimeList(response.value.items, old(loadFilters), old(loadQuery));
                && hasMore == (|response.value.items| > 0 && old(loadPage) < PageCap)
                && anime == (if old(loadPage) == 1 then shown else old(anime) + shown)
                && error == old(error)
      ensures response.Some? && old(loadPage) != 1 ==>
                |anime| == |old(anime)| + |AnimeList(response.value.items, old(loadFilters), old(loadQuery))|
    {
      if response.None? {
        error := Some(LoadError);
        loading := false;
        return;
      }
      var animeData := response.value;
      var filteredAnime := FilterAndSortAnime(animeData.items, loadFilters, loadQuery);
      hasMore := |animeData.items| > 0 && loadPage < PageCap;
      if loadPage == 1 {
        anime := filteredAnime;
      } else {
        anime := anime + filteredAnime;
      }
      loading := false;
    }

    /** `loadMore`: the next page, whatever the state. */
    method LoadMore()
      modifies this
      ensures currentPage == old(currentPage) + 1
      ensures anime == old(anime) && loading == old(loading) && error == old(error) && hasMore == old(hasMore)
      ensures searchQuery == old(searchQuery) && filters == old(filters)
      ensures unchanged(this`loadFilters, this`loadQuery, this`loadPage)
    {
      currentPage := currentPage + 1;
    }

    /** `clearFilters`: the initial filters and the first page. */
    method ClearFilters()
      modifies this
      ensures filters == Filters("", "", "", "rating") && currentPage == 1
      ensures anime == old(anime) && loading == old(loading) && error == old(error) && hasMore == old(hasMore)
      ensures searchQuery == old(searchQuery)
      ensures unchanged(this`loadFilters, this`loadQuery, this`loadPage)
    {
      filters := DefaultFilters;
      currentPage := 1;
    }

    /** A select box or a filter chip sets one filter field; the page stays. */
    method SetFilter(key: FilterKey, value: string)
      modifies this
      ensures Field(filters, key) == value
      ensures forall k :: k != key ==> Field(filters, k) == Field(old(filters), k)
      ensures anime == old(anime) && loading == old(loading) && error == old(error) && hasMore == old(hasMore)
      ensures searchQuery == old(searchQuery) && currentPage == old(currentPage)
      ensures unchanged(this`loadFilters, this`loadQuery, this`loadPage)
    {
      filters := WithFilter(filters, key, value);
    }

    /** Typing in the search box sets the query; no reload depends on it. */
    method SetSearchQuery(query: string)
      modifies this
      ensures searchQuery == query
      ensures anime == old(anime) && loading == old(loading) && error == old(error) && hasMore == old(hasMore)
      ensures filters == old(filters) && currentPage == old(currentPage)
      ensures unchanged(this`loadFilters, this`loadQuery, this`loadPage)
    {
      searchQuery := query;
    }
  }

  /**
   * Typing in the search box while the first load is in flight does not
   * change what that load shows: it filters by the query it captured.
   */
  method SearchWhileLoading(response: ApiResponse, query: string) returns (shown: seq<Film>)
    ensures shown == AnimeList(response.items, DefaultFilters, "")
  {
    var page := new AnimePage();
    page.BeginLoad();
    page.SetSearchQuery(query);
    page.FinishLoad(Some(response));
    shown := page.anime;
  }
}
