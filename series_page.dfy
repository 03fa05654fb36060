/**
 * The series page (`SeriesPage`): `loadSeries` keeps the `tv` items of a
 * `getTrending` page, the guarded `loadMore`, and the search, genre and
 * sort inputs. The `seasons` sort counts a missing season count as 0.
 */
module SeriesRoute {
  import opened Common
  import opened Catalog
  import opened KindPages

  const SeriesKind: string := "tv"

  const LoadError: string := "Failed to load series. Please try again."

  /** The cases of `switch (sortBy)`; any other value leaves the order. */
  function SeriesOrder(sortBy: string): Option<Order> {
    if sortBy == "rating" then Some(ByRating)
    else if sortBy == "year" then Some(ByYearText)
    else if sortBy == "title" then Some(ByTitle)
    else if sortBy == "seasons" then Some(BySeasons)
    else None
  }

  /** The React state of `SeriesPage` that the load and the handlers touch. */
  class SeriesPage {
    var series: seq<Film>
    var loading: bool
    var error: Option<string>
    var currentPage: int
    var hasMore: bool
    var searchQuery: string
    var selectedGenre: string
    var sortBy: string
    /** The `currentPage`, `searchQuery`, `selectedGenre` and `sortBy` the running `loadSeries` closure captured. */
    var loadPage: int
    var loadQuery: string
    var loadGenre: string
    var loadSortBy: string

    constructor()
      ensures series == [] && loading && error == None && currentPage == 1 && hasMore
      ensures searchQuery == "" && selectedGenre == "all" && sortBy == "rating"
      ensures loadPage == 1 && loadQuery == "" && loadGenre == "all" && loadSortBy == "rating"
    {
      series := [];
      loading := true;
      error := None;
      currentPage := 1;
      hasMore := true;
      searchQuery := "";
      selectedGenre := AllGenres;
      sortBy := "rating";
      loadPage := 1;
      loadQuery := "";
      loadGenre := AllGenres;
      loadSortBy := "rating";
    }

    /** `loadSeries` up to the `await`, run by the effect on the current state. */
    method BeginLoad()
      modifies this
      ensures loading && error == None
      ensures unchanged(this`series, this`hasMore, this`currentPage)
      ensures unchanged(this`searchQuery, this`selectedGenre, this`sortBy)
      ensures loadPage == currentPage && loadQuery == searchQuery
      ensures loadGenre == selectedGenre && loadSortBy == sortBy
    {
      loading := true;
      error := None;
      loadPage := currentPage;
      loadQuery := searchQuery;
      loadGenre := selectedGenre;
      loadSortBy := sortBy;
    }

    /**
     * `loadSeries` after `getTrending(loadPage)` settled: `Some(response)`
     * when it resolved, `None` when it rejected. The first page replaces
     * the list, any later page is appended to the current one. The closure
     * reads the values it captured, whatever the state holds by now.
     */
    method FinishLoad(response: Option<ApiResponse>)
      modifies this
      ensures response.Some? ==>
                var shown := KindList(response.value.items, SeriesKind, old(loadQuery),
                                      old(loadGenre), SeriesOrder(old(loadSortBy)));
                series == (if old(loadPage) == 1 then shown else old(series) + shown)
      ensures response.Some? ==>
                var shown := KindList(response.value.items, SeriesKind, old(loadQuery),
                                      old(loadGenre), SeriesOrder(old(loadSortBy)));
                hasMore == (|shown| > 0 && old(loadPage) < PageCap)
      ensures unchanged(this`currentPage, this`searchQuery, this`selectedGenre, this`sortBy)
      ensures unchanged(this`loadPage, this`loadQuery, this`loadGenre, this`loadSortBy)
      ensures !loading
      ensures response.None? ==> unchanged(this`series, this`hasMore) && error == Some(LoadError)
      ensures response.Some? ==> unchanged(this`error)
    {
      if response.None? {
        error := Some(LoadError);
        loading := false;
        return;
      }
      var finalSeries := FilterAndSortKind(response.value.items, SeriesKind, loadQuery,
                                           loadGenre, SeriesOrder(loadSortBy));
      hasMore := |finalSeries| > 0 && loadPage < PageCap;
      if loadPage == 1 {
        series := finalSeries;
      } else {
        series := series + finalSeries;
      }
      loading := false;
    }

    /** `loadMore`: the next page, only when no load is running and more may exist. */
    method LoadMore()
      modifies this
      ensures currentPage == if !old(loading) && old(hasMore) then old(currentPage) + 1 else old(currentPage)
      ensures unchanged(this`series, this`loading, this`error, this`hasMore)
      ensures unchanged(this`searchQuery, this`selectedGenre, this`sortBy)
      ensures unchanged(this`loadPage, this`loadQuery, this`loadGenre, this`loadSortBy)
    {
      if !loading && hasMore {
        currentPage := currentPage + 1;
      }
    }

    /** The search box; the page stays. */
    method SetSearchQuery(query: string)
      modifies this
      ensures searchQuery == query
      ensures unchanged(this`series, this`loading, this`error, this`hasMore, this`currentPage)
      ensures unchanged(this`selectedGenre, this`sortBy)
      ensures unchanged(this`loadPage, this`loadQuery, this`loadGenre, this`loadSortBy)
    {
      searchQuery := query;
    }

    /** The genre select; the page stays. */
    method SetSelectedGenre(genre: string)
      modifies this
      ensures selectedGenre == genre
      ensures unchanged(this`series, this`loading, this`error, this`hasMore, this`currentPage)
      ensures unchanged(this`searchQuery, this`sortBy)
      ensures unchanged(this`loadPage, this`loadQuery, this`loadGenre, this`loadSortBy)
    {
      selectedGenre := genre;
    }

    /** The sort select; the page stays. */
    method SetSortBy(value: string)
      modifies this
      ensures sortBy == value
      ensures unchanged(this`series, this`loading, this`error, this`hasMore, this`currentPage)
      ensures unchanged(this`searchQuery, this`selectedGenre)
      ensures unchanged(this`loadPage, this`loadQuery, this`loadGenre, this`loadSortBy)
    {
      sortBy := value;
    }
  }
}
