/**
 * The movie page (`MoviePage`): `loadMovies` keeps the `movie` items of a
 * `getTrending` page, the guarded `loadMore`, and the search, genre and
 * sort inputs. `duration` is offered as a sort but leaves the order.
 */
module MovieRoute {
  import opened Common
  import opened Catalog
  import opened KindPages

  const MovieKind: string := "movie"

  const LoadError: string := "Failed to load movies. Please try again."

  /** The cases of `switch (sortBy)`; `duration` and any other value leave the order. */
  function MovieOrder(sortBy: string): Option<Order> {
    if sortBy == "rating" then Some(ByRating)
    else if sortBy == "year" then Some(ByYearText)
    else if sortBy == "title" then Some(ByTitle)
    else None
  }

  /** The React state of `MoviePage` that the load and the handlers touch. */
  class MoviePage {
    var movies: seq<Film>
    var loading: bool
    var error: Option<string>
    var currentPage: int
    var hasMore: bool
    var searchQuery: string
    var selectedGenre: string
    var sortBy: string
    /** The `currentPage`, `searchQuery`, `selectedGenre` and `sortBy` the running `loadMovies` closure captured. */
    var loadPage: int
    var loadQuery: string
    var loadGenre: string
    var loadSortBy: string

    constructor()
      ensures movies == [] && loading && error == None && currentPage == 1 && hasMore
      ensures searchQuery == "" && selectedGenre == "all" && sortBy == "rating"
      ensures loadPage == 1 && loadQuery == "" && loadGenre == "all" && loadSortBy == "rating"
    {
      movies := [];
      loading := true;
      error := None;
      currentPage := 1;
      hasMore := true;
      searchQuery := "";
      selectedGenre := AllGenres;
      sortBy := "rating";
      loadPage := 1;
      loadQuery := "";
      loadGenre := AllGenres;
      loadSortBy := "rating";
    }

    /** `loadMovies` up to the `await`, run by the effect on the current state. */
    method BeginLoad()
      modifies this
      ensures loading && error == None
      ensures unchanged(this`movies, this`hasMore, this`currentPage)
      ensures unchanged(this`searchQuery, this`selectedGenre, this`sortBy)
      ensures loadPage == currentPage && loadQuery == searchQuery
      ensures loadGenre == selectedGenre && loadSortBy == sortBy
    {
      loading := true;
      error := None;
      loadPage := currentPage;
      loadQuery := searchQuery;
      loadGenre := selectedGenre;
      loadSortBy := sortBy;
    }

    /**
     * `loadMovies` after `getTrending(loadPage)` settled: `Some(response)`
     * when it resolved, `None` when it rejected. The first page replaces
     * the list, any later page is appended to the current one. The closure
     * reads the values it captured, whatever the state holds by now.
     */
    method FinishLoad(response: Option<ApiResponse>)
      modifies this
      ensures response.Some? ==>
                var shown := KindList(response.value.items, MovieKind, old(loadQuery),
                                      old(loadGenre), MovieOrder(old(loadSortBy)));
                movies == (if old(loadPage) == 1 then shown else old(movies) + shown)
      ensures response.Some? ==>
                var shown := KindList(response.value.items, MovieKind, old(loadQuery),
                                      old(loadGenre), MovieOrder(old(loadSortBy)));
                hasMore == (|shown| > 0 && old(loadPage) < PageCap)
      ensures unchanged(this`currentPage, this`searchQuery, this`selectedGenre, this`sortBy)
      ensures unchanged(this`loadPage, this`loadQuery, this`loadGenre, this`loadSortBy)
      ensures !loading
      ensures response.None? ==> unchanged(this`movies, this`hasMore) && error == Some(LoadError)
      ensures response.Some? ==> unchanged(this`error)
    {
      if response.None? {
        error := Some(LoadError);
        loading := false;
        return;
      }
      var finalMovies := FilterAndSortKind(response.value.items, MovieKind, loadQuery,
                                           loadGenre, MovieOrder(loadSortBy));
      hasMore := |finalMovies| > 0 && loadPage < PageCap;
      if loadPage == 1 {
        movies := finalMovies;
      } else {
        movies := movies + finalMovies;
      }
      loading := false;
    }

    /** `loadMore`: the next page, only when no load is running and more may exist. */
    method LoadMore()
      modifies this
      ensures currentPage == if !old(loading) && old(hasMore) then old(currentPage) + 1 else old(currentPage)
      ensures unchanged(this`movies, this`loading, this`error, this`hasMore)
      ensures unchanged(this`searchQuery, this`selectedGenre, this`sortBy)
      ensures unchanged(this`loadPage, this`loadQuery, this`loadGenre, this`loadSortBy)
    {
      if !loading && hasMore {
        currentPage := currentPage + 1;
      }
    }

    /** The search box; the page stays. */
    method SetSearchQuery(query: string)
      modifies this
      ensures searchQuery == query
      ensures unchanged(this`movies, this`loading, this`error, this`hasMore, this`currentPage)
      ensures unchanged(this`selectedGenre, this`sortBy)
      ensures unchanged(this`loadPage, this`loadQuery, this`loadGenre, this`loadSortBy)
    {
      searchQuery := query;
    }

    /** The genre select; the page stays. */
    method SetSelectedGenre(genre: string)
      modifies this
      ensures selectedGenre == genre
      ensures unchanged(this`movies, this`loading, this`error, this`hasMore, this`currentPage)
      ensures unchanged(this`searchQuery, this`sortBy)
      ensures unchanged(this`loadPage, this`loadQuery, this`loadGenre, this`loadSortBy)
    {
      selectedGenre := genre;
    }

    /** The sort select; the page stays. */
    method SetSortBy(value: string)
      modifies this
      ensures sortBy == value
      ensures unchanged(this`movies, this`loading, this`error, this`hasMore, this`currentPage)
      ensures unchanged(this`searchQuery, this`selectedGenre)
      ensures unchanged(this`loadPage, this`loadQuery, this`loadGenre, this`loadSortBy)
    {
      sortBy := value;
    }
  }
}
