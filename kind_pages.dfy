/**
 * The load pipeline shared by the movie and the series pages: one page of
 * `getTrending` items narrowed to one `type`, then the search, then the
 * genre select, then the chosen sort. The two pages differ only in the
 * type tag, in which `sortBy` values name a sort, and in the error text.
 */
module KindPages {
  import opened Common
  import opened Text
  import opened Sorting
  import opened Catalog

  /** The genre select value that applies no genre filter. */
  const AllGenres: string := "all"

  /** `hasMore` turns false from this page on. */
  const PageCap: int := 10

  /** Items of one type, searched, then narrowed to a genre: the filter chain of the load. */
  function KindFilter(items: seq<Film>, kind: string, query: string, genre: string): seq<Film> {
    var byKind := Keep(items, KindIs(kind));
    var bySearch := KeepIf(byKind, query != "", TitleHas(query));
    KeepIf(bySearch, genre != AllGenres, GenreHas(genre))
  }

  /** The list one load shows for one page: filtered, then sorted. */
  function KindList(items: seq<Film>, kind: string, query: string, genre: string, order: Option<Order>): seq<Film> {
    SortIf(KindFilter(items, kind, query, genre), order)
  }

  /** An item is shown exactly when it has the type, matches a non-empty search and the chosen genre. */
  predicate PassesKind(x: Film, kind: string, query: string, genre: string) {
    && x.kind == kind
    && (query != "" ==> Holds(TitleHas(query), x))
    && (genre != AllGenres ==> Holds(GenreHas(genre), x))
  }

  lemma KindFilterFacts(items: seq<Film>, kind: string, query: string, genre: string)
    ensures forall x :: x in KindFilter(items, kind, query, genre) <==> x in items && PassesKind(x, kind, query, genre)
    ensures IsSubseq(KindFilter(items, kind, query, genre), items)
  {
    var byKind := Keep(items, KindIs(kind));
    var bySearch := KeepIf(byKind, query != "", TitleHas(query));
    KeepFacts(items, KindIs(kind));
    KeepIfFacts(byKind, query != "", TitleHas(query));
    KeepIfFacts(bySearch, genre != AllGenres, GenreHas(genre));
    SubseqTransitive(bySearch, byKind, items);
    SubseqTransitive(KindFilter(items, kind, query, genre), bySearch, items);
  }

  /** No search and `all` genres leave just the type filter. */
  lemma KindFilterInactive(items: seq<Film>, kind: string)
    ensures KindFilter(items, kind, "", AllGenres) == Keep(items, KindIs(kind))
  {
  }

  /**
   * The shown list is a permutation of the filtered items, holds exactly
   * the items that pass, and is ordered by the chosen key when there is
   * one and in page order otherwise.
   */
  lemma KindListOrdered(items: seq<Film>, kind: string, query: string, genre: string, order: Option<Order>)
    ensures multiset(KindList(items, kind, query, genre, order)) == multiset(KindFilter(items, kind, query, genre))
    ensures forall x :: x in KindList(items, kind, query, genre, order) <==> x in items && PassesKind(x, kind, query, genre)
    ensures order.Some? ==> SortedBy(KindList(items, kind, query, genre, order), Comparator(order.value))
    ensures order.None? ==> KindList(items, kind, query, genre, order) == KindFilter(items, kind, query, genre)
  {
    KindFilterFacts(items, kind, query, genre);
    SortIfFacts(KindFilter(items, kind, query, genre), order);
  }

  /**
   * Items the chosen key ties keep their page order: `sort` is stable.
   * Both pages sort only by keys that are defined on every item.
   */
  lemma KindListStable(items: seq<Film>, kind: string, query: string, genre: string, o: Order, v: Film)
    requires !o.ByYearNewest? && !o.ByYearOldest?
    ensures var lt := Comparator(o);
            TiedWith(KindList(items, kind, query, genre, Some(o)), lt, v)
            == TiedWith(KindFilter(items, kind, query, genre), lt, v)
  {
    SortFilmsStable(KindFilter(items, kind, query, genre), o, v);
  }

  /**
   * The body of the load between the `await` and the state updates:
   * the type filter, `finalList` reassigned by the search and the genre
   * filter, then sorted in place when `sortBy` named a sort.
   */
  method FilterAndSortKind(items: seq<Film>, kind: string, query: string, genre: string, order: Option<Order>)
    returns (finalList: seq<Film>)
    ensures finalList == KindList(items, kind, query, genre, order)
  {
    finalList := Keep(items, KindIs(kind));
    if query != "" {
      finalList := Keep(finalList, TitleHas(query));
    }
    if genre != AllGenres {
      finalList := Keep(finalList, GenreHas(genre));
    }
    if order.Some? {
      finalList := SortFilms(finalList, order.value);
    }
  }
}
