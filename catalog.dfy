/**
 * The catalogue item and the two list primitives every page builds on:
 * `Array.prototype.filter` with the pages' item predicates, and the stable
 * `Array.prototype.sort` with the pages' comparators.
 */
module Catalog {
  import opened Common
  import opened Text
  import opened Sorting

  /**
   * One catalogue item (`Film` of the API client; the anime page reads the
   * same objects through its `Anime` interface, whose `episodes` is a count).
   * `kind` is the `type` tag, `rating` a score that is only ever compared.
   */
  datatype Film = Film(
    id: string,
    title: string,
    poster: string,
    rating: real,
    year: string,
    kind: string,
    genre: string,
    detailPath: string,
    seasons: Option<int>,
    episodes: Option<int>)

  /** The list envelope `{ success, items, page, hasMore }`. */
  datatype ApiResponse = ApiResponse(success: bool, items: seq<Film>, page: int, hasMore: bool)

  // ---------------------------------------------------------------------
  // Filtering

  /** The item predicates the pages hand to `filter`. */
  datatype Criterion =
    | KindIs(tag: string)                 // item.type === tag
    | AnimeLike                           // type 'anime', or 'anime' in the lower-cased genre
    | GenreHas(genre: string)             // lower-cased genre includes the lower-cased text
    | TitleHas(query: string)             // lower-cased title includes the lower-cased text
    | TitleIncludes(word: string)         // title.includes(word), case-sensitive
    | GenreIs(name: string)               // item.genre === name
    | YearIs(year: string)                // item.year === year
    | YearBefore(bound: int)              // parseInt(item.year) < bound; NaN fails
    | RatingAtLeast(min: Option<real>)    // item.rating >= min; a NaN minimum admits nothing
    | Either(left: Criterion, right: Criterion)

  predicate Holds(c: Criterion, f: Film) {
    match c
    case KindIs(tag) => f.kind == tag
    case AnimeLike => f.kind == "anime" || Contains(Lower(f.genre), "anime")
    case GenreHas(g) => Contains(Lower(f.genre), Lower(g))
    case TitleHas(q) => Contains(Lower(f.title), Lower(q))
    case TitleIncludes(w) => Contains(f.title, w)
    case GenreIs(g) => f.genre == g
    case YearIs(y) => f.year == y
    case YearBefore(b) => var y := ParseInt(f.year); y.Some? && y.value < b
    case RatingAtLeast(m) => m.Some? && f.rating >= m.value
    case Either(l, r) => Holds(l, f) || Holds(r, f)
  }

  /**
   * `s.filter(item => Holds(c, item))`: exactly the items of `s` that satisfy
   * `c`, in their original relative order.
   */
  function Keep(s: seq<Film>, c: Criterion): (r: seq<Film>)
    ensures |r| <= |s|
  {
    if s == [] then []
    else if Holds(c, s[0]) then [s[0]] + Keep(s[1..], c)
    else Keep(s[1..], c)
  }

  /** What `Keep` returns: the items that pass, each of them, in order. */
  lemma {:induction false} KeepFacts(s: seq<Film>, c: Criterion)
    ensures forall x :: x in Keep(s, c) <==> x in s && Holds(c, x)
    ensures forall i :: 0 <= i < |Keep(s, c)| ==> Holds(c, Keep(s, c)[i])
    ensures IsSubseq(Keep(s, c), s)
  {
    if s != [] {
      KeepFacts(s[1..], c);
      assert s == [s[0]] + s[1..];
      if Holds(c, s[0]) {
        assert Keep(s, c)[1..] == Keep(s[1..], c);
      }
    }
  }

  /** `if (active) s = s.filter(c)`: a filter step that a blank criterion skips. */
  function KeepIf(s: seq<Film>, active: bool, c: Criterion): seq<Film> {
    if active then Keep(s, c) else s
  }

  /** A skipped step is the identity; an active one keeps exactly the passing items, in order. */
  lemma KeepIfFacts(s: seq<Film>, active: bool, c: Criterion)
    ensures forall x :: x in KeepIf(s, active, c) <==> x in s && (active ==> Holds(c, x))
    ensures IsSubseq(KeepIf(s, active, c), s)
    ensures !active ==> KeepIf(s, active, c) == s
  {
    KeepFacts(s, c);
    SubseqReflexive(s);
  }

  /** A filter that every item passes returns the list unchanged. */
  lemma {:induction false} KeepAll(s: seq<Film>, c: Criterion)
    requires forall i :: 0 <= i < |s| ==> Holds(c, s[i])
    ensures Keep(s, c) == s
  {
    if s != [] {
      KeepAll(s[1..], c);
    }
  }

  /** Filtering twice with the same predicate is filtering once. */
  lemma KeepIdempotent(s: seq<Film>, c: Criterion)
    ensures Keep(Keep(s, c), c) == Keep(s, c)
  {
    KeepFacts(s, c);
    KeepAll(Keep(s, c), c);
  }

  // ---------------------------------------------------------------------
  // Sorting

  /** The comparators the pages pass to `sort`. */
  datatype Order =
    | ByRating       // (a, b) => b.rating - a.rating
    | ByYearText     // (a, b) => b.year.localeCompare(a.year)
    | ByYearNewest   // (a, b) => parseInt(b.year) - parseInt(a.year)
    | ByYearOldest   // (a, b) => parseInt(a.year) - parseInt(b.year)
    | ByTitle        // (a, b) => a.title.localeCompare(b.title)
    | ByEpisodes     // (a, b) => (b.episodes || 0) - (a.episodes || 0)
    | BySeasons      // (a, b) => (b.seasons || 0) - (a.seasons || 0)

  /** `x || 0` on an optional count. */
  function CountOrZero(n: Option<int>): int {
    if n.Some? then n.value else 0
  }

  /**
   * The comparator of `o` is negative on `(a, b)`: `a` goes before `b`.
   * A `NaN` comparison result counts as `+0`, as `SortCompare` in
   * section 22.1.3.27.1 of ECMA-262 (10th edition, 2019) prescribes.
   */
  predicate Before(o: Order, a: Film, b: Film) {
    match o
    case ByRating => a.rating > b.rating
    case ByYearText => StrLt(b.year, a.year)
    case ByYearNewest =>
      var ya, yb := ParseInt(a.year), ParseInt(b.year);
      ya.Some? && yb.Some? && ya.value > yb.value
    case ByYearOldest =>
      var ya, yb := ParseInt(a.year), ParseInt(b.year);
      ya.Some? && yb.Some? && ya.value < yb.value
    case ByTitle => StrLt(a.title, b.title)
    case ByEpisodes => CountOrZero(a.episodes) > CountOrZero(b.episodes)
    case BySeasons => CountOrZero(a.seasons) > CountOrZero(b.seasons)
  }

  lemma BeforeIrreflexive(o: Order, a: Film)
    ensures !Before(o, a, a)
  {
    match o
    case ByYearText => StrLtIrreflexive(a.year);
    case ByTitle => StrLtIrreflexive(a.title);
    case _ =>
  }

  lemma BeforeTransitive(o: Order, a: Film, b: Film, c: Film)
    requires Before(o, a, b) && Before(o, b, c)
    ensures Before(o, a, c)
  {
    match o
    case ByYearText => StrLtTransitive(c.year, b.year, a.year);
    case ByTitle => StrLtTransitive(a.title, b.title, c.title);
    case _ =>
  }


  /** The comparator of `o` as the function handed to `sort`. */
  function Comparator(o: Order): (Film, Film) -> bool {
    (a, b) => Before(o, a, b)
  }

  /** Every comparator of the pages is irreflexive and transitive. */
  lemma ComparatorStrict(o: Order, s: seq<Film>)
    ensures StrictOn(Comparator(o), s)
  {
    forall a | a in s
      ensures !Comparator(o)(a, a)
    {
      BeforeIrreflexive(o, a);
    }
    forall a, b, c | a in s && b in s && c in s && Comparator(o)(a, b) && Comparator(o)(b, c)
      ensures Comparator(o)(a, c)
    {
      BeforeTransitive(o, a, b, c);
    }
  }

  /**
   * The comparator is a consistent comparator on the items of `s`: the
   * `parseInt` year orders are, once every year parses.
   */
  predicate Consistent(o: Order, s: seq<Film>) {
    (o.ByYearNewest? || o.ByYearOldest?) ==> forall f :: f in s ==> ParseInt(f.year).Some?
  }

  /** When `a` goes before `c`, any `b` goes after `a` or before `c`. */
  lemma BeforeSplits(o: Order, a: Film, b: Film, c: Film)
    requires Before(o, a, c)
    requires (o.ByYearNewest? || o.ByYearOldest?) ==> ParseInt(b.year).Some?
    ensures Before(o, a, b) || Before(o, b, c)
  {
    match o
    case ByYearText => StrLtSplits(c.year, b.year, a.year);
    case ByTitle => StrLtSplits(a.title, b.title, c.title);
    case _ =>
  }

  /** A consistent comparator is a strict weak order on the items. */
  lemma ComparatorWeak(o: Order, s: seq<Film>)
    requires Consistent(o, s)
    ensures WeakOn(Comparator(o), s)
  {
    ComparatorStrict(o, s);
    forall a, b, c | a in s && b in s && c in s && Comparator(o)(a, c)
      ensures Comparator(o)(a, b) || Comparator(o)(b, c)
    {
      BeforeSplits(o, a, b, c);
    }
  }

  /**
   * `[...s].sort(comparator of o)`: a permutation of `s` in the order of the
   * comparator.
   */
  function SortFilms(s: seq<Film>, o: Order): (r: seq<Film>)
    ensures multiset(r) == multiset(s)
  {
    SortBy(s, Comparator(o))
  }

  /** The sorted list is in the comparator's order. */
  lemma SortFilmsSorted(s: seq<Film>, o: Order)
    ensures SortedBy(SortFilms(s, o), Comparator(o))
  {
    ComparatorStrict(o, s);
    SortBySorted(s, Comparator(o));
  }

  /** A list that is already in order comes back as it was. */
  lemma SortFilmsOfSorted(s: seq<Film>, o: Order)
    requires SortedBy(s, Comparator(o))
    ensures SortFilms(s, o) == s
  {
    SortSortedIdentity(s, Comparator(o));
  }

  /**
   * Stability (section 22.1.3.27 of ECMA-262, 10th edition, 2019): the
   * items that tie with any `v` keep their relative order, for every
   * consistent comparator.
   */
  lemma SortFilmsStable(s: seq<Film>, o: Order, v: Film)
    requires Consistent(o, s + [v])
    ensures TiedWith(SortFilms(s, o), Comparator(o), v) == TiedWith(s, Comparator(o), v)
  {
    ComparatorWeak(o, s + [v]);
    SortByStable(s, Comparator(o), v);
  }

  /** `switch (sortBy)` over the page's cases: sort when a case matched, leave the list otherwise. */
  function SortIf(s: seq<Film>, o: Option<Order>): seq<Film> {
    if o.Some? then SortFilms(s, o.value) else s
  }

  /** A permutation, in the comparator's order when there is one and unchanged otherwise. */
  lemma SortIfFacts(s: seq<Film>, o: Option<Order>)
    ensures multiset(SortIf(s, o)) == multiset(s)
    ensures forall x :: x in SortIf(s, o) <==> x in s
    ensures o.Some? ==> SortedBy(SortIf(s, o), Comparator(o.value))
    ensures o.None? ==> SortIf(s, o) == s
  {
    if o.Some? {
      SortFilmsSorted(s, o.value);
      PermutationMembers(SortFilms(s, o.value), s);
    }
  }

  /**
   * What "in the comparator's order" means for each key: ratings and
   * counts never increase, `localeCompare` years never increase and titles
   * never decrease, and parsed years move the chosen way wherever both parse.
   */
  lemma SortedMeaning(s: seq<Film>, o: Order)
    requires SortedBy(s, Comparator(o))
    ensures o.ByRating? ==> forall i, j :: 0 <= i < j < |s| ==> s[i].rating >= s[j].rating
    ensures o.ByEpisodes? ==>
              forall i, j :: 0 <= i < j < |s| ==> CountOrZero(s[i].episodes) >= CountOrZero(s[j].episodes)
    ensures o.BySeasons? ==>
              forall i, j :: 0 <= i < j < |s| ==> CountOrZero(s[i].seasons) >= CountOrZero(s[j].seasons)
    ensures o.ByTitle? ==>
              forall i, j :: 0 <= i < j < |s| ==> s[i].title == s[j].title || StrLt(s[i].title, s[j].title)
    ensures o.ByYearText? ==>
              forall i, j :: 0 <= i < j < |s| ==> s[i].year == s[j].year || StrLt(s[j].year, s[i].year)
    ensures o.ByYearNewest? ==>
              forall i, j :: 0 <= i < j < |s| && ParseInt(s[i].year).Some? && ParseInt(s[j].year).Some? ==>
                ParseInt(s[i].year).value >= ParseInt(s[j].year).value
    ensures o.ByYearOldest? ==>
              forall i, j :: 0 <= i < j < |s| && ParseInt(s[i].year).Some? && ParseInt(s[j].year).Some? ==>
                ParseInt(s[i].year).value <= ParseInt(s[j].year).value
  {
    forall i, j | 0 <= i < j < |s|
      ensures s[i].title == s[j].title || StrLt(s[i].title, s[j].title) || !o.ByTitle?
      ensures s[i].year == s[j].year || StrLt(s[j].year, s[i].year) || !o.ByYearText?
    {
      assert !Comparator(o)(s[j], s[i]);
      StrLtTotal(s[i].title, s[j].title);
      StrLtTotal(s[i].year, s[j].year);
    }
  }

  // ---------------------------------------------------------------------
  // The filter record of the anime and movies pages

  /** `{ genre, year, rating, sortBy }`, each the value of a select box. */
  datatype Filters = Filters(genre: string, year: string, rating: string, sortBy: string)

  /** `keyof Filters`. */
  datatype FilterKey = GenreKey | YearKey | RatingKey | SortByKey

  function Field(f: Filters, key: FilterKey): string {
    match key
    case GenreKey => f.genre
    case YearKey => f.year
    case RatingKey => f.rating
    case SortByKey => f.sortBy
  }

  /** `{ ...f, [key]: value }`: the one field takes the value, the others keep theirs. */
  function WithFilter(f: Filters, key: FilterKey, value: string): (r: Filters)
    ensures Field(r, key) == value
    ensures forall k :: k != key ==> Field(r, k) == Field(f, k)
  {
    match key
    case GenreKey => f.(genre := value)
    case YearKey => f.(year := value)
    case RatingKey => f.(rating := value)
    case SortByKey => f.(sortBy := value)
  }
}
