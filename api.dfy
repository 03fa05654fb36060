/**
 * The API client `ApiService`: a read-through cache over the browser's
 * `localStorage` with a five-minute time to live, the mock list getters,
 * the three cached getters and the eviction of every cache entry.
 *
 * The response body is kept as its JSON text (`Json`); `fetch` is the
 * function `network` from a URL to the response, `None` when the request
 * itself fails; `Date.now()` is read as the parameters `now` (at the
 * lookup) and `later` (when the entry is written).
 */
module Api {
  import opened Common
  import opened Text
  import opened Catalog

  type Json = string

  /** `5 * 60 * 1000` milliseconds. */
  const CacheTtlMs: int := 5 * 60 * 1000

  const BaseUrl: string := "https://zeldvorik.ru/apiv3/api.php"

  /** What `localStorage` holds under a cache key: `{ data, timestamp }`. */
  datatype Entry = Entry(data: Json, timestamp: int)

  datatype HttpResponse = HttpResponse(ok: bool, status: int, body: Json)

  /** How the promise of `fetchWithCache` settles. */
  datatype Outcome =
    | Data(data: Json)          // resolves with the data
    | HttpError(status: int)    // rejects with `HTTP error! status: <status>`
    | NetworkError              // rejects because `fetch` itself rejected

  /** One call of `fetchWithCache`: its outcome, the URLs it fetched and the storage after it. */
  datatype Fetched = Fetched(outcome: Outcome, requested: seq<string>, storage: map<string, Entry>)

  // ---------------------------------------------------------------------
  // The cache

  /** The entry under `key` was written less than five minutes before `now`. */
  predicate IsFresh(storage: map<string, Entry>, key: string, now: int) {
    key in storage && now - storage[key].timestamp < CacheTtlMs
  }

  /**
   * `fetchWithCache(url, cacheKey)`. In a browser (`hasWindow`) a fresh
   * entry answers without a request; otherwise the URL is fetched, a
   * response that is not `ok` rejects, and a good body is returned and,
   * in a browser, stored under the key with the time of writing.
   */
  function FetchSpec(hasWindow: bool, storage: map<string, Entry>, url: string, key: string,
                     now: int, later: int, network: string -> Option<HttpResponse>): (r: Fetched)
    ensures r.requested == [] <==> hasWindow && IsFresh(storage, key, now)
    ensures r.requested == [] ==> r.outcome == Data(storage[key].data) && r.storage == storage
    ensures r.requested != [] ==> r.requested == [url]
    ensures r.requested != [] ==> (r.outcome.Data? <==> network(url).Some? && network(url).value.ok)
    ensures r.requested != [] && r.outcome.Data? ==> r.outcome.data == network(url).value.body
    ensures r.outcome.HttpError? ==> network(url).Some? && r.outcome.status == network(url).value.status
    ensures r.requested != [] && network(url).Some? && !network(url).value.ok ==>
              r.outcome == HttpError(network(url).value.status)
    ensures r.requested != [] && network(url).None? ==> r.outcome == NetworkError
    ensures r.storage == storage
            || (hasWindow && r.outcome.Data? && r.requested != []
                && r.storage == storage[key := Entry(r.outcome.data, later)])
    ensures !hasWindow ==> r.storage == storage
    ensures hasWindow && r.requested != [] && r.outcome.Data? ==>
              r.storage == storage[key := Entry(r.outcome.data, later)]
  {
    if hasWindow && IsFresh(storage, key, now) then
      Fetched(Data(storage[key].data), [], storage)
    else
      match network(url)
      case None => Fetched(NetworkError, [url], storage)
      case Some(response) =>
        if !response.ok then Fetched(HttpError(response.status), [url], storage)
        else Fetched(Data(response.body), [url],
                     if hasWindow then storage[key := Entry(response.body, later)] else storage)
  }

  /** A call never touches an entry under another key. */
  lemma FetchOtherKeysUntouched(hasWindow: bool, storage: map<string, Entry>, url: string, key: string,
                                now: int, later: int, network: string -> Option<HttpResponse>, k: string)
    requires k != key
    ensures var r := FetchSpec(hasWindow, storage, url, key, now, later, network);
            (k in r.storage <==> k in storage) && (k in storage ==> r.storage[k] == storage[k])
  {
  }

  /**
   * Memoisation: once a browser call has fetched and stored a body, a call
   * under the same key less than five minutes after the store answers with
   * that body and fetches nothing, whatever its URL and the network say.
   */
  lemma FetchThenHit(storage: map<string, Entry>, url: string, key: string, now: int, later: int,
                     network: string -> Option<HttpResponse>,
                     url2: string, now2: int, later2: int, network2: string -> Option<HttpResponse>)
    requires var r := FetchSpec(true, storage, url, key, now, later, network);
             r.requested != [] && r.outcome.Data? && now2 - later < CacheTtlMs
    ensures var r := FetchSpec(true, storage, url, key, now, later, network);
            var r2 := FetchSpec(true, r.storage, url2, key, now2, later2, network2);
            r2.requested == [] && r2.outcome == r.outcome && r2.storage == r.storage
  {
  }

  /** An entry at least five minutes old is fetched again. */
  lemma StaleEntryRefetched(storage: map<string, Entry>, url: string, key: string, now: int, later: int,
                            network: string -> Option<HttpResponse>)
    requires key in storage && now - storage[key].timestamp >= CacheTtlMs
    ensures FetchSpec(true, storage, url, key, now, later, network).requested == [url]
  {
  }

  /** A rejected call leaves the storage as it was. */
  lemma FailedFetchKeepsStorage(hasWindow: bool, storage: map<string, Entry>, url: string, key: string,
                                now: int, later: int, network: string -> Option<HttpResponse>)
    requires !FetchSpec(hasWindow, storage, url, key, now, later, network).outcome.Data?
    ensures FetchSpec(hasWindow, storage, url, key, now, later, network).storage == storage
  {
  }

  // ---------------------------------------------------------------------
  // Cache keys and URLs

  /** The prefixes `clearCache` evicts. */
  predicate HasCachePrefix(key: string) {
    || StartsWith(key, "trending-")
    || StartsWith(key, "indonesian-")
    || StartsWith(key, "kdrama-")
    || StartsWith(key, "short-tv-")
    || StartsWith(key, "anime-")
    || StartsWith(key, "search-")
    || StartsWith(key, "detail-")
  }

  function ShortTvKey(page: nat): string { "short-tv-" + NatToString(page) }

  function SearchKey(query: string, page: nat): string { "search-" + query + "-" + NatToString(page) }

  function DetailKey(detailPath: string): string { "detail-" + detailPath }

  function ShortTvUrl(page: nat): string {
    BaseUrl + "?action=short-tv&page=" + NatToString(page)
  }

  /** `encode` is `encodeURIComponent`. */
  function SearchUrl(query: string, page: nat, encode: string -> string): string {
    BaseUrl + "?action=search&q=" + encode(query) + "&page=" + NatToString(page)
  }

  function DetailUrl(detailPath: string, encode: string -> string): string {
    BaseUrl + "?action=detail&detailPath=" + encode(detailPath)
  }

  lemma StartsWithConcat(p: string, t: string)
    ensures StartsWith(p + t, p)
  {
    assert (p + t)[..|p|] == p;
  }

  /** Every key the getters write is one that `clearCache` evicts. */
  lemma GetterKeysAreCacheKeys(page: nat, query: string, detailPath: string)
    ensures HasCachePrefix(ShortTvKey(page))
    ensures HasCachePrefix(SearchKey(query, page))
    ensures HasCachePrefix(DetailKey(detailPath))
  {
    StartsWithConcat("short-tv-", NatToString(page));
    assert SearchKey(query, page) == "search-" + (query + "-" + NatToString(page));
    StartsWithConcat("search-", query + "-" + NatToString(page));
    StartsWithConcat("detail-", detailPath);
  }

  /** The number of decimal digits at the end of `s`. */
  function TrailingDigits(s: string): nat {
    if s != [] && IsDigit(s[|s| - 1]) then 1 + TrailingDigits(s[..|s| - 1]) else 0
  }

  lemma {:induction false} TrailingDigitsAfterDash(a: string, d: string)
    requires AllDigits(d)
    ensures TrailingDigits(a + "-" + d) == |d|
  {
    var s := a + "-" + d;
    if d == [] {
      assert s[|s| - 1] == '-';
    } else {
      assert s[..|s| - 1] == a + "-" + d[..|d| - 1];
      TrailingDigitsAfterDash(a, d[..|d| - 1]);
    }
  }

  /** Splitting `a + "-" + d` at the dash before a run of digits is unique. */
  lemma DashDigitsSplit(a1: string, d1: string, a2: string, d2: string)
    requires a1 + "-" + d1 == a2 + "-" + d2
    requires AllDigits(d1) && AllDigits(d2)
    ensures a1 == a2 && d1 == d2
  {
    var s := a1 + "-" + d1;
    assert s == a2 + "-" + d2;
    TrailingDigitsAfterDash(a1, d1);
    TrailingDigitsAfterDash(a2, d2);
    assert d1 == s[|s| - |d1|..] == d2;
    assert a1 == s[..|a1|] == a2;
  }

  /**
   * Search results for different queries or different pages are cached
   * under different keys, whatever dashes the query holds.
   */
  lemma SearchKeyInjective(q1: string, p1: nat, q2: string, p2: nat)
    requires SearchKey(q1, p1) == SearchKey(q2, p2)
    ensures q1 == q2 && p1 == p2
  {
    var s1, s2 := q1 + "-" + NatToString(p1), q2 + "-" + NatToString(p2);
    assert SearchKey(q1, p1) == "search-" + s1 && SearchKey(q2, p2) == "search-" + s2;
    assert s1 == SearchKey(q1, p1)[7..] == SearchKey(q2, p2)[7..] == s2;
    DashDigitsSplit(q1, NatToString(p1), q2, NatToString(p2));
    NatToStringInjective(p1, p2);
  }

  /** Pages of short-TV are cached under different keys. */
  lemma ShortTvKeyInjective(p1: nat, p2: nat)
    requires ShortTvKey(p1) == ShortTvKey(p2)
    ensures p1 == p2
  {
    assert NatToString(p1) == ShortTvKey(p1)[9..] == ShortTvKey(p2)[9..] == NatToString(p2);
    NatToStringInjective(p1, p2);
  }

  /** The three getters never share a cache entry. */
  lemma GetterKeysDisjoint(page: nat, query: string, page2: nat, detailPath: string, page3: nat)
    ensures ShortTvKey(page) != SearchKey(query, page2)
    ensures ShortTvKey(page3) != DetailKey(detailPath)
    ensures SearchKey(query, page2) != DetailKey(detailPath)
  {
    assert ShortTvKey(page)[1] == 'h' && SearchKey(query, page2)[1] == 'e';
    assert ShortTvKey(page3)[0] == 's' && DetailKey(detailPath)[0] == 'd';
    assert SearchKey(query, page2)[0] == 's';
  }

  // ---------------------------------------------------------------------
  // Eviction

  /** `clearCache` on a storage: every entry under a cache prefix goes, the rest stays. */
  function Evicted(storage: map<string, Entry>): (r: map<string, Entry>)
    ensures forall k :: k in r <==> k in storage && !HasCachePrefix(k)
    ensures forall k :: k in r ==> r[k] == storage[k]
  {
    map k | k in storage && !HasCachePrefix(k) :: storage[k]
  }

  /** Clearing twice is clearing once. */
  lemma EvictedIdempotent(storage: map<string, Entry>)
    ensures Evicted(Evicted(storage)) == Evicted(storage)
  {
  }

  /** After eviction a getter's key is absent, so its next call fetches. */
  lemma EvictedThenFetches(storage: map<string, Entry>, url: string, key: string, now: int, later: int,
                           network: string -> Option<HttpResponse>)
    requires HasCachePrefix(key)
    ensures FetchSpec(true, Evicted(storage), url, key, now, later, network).requested == [url]
  {
  }

  // ---------------------------------------------------------------------
  // Mock data

  function MockFilm(id: string, title: string, rating: real, year: string, kind: string,
                    genre: string, detailPath: string): Film {
    Film(id, title, "https://picsum.photos/300/450?random=" + id, rating, year, kind, genre,
         detailPath, None, None)
  }

  /** `getMockFilms()`: the six fixed items. */
  function MockFilms(): seq<Film> {
    [ MockFilm("1", "The Matrix", 8.7, "1999", "movie", "Sci-Fi", "/movie/the-matrix"),
      MockFilm("2", "Inception", 8.8, "2010", "movie", "Sci-Fi", "/movie/inception"),
      MockFilm("3", "Stranger Things", 8.7, "2016", "tv", "Drama", "/series/stranger-things"),
      MockFilm("4", "Attack on Titan", 9.0, "2013", "tv", "Anime", "/anime/attack-on-titan"),
      MockFilm("5", "The Dark Knight", 9.0, "2008", "movie", "Action", "/movie/the-dark-knight"),
      MockFilm("6", "Breaking Bad", 9.5, "2008", "tv", "Drama", "/series/breaking-bad") ]
  }

  /** A mock list response: every item, the requested page echoed, no further page. */
  function MockResponse(c: Criterion, page: int): (r: ApiResponse)
    ensures r.success && r.page == page && !r.hasMore
    ensures forall f :: f in r.items <==> f in MockFilms() && Holds(c, f)
    ensures IsSubseq(r.items, MockFilms())
  {
    KeepFacts(MockFilms(), c);
    ApiResponse(true, Keep(MockFilms(), c), page, false)
  }

  /** `getTrending(page)`: every mock item, in order, the page echoed, no further page. */
  function GetTrending(page: int): (r: ApiResponse)
    ensures r.success && r.page == page && !r.hasMore
    ensures r.items == MockFilms()
  {
    ApiResponse(true, MockFilms(), page, false)
  }

  /** `getKdrama(page)`: the mock items of genre `Drama`. */
  function GetKdrama(page: int): (r: ApiResponse)
    ensures r.success && r.page == page && !r.hasMore
    ensures forall f :: f in r.items <==> f in MockFilms() && f.genre == "Drama"
    ensures IsSubseq(r.items, MockFilms())
  {
    MockResponse(GenreIs("Drama"), page)
  }

  /** `getAnime(page)`: the mock items of genre `Anime`. */
  function GetAnime(page: int): (r: ApiResponse)
    ensures r.success && r.page == page && !r.hasMore
    ensures forall f :: f in r.items <==> f in MockFilms() && f.genre == "Anime"
    ensures IsSubseq(r.items, MockFilms())
  {
    MockResponse(GenreIs("Anime"), page)
  }

  /** `getIndonesianMovies(page)`: the mock items whose title includes `Matrix` or `Inception`. */
  function GetIndonesianMovies(page: int): (r: ApiResponse)
    ensures r.success && r.page == page && !r.hasMore
    ensures forall f :: f in r.items <==>
              f in MockFilms() && (Holds(TitleIncludes("Matrix"), f) || Holds(TitleIncludes("Inception"), f))
    ensures IsSubseq(r.items, MockFilms())
  {
    MockResponse(Either(TitleIncludes("Matrix"), TitleIncludes("Inception")), page)
  }

  // ---------------------------------------------------------------------
  // The service

  /**
   * The static methods of `ApiService` together with the `localStorage`
   * they share; `hasWindow` says whether the code runs in a browser.
   */
  class ApiService {
    const hasWindow: bool
    var localStorage: map<string, Entry>

    constructor(hasWindow: bool, localStorage: map<string, Entry>)
      ensures this.hasWindow == hasWindow && this.localStorage == localStorage
    {
      this.hasWindow := hasWindow;
      this.localStorage := localStorage;
    }

    method FetchWithCache(url: string, cacheKey: string, now: int, later: int,
                          network: string -> Option<HttpResponse>)
      returns (outcome: Outcome, requested: seq<string>)
      modifies this
      ensures Fetched(outcome, requested, localStorage)
              == FetchSpec(hasWindow, old(localStorage), url, cacheKey, now, later, network)
    {
      requested := [];
      if hasWindow && cacheKey in localStorage {
        var cached := localStorage[cacheKey];
        if now - cached.timestamp < CacheTtlMs {
          return Data(cached.data), requested;
        }
      }
      requested := [url];
      var response := network(url);
      if response.None? {
        return NetworkError, requested;
      }
      if !response.value.ok {
        return HttpError(response.value.status), requested;
      }
      var data := response.value.body;
      if hasWindow {
        localStorage := localStorage[cacheKey := Entry(data, later)];
      }
      outcome := Data(data);
    }

    method GetShortTV(page: nat, now: int, later: int, network: string -> Option<HttpResponse>)
      returns (outcome: Outcome, requested: seq<string>)
      modifies this
      ensures Fetched(outcome, requested, localStorage)
              == FetchSpec(hasWindow, old(localStorage), ShortTvUrl(page), ShortTvKey(page), now, later, network)
    {
      outcome, requested := FetchWithCache(ShortTvUrl(page), ShortTvKey(page), now, later, network);
    }

    method Search(query: string, page: nat, encode: string -> string, now: int, later: int,
                  network: string -> Option<HttpResponse>)
      returns (outcome: Outcome, requested: seq<string>)
      modifies this
      ensures Fetched(outcome, requested, localStorage)
              == FetchSpec(hasWindow, old(localStorage), SearchUrl(query, page, encode),
                           SearchKey(query, page), now, later, network)
    {
      outcome, requested := FetchWithCache(SearchUrl(query, page, encode), SearchKey(query, page),
                                           now, later, network);
    }

    method GetDetail(detailPath: string, encode: string -> string, now: int, later: int,
                     network: string -> Option<HttpResponse>)
      returns (outcome: Outcome, requested: seq<string>)
      modifies this
      ensures Fetched(outcome, requested, localStorage)
              == FetchSpec(hasWindow, old(localStorage), DetailUrl(detailPath, encode),
                           DetailKey(detailPath), now, later, network)
    {
      outcome, requested := FetchWithCache(DetailUrl(detailPath, encode), DetailKey(detailPath),
                                           now, later, network);
    }

    /** `clearCache()`: removes, key by key, every entry under a cache prefix. */
    method ClearCache()
      modifies this
      ensures localStorage == if hasWindow then Evicted(old(localStorage)) else old(localStorage)
    {
      if !hasWindow {
        return;
      }
      var keys := localStorage.Keys;
      while keys != {}
        invariant keys <= old(localStorage).Keys
        invariant localStorage
                  == map k | k in old(localStorage) && (k in keys || !HasCachePrefix(k)) :: old(localStorage)[k]
        decreases keys
      {
        var key :| key in keys;
        if HasCachePrefix(key) {
          localStorage := localStorage - {key};
        }
        keys := keys - {key};
      }
    }
  }
}
