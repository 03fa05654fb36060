# danflix front end, modelled in Dafny

This project models the core of danflix, a Next.js streaming-catalogue front end.
It covers:

- **The API client `ApiService`** (`api.dfy`). This is a read-through cache over
  `localStorage` with a five-minute time to live. It has three cached getters
  (`getShortTV`, `search`, `getDetail`) and their cache keys and URLs, the mock
  list getters, and `clearCache`, which evicts every key under the seven cache
  prefixes.
- **The four catalogue pages.**
  - The anime page (`anime_page.dfy`) and the movies page (`movies_page.dfy`)
    each have a load pipeline: filter one page of items, sort it, then replace
    or extend the shown list. Around it sit the page's React state and its
    handlers.
  - The movie and series pages (`movie_page.dfy`, `series_page.dfy`) share one
    pipeline (`kind_pages.dfy`): narrow a `getTrending` page to one `type`,
    search, filter by genre, sort. Their `loadMore` runs only when no load is
    under way and more may follow.
- **The list primitives every page builds on** (`catalog.dfy`, `sorting.dfy`).
  - The item predicates that `filter` is given.
  - The comparators that `sort` is given.
  - A stable insertion sort standing in for `Array.prototype.sort`.
- **The components.**
  - `HeroSlider` (`hero_slider.dfy`): a carousel index moved by arrows, dots and
    an autoplay tick. Its index is a JavaScript number and turns `NaN` once a
    step runs with no films. A render of a non-empty list with the index out
    of range (`NaN`, or past the end after the list shrank) throws.
  - `ContentGrid` (`content_grid.dfy`): the rendering priority, the Show More
    window and the infinite-scroll guard.
  - `Navigation` and `Navbar` (`navigation.dfy`, `navbar.dfy`): the search forms,
    the active-link test and the menu, focus and scroll flags.
- **The profile and settings pages** (`profile_page.dfy`, `settings_page.dfy`):
  edit, save and cancel of the profile, watchlist removal, and every settings
  handler, each of which copies the settings with one field replaced.
- **JavaScript string functions** (`text.dfy`), modelled on their ordinary
  inputs: `toLowerCase`, `includes`, `startsWith`, `trim`, `${n}`, `parseInt`,
  `parseFloat`, `replace` with a one-character pattern, and `localeCompare`.

Each core file takes the source's own form. React state becomes a class whose
methods change its fields. Each method's `ensures` gives the whole new state,
through a specification function where the step computes a list. The filter
chains and sorts are functions, and lemmas state what they return. An `async`
load is split at its `await`:

- `BeginLoad` is the code before the `await`. It also records, in the
  `load*` fields, the state values the load's closure captured.
- `FinishLoad(response)` is the code after it, given how the promise settled:
  `Some` when it resolved, `None` when it rejected. It filters, sorts and
  pages by the captured values, not by whatever the state holds when the
  promise settles.

## Model

| member | source | states |
|---|---|---|
| Api.FetchSpec | src/lib/api.ts:44-70 | In a browser, a fresh entry (less than 5 minutes old) answers with its data and requests nothing. Otherwise exactly the URL is requested. The call resolves exactly when the response exists and is `ok`, with its body. A response that is not `ok` rejects with its status, and a failed request rejects as a network error. A browser call that resolved after fetching stores `{ data, timestamp }` under the key, with the time of writing. Every other call leaves the storage unchanged. |
| Api.ApiService.FetchWithCache | src/lib/api.ts:44-70 | Its outcome, its requests and the new `localStorage` are those of `FetchSpec` on the old storage. |
| Api.FetchOtherKeysUntouched | src/lib/api.ts:44-70 | A call never adds, removes or changes an entry under another key. |
| Api.FetchThenHit | src/lib/api.ts:46-50 | After a browser call that fetched and stored, a call under the same key less than 5 minutes after the store returns the same data and fetches nothing, whatever its URL and the network. |
| Api.StaleEntryRefetched | src/lib/api.ts:48 | An entry at least 5 minutes old is fetched again. |
| Api.FailedFetchKeepsStorage | src/lib/api.ts:55-57 | A rejected call leaves the storage as it was. |
| Api.GetterKeysAreCacheKeys | src/lib/api.ts:185-221 | Every key written by `getShortTV`, `search` or `getDetail` carries a prefix that `clearCache` evicts. |
| Api.SearchKeyInjective | src/lib/api.ts:192-197 | Two searches share a cache key only when query and page are both equal, even when the query holds dashes or digits. |
| Api.ShortTvKeyInjective | src/lib/api.ts:185-190 | Distinct short-TV pages have distinct keys. |
| Api.GetterKeysDisjoint | src/lib/api.ts:185-204 | No two of the three getters ever share a key. |
| Api.DashDigitsSplit | src/lib/api.ts:195 | `a + "-" + digits` splits at the dash in one way only. |
| Api.Evicted | src/lib/api.ts:206-221 | After `clearCache` a key is present exactly when it was present and has none of the seven prefixes. Kept entries are unchanged. |
| Api.ApiService.ClearCache | src/lib/api.ts:206-221 | In a browser the loop over the keys leaves exactly `Evicted` of the old storage; outside one, nothing changes. |
| Api.EvictedIdempotent | src/lib/api.ts:206-221 | Clearing twice is clearing once. |
| Api.EvictedThenFetches | src/lib/api.ts:206-221 | After clearing, a call under any cache key fetches. |
| Api.MockResponse | src/lib/api.ts:155-183 | A mock list response succeeds, echoes the page and has no further page. Its items are exactly the mock films the getter's predicate accepts, in mock order. |
| Api.GetTrending | src/lib/api.ts:144-153 | Succeeds with every mock item, in order, echoes the page and has no further page. |
| Api.GetIndonesianMovies | src/lib/api.ts:155-163 | Succeeds with exactly the mock items whose title includes `Matrix` or `Inception`, in mock order. It echoes the page and has no further page. |
| Api.GetKdrama | src/lib/api.ts:165-173 | Succeeds with exactly the mock items of genre `Drama`, in mock order. It echoes the page and has no further page. |
| Api.GetAnime | src/lib/api.ts:175-183 | Succeeds with exactly the mock items of genre `Anime`, in mock order. It echoes the page and has no further page. |
| Api.ApiService.constructor | src/lib/api.ts:44-46 | The service starts from the given `typeof window` flag and `localStorage` contents. |
| Api.ApiService.GetShortTV | src/lib/api.ts:185-190 | Is `FetchSpec` on the `short-tv` URL and the key `short-tv-<page>`. |
| Api.ApiService.Search | src/lib/api.ts:192-197 | Is `FetchSpec` on the search URL with the encoded query and the key `search-<query>-<page>`. |
| Api.ApiService.GetDetail | src/lib/api.ts:199-204 | Is `FetchSpec` on the detail URL with the encoded path and the key `detail-<path>`. |
| Catalog.KeepFacts | src/app/anime/page.tsx:90-117 | `filter` keeps exactly the items that pass, every kept item passes, and the result is a subsequence of the input. |
| Catalog.KeepIfFacts | src/app/anime/page.tsx:98-117 | A filter step behind an `if` is the identity when its condition is false and a true filter otherwise. |
| Catalog.KeepIdempotent | src/app/anime/page.tsx:90-117 | Filtering twice with one predicate is filtering once. |
| Catalog.ComparatorStrict | src/app/anime/page.tsx:120-133 | Every comparator the pages pass to `sort` is irreflexive and transitive. |
| Catalog.ComparatorWeak | src/app/movies/page.tsx:130-143 | On items whose years all parse, each comparator is a strict weak order. |
| Catalog.SortFilms | src/app/anime/page.tsx:120-133 | `sort` returns a permutation of its input. |
| Catalog.SortFilmsSorted | src/app/anime/page.tsx:120-133 | The sorted list is in the comparator's order. |
| Catalog.SortFilmsOfSorted | src/app/anime/page.tsx:120-133 | A list already in order comes back unchanged. |
| Catalog.SortFilmsStable | src/app/movies/page.tsx:130-143 | Items that tie under a consistent comparator keep their relative order. |
| Catalog.SortIfFacts | src/app/anime/page.tsx:120-133 | The `switch` on `sortBy` gives a permutation: sorted when a case matched, unchanged otherwise. |
| Catalog.SortedMeaning | src/app/anime/page.tsx:120-133 | Per key, the sorted list has ratings and counts that never increase, `localeCompare` years that never increase, titles that never decrease, and parsed years that move in the chosen direction wherever both parse. |
| Catalog.WithFilter | src/app/anime/page.tsx:256-352 | `{ ...filters, [key]: value }` gives the one field the value and keeps the others. |
| Sorting.SortBySorted | src/app/anime/page.tsx:120-133 | The insertion sort yields a list in order for any irreflexive, transitive comparator. |
| Sorting.SortByStable | src/app/anime/page.tsx:120-133 | Under a strict weak order, the insertion sort keeps the relative order of the items tied with any `v`. |
| Sorting.SortSortedIdentity | src/app/anime/page.tsx:120-133 | Sorting a list already in order leaves it unchanged. |
| Sorting.InsertSorted | src/app/anime/page.tsx:120-133 | Inserting one item into a list in order keeps it in order. |
| Sorting.InsertStable | src/app/anime/page.tsx:120-133 | Inserting `x` adds `x` at the end of the items tied with `v` when `x` ties with `v`, and otherwise leaves those items as they were. |
| AnimeRoute.AnimeFilterMembers | src/app/anime/page.tsx:90-117 | An item is kept exactly when it is anime (type `anime` or "anime" in the genre) and passes every non-empty genre, year, rating and search criterion. |
| AnimeRoute.AnimeFilterSubseq | src/app/anime/page.tsx:90-117 | The filtered items keep their page order. |
| AnimeRoute.AnimeFilterInactive | src/app/anime/page.tsx:90-117 | With every criterion empty, only the anime test applies. |
| AnimeRoute.AnimeListOrdered | src/app/anime/page.tsx:90-133 | The shown page is a permutation of the filtered items and holds exactly those that pass. It is ordered by the chosen key when `sortBy` names one and is in page order otherwise. |
| AnimeRoute.AnimeListStable | src/app/anime/page.tsx:120-133 | Items tied under the chosen key keep their page order. |
| AnimeRoute.FilterAndSortAnime | src/app/anime/page.tsx:90-133 | The reassigned `filteredAnime` ends as `AnimeList` of the page, filters and query. |
| AnimeRoute.AnimePage.constructor | src/app/anime/page.tsx:38-51 | The initial state: no items, loading, no error, empty query, default filters, page 1, more to come. |
| AnimeRoute.AnimePage.BeginLoad | src/app/anime/page.tsx:81-88 | Sets loading and clears the error, and captures the current filters, query and page; nothing else changes. |
| AnimeRoute.AnimePage.FinishLoad | src/app/anime/page.tsx:85-149 | On rejection: the error text, loading off, list unchanged. On success, with the filters, query and page the load captured: `AnimeList` of the items, which replaces the list on page 1 and is appended to it on later pages; `hasMore` is "the raw page was non-empty and the page is below 10"; the error is untouched. |
| AnimeRoute.AnimePage.LoadMore | src/app/anime/page.tsx:156-158 | Increments the page; nothing else changes. |
| AnimeRoute.AnimePage.ClearFilters | src/app/anime/page.tsx:160-168 | Default filters and page 1; the query stays. |
| AnimeRoute.AnimePage.SetFilter | src/app/anime/page.tsx:256-352 | Sets one filter field, keeps the others and stays on the page. |
| AnimeRoute.AnimePage.SetSearchQuery | src/app/anime/page.tsx:205 | Sets the query; nothing else changes. |
| AnimeRoute.SearchWhileLoading | src/app/anime/page.tsx:77-142 | Typing in the search box while the first load is in flight does not change what it shows: `AnimeList` of the items under the default filters and the empty query. |
| MoviesRoute.MoviesFilterFacts | src/app/movies/page.tsx:101-127 | An item passes exactly when every filter that is not `all` holds; the result keeps page order. |
| MoviesRoute.MoviesFilterAll | src/app/movies/page.tsx:101-127 | `all` in genre, year and rating leaves the page as it came. |
| MoviesRoute.YearCriterionMeaning | src/app/movies/page.tsx:109-119 | `older` keeps exactly the items whose year parses to a number below 2020; any other year value is compared as text. |
| MoviesRoute.RatingOptionMeaning | src/app/movies/page.tsx:122-127 | The option `N+` keeps exactly the items rated at least `N`. |
| MoviesRoute.MoviesListOrdered | src/app/movies/page.tsx:101-150 | The shown list holds exactly the passing items. It is a subsequence of the sorted filtered page, so it stays in order, and with no sort and no query it is the filtered page. |
| MoviesRoute.MoviesSortStable | src/app/movies/page.tsx:130-143 | When every year parses, items tied under the chosen key keep their page order. |
| MoviesRoute.FilterAndSortMovies | src/app/movies/page.tsx:101-150 | The reassigned `filteredMovies` ends as `MoviesList` of the page, filters and query. |
| MoviesRoute.MoviesPage.constructor | src/app/movies/page.tsx:32-45 | The initial state, with all four filters at their defaults (`all` and `trending`). |
| MoviesRoute.MoviesPage.BeginLoad | src/app/movies/page.tsx:90-96 | Sets loading and clears the error, and captures the current filters and query; nothing else changes. |
| MoviesRoute.MoviesPage.FinishLoad | src/app/movies/page.tsx:94-160 | On success the list is replaced by `MoviesList` of the items under the filters and query the load captured (page 1 and later pages alike) and `hasMore` is copied from the response. On rejection: the error text, with list and `hasMore` unchanged. |
| MoviesRoute.MoviesPage.HandleFilterChange | src/app/movies/page.tsx:162-165 | Sets one filter field, keeps the others and goes back to page 1. |
| MoviesRoute.MoviesPage.HandleSearch | src/app/movies/page.tsx:167-170 | Sets the query and goes back to page 1. |
| MoviesRoute.MoviesPage.LoadMore | src/app/movies/page.tsx:172-174 | Increments the page unconditionally. |
| MoviesRoute.MoviesPage.ClearFilters | src/app/movies/page.tsx:375-382 | Default filters and an empty query; the page stays. |
| MoviesRoute.SearchWhileLoading | src/app/movies/page.tsx:86-160 | A search typed on page 1 while the first load is in flight does not change what it shows: `MoviesList` of the items under the default filters and the empty query. |
| KindPages.KindFilterFacts | src/app/movie/page.tsx:35-50 | An item is kept exactly when it has the type, matches a non-empty search and matches the genre unless `all`; the result keeps page order. |
| KindPages.KindFilterInactive | src/app/movie/page.tsx:35-50 | No search and `all` genres leave only the type filter. |
| KindPages.KindListOrdered | src/app/movie/page.tsx:35-66 | The shown page is a permutation of the filtered items, holds exactly the passing items, and is sorted by the chosen key or else in page order. |
| KindPages.KindListStable | src/app/movie/page.tsx:53-66 | Items tied under the chosen key keep their page order. |
| KindPages.FilterAndSortKind | src/app/movie/page.tsx:35-66 | The reassigned `finalMovies` ends as `KindList`. |
| MovieRoute.MoviePage.constructor | src/app/movie/page.tsx:13-20 | The initial state: page 1, empty query, genre `all`, sort `rating`. |
| MovieRoute.MoviePage.BeginLoad | src/app/movie/page.tsx:26-32 | Sets loading and clears the error, and captures the current page, query, genre and sort. |
| MovieRoute.MoviePage.FinishLoad | src/app/movie/page.tsx:26-81 | With the page, query, genre and sort the load captured: page 1 replaces the list with the `movie` items as filtered and sorted, and later pages append them. `hasMore` is "the filtered page is non-empty and the page is below 10". On rejection: the error text, list unchanged. |
| MovieRoute.MoviePage.LoadMore | src/app/movie/page.tsx:87-91 | Increments the page only when no load runs and `hasMore` holds. |
| MovieRoute.MoviePage.SetSearchQuery | src/app/movie/page.tsx:122 | Sets the query; the page stays. |
| MovieRoute.MoviePage.SetSelectedGenre | src/app/movie/page.tsx:132 | Sets the genre; the page stays. |
| MovieRoute.MoviePage.SetSortBy | src/app/movie/page.tsx:147 | Sets the sort; the page stays. |
| SeriesRoute.SeriesPage.constructor | src/app/series/page.tsx:13-20 | The initial state: page 1, empty query, genre `all`, sort `rating`. |
| SeriesRoute.SeriesPage.BeginLoad | src/app/series/page.tsx:26-32 | Sets loading and clears the error, and captures the current page, query, genre and sort. |
| SeriesRoute.SeriesPage.FinishLoad | src/app/series/page.tsx:26-81 | As for the movie page, on the `tv` items, with the `seasons` sort (a missing count is 0). |
| SeriesRoute.SeriesPage.LoadMore | src/app/series/page.tsx:87-91 | Increments the page only when no load runs and `hasMore` holds. |
| SeriesRoute.SeriesPage.SetSearchQuery | src/app/series/page.tsx:122 | Sets the query; the page stays. |
| SeriesRoute.SeriesPage.SetSelectedGenre | src/app/series/page.tsx:132 | Sets the genre; the page stays. |
| SeriesRoute.SeriesPage.SetSortBy | src/app/series/page.tsx:145 | Sets the sort; the page stays. |
| Slider.JsRem | src/components/HeroSlider.tsx:22 | JavaScript `%`: `NaN` exactly for a zero divisor; otherwise smaller in magnitude than the divisor, with the sign of the dividend. |
| Slider.NextWraps | src/components/HeroSlider.tsx:38-41 | From a slide in range, next moves one on and wraps from the last slide to the first. |
| Slider.PrevWraps | src/components/HeroSlider.tsx:33-36 | From a slide in range, previous moves one back and wraps from the first slide to the last. |
| Slider.NextPrevInverse | src/components/HeroSlider.tsx:33-41 | Next and previous undo each other on every slide in range. |
| Slider.EmptyTickSticks | src/components/HeroSlider.tsx:18-26 | A step with no films gives `NaN`, and no later step turns `NaN` back into a slide. |
| Slider.FilmAt | src/components/HeroSlider.tsx:45 | `films[currentIndex]` exists exactly when the index is in range. |
| Slider.HeroSlider.constructor | src/components/HeroSlider.tsx:15-16 | Index 0 with autoplay on. |
| Slider.HeroSlider.CurrentFilm | src/components/HeroSlider.tsx:43-61 | An empty list renders nothing. Otherwise the render shows `films[currentIndex]` exactly when the index is in range, and throws exactly when it is not, since reading `currentFilm.poster` of `undefined` fails. |
| Slider.EmptyTickThenRender | src/components/HeroSlider.tsx:18-61 | From the initial state, one interval tick while the list is empty makes the next render of any non-empty list throw. |
| Slider.ShrinkThenRender | src/components/HeroSlider.tsx:28-61 | After a dot selects the last slide, a render of a shorter non-empty list throws. |
| Slider.HeroSlider.GoToSlide | src/components/HeroSlider.tsx:28-31 | A dot sets the index and stops autoplay. |
| Slider.HeroSlider.GoToPrevious | src/components/HeroSlider.tsx:33-36 | One slide back, and autoplay stops. |
| Slider.HeroSlider.GoToNext | src/components/HeroSlider.tsx:38-41 | One slide on, and autoplay stops. |
| Slider.HeroSlider.Tick | src/components/HeroSlider.tsx:18-26 | The interval advances only while autoplay is on and never changes the flag. |
| Slider.HeroSlider.ToggleAutoPlay | src/components/HeroSlider.tsx:208 | Flips autoplay and leaves the slide. |
| Grid.VisibleFilms | src/components/ContentGrid.tsx:61 | `films.slice(0, visibleCount)` is a prefix of the films, of length `min(visibleCount, |films|)`. |
| Grid.Render | src/components/ContentGrid.tsx:85-236 | The skeleton (12 cards) shows exactly on a first load with no films. The error view shows exactly on a non-empty error otherwise, with that message and a retry button exactly when `onRefresh` was passed. The empty view shows exactly when nothing loads, no films exist and there is no error. The grid shows otherwise, and it then has films to show. |
| Grid.LoadMoreGuard | src/components/ContentGrid.tsx:38-59 | Without `onLoadMore` or without `hasMore` the observer never calls. When it calls, the grid's footer is the Load More button. |
| Grid.ShowMoreGrows | src/components/ContentGrid.tsx:222-233 | Show More keeps the shown films as a prefix and shows more while films are hidden. Every film shows exactly when `visibleCount >= |films|`. |
| Grid.ContentGrid.constructor | src/components/ContentGrid.tsx:30 | The window starts at 12. |
| Grid.ContentGrid.FilmsChanged | src/components/ContentGrid.tsx:34-36 | A new list resets the window to 12. |
| Grid.ContentGrid.ShowMore | src/components/ContentGrid.tsx:227 | The window grows by 12 and stays a positive multiple of 12. |
| Grid.ContentGrid.View | src/components/ContentGrid.tsx:61-236 | The rendered grid shows the current window and offers Show More exactly while films are hidden and there is no infinite scroll. |
| NavigationMenu.IsActiveMeaning | src/components/Navigation.tsx:44-47 | Home is active only on `/`. Any other link is active exactly on paths that begin with its `href`, including longer names such as `/moviesX`. |
| NavigationMenu.HandleSearch | src/components/Navigation.tsx:29-35 | Nothing happens exactly when the query is all whitespace. Otherwise `onSearch`, when passed, gets the untrimmed query, and the route is `/search?q=` followed by the encoded query. |
| NavigationMenu.Navigation.ToggleMenu | src/components/Navigation.tsx:125 | Flips the menu; nothing else changes. |
| NavigationMenu.Navigation.CloseMenu | src/components/Navigation.tsx:140-189 | Closes the menu; nothing else changes. |
| NavigationMenu.Navigation.constructor | src/components/Navigation.tsx:13-16 | Menu closed, not scrolled, empty query, not focused. |
| NavigationMenu.Navigation.SetSearchQuery | src/components/Navigation.tsx:103 | Sets the query; nothing else changes. |
| NavigationMenu.Navigation.SetSearchFocused | src/components/Navigation.tsx:104-105 | Focus sets the flag and blur clears it; nothing else changes. |
| NavigationMenu.Navigation.HandleScroll | src/components/Navigation.tsx:20-27 | Scrolled exactly when `scrollY > 20`, for any real `scrollY`, fractional ones included. |
| NavbarMenu.HandleSearch | src/components/Navbar.tsx:28-33 | `onSearch` is called exactly when the query is not all whitespace, with the trimmed query, which is non-empty and has no whitespace at either end. |
| NavbarMenu.HandleSearchIdempotent | src/components/Navbar.tsx:28-33 | Submitting the trimmed query again hands on the same text. |
| NavbarMenu.Navbar.constructor | src/components/Navbar.tsx:14-17 | Not scrolled, menu closed, not focused, with the parent's query. |
| NavbarMenu.Navbar.SetSearchQuery | src/components/Navbar.tsx:100 | Typing sets the parent's query; nothing else changes. |
| NavbarMenu.Navbar.SetSearchFocused | src/components/Navbar.tsx:101-102 | Focus sets the flag and blur clears it; nothing else changes. |
| NavbarMenu.Navbar.ClearSearch | src/components/Navbar.tsx:106-112 | The query becomes empty, and a submit then calls nothing. |
| NavbarMenu.Navbar.ToggleMobileMenu | src/components/Navbar.tsx:124 | Flips the mobile menu; nothing else changes. |
| NavbarMenu.Navbar.CloseMobileMenu | src/components/Navbar.tsx:160 | Closes the mobile menu; nothing else changes. |
| NavbarMenu.Navbar.HandleScroll | src/components/Navbar.tsx:19-26 | Scrolled exactly when `scrollY > 20`, for any real `scrollY`, fractional ones included. |
| ProfileRoute.WithoutIdFacts | src/app/profile/page.tsx:117-119 | After removal no item has the id and every other item remains, in order; a list without the id comes back unchanged. |
| ProfileRoute.WithoutIdIdempotent | src/app/profile/page.tsx:117-119 | Removing an id twice is removing it once. |
| ProfileRoute.ProfilePage.constructor | src/app/profile/page.tsx:43-105 | On the history tab, not editing, with the edit copy equal to the profile. |
| ProfileRoute.ProfilePage.StartEdit | src/app/profile/page.tsx:205 | Opens the form; nothing else changes. |
| ProfileRoute.ProfilePage.EditName | src/app/profile/page.tsx:155 | Changes only the name of the edit copy. |
| ProfileRoute.ProfilePage.EditEmail | src/app/profile/page.tsx:161 | Changes only the email of the edit copy. |
| ProfileRoute.ProfilePage.SaveProfile | src/app/profile/page.tsx:107-110 | The edit copy becomes the profile and the form closes. |
| ProfileRoute.ProfilePage.CancelEdit | src/app/profile/page.tsx:112-115 | The edit copy returns to the profile and the form closes. |
| ProfileRoute.ProfilePage.RemoveFromWatchlist | src/app/profile/page.tsx:117-119 | The watchlist loses the id and the profile, with its `watchlistCount`, stays unchanged. |
| ProfileRoute.ProfilePage.SetActiveTab | src/app/profile/page.tsx:232-239 | Switches the tab; nothing else changes. |
| SettingsRoute.WithProfileField | src/app/settings/page.tsx:83-91 | Sets one profile field, keeps the others and leaves the other sections unchanged. |
| SettingsRoute.WithNotification | src/app/settings/page.tsx:93-101 | Sets one notification flag, keeps the others and leaves the other sections unchanged. |
| SettingsRoute.WithPreference | src/app/settings/page.tsx:103-111 | Sets one preference, keeps the others and leaves the other sections unchanged. |
| SettingsRoute.ToggleNotification | src/app/settings/page.tsx:287-355 | A toggle button flips its own flag, keeps the other four and leaves the profile and preferences unchanged. |
| SettingsRoute.ToggleNotificationTwice | src/app/settings/page.tsx:287-355 | Pressing a notification toggle twice restores the settings. |
| SettingsRoute.FlipShown | src/app/settings/page.tsx:222-264 | An eye button flips its own flag and keeps the other two. |
| SettingsRoute.FlipShownTwice | src/app/settings/page.tsx:222-264 | Pressing an eye button twice restores the flags. |
| SettingsRoute.SettingsPage.constructor | src/app/settings/page.tsx:36-68 | The profile tab, all passwords hidden, and the initial settings. |
| SettingsRoute.SettingsPage.HandleProfileChange | src/app/settings/page.tsx:83-91 | The settings become `WithProfileField` of the old settings; tab and flags stay. |
| SettingsRoute.SettingsPage.HandleNotificationChange | src/app/settings/page.tsx:93-101 | The settings become `WithNotification` of the old settings; tab and flags stay. |
| SettingsRoute.SettingsPage.HandlePreferenceChange | src/app/settings/page.tsx:103-111 | The settings become `WithPreference` of the old settings; tab and flags stay. |
| SettingsRoute.SettingsPage.TogglePassword | src/app/settings/page.tsx:222-264 | The flags become `FlipShown` of the old flags; the settings stay. |
| SettingsRoute.SettingsPage.SetActiveTab | src/app/settings/page.tsx:132-154 | Switches the tab; nothing else changes. |
| Text.Lower | src/app/anime/page.tsx:100 | `toLowerCase` keeps the length and lower-cases each character. |
| Text.LowerIdempotent | src/app/anime/page.tsx:100 | Lower-casing twice is lower-casing once. |
| Text.ContainsIff | src/app/anime/page.tsx:100 | `includes` holds exactly when the text occurs at some position. |
| Text.Trim | src/components/Navbar.tsx:30-31 | `trim` is the slice between the leading and the trailing whitespace, with no whitespace at either end. |
| Text.TrimEmptyIff | src/components/Navbar.tsx:30 | `trim` is empty exactly when the string is all whitespace. |
| Text.NatToStringInjective | src/lib/api.ts:188 | Distinct page numbers print differently. |
| Text.ParseIntOfNat | src/app/movies/page.tsx:112 | `parseInt` reads back a printed whole number. |
| Text.ParseFloatOfNat | src/app/movies/page.tsx:123 | `parseFloat` of a printed whole number is that number. |
| Text.RemoveFirst | src/app/movies/page.tsx:123 | `replace('+', '')` removes the first `+`, or nothing when none occurs. |
| Text.StrLtTotal | src/app/anime/page.tsx:125-128 | Any two strings are equal or ordered one way or the other. |
| Text.StrLtTransitive | src/app/anime/page.tsx:125-128 | The string order is transitive. |

## Left out

- The network and JSON. `fetch` is a function from URL to response: `None` when
  the request rejects. Bodies are opaque JSON text.
- Malformed storage. A stored entry is always a `{ data, timestamp }` record.
  The empty string that `if (cached)` skips, and a value that `JSON.parse`
  throws on, are not modelled.
- Time. `Date.now()` becomes two parameters: the time of the lookup and the time
  of the write.
- Browser APIs.
  - `typeof window` is the flag `hasWindow`.
  - `encodeURIComponent` is a function parameter.
  - `window.scrollY` is a `real` argument; floating-point rounding is not modelled.
  - `router.push` is the route returned by `NavigationMenu.HandleSearch`.
  - The `IntersectionObserver` is modelled only as the predicate of when its
    callback calls `onLoadMore`.
- Timers. The autoplay interval is the method `Slider.HeroSlider.Tick`. When an
  interval is set up or cleared is not modelled.
- React effects and scheduling. When an effect re-runs a load is the caller's
  business. Two consequences follow:
  - On the anime and movies pages, changing only `searchQuery` starts no load.
  - Overlapping loads and out-of-order responses are not modelled.
- Rendering. Markup, styles, animation and images are not modelled, except as
  the `Grid.View` choice.
- `handleSave` on the settings page (a simulated delay and an alert) is not part
  of this model.
- `watchHistory` on the profile page is a constant that no handler changes, so it
  is not modelled.
- No lemmas are stated about the literal mock contents beyond `Api.MockResponse`.
- `Array.prototype.sort` is library code. It is modelled as a stable insertion
  sort, which meets the ECMAScript requirements: a permutation, ordered, stable.
- `localeCompare` is modelled as lexicographic order on Unicode code points (Dafny `char`s). This differs from both the locale's collation and UTF-16 code-unit order.
- `toLowerCase` is modelled on ASCII letters only.
- `parseInt` and `parseFloat` are modelled on an optional sign and decimal
  digits (with a fraction for `parseFloat`) after leading whitespace. Anything
  else they accept is not modelled.
- Ratings are exact `real`s, not IEEE doubles.
- On a Film, the description, player URL and episode list are not modelled.
- Slider.HeroSlider.CurrentFilm: the `TypeError` a render throws is the outcome `Throws`. What React then does with it (an error boundary, an unmounted tree) is not modelled.
- Slider.HeroSlider.GoToSlide: a dot passes any integer. Nothing relates it to
  the number of films, as in the source.
- SettingsRoute.WithPreference: requires a value of the field's kind (text for
  the selects and buttons, a switch for the toggles), which every control
  passes. An ill-typed call, which TypeScript allows through `any`, is not
  modelled.
- KindPages.KindListStable: stated only for orders defined on every item. The
  movie and series pages use no `parseInt` sort.
- MoviesRoute.MoviesSortStable: requires every year on the page to parse. With
  a `NaN` year the `parseInt` comparators are not consistent, so ECMAScript
  leaves the order to the implementation.
- Catalog.SortFilmsStable: requires a consistent comparator, for the same reason.
