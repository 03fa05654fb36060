/**
 * `Navigation`: the active-link test against the current path, the search
 * form that hands the untrimmed query on and routes to `/search`, and the
 * mobile menu and scroll flags.
 */
module NavigationMenu {
  import opened Common
  import opened Text

  /** The `href`s of the links, in order. */
  const NavItems: seq<string> := ["/", "/movies", "/series", "/anime"]

  /** How far the page scrolls before the bar turns opaque. */
  const ScrollThreshold: int := 20

  /** `isActive(href)` on `pathname`. */
  predicate IsActive(pathname: string, href: string) {
    if href == "/" then pathname == "/" else StartsWith(pathname, href)
  }

  /**
   * Home is active only on `/` itself; any other link is active on every
   * path that starts with its `href`, so the test is on characters, not on
   * path segments.
   */
  lemma IsActiveMeaning(pathname: string, href: string, suffix: string)
    ensures IsActive(pathname, "/") <==> pathname == "/"
    ensures href != "/" ==>
              (IsActive(pathname, href) <==> |href| <= |pathname| && pathname[..|href|] == href)
    ensures href != "/" ==> IsActive(href + suffix, href)
  {
    assert (href + suffix)[..|href|] == href;
  }

  /** What a submit of the search form does. */
  datatype SearchEffect =
    | NoSearch
    | Submit(callback: Option<string>, route: string)   // `onSearch?.(query)` when passed, then `router.push(route)`

  /**
   * `handleSearch` on `searchQuery`. `encode` stands for
   * `encodeURIComponent`, `hasOnSearch` for whether the prop was passed.
   */
  function HandleSearch(query: string, hasOnSearch: bool, encode: string -> string): (e: SearchEffect)
    ensures e.NoSearch? <==> forall i :: 0 <= i < |query| ==> IsWhite(query[i])
    ensures e.Submit? ==> e.route == "/search?q=" + encode(query)
    ensures e.Submit? ==> (e.callback.Some? <==> hasOnSearch)
    ensures e.Submit? && e.callback.Some? ==> e.callback.value == query
  {
    TrimEmptyIff(query);
    if Trim(query) != "" then
      Submit(if hasOnSearch then Some(query) else None, "/search?q=" + encode(query))
    else NoSearch
  }

  /** The state of `Navigation`. */
  class Navigation {
    var isMenuOpen: bool
    var isScrolled: bool
    var searchQuery: string
    var isSearchFocused: bool

    constructor()
      ensures !isMenuOpen && !isScrolled && searchQuery == "" && !isSearchFocused
    {
      isMenuOpen := false;
      isScrolled := false;
      searchQuery := "";
      isSearchFocused := false;
    }

    /** The menu button. */
    method ToggleMenu()
      modifies this
      ensures isMenuOpen == !old(isMenuOpen)
      ensures unchanged(this`isScrolled, this`searchQuery, this`isSearchFocused)
    {
      isMenuOpen := !isMenuOpen;
    }

    /** The overlay, the close button and every mobile link. */
    method CloseMenu()
      modifies this
      ensures !isMenuOpen
      ensures unchanged(this`isScrolled, this`searchQuery, this`isSearchFocused)
    {
      isMenuOpen := false;
    }

    /** Typing in either search box. */
    method SetSearchQuery(query: string)
      modifies this
      ensures searchQuery == query
      ensures unchanged(this`isMenuOpen, this`isScrolled, this`isSearchFocused)
    {
      searchQuery := query;
    }

    /** Focus and blur of the desktop search box. */
    method SetSearchFocused(focused: bool)
      modifies this
      ensures isSearchFocused == focused
      ensures unchanged(this`isMenuOpen, this`isScrolled, this`searchQuery)
    {
      isSearchFocused := focused;
    }

    /** The scroll listener, given `window.scrollY` (a double, fractional on a zoomed page). */
    method HandleScroll(scrollY: real)
      modifies this
      ensures isScrolled <==> scrollY > ScrollThreshold as real
      ensures unchanged(this`isMenuOpen, this`searchQuery, this`isSearchFocused)
    {
      isScrolled := scrollY > ScrollThreshold as real;
    }
  }
}
