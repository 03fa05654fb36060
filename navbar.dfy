/**
 * `Navbar`: the search form that hands the trimmed query to `onSearch`,
 * the clear button, and the mobile menu and scroll flags. The query itself
 * is the parent's state; `searchQuery` here is that state as the bar reads
 * and sets it.
 */
module NavbarMenu {
  import opened Common
  import opened Text

  const ScrollThreshold: int := 20

  /** `handleSearch`: the argument `onSearch` is called with, if it is called. */
  function HandleSearch(query: string): (r: Option<string>)
    ensures r.None? <==> forall i :: 0 <= i < |query| ==> IsWhite(query[i])
    ensures r.Some? ==> r.value == Trim(query)
    ensures r.Some? ==> r.value != "" && !IsWhite(r.value[0]) && !IsWhite(r.value[|r.value| - 1])
  {
    TrimEmptyIff(query);
    if Trim(query) != "" then Some(Trim(query)) else None
  }

  /** Submitting the query that was handed on hands on the same text again. */
  lemma HandleSearchIdempotent(query: string)
    requires HandleSearch(query).Some?
    ensures HandleSearch(HandleSearch(query).value) == HandleSearch(query)
  {
    var r := Trim(query);
    assert TrimStart(r) == r;
    assert TrimEnd(r) == r;
  }

  /** The state of `Navbar`. */
  class Navbar {
    var isScrolled: bool
    var isMobileMenuOpen: bool
    var isSearchFocused: bool
    var searchQuery: string

    constructor(query: string)
      ensures !isScrolled && !isMobileMenuOpen && !isSearchFocused && searchQuery == query
    {
      isScrolled := false;
      isMobileMenuOpen := false;
      isSearchFocused := false;
      searchQuery := query;
    }

    /** Typing in the search box calls the parent's setter. */
    method SetSearchQuery(query: string)
      modifies this
      ensures searchQuery == query
      ensures unchanged(this`isScrolled, this`isMobileMenuOpen, this`isSearchFocused)
    {
      searchQuery := query;
    }

    /** The clear button; afterwards a submit calls nothing. */
    method ClearSearch()
      modifies this
      ensures searchQuery == "" && HandleSearch(searchQuery).None?
      ensures unchanged(this`isScrolled, this`isMobileMenuOpen, this`isSearchFocused)
    {
      searchQuery := "";
    }

    /** The mobile menu button. */
    method ToggleMobileMenu()
      modifies this
      ensures isMobileMenuOpen == !old(isMobileMenuOpen)
      ensures unchanged(this`isScrolled, this`isSearchFocused, this`searchQuery)
    {
      isMobileMenuOpen := !isMobileMenuOpen;
    }

    /** A link in the mobile menu. */
    method CloseMobileMenu()
      modifies this
      ensures !isMobileMenuOpen
      ensures unchanged(this`isScrolled, this`isSearchFocused, this`searchQuery)
    {
      isMobileMenuOpen := false;
    }

    /** Focus and blur of the search box. */
    method SetSearchFocused(focused: bool)
      modifies this
      ensures isSearchFocused == focused
      ensures unchanged(this`isScrolled, this`isMobileMenuOpen, this`searchQuery)
    {
      isSearchFocused := focused;
    }

    /** The scroll listener, given `window.scrollY` (a double, fractional on a zoomed page). */
    method HandleScroll(scrollY: real)
      modifies this
      ensures isScrolled <==> scrollY > ScrollThreshold as real
      ensures unchanged(this`isMobileMenuOpen, this`isSearchFocused, this`searchQuery)
    {
      isScrolled := scrollY > ScrollThreshold as real;
    }
  }
}
