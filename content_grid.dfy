/**
 * `ContentGrid`: the `visibleCount` window over `films`, the choice of what
 * to render (skeleton, error, empty view or grid), and when the infinite
 * scroll observer asks the parent for more.
 */
module Grid {
  import opened Common
  import opened Catalog

  /** The initial window, the Show More step and the number of skeleton cards. */
  const PageSize: nat := 12

  /**
   * The props as the component reads them. An absent optional prop is
   * falsy: `error` holds `""` or is `None`, `hasMore` and `loadingMore`
   * are `false`, `hasLoadMore` and `hasRefresh` say whether the callbacks
   * were passed.
   */
  datatype Props = Props(
    title: string,
    films: seq<Film>,
    loading: bool,
    error: Option<string>,
    hasLoadMore: bool,
    hasMore: bool,
    loadingMore: bool,
    hasRefresh: bool)

  /** What sits under the grid while `hasMore` holds. */
  datatype Footer = NoFooter | LoadingMoreNote | LoadMoreButton

  /** The four returns of the component. */
  datatype View =
    | Skeleton(placeholders: nat)
    | ErrorView(message: string, retry: bool)
    | EmptyView
    | GridView(title: string, visible: seq<Film>, refresh: bool, footer: Footer, showMore: bool)

  /** `if (error)`: a non-empty message. */
  predicate HasError(p: Props) {
    p.error.Some? && p.error.value != ""
  }

  function Min(a: nat, b: nat): nat {
    if a <= b then a else b
  }

  /** `films.slice(0, visibleCount)`: the first films, in order. */
  function VisibleFilms(films: seq<Film>, visibleCount: nat): (r: seq<Film>)
    ensures |r| == Min(visibleCount, |films|)
    ensures r <= films
  {
    films[..Min(visibleCount, |films|)]
  }

  /** The Show More button is offered while films are hidden and there is no infinite scroll. */
  predicate ShowMoreOffered(p: Props, visibleCount: nat) {
    visibleCount < |p.films| && !p.hasLoadMore
  }

  function FooterOf(p: Props): Footer {
    if !p.hasMore then NoFooter else if p.loadingMore then LoadingMoreNote else LoadMoreButton
  }

  /**
   * The render: each `return` in the order the component tries them. A
   * first load with nothing to show beats an error, an error beats the
   * empty view, and anything else is the grid, which then always has
   * films to show.
   */
  function Render(p: Props, visibleCount: nat): (v: View)
    ensures v.Skeleton? <==> p.loading && |p.films| == 0
    ensures v.Skeleton? ==> v.placeholders == 12
    ensures v.ErrorView? <==> !(p.loading && |p.films| == 0) && HasError(p)
    ensures v.ErrorView? ==> v.message == p.error.value && (v.retry <==> p.hasRefresh)
    ensures v.EmptyView? <==> !p.loading && |p.films| == 0 && !HasError(p)
    ensures v.GridView? <==> |p.films| > 0 && !HasError(p)
    ensures v.GridView? && visibleCount > 0 ==> v.visible != []
  {
    if p.loading && |p.films| == 0 then Skeleton(PageSize)
    else if HasError(p) then ErrorView(p.error.value, p.hasRefresh)
    else if !p.loading && |p.films| == 0 then EmptyView
    else GridView(p.title, VisibleFilms(p.films, visibleCount), p.hasRefresh, FooterOf(p),
                  ShowMoreOffered(p, visibleCount))
  }

  /** The observer is set up only when the parent passed `onLoadMore` and says there is more. */
  predicate ObserverArmed(p: Props) {
    p.hasLoadMore && p.hasMore
  }

  /** The observer callback calls `onLoadMore` when the sentinel comes into view and no load is under way. */
  predicate CallsLoadMore(p: Props, isIntersecting: bool) {
    ObserverArmed(p) && isIntersecting && !p.loadingMore
  }

  /**
   * Without `onLoadMore` or without `hasMore` nothing is ever called; when
   * the observer does call, the grid footer is the Load More button, not
   * the loading note.
   */
  lemma LoadMoreGuard(p: Props, isIntersecting: bool, visibleCount: nat)
    ensures !p.hasLoadMore || !p.hasMore ==> !CallsLoadMore(p, isIntersecting)
    ensures CallsLoadMore(p, isIntersecting) ==> FooterOf(p) == LoadMoreButton
    ensures CallsLoadMore(p, isIntersecting) && |p.films| > 0 && !HasError(p) ==>
              Render(p, visibleCount).GridView? && Render(p, visibleCount).footer == LoadMoreButton
  {
  }

  /**
   * One Show More step shows every film shown before and, while films
   * were hidden, more of them; the button stays offered exactly until
   * every film shows.
   */
  lemma {:induction false} ShowMoreGrows(films: seq<Film>, visibleCount: nat)
    ensures VisibleFilms(films, visibleCount) <= VisibleFilms(films, visibleCount + PageSize)
    ensures visibleCount < |films| ==>
              |VisibleFilms(films, visibleCount + PageSize)| > |VisibleFilms(films, visibleCount)|
    ensures VisibleFilms(films, visibleCount) == films <==> visibleCount >= |films|
  {
    var a, b := VisibleFilms(films, visibleCount), VisibleFilms(films, visibleCount + PageSize);
    assert a == films[..|a|] && b == films[..|b|];
    assert b[..|a|] == a;
  }

  /** The `visibleCount` state of `ContentGrid`. */
  class ContentGrid {
    var visibleCount: nat

    /** The window is a positive whole number of pages. */
    predicate Valid()
      reads this
    {
      visibleCount >= PageSize && visibleCount % PageSize == 0
    }

    constructor()
      ensures visibleCount == PageSize && Valid()
    {
      visibleCount := PageSize;
    }

    /** The effect on `films`: a new list starts from the first window again. */
    method FilmsChanged()
      modifies this
      ensures visibleCount == PageSize && Valid()
    {
      visibleCount := PageSize;
    }

    /** The Show More button: one more window. */
    method ShowMore()
      requires Valid()
      modifies this
      ensures visibleCount == old(visibleCount) + PageSize && Valid()
    {
      visibleCount := visibleCount + PageSize;
    }

    /** What the component renders for the given props. */
    function View(p: Props): (v: View)
      reads this
      ensures v.GridView? ==> v.visible == VisibleFilms(p.films, visibleCount)
      ensures v.GridView? ==> (v.showMore <==> visibleCount < |p.films| && !p.hasLoadMore)
    {
      Render(p, visibleCount)
    }
  }
}
