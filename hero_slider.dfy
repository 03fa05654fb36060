/**
 * The carousel of `HeroSlider`: a `currentIndex` moved by the arrows, the
 * dots and a 5-second interval while `isAutoPlaying` holds. The index is a
 * JavaScript number: with no films `(prev + 1) % 0` is `NaN`, and `NaN`
 * stays `NaN` under every later step.
 */
module Slider {
  import opened Common
  import opened Catalog

  /** A JavaScript number as the slider can reach it: an integer or `NaN`. */
  datatype SlideIndex = At(i: int) | NaN

  function Abs(n: int): nat {
    if n < 0 then -n else n
  }

  /** `a % n` in JavaScript: `NaN` for `n == 0`, otherwise the remainder truncated toward zero. */
  function JsRem(a: int, n: int): (r: SlideIndex)
    ensures n == 0 <==> r.NaN?
    ensures r.At? ==> Abs(r.i) < Abs(n)
    ensures r.At? && a >= 0 ==> r.i >= 0
    ensures r.At? && a < 0 ==> r.i <= 0
  {
    if n == 0 then NaN
    else if a >= 0 then At(a % Abs(n))
    else At(-((-a) % Abs(n)))
  }

  /** `(prev + 1) % films.length`. */
  function NextIndex(idx: SlideIndex, n: nat): SlideIndex {
    match idx
    case NaN => NaN
    case At(k) => JsRem(k + 1, n)
  }

  /** `(prev - 1 + films.length) % films.length`. */
  function PrevIndex(idx: SlideIndex, n: nat): SlideIndex {
    match idx
    case NaN => NaN
    case At(k) => JsRem(k - 1 + n, n)
  }

  /** The index names one of `n` slides. */
  predicate InRange(idx: SlideIndex, n: nat) {
    idx.At? && 0 <= idx.i < n
  }

  /** Next wraps from the last slide to the first and otherwise moves one on. */
  lemma NextWraps(k: int, n: nat)
    requires 0 <= k < n
    ensures NextIndex(At(k), n) == At((k + 1) % n)
    ensures NextIndex(At(k), n) == if k + 1 == n then At(0) else At(k + 1)
    ensures InRange(NextIndex(At(k), n), n)
  {
    if k + 1 < n {
      ModSmall(k + 1, n);
    } else {
      ModSelf(n);
    }
  }

  /** Previous wraps from the first slide to the last and otherwise moves one back. */
  lemma PrevWraps(k: int, n: nat)
    requires 0 <= k < n
    ensures PrevIndex(At(k), n) == At((k - 1 + n) % n)
    ensures PrevIndex(At(k), n) == if k == 0 then At(n - 1) else At(k - 1)
    ensures InRange(PrevIndex(At(k), n), n)
  {
    if k > 0 {
      ModShift(k - 1, n);
    } else {
      ModSmall(n - 1, n);
    }
  }

  /** A remainder below the modulus is the number itself. */
  lemma ModSmall(x: int, n: int)
    requires 0 <= x < n
    ensures x % n == x
  {
  }

  lemma ModSelf(n: int)
    requires n > 0
    ensures n % n == 0
  {
  }

  /** Adding the modulus once changes no remainder below it. */
  lemma ModShift(x: int, n: int)
    requires 0 <= x < n
    ensures (x + n) % n == x
  {
  }

  /** Previous after next, and next after previous, come back to the same slide. */
  lemma NextPrevInverse(idx: SlideIndex, n: nat)
    requires InRange(idx, n)
    ensures PrevIndex(NextIndex(idx, n), n) == idx
    ensures NextIndex(PrevIndex(idx, n), n) == idx
  {
    NextWraps(idx.i, n);
    PrevWraps(idx.i, n);
    NextWraps(PrevIndex(idx, n).i, n);
    PrevWraps(NextIndex(idx, n).i, n);
  }

  /**
   * A tick with no films turns the index into `NaN`, which no later
   * step, whatever the number of films then, turns back into a slide.
   */
  lemma EmptyTickSticks(idx: SlideIndex, n: nat)
    ensures NextIndex(idx, 0) == NaN && PrevIndex(idx, 0) == NaN
    ensures NextIndex(NaN, n) == NaN && PrevIndex(NaN, n) == NaN
    ensures !InRange(NaN, n)
  {
  }

  /** `films[currentIndex]`, or nothing when the index names no film. */
  function FilmAt(films: seq<Film>, idx: SlideIndex): (r: Option<Film>)
    ensures r.Some? <==> InRange(idx, |films|)
    ensures r.Some? ==> r.value == films[idx.i]
  {
    if InRange(idx, |films|) then Some(films[idx.i]) else None
  }

  /** The outcome of one render: `return null`, the slide of a film, or a `TypeError`. */
  datatype Frame = Hidden | Showing(film: Film) | Throws

  /** The state of `HeroSlider`. */
  class HeroSlider {
    var currentIndex: SlideIndex
    var isAutoPlaying: bool

    constructor()
      ensures currentIndex == At(0) && isAutoPlaying
    {
      currentIndex := At(0);
      isAutoPlaying := true;
    }

    /**
     * What a render of the slider does: nothing for an empty list, the
     * slide of the film at the index, or a throw when the index names no
     * film, since `currentFilm` is then `undefined`.
     */
    function CurrentFilm(films: seq<Film>): (r: Frame)
      reads this
      ensures r.Hidden? <==> films == []
      ensures r.Showing? <==> InRange(currentIndex, |films|)
      ensures r.Showing? ==> r.film == films[currentIndex.i]
      ensures r.Throws? <==> films != [] && !InRange(currentIndex, |films|)
    {
      if |films| == 0 then Hidden
      else match FilmAt(films, currentIndex)
        case Some(f) => Showing(f)
        case None => Throws
    }

    /** A dot: that slide, and autoplay stops. */
    method GoToSlide(index: int)
      modifies this
      ensures currentIndex == At(index) && !isAutoPlaying
    {
      currentIndex := At(index);
      isAutoPlaying := false;
    }

    /** The left arrow: one slide back, and autoplay stops. */
    method GoToPrevious(filmCount: nat)
      modifies this
      ensures currentIndex == PrevIndex(old(currentIndex), filmCount) && !isAutoPlaying
    {
      currentIndex := PrevIndex(currentIndex, filmCount);
      isAutoPlaying := false;
    }

    /** The right arrow: one slide on, and autoplay stops. */
    method GoToNext(filmCount: nat)
      modifies this
      ensures currentIndex == NextIndex(old(currentIndex), filmCount) && !isAutoPlaying
    {
      currentIndex := NextIndex(currentIndex, filmCount);
      isAutoPlaying := false;
    }

    /** The interval fires: it only runs while autoplay is on, and never touches the flag. */
    method Tick(filmCount: nat)
      modifies this
      ensures currentIndex == if old(isAutoPlaying) then NextIndex(old(currentIndex), filmCount)
                              else old(currentIndex)
      ensures isAutoPlaying == old(isAutoPlaying)
    {
      if isAutoPlaying {
        currentIndex := NextIndex(currentIndex, filmCount);
      }
    }

    /** The autoplay button flips the flag and leaves the slide. */
    method ToggleAutoPlay()
      modifies this
      ensures isAutoPlaying == !old(isAutoPlaying) && currentIndex == old(currentIndex)
    {
      isAutoPlaying := !isAutoPlaying;
    }
  }

  /**
   * The interval fires once while the list is empty; once films arrive,
   * the next render throws instead of showing the first of them.
   */
  method EmptyTickThenRender(films: seq<Film>) returns (r: Frame)
    requires films != []
    ensures r == Throws
  {
    var slider := new HeroSlider();
    slider.Tick(0);
    r := slider.CurrentFilm(films);
  }

  /** A dot picks the last slide; if the list then shrinks below it, the next render throws. */
  method ShrinkThenRender(films: seq<Film>, kept: nat) returns (r: Frame)
    requires 0 < kept < |films|
    ensures r == Throws
  {
    var slider := new HeroSlider();
    slider.GoToSlide(|films| - 1);
    r := slider.CurrentFilm(films[..kept]);
  }
}
