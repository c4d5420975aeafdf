/** The home page's hero carousel (components/home/HeroCarousel.tsx): a slide
    index that wraps around, moved by arrows, dots, a timer and mouse or touch
    swipes. Cursor and touch positions are whole pixels; timers become the `Tick` method. */
module Carousel {

  /** JavaScript's `%` on integers: the remainder takes the dividend's sign. */
  function JsRem(a: int, b: int): (r: int)
    requires b > 0
    ensures a >= 0 ==> 0 <= r < b && r == a % b
    ensures a < 0 ==> -b < r <= 0
  {
    if a >= 0 then a % b else -((-a) % b)
  }

  /** The slide after `i`, wrapping from the last to the first. */
  function NextIndex(i: int, n: int): (r: int)
    requires n > 0 && 0 <= i < n
    ensures 0 <= r < n
    ensures r == if i == n - 1 then 0 else i + 1
  {
    JsRem(i + 1, n)
  }

  /** The slide before `i`, wrapping from the first to the last. */
  function PrevIndex(i: int, n: int): (r: int)
    requires n > 0 && 0 <= i < n
    ensures 0 <= r < n
    ensures r == if i == 0 then n - 1 else i - 1
  {
    JsRem(i - 1 + n, n)
  }

  /** Next and previous undo each other. */
  lemma NextPrevInverse(i: int, n: int)
    requires n > 0 && 0 <= i < n
    ensures PrevIndex(NextIndex(i, n), n) == i
    ensures NextIndex(PrevIndex(i, n), n) == i
  {
  }

  /** `k` steps forward from `i`. */
  function Advance(i: int, n: int, k: nat): (r: int)
    requires n > 0 && 0 <= i < n
    ensures 0 <= r < n
    decreases k
  {
    if k == 0 then i else NextIndex(Advance(i, n, k - 1), n)
  }

  /** Short of the last slide, `k` steps forward are `k` slides further. */
  lemma {:induction false} AdvanceWithinRound(i: int, n: int, k: nat)
    requires n > 0 && 0 <= i && i + k < n
    ensures Advance(i, n, k) == i + k
    decreases k
  {
    if k > 0 {
      AdvanceWithinRound(i, n, k - 1);
    }
  }

  /** Steps compose: `a` steps and then `b` steps are `a + b` steps. */
  lemma {:induction false} AdvanceAdd(i: int, n: int, a: nat, b: nat)
    requires n > 0 && 0 <= i < n
    ensures Advance(i, n, a + b) == Advance(Advance(i, n, a), n, b)
    decreases b
  {
    if b > 0 {
      AdvanceAdd(i, n, a, b - 1);
    }
  }

  /** A full round of `n` steps returns to the starting slide. */
  lemma FullRoundReturns(i: int, n: int)
    requires n > 0 && 0 <= i < n
    ensures Advance(i, n, n) == i
  {
    AdvanceAdd(i, n, n - i, i);
    AdvanceWithinRound(i, n, n - i - 1);
    assert Advance(i, n, n - i) == 0;
    AdvanceWithinRound(0, n, i);
  }

  /** So the slide shown after `k` steps depends on `k` only modulo `n`. */
  lemma AdvancePeriodic(i: int, n: int, k: nat)
    requires n > 0 && 0 <= i < n
    ensures Advance(i, n, k + n) == Advance(i, n, k)
  {
    AdvanceAdd(i, n, n, k);
    FullRoundReturns(i, n);
  }

  /** The drag distance beyond which a release changes slide. */
  const SwipeThreshold: int := 50

  /** The slide after releasing a drag of `dx` pixels: right past the
      threshold goes back, left past it goes forward, anything shorter stays. */
  function SwipeTarget(i: int, n: int, dx: int): (r: int)
    requires n > 0 && 0 <= i < n
    ensures 0 <= r < n
    ensures dx > SwipeThreshold ==> r == PrevIndex(i, n)
    ensures dx < -SwipeThreshold ==> r == NextIndex(i, n)
    ensures -SwipeThreshold <= dx <= SwipeThreshold ==> r == i
  {
    if dx > 50 then PrevIndex(i, n) else if dx < -50 then NextIndex(i, n) else i
  }

  /** A swipe undone by a swipe of the same length the other way returns to
      the starting slide. */
  lemma SwipeBackReturns(i: int, n: int, dx: int)
    requires n > 0 && 0 <= i < n
    ensures SwipeTarget(SwipeTarget(i, n, dx), n, -dx) == i
  {
    NextPrevInverse(i, n);
  }

  /** The carousel's state. `count` is the number of slides, which the home
      page only renders when positive. */
  class Carousel {
    const count: int
    const autoPlayInterval: int
    var currentIndex: int
    var isDragging: bool
    var startX: int
    var translateX: int

    ghost predicate Valid()
      reads this
    {
      count > 0 && 0 <= currentIndex < count
    }

    constructor (count: int, autoPlayInterval: int)
      requires count > 0
      ensures Valid() && this.count == count && this.autoPlayInterval == autoPlayInterval
      ensures currentIndex == 0 && !isDragging && startX == 0 && translateX == 0
    {
      this.count := count;
      this.autoPlayInterval := autoPlayInterval;
      currentIndex := 0;
      isDragging := false;
      startX := 0;
      translateX := 0;
    }

    /** The next-arrow. */
    method Next()
      requires Valid()
      modifies this`currentIndex
      ensures Valid() && currentIndex == NextIndex(old(currentIndex), count)
    {
      currentIndex := (currentIndex + 1) % count;
    }

    /** The previous-arrow. */
    method Prev()
      requires Valid()
      modifies this`currentIndex
      ensures Valid() && currentIndex == PrevIndex(old(currentIndex), count)
    {
      currentIndex := (currentIndex - 1 + count) % count;
    }

    /** A dot: its index is one of the slides'. */
    method GoToSlide(index: int)
      requires Valid() && 0 <= index < count
      modifies this`currentIndex
      ensures Valid() && currentIndex == index
    {
      currentIndex := index;
    }

    /** The auto-play timer firing; an interval of 0 sets no timer. */
    method Tick()
      requires Valid()
      modifies this`currentIndex
      ensures Valid()
      ensures autoPlayInterval == 0 ==> currentIndex == old(currentIndex)
      ensures autoPlayInterval != 0 ==> currentIndex == NextIndex(old(currentIndex), count)
    {
      if autoPlayInterval == 0 {
        return;
      }
      Next();
    }

    method MouseDown(pageX: int)
      modifies this`isDragging, this`startX
      ensures isDragging && startX == pageX
    {
      isDragging := true;
      startX := pageX;
    }

    /** Dragging follows the cursor; without a drag the move is ignored. */
    method MouseMove(pageX: int)
      modifies this`translateX
      ensures translateX == if isDragging then pageX - startX else old(translateX)
    {
      if !isDragging {
        return;
      }
      translateX := pageX - startX;
    }

    /** Ends a drag: the slide changes by the swipe rule and the offset resets. */
    method Release()
      requires Valid()
      modifies this`currentIndex, this`translateX
      ensures Valid() && translateX == 0
      ensures currentIndex == SwipeTarget(old(currentIndex), count, old(translateX))
    {
      if translateX > 50 {
        Prev();
      } else if translateX < -50 {
        Next();
      }
      translateX := 0;
    }

    /** Mouse release; without a drag nothing changes. */
    method MouseUp()
      requires Valid()
      modifies this`isDragging, this`currentIndex, this`translateX
      ensures Valid() && !isDragging
      ensures !old(isDragging) ==> currentIndex == old(currentIndex) && translateX == old(translateX)
      ensures old(isDragging) ==>
        currentIndex == SwipeTarget(old(currentIndex), count, old(translateX)) && translateX == 0
    {
      if !isDragging {
        return;
      }
      isDragging := false;
      Release();
    }

    /** Leaving the carousel ends a drag like a release. */
    method MouseLeave()
      requires Valid()
      modifies this`isDragging, this`currentIndex, this`translateX
      ensures Valid() && !isDragging
      ensures !old(isDragging) ==> currentIndex == old(currentIndex) && translateX == old(translateX)
      ensures old(isDragging) ==>
        currentIndex == SwipeTarget(old(currentIndex), count, old(translateX)) && translateX == 0
    {
      if isDragging {
        MouseUp();
      }
    }

    /** Touch gestures follow the finger without a dragging flag. */
    method TouchStart(pageX: int)
      modifies this`startX
      ensures startX == pageX
    {
      startX := pageX;
    }

    method TouchMove(pageX: int)
      modifies this`translateX
      ensures translateX == pageX - startX
    {
      translateX := pageX - startX;
    }

    method TouchEnd()
      requires Valid()
      modifies this`currentIndex, this`translateX
      ensures Valid() && translateX == 0
      ensures currentIndex == SwipeTarget(old(currentIndex), count, old(translateX))
    {
      Release();
    }
  }
}
