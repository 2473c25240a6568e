/**
 * The testimonial carousel: an index into the three testimonials, moved by
 * the arrows, the five-second auto-advance, the dots and a swipe.
 */
module Carousel {

  const TestimonialCount := 3
  const SwipeThreshold := 10000.0

  predicate InRange(i: int) {
    0 <= i < TestimonialCount
  }

  /** `(prev + 1) % testimonials.length`. */
  function NextIndex(i: int): (j: int)
    requires InRange(i)
    ensures InRange(j)
    ensures i < TestimonialCount - 1 ==> j == i + 1
    ensures i == TestimonialCount - 1 ==> j == 0
  {
    (i + 1) % TestimonialCount
  }

  /** `(prev - 1 + testimonials.length) % testimonials.length`; the operand is never negative. */
  function PrevIndex(i: int): (j: int)
    requires InRange(i)
    ensures InRange(j)
    ensures i > 0 ==> j == i - 1
    ensures i == 0 ==> j == TestimonialCount - 1
  {
    (i - 1 + TestimonialCount) % TestimonialCount
  }

  /** Forward and back undo each other. */
  lemma NextPrevInverse(i: int)
    requires InRange(i)
    ensures PrevIndex(NextIndex(i)) == i
    ensures NextIndex(PrevIndex(i)) == i
  {
  }

  /** Three steps forward go all the way round. */
  lemma ThreeNextsReturn(i: int)
    requires InRange(i)
    ensures NextIndex(NextIndex(NextIndex(i))) == i
  {
  }

  datatype SwipeAction = ShowNext | ShowPrevious | Stay

  /**
   * `onDragEnd`: `swipe = |offset.x| * velocity.x`; a fast leftward swipe
   * shows the next testimonial, a fast rightward one the previous.
   */
  function SwipeActionOf(offsetX: real, velocityX: real): (a: SwipeAction)
    ensures a == ShowNext <==> (if offsetX < 0.0 then -offsetX else offsetX) * velocityX < -SwipeThreshold
    ensures a == ShowPrevious <==> (if offsetX < 0.0 then -offsetX else offsetX) * velocityX > SwipeThreshold
  {
    var swipe := (if offsetX < 0.0 then -offsetX else offsetX) * velocityX;
    if swipe < -SwipeThreshold then ShowNext
    else if swipe > SwipeThreshold then ShowPrevious
    else Stay
  }

  /** The direction of a swipe is the sign of its velocity. */
  lemma SwipeDirection(offsetX: real, velocityX: real)
    ensures SwipeActionOf(offsetX, velocityX) == ShowNext ==> velocityX < 0.0
    ensures SwipeActionOf(offsetX, velocityX) == ShowPrevious ==> velocityX > 0.0
    ensures offsetX == 0.0 || velocityX == 0.0 ==> SwipeActionOf(offsetX, velocityX) == Stay
  {
  }

  class Testimonials {
    var current: int

    predicate Valid()
      reads this
    {
      InRange(current)
    }

    constructor ()
      ensures Valid() && current == 0
    {
      current := 0;
    }

    method Next()
      requires Valid()
      modifies this
      ensures Valid() && current == NextIndex(old(current))
    {
      current := (current + 1) % TestimonialCount;
    }

    method Prev()
      requires Valid()
      modifies this
      ensures Valid() && current == PrevIndex(old(current))
    {
      current := (current - 1 + TestimonialCount) % TestimonialCount;
    }

    /** The auto-advance interval does what the next arrow does. */
    method Tick()
      requires Valid()
      modifies this
      ensures Valid() && current == NextIndex(old(current))
    {
      Next();
    }

    /** Clicking dot `k`; there is one dot per testimonial. */
    method SelectDot(k: int)
      requires InRange(k)
      modifies this
      ensures Valid() && current == k
    {
      current := k;
    }

    method DragEnd(offsetX: real, velocityX: real)
      requires Valid()
      modifies this
      ensures Valid()
      ensures SwipeActionOf(offsetX, velocityX) == ShowNext ==> current == NextIndex(old(current))
      ensures SwipeActionOf(offsetX, velocityX) == ShowPrevious ==> current == PrevIndex(old(current))
      ensures SwipeActionOf(offsetX, velocityX) == Stay ==> current == old(current)
    {
      var swipe := (if offsetX < 0.0 then -offsetX else offsetX) * velocityX;
      if swipe < -SwipeThreshold {
        Next();
      } else if swipe > SwipeThreshold {
        Prev();
      }
    }
  }
}
