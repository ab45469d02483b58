/**
 * The testimonial carousel of the home page: the index of the slide shown,
 * moved by the previous/next arrows, the dots, and the autoplay timer.
 */
module Carousel {

  /** The updater of `nextSlide` and of each autoplay tick: the following slide, the last wrapping to the first. */
  function NextIndex(current: int, count: int): (r: int)
    ensures 0 <= current < count ==> 0 <= r < count && r == (current + 1) % count
  {
    if current == count - 1 then 0 else current + 1
  }

  /** The updater of `prevSlide`: the preceding slide, the first wrapping to the last. */
  function PrevIndex(current: int, count: int): (r: int)
    ensures 0 <= current < count ==> 0 <= r < count && r == (current + count - 1) % count
  {
    if current == 0 then count - 1 else current - 1
  }

  /** The two arrows undo each other. */
  lemma PrevUndoesNext(i: int, n: int)
    requires 0 <= i < n
    ensures PrevIndex(NextIndex(i, n), n) == i
    ensures NextIndex(PrevIndex(i, n), n) == i
  {
  }

  /** The slide shown after `k` autoplay ticks starting from `current`. */
  function Advance(current: int, count: int, k: nat): int {
    if k == 0 then current else NextIndex(Advance(current, count, k - 1), count)
  }

  /** After `k` ticks the carousel has moved `k` places round the circle of slides. */
  lemma {:induction false} AdvanceIsModular(i: int, n: int, k: nat)
    requires 0 <= i < n
    ensures Advance(i, n, k) == (i + k) % n
  {
    if k > 0 {
      AdvanceIsModular(i, n, k - 1);
      var j := Advance(i, n, k - 1);
      ModSuccessor(i + k - 1, n);
    }
  }

  lemma ModSuccessor(a: int, n: int)
    requires 0 <= a && 0 < n
    ensures ((a % n) + 1) % n == (a + 1) % n
  {
    var q, r := a / n, a % n;
    assert a == q * n + r;
    if r == n - 1 {
      assert (q + 1) * n == q * n + n;
      ModUnique(a + 1, n, q + 1, 0);
      ModUnique(r + 1, n, 1, 0);
    } else {
      ModUnique(a + 1, n, q, r + 1);
      ModUnique(r + 1, n, 0, r + 1);
    }
  }

  /** The remainder is determined by any quotient-remainder decomposition. */
  lemma ModUnique(x: int, n: int, q: int, r: int)
    requires 0 < n && 0 <= r < n && x == q * n + r
    ensures x % n == r
  {
    var q', r' := x / n, x % n;
    assert (q - q') * n == r' - r;
    if q > q' {
      MulAtLeast(q - q', n);
    } else if q < q' {
      MulAtLeast(q' - q, n);
    }
  }

  lemma MulAtLeast(a: int, n: int)
    requires a >= 1 && n > 0
    ensures a * n >= n
  {
  }

  /** A full round of ticks brings back the slide the carousel started from. */
  lemma FullRound(i: int, n: int)
    requires 0 <= i < n
    ensures Advance(i, n, n) == i
  {
    AdvanceIsModular(i, n, n);
    ModUnique(i + n, n, 1, i);
  }

  /** The carousel's state: the active slide among `count` testimonials. */
  class Slideshow {
    var activeIndex: int
    const count: nat

    ghost predicate Valid()
      reads this
    {
      count > 0 ==> 0 <= activeIndex < count
    }

    constructor (count: nat)
      ensures Valid() && this.count == count && activeIndex == 0
    {
      this.count := count;
      activeIndex := 0;
    }

    /** The right arrow; it is shown only when there are testimonials. */
    method NextSlide()
      requires Valid() && count > 0
      modifies this
      ensures Valid() && activeIndex == NextIndex(old(activeIndex), count)
    {
      activeIndex := NextIndex(activeIndex, count);
    }

    /** The left arrow; it is shown only when there are testimonials. */
    method PrevSlide()
      requires Valid() && count > 0
      modifies this
      ensures Valid() && activeIndex == PrevIndex(old(activeIndex), count)
    {
      activeIndex := PrevIndex(activeIndex, count);
    }

    /** One tick of the five-second timer, which runs only when there are testimonials. */
    method AutoplayTick()
      requires Valid() && count > 0
      modifies this
      ensures Valid() && activeIndex == NextIndex(old(activeIndex), count)
    {
      activeIndex := NextIndex(activeIndex, count);
    }

    /** A dot; there is one per testimonial, carrying its position. */
    method GoToSlide(index: int)
      requires Valid() && 0 <= index < count
      modifies this
      ensures Valid() && activeIndex == index
    {
      activeIndex := index;
    }
  }
}
