/** The review slider: a 1-based index `reviewNumber` over `totalSlides` slides, moved
    forward and back with wraparound, and the horizontal translation (in percent) that
    shows the current slide. */
module ReviewCarousel {

  /** The index after `nextReview`: the cyclic successor in 1..total. */
  function NextIndex(i: int, total: int): (r: int)
    requires 1 <= i <= total
    ensures 1 <= r <= total
    ensures r == i % total + 1
  {
    if i < total then i + 1 else 1
  }

  /** The index after `prevReview`: the cyclic predecessor in 1..total. */
  function PrevIndex(i: int, total: int): (r: int)
    requires 1 <= i <= total
    ensures 1 <= r <= total
    ensures r == (i - 2) % total + 1
  {
    if i > 1 then i - 1 else total
  }

  /** The translation that shows slide `i`: one slide width (100%) per slide before it. */
  function SlideOffset(i: int): int {
    -(i - 1) * 100
  }

  /** The index after `k` forward steps, as the auto-slide timer takes them. */
  function Advance(i: int, k: nat, total: int): (r: int)
    requires 1 <= i <= total
    ensures 1 <= r <= total
    decreases k
  {
    if k == 0 then i else Advance(NextIndex(i, total), k - 1, total)
  }

  /** Forward and back undo each other. */
  lemma NextPrevInverse(i: int, total: int)
    requires 1 <= i <= total
    ensures PrevIndex(NextIndex(i, total), total) == i
    ensures NextIndex(PrevIndex(i, total), total) == i
  {
  }

  lemma {:induction false} MulAtLeast(d: int, t: int)
    requires d >= 1 && t >= 0
    ensures d * t >= t
    decreases d
  {
    if d > 1 {
      MulAtLeast(d - 1, t);
      assert d * t == (d - 1) * t + t;
    }
  }

  /** Quotient and remainder are unique: a remainder in range determines `a % t`. */
  lemma ModUnique(a: int, t: int, q: int, r: int)
    requires t >= 1 && a == q * t + r && 0 <= r < t
    ensures a % t == r
  {
    var d := q - a / t;
    assert d * t == q * t - (a / t) * t;
    assert d * t == a % t - r;
    if d >= 1 {
      MulAtLeast(d, t);
    } else if d <= -1 {
      MulAtLeast(-d, t);
    }
  }

  /** Adding one full turn does not change the position on the cycle. */
  lemma ModShift(a: int, total: int)
    requires total >= 1
    ensures (a + total) % total == a % total
  {
    ModUnique(a + total, total, a / total + 1, a % total);
  }

  /** `k` forward steps land on slide `(i - 1 + k) mod total`, counted from 1. */
  lemma {:induction false} AdvanceClosedForm(i: int, k: nat, total: int)
    requires 1 <= i <= total
    ensures Advance(i, k, total) == (i - 1 + k) % total + 1
    decreases k
  {
    if k > 0 {
      var j := NextIndex(i, total);
      AdvanceClosedForm(j, k - 1, total);
      if i == total {
        ModShift(k - 1, total);
      }
    }
  }

  /** `total` forward steps bring the slider back to where it was. */
  lemma FullCycle(i: int, total: int)
    requires 1 <= i <= total
    ensures Advance(i, total, total) == i
  {
    AdvanceClosedForm(i, total, total);
    ModShift(i - 1, total);
    ModUnique(i - 1, total, 0, i - 1);
  }

  class ReviewSlider {
    var reviewNumber: int
    var totalSlides: int
    /** The x-translation in percent of the slider's `transform`. */
    var translate: int

    /** The index is in range and the slider shows that slide. */
    ghost predicate Valid()
      reads this
    {
      1 <= totalSlides && 1 <= reviewNumber <= totalSlides &&
      translate == SlideOffset(reviewNumber)
    }

    /** The slider once the review feed has arrived with `slides` reviews: first slide,
        no translation. */
    constructor (slides: int)
      requires slides >= 1
      ensures Valid()
      ensures reviewNumber == 1 && totalSlides == slides && translate == 0
    {
      reviewNumber := 1;
      totalSlides := slides;
      translate := 0;
    }

    /** `nextReview`: move one slide on, wrapping from the last slide to the first. The
        translation each branch sets is the closed form for the new index. */
    method NextReview()
      requires Valid()
      modifies this
      ensures Valid()
      ensures totalSlides == old(totalSlides)
      ensures reviewNumber == NextIndex(old(reviewNumber), totalSlides)
      ensures translate == -(reviewNumber - 1) * 100
    {
      if reviewNumber < totalSlides {
        translate := -(reviewNumber * 100);
        reviewNumber := reviewNumber + 1;
      } else {
        translate := 0;
        reviewNumber := 1;
      }
    }

    /** `prevReview`: move one slide back, wrapping from the first slide to the last. The
        translation each branch sets is the closed form for the new index. */
    method PrevReview()
      requires Valid()
      modifies this
      ensures Valid()
      ensures totalSlides == old(totalSlides)
      ensures reviewNumber == PrevIndex(old(reviewNumber), totalSlides)
      ensures translate == -(reviewNumber - 1) * 100
    {
      if reviewNumber > 1 {
        translate := -((reviewNumber - 2) * 100);
        reviewNumber := reviewNumber - 1;
      } else {
        translate := -((totalSlides - 1) * 100);
        reviewNumber := totalSlides;
      }
    }
  }

  /** Three slides: three steps forward show 2, 3, 1 at -100%, -200%, 0%; one step back from
      the first slide shows the third at -200%. */
  method SliderSession() {
    var s := new ReviewSlider(3);
    s.NextReview();
    assert s.reviewNumber == 2 && s.translate == -100;
    s.NextReview();
    assert s.reviewNumber == 3 && s.translate == -200;
    s.NextReview();
    assert s.reviewNumber == 1 && s.translate == 0;
    s.PrevReview();
    assert s.reviewNumber == 3 && s.translate == -200;
  }
}
