/**
 * The testimonials carousel: four fixed testimonials, one shown in front
 * and the following one beside it, each with a row of five stars filled up
 * to its rating.
 */
module ClientTestimonials {

  import Carousel

  /** A testimonial; the rating is kept in tenths of a star (4.8 is 48). */
  datatype Testimonial = Testimonial(id: nat, name: string, role: string, rating10: nat)

  const Testimonials: seq<Testimonial> := [
    Testimonial(1, "Dr. Armand Noukpo", "Professor of Chemical Engineering", 50),
    Testimonial(2, "Engr. Tounde Kounde", "Renewable Energy Supervisor", 48),
    Testimonial(3, "Dr. Jeremie ASSOGBA", "Research Collaborator", 50),
    Testimonial(4, "Mrs. Kemi Seba", "Industry Mentor", 49)
  ]

  /** The number of stars drawn per testimonial. */
  const StarCount: nat := 5

  /** The testimonial shown beside the current one. */
  function SideIndex(current: nat): (r: nat)
    requires current < |Testimonials|
    ensures r < |Testimonials|
  {
    (current + 1) % |Testimonials|
  }

  /** The side card is the one the right arrow would bring to the front, and it is never the front card itself. */
  lemma SideCardDiffers(current: nat)
    requires current < |Testimonials|
    ensures SideIndex(current) == Carousel.Next(current, |Testimonials|)
    ensures SideIndex(current) != current && Testimonials[SideIndex(current)] != Testimonials[current]
  {
  }

  /** `renderStars`: five stars, star `i` filled when `i < Math.floor(rating)`. */
  function Stars(rating10: nat): (r: seq<bool>)
    ensures |r| == StarCount
    ensures forall i :: 0 <= i < StarCount ==> (r[i] <==> i < rating10 / 10)
  {
    seq(StarCount, i requires 0 <= i < StarCount => i < rating10 / 10)
  }

  /** The number of filled stars in a row. */
  function Filled(stars: seq<bool>): nat {
    if stars == [] then 0 else (if stars[|stars| - 1] then 1 else 0) + Filled(stars[..|stars| - 1])
  }

  /** Filled stars come first; their number counts the whole stars of the rating, at most five. */
  lemma FilledStars(rating10: nat)
    ensures Filled(Stars(rating10)) == if rating10 / 10 < StarCount then rating10 / 10 else StarCount
    ensures forall i, j :: 0 <= i < j < StarCount && Stars(rating10)[j] ==> Stars(rating10)[i]
  {
    var s := Stars(rating10);
    var k := 0;
    assert s[..0] == [];
    while k < StarCount
      invariant k <= StarCount
      invariant Filled(s[..k]) == if rating10 / 10 < k then rating10 / 10 else k
    {
      assert s[..k + 1][..k] == s[..k];
      k := k + 1;
    }
    assert s[..StarCount] == s;
  }

  /** The carousel's state; the index always names one of the testimonials. */
  class TestimonialCarousel {
    var currentIndex: nat

    predicate Valid()
      reads this
    {
      currentIndex < |Testimonials|
    }

    constructor ()
      ensures Valid() && currentIndex == 0
    {
      currentIndex := 0;
    }

    method NextTestimonial()
      requires Valid()
      modifies this
      ensures Valid() && currentIndex == Carousel.Next(old(currentIndex), |Testimonials|)
    {
      currentIndex := (currentIndex + 1) % |Testimonials|;
    }

    method PrevTestimonial()
      requires Valid()
      modifies this
      ensures Valid() && currentIndex == Carousel.Prev(old(currentIndex), |Testimonials|)
    {
      currentIndex := (currentIndex - 1 + |Testimonials|) % |Testimonials|;
    }

    /** A click on dot `index`; the dots are drawn one per testimonial. */
    method GoToTestimonial(index: nat)
      requires Valid() && index < |Testimonials|
      modifies this
      ensures Valid() && currentIndex == index
    {
      currentIndex := index;
    }
  }
}
