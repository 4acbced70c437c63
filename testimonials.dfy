/**
 * The star rating of a testimonial (StarRating in components/Testimonials.tsx): five
 * slots, the first `floor(rating)` full, the next one half-filled when the rating's
 * fractional part is at least one half, and the rest empty.
 */
module Testimonials {

  /** The number of star slots drawn for every rating. */
  const SlotCount: nat := 5

  datatype Slot = Full | Half | Empty

  /** Rounding toward zero, as JavaScript's `%` uses for its quotient. */
  function Trunc(x: real): (t: int)
    ensures x >= 0.0 ==> t == x.Floor
    ensures x >= 0.0 ==> (t as real) <= x < (t as real) + 1.0
    ensures x < 0.0 ==> (t as real) - 1.0 < x <= (t as real)
  {
    if x >= 0.0 then x.Floor else -((-x).Floor)
  }

  /** JavaScript's `rating % 1`: the fractional part, carrying the sign of the rating. */
  function FracPart(x: real): (f: real)
    ensures x >= 0.0 ==> 0.0 <= f < 1.0 && f == x - (x.Floor as real)
    ensures x < 0.0 ==> -1.0 < f <= 0.0
  {
    x - (Trunc(x) as real)
  }

  /** `fullStars`. */
  function FullStars(rating: real): int
  {
    rating.Floor
  }

  /** `hasHalfStar`. */
  predicate HasHalfStar(rating: real)
  {
    FracPart(rating) >= 0.5
  }

  /** `isFull`. */
  predicate IsFull(starIdx: int, rating: real)
  {
    starIdx < FullStars(rating)
  }

  /** `isHalf`. */
  predicate IsHalf(starIdx: int, rating: real)
  {
    starIdx == FullStars(rating) && HasHalfStar(rating)
  }

  /** `isEmpty`. */
  predicate IsEmpty(starIdx: int, rating: real)
  {
    starIdx >= FullStars(rating) && !IsHalf(starIdx, rating)
  }

  /** Every slot is exactly one of full, half and empty. */
  lemma SlotKindsPartition(starIdx: int, rating: real)
    ensures IsFull(starIdx, rating) || IsHalf(starIdx, rating) || IsEmpty(starIdx, rating)
    ensures !(IsFull(starIdx, rating) && IsHalf(starIdx, rating))
    ensures !(IsFull(starIdx, rating) && IsEmpty(starIdx, rating))
    ensures !(IsHalf(starIdx, rating) && IsEmpty(starIdx, rating))
  {
  }

  /** What slot `starIdx` draws: the half star when `isHalf`, otherwise a filled or an outline star by `isFull`. */
  function SlotAt(starIdx: int, rating: real): (s: Slot)
    ensures s == Full <==> IsFull(starIdx, rating)
    ensures s == Half <==> IsHalf(starIdx, rating)
    ensures s == Empty <==> IsEmpty(starIdx, rating)
  {
    if IsHalf(starIdx, rating) then Half
    else if IsFull(starIdx, rating) then Full
    else Empty
  }

  /** The five slots of a rating, left to right. */
  function Stars(rating: real): seq<Slot>
  {
    seq(SlotCount, i => SlotAt(i, rating))
  }

  /** How many entries of `s` equal `x`. */
  function CountOf(s: seq<Slot>, x: Slot): nat
  {
    if s == [] then 0 else CountOf(s[..|s| - 1], x) + (if s[|s| - 1] == x then 1 else 0)
  }

  function Clamp(v: int, lo: int, hi: int): int
    requires lo <= hi
  {
    if v < lo then lo else if v > hi then hi else v
  }

  lemma {:induction false} FullCountPrefix(rating: real, k: nat)
    requires k <= SlotCount
    ensures CountOf(Stars(rating)[..k], Full) == Clamp(FullStars(rating), 0, k)
  {
    if k > 0 {
      var s := Stars(rating);
      assert s[..k][..k - 1] == s[..k - 1];
      FullCountPrefix(rating, k - 1);
    }
  }

  /** The full slots are exactly those before index `floor(rating)`: a prefix of `floor(rating)` clamped to 0..5 slots. */
  lemma FullSlots(rating: real)
    ensures forall i :: 0 <= i < SlotCount ==> (Stars(rating)[i] == Full <==> i < FullStars(rating))
    ensures CountOf(Stars(rating), Full) == Clamp(FullStars(rating), 0, SlotCount)
  {
    FullCountPrefix(rating, SlotCount);
    assert Stars(rating)[..SlotCount] == Stars(rating);
  }

  lemma {:induction false} HalfCountPrefix(rating: real, k: nat)
    requires k <= SlotCount
    ensures CountOf(Stars(rating)[..k], Half) ==
      (if HasHalfStar(rating) && 0 <= FullStars(rating) < k then 1 else 0)
  {
    if k > 0 {
      var s := Stars(rating);
      assert s[..k][..k - 1] == s[..k - 1];
      HalfCountPrefix(rating, k - 1);
    }
  }

  /**
   * At most one slot is a half star: the one at index `floor(rating)`, present exactly when
   * the fractional part is at least one half and that index is one of the five slots.
   */
  lemma HalfSlot(rating: real)
    ensures forall i :: 0 <= i < SlotCount ==>
      (Stars(rating)[i] == Half <==> i == FullStars(rating) && HasHalfStar(rating))
    ensures CountOf(Stars(rating), Half) == (if HasHalfStar(rating) && 0 <= FullStars(rating) < SlotCount then 1 else 0)
    ensures CountOf(Stars(rating), Half) <= 1
  {
    HalfCountPrefix(rating, SlotCount);
    assert Stars(rating)[..SlotCount] == Stars(rating);
  }

  /** The three ratings on the page: 5, 4 and 4.5. */
  lemma PageRatings()
    ensures Stars(5.0) == [Full, Full, Full, Full, Full]
    ensures Stars(4.0) == [Full, Full, Full, Full, Empty]
    ensures Stars(4.5) == [Full, Full, Full, Full, Half]
  {
    assert (4.5).Floor == 4;
    assert FracPart(4.5) == 0.5;
    assert FracPart(4.0) == 0.0;
  }
}
