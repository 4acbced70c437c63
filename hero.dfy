/**
 * The hero section (components/Hero.tsx): a set of background images, one shown at a
 * time, advanced by a 5-second interval and selectable with one dot per image.
 */
module Hero {
  import Gallery

  /** `heroBackgrounds`: the seven background images, in rotation order. */
  const HeroBackgrounds: seq<string> := [
    "/images/abstract-chrome-1.png",
    "/images/abstract-chrome-2.png",
    "/images/hero-abstract-bg.png",
    "/images/hero-tire-chrome.png",
    "/images/hero-chevrolet-v8.png",
    "/images/abstract-engine-forms.png",
    "/images/abstract-chrome-blue.png"
  ]

  /** The interval updater `(prev + 1) % heroBackgrounds.length`; it agrees with the gallery's wrap-around `next`. */
  function TickIndex(i: int, n: nat): (r: int)
    requires 0 <= i < n
    ensures 0 <= r < n
    ensures r == Gallery.NextIndex(i, n)
  {
    (i + 1) % n
  }

  /** The background after `k` interval ticks, starting from `i`. */
  function TicksFrom(i: int, n: nat, k: nat): (r: int)
    requires 0 <= i < n
    ensures 0 <= r < n
  {
    if k == 0 then i else TickIndex(TicksFrom(i, n, k - 1), n)
  }

  lemma {:induction false} TicksAreGalleryPresses(i: int, n: nat, k: nat)
    requires 0 <= i < n
    ensures TicksFrom(i, n, k) == Gallery.NextTimes(i, n, k)
  {
    if k > 0 {
      TicksAreGalleryPresses(i, n, k - 1);
    }
  }

  /** One tick per background returns the rotation to where it started. */
  lemma TickCycle(i: int, n: nat)
    requires 0 <= i < n
    ensures TicksFrom(i, n, n) == i
  {
    TicksAreGalleryPresses(i, n, n);
    Gallery.NextCycle(i, n);
  }

  /** The `currentBg` state of the hero section. */
  class Backdrop {
    const count: nat
    var currentBg: int

    ghost predicate Valid()
      reads this
    {
      count >= 1 && 0 <= currentBg < count
    }

    /** `useState(0)`: the first background is shown on mount. */
    constructor (n: nat)
      requires n >= 1
      ensures Valid() && count == n && currentBg == 0
    {
      count := n;
      currentBg := 0;
    }

    /** One firing of the 5-second interval. */
    method Tick()
      requires Valid()
      modifies this
      ensures Valid()
      ensures currentBg == TickIndex(old(currentBg), count)
    {
      currentBg := (currentBg + 1) % count;
    }

    /** A click on dot `idx` (one dot is rendered per background). */
    method SelectDot(idx: int)
      requires Valid() && 0 <= idx < count
      modifies this
      ensures Valid() && currentBg == idx
    {
      currentBg := idx;
    }

    /** `isActive`: the background at `idx` is faded in. */
    predicate IsActive(idx: int)
      reads this
    {
      Gallery.IsActiveDot(idx, currentBg)
    }

    /** Exactly one background (and its dot) is active at any time. */
    lemma ExactlyOneActive()
      requires Valid()
      ensures (set idx | 0 <= idx < count && IsActive(idx)) == {currentBg}
    {
      Gallery.ExactlyOneActiveDot(currentBg, count);
      assert (set idx | 0 <= idx < count && IsActive(idx))
          == (set idx | 0 <= idx < count && Gallery.IsActiveDot(idx, currentBg));
    }
  }

  /** A tick moves on from the first background; a tick after jumping to the last one wraps to the first. */
  method TickAfterLastDot()
  {
    var h := new Backdrop(|HeroBackgrounds|);
    h.Tick();
    assert h.currentBg == 1;
    h.SelectDot(6);
    h.Tick();
    assert h.currentBg == 0;
  }
}
