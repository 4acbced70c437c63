/**
 * The before/after comparison card (BeforeAfterCard in components/BeforeAfterSection.tsx):
 * while a mouse button or a touch is down on the card, each move sets the divider to the
 * pointer's horizontal offset as a percentage of the card's width, clamped to [0, 100];
 * the "before" image is clipped from the right by the rest.
 */
module BeforeAfter {
  import opened Wrappers
  import opened JsMath

  /** The horizontal extent of the card's bounding rectangle. */
  datatype Rect = Rect(left: real, width: real)


  /** `Math.max(0, Math.min(100, (clientX - rect.left) / rect.width * 100))`. */
  function Percentage(clientX: real, rect: Rect): (p: real)
    requires rect.width > 0.0
    ensures 0.0 <= p <= 100.0
    ensures rect.left <= clientX <= rect.left + rect.width ==> p == (clientX - rect.left) / rect.width * 100.0
    ensures clientX <= rect.left ==> p == 0.0
    ensures clientX >= rect.left + rect.width ==> p == 100.0
  {
    var raw := (clientX - rect.left) / rect.width * 100.0;
    RawPercentageBounds(clientX, rect);
    Max(0.0, Min(100.0, raw))
  }

  /** The unclamped percentage is below 0 left of the track, within [0, 100] on it and above 100 right of it. */
  lemma RawPercentageBounds(clientX: real, rect: Rect)
    requires rect.width > 0.0
    ensures clientX <= rect.left ==> (clientX - rect.left) / rect.width * 100.0 <= 0.0
    ensures clientX >= rect.left ==> (clientX - rect.left) / rect.width * 100.0 >= 0.0
    ensures clientX <= rect.left + rect.width ==> (clientX - rect.left) / rect.width * 100.0 <= 100.0
    ensures clientX >= rect.left + rect.width ==> (clientX - rect.left) / rect.width * 100.0 >= 100.0
  {
    var x := clientX - rect.left;
    var f := x / rect.width;
    assert f * rect.width == x;
    if x <= 0.0 {
      assert f <= 0.0;
    } else {
      assert f >= 0.0;
    }
    assert (f - 1.0) * rect.width == x - rect.width;
    if x <= rect.width {
      assert f <= 1.0;
    } else {
      assert f - 1.0 > 0.0;
    }
  }

  /** Moving the pointer to the right never moves the divider to the left. */
  lemma PercentageMonotonic(x1: real, x2: real, rect: Rect)
    requires rect.width > 0.0 && x1 <= x2
    ensures Percentage(x1, rect) <= Percentage(x2, rect)
  {
    var f1 := (x1 - rect.left) / rect.width;
    var f2 := (x2 - rect.left) / rect.width;
    assert f1 * rect.width == x1 - rect.left;
    assert f2 * rect.width == x2 - rect.left;
    assert (f2 - f1) * rect.width == x2 - x1;
    assert f1 <= f2;
  }

  /** The right inset of the "before" layer's clip path, `inset(0 <100 - position>% 0 0)`. */
  function ClipRightInset(position: real): (inset: real)
    requires 0.0 <= position <= 100.0
    ensures 0.0 <= inset <= 100.0
    ensures RevealedBeforeWidth(inset) == position
  {
    100.0 - position
  }

  /** The width of the "before" image left visible by a right inset: it is what the handle's `left` offset shows. */
  function RevealedBeforeWidth(inset: real): real
  {
    100.0 - inset
  }

  /** The `isDragging` and `sliderPosition` state of one card. */
  class Card {
    var isDragging: bool
    var sliderPosition: real

    ghost predicate Valid()
      reads this
    {
      0.0 <= sliderPosition <= 100.0
    }

    /** `useState(false)` and `useState(50)`: the divider starts in the middle, not dragging. */
    constructor ()
      ensures Valid() && !isDragging && sliderPosition == 50.0
    {
      isDragging := false;
      sliderPosition := 50.0;
    }

    /**
     * `handleMove`: with the container mounted, the divider follows the pointer; with the
     * ref still unset it does nothing. The rectangle has no zero-width guard in the card.
     */
    method HandleMove(clientX: real, container: Option<Rect>)
      requires Valid()
      requires container.Some? ==> container.value.width > 0.0
      modifies this
      ensures Valid() && isDragging == old(isDragging)
      ensures container.None? ==> sliderPosition == old(sliderPosition)
      ensures container.Some? ==> sliderPosition == Percentage(clientX, container.value)
    {
      if container.None? {
        return;
      }
      var rect := container.value;
      var x := clientX - rect.left;
      sliderPosition := Max(0.0, Min(100.0, (x / rect.width) * 100.0));
    }

    /** `handleMouseMove`: only a move during a drag reaches `handleMove`. */
    method HandleMouseMove(clientX: real, container: Option<Rect>)
      requires Valid()
      requires container.Some? ==> container.value.width > 0.0
      modifies this
      ensures Valid() && isDragging == old(isDragging)
      ensures !old(isDragging) || container.None? ==> sliderPosition == old(sliderPosition)
      ensures old(isDragging) && container.Some? ==> sliderPosition == Percentage(clientX, container.value)
    {
      if !isDragging {
        return;
      }
      HandleMove(clientX, container);
    }

    /** `handleTouchMove`: as a mouse move, at the x coordinate of the first touch. */
    method HandleTouchMove(touchXs: seq<real>, container: Option<Rect>)
      requires Valid()
      requires isDragging ==> |touchXs| > 0
      requires container.Some? ==> container.value.width > 0.0
      modifies this
      ensures Valid() && isDragging == old(isDragging)
      ensures !old(isDragging) || container.None? ==> sliderPosition == old(sliderPosition)
      ensures old(isDragging) && container.Some? ==> sliderPosition == Percentage(touchXs[0], container.value)
    {
      if !isDragging {
        return;
      }
      HandleMove(touchXs[0], container);
    }

    /** `onMouseDown` and `onTouchStart`. */
    method PressStart()
      requires Valid()
      modifies this
      ensures Valid() && isDragging && sliderPosition == old(sliderPosition)
    {
      isDragging := true;
    }

    /** `onMouseUp`, `onMouseLeave` and `onTouchEnd`: every way a gesture can end stops the drag. */
    method PressEnd()
      requires Valid()
      modifies this
      ensures Valid() && !isDragging && sliderPosition == old(sliderPosition)
    {
      isDragging := false;
    }

    function ClipInset(): real
      reads this
      requires Valid()
    {
      ClipRightInset(sliderPosition)
    }
  }

  /** On a 200-pixel track at 0: far left clamps to 0, far right to 100, the middle gives 50. */
  lemma TrackExamples()
    ensures Percentage(-50.0, Rect(0.0, 200.0)) == 0.0
    ensures Percentage(500.0, Rect(0.0, 200.0)) == 100.0
    ensures Percentage(100.0, Rect(0.0, 200.0)) == 50.0
  {
  }

  /** A move without a press leaves the divider where it was; after a press it follows the pointer. */
  method DragSession()
  {
    var card := new Card();
    var track := Some(Rect(0.0, 1000.0));
    card.HandleMouseMove(500.0, Some(Rect(0.0, 1000.0)));
    assert card.sliderPosition == 50.0;
    card.PressStart();
    card.HandleMouseMove(250.0, track);
    assert card.sliderPosition == 25.0;
    card.PressEnd();
    card.HandleTouchMove([900.0], track);
    assert card.sliderPosition == 25.0;
  }
}
