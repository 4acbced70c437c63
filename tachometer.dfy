/**
 * The rev counter drawing (components/Tachometer.tsx): a needle rotation linear in rpm
 * (-225 degrees at 0 rpm, 45 degrees at 8000 rpm), nine numbered major marks 0..8 on a
 * 270-degree dial of which 6, 7 and 8 are red, and 40 minor positions drawn between them,
 * the last ten of which lie in the red zone. As written, the needle is drawn pointing up
 * and turned by that rotation, which leaves it a quarter turn ahead of the marks.
 */
module Tachometer {

  const StartAngle: real := -225.0
  const Sweep: real := 270.0
  const MaxRpm: real := 8000.0
  /** The first major mark drawn red. */
  const RedMark: int := 6
  /** The number of minor positions; every fifth one coincides with a major mark. */
  const MinorCount: nat := 40
  /** The first minor position in the red zone. */
  const RedMinor: int := 30

  /** `needleRotation`. */
  function NeedleRotation(rpm: real): real
  {
    StartAngle + (rpm / MaxRpm) * Sweep
  }

  lemma NeedleEnds()
    ensures NeedleRotation(0.0) == -225.0
    ensures NeedleRotation(8000.0) == 45.0
  {
  }

  /** The needle turns at 270/8000 degrees per rpm, so it moves strictly clockwise as rpm rises. */
  lemma NeedleSlope(rpm1: real, rpm2: real)
    ensures NeedleRotation(rpm2) - NeedleRotation(rpm1) == (rpm2 - rpm1) * Sweep / MaxRpm
    ensures rpm1 < rpm2 ==> NeedleRotation(rpm1) < NeedleRotation(rpm2)
  {
  }

  /** The angle of major mark `num`. */
  function MarkAngle(num: int): real
  {
    StartAngle + ((num as real) / 8.0) * Sweep
  }

  /** The angle of minor position `i`. */
  function MinorAngle(i: int): real
  {
    StartAngle + ((i as real) / (MinorCount as real)) * Sweep
  }

  /**
   * The mark angles and the needle's rotation use the same formula, `-225 + fraction * 270`.
   * They are only equal as numbers, because they are measured from different zeros: a mark's
   * angle is a polar angle from the +x axis, and the needle's rotation is a turn of a needle
   * drawn pointing up (see NeedleDirection).
   */
  lemma MarkAngleIsRotationFormula(num: int)
    ensures MarkAngle(num) == NeedleRotation((num as real) * 1000.0)
    ensures MarkAngle(8) - MarkAngle(0) == Sweep
  {
  }

  /** Major mark `num` sits on minor position `5 * num`. */
  lemma MarkOnMinorGrid(num: int)
    ensures MarkAngle(num) == MinorAngle(5 * num)
  {
  }

  // ---------------------------------------------------------------------------
  // Where the drawn needle points
  // ---------------------------------------------------------------------------

  /**
   * The polar angle, in the marks' frame, of the needle polygon at rotation 0: it is drawn
   * from the centre (200,200) up to (200,60), and SVG's y axis points down.
   */
  const NeedleRest: real := -90.0

  /** The polar angle the needle points along on screen, as written: rest angle plus rotation. */
  function NeedleDirection(rpm: real): real
  {
    NeedleRest + NeedleRotation(rpm)
  }

  /**
   * As written, the needle is a quarter turn ahead of the scale: at 0 rpm it points at mark 8
   * (one full turn away from its angle), and at `num * 1000` rpm it points 90 degrees
   * counter-clockwise of mark `num`, not at it.
   */
  lemma NeedleOffByQuarterTurn(num: int)
    ensures NeedleDirection(0.0) == MarkAngle(8) - 360.0
    ensures NeedleDirection((num as real) * 1000.0) == MarkAngle(num) - 90.0
    ensures MarkAngle(0) - NeedleDirection(0.0) == 90.0
  {
  }

  /**
   * The rotation that makes the upward-drawn needle point at the scale: the written rotation
   * plus the quarter turn that cancels the needle's rest angle.
   */
  function IntendedNeedleRotation(rpm: real): real
  {
    NeedleRotation(rpm) - NeedleRest
  }

  /** The polar angle the needle would point along with the corrected rotation. */
  function IntendedNeedleDirection(rpm: real): real
  {
    NeedleRest + IntendedNeedleRotation(rpm)
  }

  /**
   * With the corrected rotation the needle points at mark `num` at `num * 1000` rpm, turns
   * clockwise as rpm rises, and sweeps the 270 degrees from mark 0 to mark 8.
   */
  lemma NeedlePointsAtMarks(num: int, rpm1: real, rpm2: real)
    ensures IntendedNeedleDirection((num as real) * 1000.0) == MarkAngle(num)
    ensures IntendedNeedleDirection(0.0) == MarkAngle(0)
    ensures IntendedNeedleDirection(MaxRpm) == MarkAngle(8)
    ensures rpm1 < rpm2 ==> IntendedNeedleDirection(rpm1) < IntendedNeedleDirection(rpm2)
  {
  }

  /**
   * The red-zone arc runs from the angle of mark 6 to the angle of mark 8 (45 degrees); that
   * is where the corrected needle points from 6000 rpm to full scale.
   */
  lemma RedZoneArc()
    ensures StartAngle + (6.0 / 8.0) * Sweep == MarkAngle(RedMark)
    ensures MarkAngle(8) == 45.0
    ensures MarkAngle(RedMark) == IntendedNeedleDirection(6000.0)
    ensures MarkAngle(8) == IntendedNeedleDirection(MaxRpm)
  {
  }

  /** One numbered major mark. */
  datatype Mark = Mark(num: int, angle: real, red: bool)

  /** `rpmMarks.map(...)`: marks 0..8, red from 6 on. */
  function Marks(): seq<Mark>
  {
    seq(9, num => Mark(num, MarkAngle(num), num >= RedMark))
  }

  /** One drawn minor tick. */
  datatype Tick = Tick(position: int, angle: real, red: bool)

  /** `Array.from({ length: 40 }).map(...)`: positions that are multiples of 5 draw nothing. */
  function MinorTickAt(i: int): MinorSlot
  {
    if i % 5 == 0 then Skipped else Drawn(Tick(i, MinorAngle(i), i >= RedMinor))
  }

  /** A slot of the minor-tick list: the `null` of a skipped position, or a drawn tick. */
  datatype MinorSlot = Skipped | Drawn(tick: Tick)

  function MinorTicks(): seq<MinorSlot>
  {
    seq(MinorCount, i => MinorTickAt(i))
  }

  // ---------------------------------------------------------------------------
  // Counting
  // ---------------------------------------------------------------------------

  function CountRedMarks(ms: seq<Mark>): nat
  {
    if ms == [] then 0 else CountRedMarks(ms[..|ms| - 1]) + (if ms[|ms| - 1].red then 1 else 0)
  }

  function CountDrawn(ts: seq<MinorSlot>): nat
  {
    if ts == [] then 0 else CountDrawn(ts[..|ts| - 1]) + (if ts[|ts| - 1].Drawn? then 1 else 0)
  }

  function CountRedDrawn(ts: seq<MinorSlot>): nat
  {
    if ts == [] then 0
    else CountRedDrawn(ts[..|ts| - 1]) + (if ts[|ts| - 1].Drawn? && ts[|ts| - 1].tick.red then 1 else 0)
  }

  lemma {:induction false} RedMarksPrefix(k: nat)
    requires k <= 9
    ensures CountRedMarks(Marks()[..k]) == if k <= RedMark then 0 else k - RedMark
  {
    if k > 0 {
      assert Marks()[..k][..k - 1] == Marks()[..k - 1];
      RedMarksPrefix(k - 1);
    }
  }

  /** A major mark is red exactly when its number is at least 6, so three of the nine are red. */
  lemma RedMarks()
    ensures forall num :: 0 <= num < 9 ==> (Marks()[num].red <==> num >= 6)
    ensures CountRedMarks(Marks()) == 3
  {
    RedMarksPrefix(9);
    assert Marks()[..9] == Marks();
  }

  lemma {:induction false} DrawnPrefix(k: nat)
    requires k <= MinorCount
    ensures CountDrawn(MinorTicks()[..k]) == k - (k + 4) / 5
  {
    if k > 0 {
      assert MinorTicks()[..k][..k - 1] == MinorTicks()[..k - 1];
      DrawnPrefix(k - 1);
    }
  }

  lemma {:induction false} RedDrawnPrefix(k: nat)
    requires k <= MinorCount
    ensures CountRedDrawn(MinorTicks()[..k]) == if k <= RedMinor then 0 else (k - RedMinor) - (k - RedMinor + 4) / 5
  {
    if k > 0 {
      assert MinorTicks()[..k][..k - 1] == MinorTicks()[..k - 1];
      RedDrawnPrefix(k - 1);
    }
  }

  /**
   * A minor position is drawn exactly when it is not a multiple of 5, and a drawn one is red
   * exactly from position 30 on: 32 minor ticks are drawn, 8 of them red.
   */
  lemma MinorTickCounts()
    ensures forall i :: 0 <= i < MinorCount ==> (MinorTicks()[i].Drawn? <==> i % 5 != 0)
    ensures forall i :: 0 <= i < MinorCount && MinorTicks()[i].Drawn? ==> (MinorTicks()[i].tick.red <==> i >= 30)
    ensures CountDrawn(MinorTicks()) == 32
    ensures CountRedDrawn(MinorTicks()) == 8
  {
    DrawnPrefix(MinorCount);
    RedDrawnPrefix(MinorCount);
    assert MinorTicks()[..MinorCount] == MinorTicks();
  }
}
