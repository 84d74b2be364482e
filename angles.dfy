/** The labeller's rotation angle: the discrete quarter-turn steps of the
    rotate buttons, the angle a mouse drag sets, and the snap to whole degrees
    when the drag ends. The fractional angle is always a multiple of half a
    degree, so it is kept here as a whole number of half degrees. */
module Angles {
  import opened Numeric

  /** `(image_angle + 90) % 360`. */
  function RightStep(a: int): (r: int)
    ensures 0 <= r < 360 && (r - a - 90) % 360 == 0
  {
    (a + 90) % 360
  }

  /** `(image_angle - 90 + 360) % 360`. */
  function LeftStep(a: int): (r: int)
    ensures 0 <= r < 360 && (r - a + 90) % 360 == 0
  {
    (a - 90 + 360) % 360
  }

  /** The angles at which an exact quarter-turn rotation is shown. */
  predicate RightAngle(a: int)
  {
    a == 0 || a == 90 || a == 180 || a == 270
  }

  /** Both steps keep a right angle a right angle. */
  lemma StepsKeepRightAngles(a: int)
    requires RightAngle(a)
    ensures RightAngle(RightStep(a)) && RightAngle(LeftStep(a))
  {
  }

  /** Four right steps come back to any angle in [0, 360). */
  lemma FourRightStepsReturn(a: int)
    requires 0 <= a < 360
    ensures RightStep(RightStep(RightStep(RightStep(a)))) == a
  {
  }

  /** On [0, 360) a left step undoes a right step and the other way round. */
  lemma LeftUndoesRight(a: int)
    requires 0 <= a < 360
    ensures LeftStep(RightStep(a)) == a && RightStep(LeftStep(a)) == a
  {
  }

  /** `(start_angle + 0.5 * delta_x) % 360` in half degrees: a drag of dx
      pixels turns by dx half degrees from where the press left the angle. */
  function DragHalves(startHalves: int, dx: int): (h: int)
    ensures 0 <= h < 720 && (h - startHalves - dx) % 720 == 0
  {
    (startHalves + dx) % 720
  }

  /** The half-degree count agrees with the float Python computes:
      DragHalves / 2 is exactly `(start + 0.5 * dx) % 360.0`. */
  lemma DragHalvesIsFloatMod(startHalves: int, dx: int)
    ensures DragHalves(startHalves, dx) as real / 2.0 ==
      FloatMod(startHalves as real / 2.0 + 0.5 * dx as real, 360.0)
  {
    var n := startHalves + dx;
    var k := n / 720;
    assert n == 720 * k + n % 720;
    var x := startHalves as real / 2.0 + 0.5 * dx as real;
    assert x - k as real * 360.0 == (n % 720) as real / 2.0;
    FloatModUnique(x, 360.0, k);
  }

  /** `round(h / 2)` with Python's ties-to-even: an even count is a whole
      degree; an odd one lies half way and goes to the even neighbour. */
  function RoundHalves(h: int): (n: int)
  {
    if h % 2 == 0 then h / 2
    else if (h / 2) % 2 == 0 then h / 2
    else h / 2 + 1
  }

  /** RoundHalves is Python's `round` of the float the halves stand for. */
  lemma RoundHalvesIsRound(h: int)
    ensures RoundHalves(h) == RoundHalfEven(h as real / 2.0)
  {
    var n := RoundHalves(h);
    assert h == 2 * (h / 2) + h % 2;
    RoundHalfEvenUnique(h as real / 2.0, n);
  }

  /** A released drag snaps to a whole degree in [0, 360]: 360 itself is
      reached, from 359.5. */
  lemma SnapRange(h: int)
    requires 0 <= h < 720
    ensures 0 <= RoundHalves(h) <= 360
    ensures RoundHalves(h) == 360 <==> h == 719
  {
  }
}
