/** The rotation engine (`RotationUtils`): the quarter-turn buttons and the
    image shown for an angle, always computed from the original image. */
module RotationUtils {
  import opened Optional
  import opened Geometry
  import opened Raster
  import opened Angles
  import opened LabelerState
  import opened Display

  /** The image apply_rotation_and_redraw shows for `image_angle`: the
      original turned a quarter clockwise at 90, half at 180, a quarter
      counter-clockwise at 270, and unturned at any other angle (0, 360, or
      a whole degree left over from a drag). */
  function Rotated(g: Image, angle: int): (r: Image)
    ensures angle == 90 || angle == 270 ==> Height(r) == Width(g) && Width(r) == Height(g)
    ensures angle != 90 && angle != 270 ==> Height(r) == Height(g) && Width(r) == Width(g)
  {
    if angle == 90 then Rot90(g)
    else if angle == 180 then Rot180(g)
    else if angle == 270 then Rot270(g)
    else g
  }

  /** From a right angle, one more right step turns what is shown a quarter
      turn clockwise. */
  lemma RightStepTurnsClockwise(g: Image, a: int)
    requires RightAngle(a)
    ensures Rotated(g, RightStep(a)) == Rot90(Rotated(g, a))
  {
    if a == 90 {
      Rot180IsTwoQuarters(g);
    } else if a == 180 {
      Rot270IsThreeQuarters(g);
    } else if a == 270 {
      Rot90UndoesRot270(g);
    }
  }

  /** From a right angle, one more left step turns what is shown a quarter
      turn counter-clockwise. */
  lemma LeftStepTurnsCounterClockwise(g: Image, a: int)
    requires RightAngle(a)
    ensures Rotated(g, LeftStep(a)) == Rot270(Rotated(g, a))
  {
    if a == 90 {
      Rot270UndoesRot90(g);
    } else if a == 180 {
      Rot180IsTwoQuarters(g);
      Rot270UndoesRot90(Rot90(g));
    } else if a == 270 {
      Rot270IsThreeQuarters(g);
      Rot180IsTwoQuarters(g);
      Rot270UndoesRot90(Rot180(g));
    }
  }

  /** `apply_rotation_and_redraw`: show the original turned by the angle and
      redraw. Without an original image nothing happens. */
  method ApplyRotationAndRedraw(lab: Labeler, window: Size, fitted: Size) returns (raised: bool)
    requires lab.Valid()
    modifies lab`display, lab`canvas, lab`shown, lab`preview, lab`rects, lab`captions
    ensures lab.Valid()
    ensures old(lab.original.None?) ==>
      unchanged(lab`display, lab`canvas, lab`shown, lab`preview, lab`rects, lab`captions) && !raised
    ensures old(lab.original.Some?) ==>
      && lab.display == Some(Rotated(lab.original.value, lab.imageAngle))
      && Resized(lab, old(ViewOf(lab)), window, fitted, raised)
  {
    raised := false;
    if lab.original.None? {
      return;
    }
    var g, angle := lab.original.value, lab.imageAngle;
    var r: Image;
    if angle == 90 {
      r := Rot90(g);
    } else if angle == 180 {
      r := Rot180(g);
    } else if angle == 270 {
      r := Rot270(g);
    } else {
      r := g;
    }
    lab.display := Some(r);
    raised := PerformResize(lab, window, fitted);
  }

  /** `rotate_image_right`: a quarter turn clockwise, marked unsaved. When
      the image shown was the original at a right angle, it is now that
      image turned a quarter clockwise. */
  method RotateImageRight(lab: Labeler, window: Size, fitted: Size) returns (raised: bool)
    requires lab.Valid()
    modifies lab`imageAngle, lab`angleHalves, lab`rotationDirty
    modifies lab`display, lab`canvas, lab`shown, lab`preview, lab`rects, lab`captions
    ensures lab.Valid()
    ensures old(lab.original.None?) ==> unchanged(lab`imageAngle, lab`angleHalves, lab`rotationDirty, lab`display) && !raised
    ensures old(lab.original.None?) ==> unchanged(lab`canvas, lab`shown, lab`preview, lab`rects, lab`captions)
    ensures old(lab.original.Some?) ==>
      && lab.imageAngle == RightStep(old(lab.imageAngle)) && lab.angleHalves == 2 * lab.imageAngle
      && lab.rotationDirty
      && lab.display == Some(Rotated(lab.original.value, lab.imageAngle))
      && Resized(lab, old(ViewOf(lab)), window, fitted, raised)
    ensures old(lab.original.Some? && RightAngle(lab.imageAngle)
                && lab.display == Some(Rotated(lab.original.value, lab.imageAngle))) ==>
      lab.display == Some(Rot90(old(lab.display.value)))
  {
    raised := false;
    if lab.original.None? {
      return;
    }
    ghost var before, view := lab.imageAngle, ViewOf(lab);
    lab.imageAngle := RightStep(lab.imageAngle);
    lab.angleHalves := 2 * lab.imageAngle;
    lab.rotationDirty := true;
    assert ViewOf(lab) == view;
    raised := ApplyRotationAndRedraw(lab, window, fitted);
    if RightAngle(before) {
      RightStepTurnsClockwise(lab.original.value, before);
    }
  }

  /** `rotate_image_left`: a quarter turn counter-clockwise, marked unsaved.
      When the image shown was the original at a right angle, it is now
      that image turned a quarter counter-clockwise. */
  method RotateImageLeft(lab: Labeler, window: Size, fitted: Size) returns (raised: bool)
    requires lab.Valid()
    modifies lab`imageAngle, lab`angleHalves, lab`rotationDirty
    modifies lab`display, lab`canvas, lab`shown, lab`preview, lab`rects, lab`captions
    ensures lab.Valid()
    ensures old(lab.original.None?) ==> unchanged(lab`imageAngle, lab`angleHalves, lab`rotationDirty, lab`display) && !raised
    ensures old(lab.original.None?) ==> unchanged(lab`canvas, lab`shown, lab`preview, lab`rects, lab`captions)
    ensures old(lab.original.Some?) ==>
      && lab.imageAngle == LeftStep(old(lab.imageAngle)) && lab.angleHalves == 2 * lab.imageAngle
      && lab.rotationDirty
      && lab.display == Some(Rotated(lab.original.value, lab.imageAngle))
      && Resized(lab, old(ViewOf(lab)), window, fitted, raised)
    ensures old(lab.original.Some? && RightAngle(lab.imageAngle)
                && lab.display == Some(Rotated(lab.original.value, lab.imageAngle))) ==>
      lab.display == Some(Rot270(old(lab.display.value)))
  {
    raised := false;
    if lab.original.None? {
      return;
    }
    ghost var before, view := lab.imageAngle, ViewOf(lab);
    lab.imageAngle := LeftStep(lab.imageAngle);
    lab.angleHalves := 2 * lab.imageAngle;
    lab.rotationDirty := true;
    assert ViewOf(lab) == view;
    raised := ApplyRotationAndRedraw(lab, window, fitted);
    if RightAngle(before) {
      LeftStepTurnsCounterClockwise(lab.original.value, before);
    }
  }

  /** `apply_smooth_rotation`: show the original turned by the fractional
      angle and redraw. `warp` stands for the affine warp of the original
      by an angle in half degrees (the enlarged canvas, the linear
      interpolation and the white border); it only ever sees the original,
      so a drag never compounds earlier resampling. */
  method ApplySmoothRotation(lab: Labeler, warp: (Image, int) -> Image, window: Size, fitted: Size)
    returns (raised: bool)
    requires lab.Valid()
    modifies lab`display, lab`canvas, lab`shown, lab`preview, lab`rects, lab`captions
    ensures lab.Valid()
    ensures old(lab.original.None?) ==>
      unchanged(lab`display, lab`canvas, lab`shown, lab`preview, lab`rects, lab`captions) && !raised
    ensures old(lab.original.Some?) ==>
      && lab.display == Some(warp(lab.original.value, lab.angleHalves))
      && Resized(lab, old(ViewOf(lab)), window, fitted, raised)
  {
    raised := false;
    if lab.original.None? {
      return;
    }
    lab.display := Some(warp(lab.original.value, lab.angleHalves));
    raised := PerformResize(lab, window, fitted);
  }
}
