/** `perform_resize`: fitting the displayed image into the canvas and drawing
    the boxes over it. The size the image is resized to (`int(w * scale)`,
    `int(h * scale)` with `scale = min(cw / w, ch / h)`) is computed in
    floating point by the window and is an input here, as is the canvas
    size the window reports. */
module Display {
  import opened Optional
  import opened Geometry
  import opened LabelerState
  import opened LabelingUtils

  /** What the canvas shows: its size, the size of the resized image, the
      gesture preview and the drawn boxes. */
  datatype View = View(canvas: Size, shown: Option<Size>, preview: Option<Rect>,
                       rects: seq<Drawn>, captions: seq<Caption>)

  function ViewOf(lab: Labeler): (v: View)
    reads lab`canvas, lab`shown, lab`preview, lab`rects, lab`captions
    ensures v.shown == lab.shown && v.rects == lab.rects && v.captions == lab.captions
  {
    View(lab.canvas, lab.shown, lab.preview, lab.rects, lab.captions)
  }

  /** The canvas size is too small to draw into, or the resized image would
      be empty: perform_resize stops before drawing. */
  predicate TooSmall(window: Size, fitted: Size)
  {
    window.w < 2 || window.h < 2 || fitted.w < 1 || fitted.h < 1
  }

  /** The view after perform_resize, from the view before: the canvas size
      is taken first; then, unless something is too small, everything on the
      canvas is cleared and the resized image and the boxes are drawn. */
  ghost predicate Resized(lab: Labeler, before: View, window: Size, fitted: Size, raised: bool)
    reads lab`canvas, lab`shown, lab`preview, lab`rects, lab`captions, lab`bboxes, lab`classes
  {
    && lab.canvas == window
    && if TooSmall(window, fitted) then
         && lab.shown == before.shown && lab.preview == before.preview
         && lab.rects == before.rects && lab.captions == before.captions && !raised
       else
         && lab.shown == Some(fitted) && lab.preview.None?
         && Draw(lab.bboxes, lab.classes, window, fitted) == Drawing(lab.rects, lab.captions, raised)
  }

  /** `perform_resize`. Without a displayed image nothing happens. */
  method PerformResize(lab: Labeler, window: Size, fitted: Size) returns (raised: bool)
    requires lab.Valid()
    modifies lab`canvas, lab`shown, lab`preview, lab`rects, lab`captions
    ensures lab.Valid()
    ensures old(lab.display.None?) ==> unchanged(lab`canvas, lab`shown, lab`preview, lab`rects, lab`captions) && !raised
    ensures old(lab.display.Some?) ==> Resized(lab, old(ViewOf(lab)), window, fitted, raised)
  {
    raised := false;
    if lab.display.None? {
      return;
    }
    ghost var before := ViewOf(lab);
    lab.canvas := window;
    if !TooSmall(window, fitted) {
      lab.shown := Some(fitted);
      lab.preview := None;  // canvas.delete("all") takes the dashed preview too
      raised := DrawAllBoxes(lab);
    }
    assert Resized(lab, before, window, fitted, raised);
  }
}
