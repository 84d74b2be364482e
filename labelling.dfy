/** The labeller window (`YOLOLabeler`): the canvas handlers that turn a drag
    into a rotation or a box, saving a rotation, the unsaved-rotation
    prompt, loading an image with its labels, saving the labels, and moving
    through the image list. */
module Labelling {
  import opened Optional
  import opened Geometry
  import opened LabelText
  import opened Raster
  import opened Angles
  import opened LabelerState
  import opened LabelingUtils
  import opened Display
  import opened RotationUtils

  // ---------------------------------------------------------------------
  // Saving a rotation

  /** The rotation state save_rotation reads and writes, with the stored
      images. */
  datatype Orientation = Orientation(images: map<string, Image>, original: Option<Image>, dirty: bool,
                                     angle: int, halves: int)

  function OrientationOf(lab: Labeler, disk: Disk): Orientation
    reads lab`original, lab`rotationDirty, lab`imageAngle, lab`angleHalves, disk`images
  {
    Orientation(disk.images, lab.original, lab.rotationDirty, lab.imageAngle, lab.angleHalves)
  }

  /** `save_rotation` on the rotation state, and whether it raised. Without
      a displayed image the colour conversion raises before the try block.
      Without a path, or when imwrite raises, the error is reported and
      nothing changes. Otherwise (whether or not imwrite stored the file)
      the displayed image becomes the original and the angle state is
      cleared; a stored file decodes to what the codec of its path made of
      the displayed image. */
  function SaveRotationSpec(r: Orientation, display: Option<Image>, path: Option<string>, outcome: ImWrite,
                            encode: (string, Image) -> Image)
    : (result: (Orientation, bool))
  {
    if display.None? then (r, true)
    else if path.None? || outcome == Raises then (r, false)
    else
      var images := if outcome == Stored then r.images[path.value := encode(path.value, display.value)] else r.images;
      (Orientation(images, display, false, 0, 0), false)
  }

  /** A stored rotation reads back from its path as the codec's image of
      what was shown, which is what was shown for a PNG or BMP path; other
      images are kept, and nothing is left unsaved. */
  lemma StoredRotationReadsBack(r: Orientation, display: Option<Image>, path: Option<string>,
                                encode: (string, Image) -> Image)
    requires display.Some? && path.Some?
    ensures var (after, raised) := SaveRotationSpec(r, display, path, Stored, encode);
      && !raised && !after.dirty && after.angle == 0 && after.halves == 0
      && path.value in after.images && after.images[path.value] == encode(path.value, display.value)
      && (KeepsLossless(encode) && LosslessPath(path.value) ==> after.images[path.value] == display.value)
      && after.original == display
      && forall p :: p in r.images && p != path.value ==> p in after.images && after.images[p] == r.images[p]
  {
  }

  /** A save that did not raise leaves the angles at zero, with nothing
      unsaved, unless it was a reported failure, which changes nothing. */
  lemma SaveRotationOutcomes(r: Orientation, display: Option<Image>, path: Option<string>, outcome: ImWrite,
                             encode: (string, Image) -> Image)
    ensures var (after, raised) := SaveRotationSpec(r, display, path, outcome, encode);
      && (raised <==> display.None?)
      && (after != r ==> !after.dirty && after.angle == 0 && after.halves == 0 && after.original == display)
      && (after == r <== raised || path.None? || outcome == Raises)
  {
  }

  /** `save_rotation`. */
  method SaveRotation(lab: Labeler, disk: Disk, outcome: ImWrite) returns (raised: bool)
    requires lab.Valid()
    modifies disk`images, lab`original, lab`rotationDirty, lab`imageAngle, lab`angleHalves
    ensures lab.Valid()
    ensures (OrientationOf(lab, disk), raised)
      == SaveRotationSpec(old(OrientationOf(lab, disk)), lab.display, lab.imagePath, outcome, disk.encode)
  {
    raised := false;
    if lab.display.None? {
      raised := true;
      return;
    }
    if lab.imagePath.None? || outcome == Raises {
      return;
    }
    if outcome == Stored {
      disk.images := disk.images[lab.imagePath.value := disk.encode(lab.imagePath.value, lab.display.value)];
    }
    lab.original := lab.display;
    lab.rotationDirty := false;
    lab.imageAngle := 0;
    lab.angleHalves := 0;
  }

  /** Whether check_unsaved_rotation lets the caller go on: nothing was
      unsaved, the answer was No, or it was Yes and the save did not raise,
      which it does exactly when nothing is displayed. */
  predicate Proceeds(dirty: bool, answer: Answer, display: Option<Image>)
  {
    !dirty || answer == No || (answer == Yes && display.Some?)
  }

  /** The rotation state check_unsaved_rotation leaves: saved after Yes to
      an unsaved rotation, as it was otherwise. */
  function AfterPrompt(r: Orientation, answer: Answer, display: Option<Image>, path: Option<string>,
                       outcome: ImWrite, encode: (string, Image) -> Image): Orientation
  {
    if r.dirty && answer == Yes then SaveRotationSpec(r, display, path, outcome, encode).0 else r
  }

  /** `check_unsaved_rotation`: whether the caller may go on. A clean state
      goes on without a question; a dirty one asks, and the answer decides:
      Yes saves and goes on, No goes on and keeps the rotation unsaved,
      Cancel stops. An exception from the save stops the caller too. */
  method CheckUnsavedRotation(lab: Labeler, disk: Disk, answer: Answer, outcome: ImWrite)
    returns (proceed: bool, raised: bool)
    requires lab.Valid()
    modifies disk`images, lab`original, lab`rotationDirty, lab`imageAngle, lab`angleHalves
    ensures lab.Valid()
    ensures raised ==> !proceed
    ensures old(!lab.rotationDirty) || answer != Yes ==>
      && unchanged(disk`images, lab`original, lab`rotationDirty, lab`imageAngle, lab`angleHalves)
      && !raised && (proceed <==> old(!lab.rotationDirty) || answer == No)
    ensures old(lab.rotationDirty) && answer == Yes ==>
      && (OrientationOf(lab, disk), raised)
           == SaveRotationSpec(old(OrientationOf(lab, disk)), lab.display, lab.imagePath, outcome, disk.encode)
      && proceed == !raised
    ensures proceed <==> Proceeds(old(lab.rotationDirty), answer, lab.display)
    ensures OrientationOf(lab, disk)
            == AfterPrompt(old(OrientationOf(lab, disk)), answer, lab.display, lab.imagePath, outcome, disk.encode)
  {
    proceed, raised := true, false;
    if lab.rotationDirty {
      match answer
      case Yes =>
        raised := SaveRotation(lab, disk, outcome);
        proceed := !raised;
      case No =>
      case Cancel =>
        proceed := false;
    }
  }

  // ---------------------------------------------------------------------
  // Canvas handlers

  /** `on_canvas_button_press`: in rotation mode, remember where the drag
      starts and the angle it starts from; in labeling mode, start a box. */
  method OnButtonPress(lab: Labeler, x: int, y: int)
    requires lab.Valid()
    modifies lab`dragStartX, lab`dragStartY, lab`startHalves, lab`startX, lab`startY, lab`preview
    ensures lab.Valid()
    ensures lab.mode == Rotation ==>
      && lab.dragStartX == Some(x) && lab.dragStartY == Some(y) && lab.startHalves == lab.angleHalves
      && unchanged(lab`startX, lab`startY, lab`preview)
    ensures lab.mode == Labeling ==>
      && unchanged(lab`dragStartX, lab`dragStartY, lab`startHalves)
      && if lab.shown.Some? then lab.startX == Some(x) && lab.startY == Some(y) && lab.preview.None?
         else unchanged(lab`startX, lab`startY, lab`preview)
  {
    match lab.mode
    case Rotation =>
      lab.dragStartX, lab.dragStartY := Some(x), Some(y);
      lab.startHalves := lab.angleHalves;
    case Labeling =>
      StartBox(lab, x, y);
  }

  /** A drag in rotation mode: the angle is the start angle plus half a
      degree per pixel moved right, modulo 360, and the original is shown
      turned by it. */
  method DragTo(lab: Labeler, x: int, warp: (Image, int) -> Image, window: Size, fitted: Size)
    returns (raised: bool)
    requires lab.Valid() && lab.dragStartX.Some?
    modifies lab`angleHalves, lab`display, lab`canvas, lab`shown, lab`preview, lab`rects, lab`captions
    ensures lab.Valid()
    ensures lab.angleHalves == DragHalves(lab.startHalves, x - lab.dragStartX.value)
    ensures old(lab.original.None?) ==>
      unchanged(lab`display, lab`canvas, lab`shown, lab`preview, lab`rects, lab`captions) && !raised
    ensures old(lab.original.Some?) ==>
      && lab.display == Some(warp(lab.original.value, lab.angleHalves))
      && Resized(lab, old(ViewOf(lab)), window, fitted, raised)
  {
    ghost var view := ViewOf(lab);
    lab.angleHalves := DragHalves(lab.startHalves, x - lab.dragStartX.value);
    assert ViewOf(lab) == view;
    raised := ApplySmoothRotation(lab, warp, window, fitted);
  }

  /** `on_canvas_mouse_drag`: a drag in rotation mode turns the image, one
      in labeling mode moves the box preview. */
  method OnMouseDrag(lab: Labeler, x: int, y: int, warp: (Image, int) -> Image, window: Size, fitted: Size)
    returns (raised: bool)
    requires lab.Valid()
    modifies lab`angleHalves, lab`display, lab`canvas, lab`shown, lab`preview, lab`rects, lab`captions
    ensures lab.Valid()
    ensures lab.mode == Rotation && lab.dragStartX.Some? ==>
      && lab.angleHalves == DragHalves(lab.startHalves, x - lab.dragStartX.value)
      && (old(lab.original.None?) ==>
            unchanged(lab`display, lab`canvas, lab`shown, lab`preview, lab`rects, lab`captions) && !raised)
      && (old(lab.original.Some?) ==>
            && lab.display == Some(warp(lab.original.value, lab.angleHalves))
            && Resized(lab, old(ViewOf(lab)), window, fitted, raised))
    ensures lab.mode == Rotation && lab.dragStartX.None? ==>
      unchanged(lab`angleHalves, lab`display, lab`canvas, lab`shown, lab`preview, lab`rects, lab`captions) && !raised
    ensures lab.mode == Labeling ==>
      && unchanged(lab`angleHalves, lab`display, lab`canvas, lab`shown, lab`rects, lab`captions) && !raised
      && if lab.startX.Some? then lab.preview == Some(Rect(lab.startX.value, lab.startY.value, x, y))
         else unchanged(lab`preview)
  {
    raised := false;
    match lab.mode
    case Rotation =>
      if lab.dragStartX.Some? {
        raised := DragTo(lab, x, warp, window, fitted);
      }
    case Labeling =>
      DrawBox(lab, x, y);
  }

  /** The end of a drag in rotation mode: the angle snaps to the nearest
      whole degree (half-way cases to the even one, so 359.5 becomes 360),
      the rotation is marked unsaved and the drag is forgotten. */
  method EndDrag(lab: Labeler)
    requires lab.Valid()
    modifies lab`angleHalves, lab`imageAngle, lab`rotationDirty, lab`dragStartX, lab`dragStartY, lab`startHalves
    ensures lab.Valid()
    ensures lab.angleHalves == old(lab.angleHalves) && lab.imageAngle == RoundHalves(lab.angleHalves)
    ensures 0 <= lab.imageAngle <= 360
    ensures lab.rotationDirty && lab.dragStartX.None? && lab.dragStartY.None? && lab.startHalves == 0
  {
    lab.angleHalves := lab.angleHalves % 720;
    SnapRange(lab.angleHalves);
    lab.imageAngle := RoundHalves(lab.angleHalves);
    lab.rotationDirty := true;
    lab.dragStartX, lab.dragStartY := None, None;
    lab.startHalves := 0;
  }

  /** `on_canvas_button_release`: the end of a drag in rotation mode, or of
      a box gesture in labeling mode. */
  method OnButtonRelease(lab: Labeler, x: int, y: int) returns (raised: bool)
    requires lab.Valid()
    modifies lab`angleHalves, lab`imageAngle, lab`rotationDirty, lab`dragStartX, lab`dragStartY, lab`startHalves
    modifies lab`bboxes, lab`startX, lab`preview, lab`rects, lab`captions
    ensures lab.Valid()
    ensures lab.mode == Rotation ==> unchanged(lab`bboxes, lab`startX, lab`preview, lab`rects, lab`captions) && !raised
    ensures lab.mode == Rotation && old(lab.dragStartX.Some?) ==>
      && lab.angleHalves == old(lab.angleHalves) && lab.imageAngle == RoundHalves(lab.angleHalves)
      && 0 <= lab.imageAngle <= 360
      && lab.rotationDirty && lab.dragStartX.None? && lab.dragStartY.None? && lab.startHalves == 0
    ensures lab.mode == Rotation && old(lab.dragStartX.None?) ==>
      unchanged(lab`angleHalves, lab`imageAngle, lab`rotationDirty, lab`dragStartX, lab`dragStartY, lab`startHalves)
    ensures lab.mode == Labeling ==>
      && unchanged(lab`angleHalves, lab`imageAngle, lab`rotationDirty, lab`dragStartX, lab`dragStartY, lab`startHalves)
      && (old(lab.startX.None?) ==> unchanged(lab`bboxes, lab`startX, lab`preview, lab`rects, lab`captions) && !raised)
      && (old(lab.startX.Some?) ==> BoxEnded(lab, old(SketchOf(lab)), old(Gesture(lab, x, y)), raised))
  {
    raised := false;
    match lab.mode
    case Rotation =>
      if lab.dragStartX.Some? {
        EndDrag(lab);
      }
    case Labeling =>
      raised := EndBox(lab, x, y);
  }

  // ---------------------------------------------------------------------
  // Loading an image and its labels

  /** The lines of a text file, none when it does not exist. */
  function LabelFile(texts: map<string, seq<string>>, path: string): (lines: seq<string>)
    ensures path !in texts ==> lines == []
  {
    if path in texts then texts[path] else []
  }

  /** What load_current_image reads from the label file of an image. */
  function StoredLabels(texts: map<string, seq<string>>, imagePath: string): LabelRead
  {
    ReadLabels(LabelFile(texts, LabelPath(imagePath)))
  }

  /** The parse loop of load_current_image: the boxes of the lines with five
      tokens, in file order, up to the first such line `float()` rejects. */
  method ReadLabelFile(lines: seq<string>) returns (boxes: seq<Box>, complete: bool)
    ensures LabelRead(boxes, complete) == ReadLabels(lines)
  {
    boxes, complete := [], true;
    var i := 0;
    while i < |lines|
      invariant 0 <= i <= |lines|
      invariant ReadLabels(lines[..i]) == LabelRead(boxes, true)
    {
      assert lines[..i + 1][..i] == lines[..i];
      var ws := Words(lines[i]);
      if |ws| == 5 {
        var b := ParseBox(ws);
        if b.None? {
          assert ReadLabels(lines[..i + 1]) == LabelRead(boxes, false);
          ReadLabelsAppend(lines[..i + 1], lines[i + 1..]);
          assert lines[..i + 1] + lines[i + 1..] == lines;
          return boxes, false;
        }
        boxes := boxes + [b.value];
      }
      i := i + 1;
    }
    assert lines[..i] == lines;
  }

  /** The label file of an image, read as load_current_image reads it. */
  method ReadStoredLabels(texts: map<string, seq<string>>, imagePath: string)
    returns (boxes: seq<Box>, complete: bool)
    ensures LabelRead(boxes, complete) == StoredLabels(texts, imagePath)
  {
    boxes, complete := ReadLabelFile(LabelFile(texts, LabelPath(imagePath)));
  }

  /** The canvas after perform_resize and update_label_list: resized as
      perform_resize leaves it, and an exception when drawing or listing a
      box raised. */
  ghost predicate Listed(lab: Labeler, before: View, window: Size, fitted: Size, raised: bool)
    reads lab`canvas, lab`shown, lab`preview, lab`rects, lab`captions, lab`bboxes, lab`classes
  {
    var drawRaised := !Display.TooSmall(window, fitted) && Draw(lab.bboxes, lab.classes, window, fitted).raised;
    && Resized(lab, before, window, fitted, drawRaised)
    && (raised <==> drawRaised || ListNames(lab.bboxes, lab.classes).None?)
  }

  /** The end of load_current_image: resize and draw, then list the boxes
      unless drawing raised. */
  method ResizeAndList(lab: Labeler, window: Size, fitted: Size) returns (raised: bool)
    requires lab.Valid() && lab.display.Some?
    modifies lab`canvas, lab`shown, lab`preview, lab`rects, lab`captions
    ensures lab.Valid()
    ensures Listed(lab, old(ViewOf(lab)), window, fitted, raised)
  {
    raised := PerformResize(lab, window, fitted);
    if !raised {
      var names := UpdateLabelList(lab.bboxes, lab.classes);
      raised := names.None?;
    }
  }

  /** The reset of load_current_image once the image decoded: the image
      becomes original and displayed, the rotation is cleared, and the
      boxes are replaced by those read from the label file. */
  method TakeImage(lab: Labeler, g: Image, boxes: seq<Box>)
    requires lab.Valid()
    modifies lab`original, lab`display, lab`imageAngle, lab`angleHalves, lab`rotationDirty, lab`bboxes, lab`rects
    ensures lab.Valid()
    ensures lab.original == Some(g) && lab.display == Some(g)
    ensures lab.imageAngle == 0 && lab.angleHalves == 0 && !lab.rotationDirty
    ensures lab.bboxes == boxes && lab.rects == []
  {
    lab.original, lab.display := Some(g), Some(g);
    lab.imageAngle, lab.angleHalves, lab.rotationDirty := 0, 0, false;
    lab.bboxes, lab.rects := boxes, [];
  }

  /** The state load_current_image leaves once image `g` decoded and its
      label file read as `read`: `g` is both the original and the displayed
      image, the rotation is reset, the boxes are those read, and unless a
      line raised, the canvas is resized, drawn and listed. */
  ghost predicate Shown(lab: Labeler, before: View, g: Image, read: LabelRead, window: Size, fitted: Size, raised: bool)
    reads lab`original, lab`display, lab`imageAngle, lab`angleHalves, lab`rotationDirty, lab`bboxes
    reads lab`canvas, lab`shown, lab`preview, lab`rects, lab`captions, lab`classes
  {
    && lab.original == Some(g) && lab.display == Some(g)
    && lab.imageAngle == 0 && lab.angleHalves == 0 && !lab.rotationDirty
    && lab.bboxes == read.boxes
    && if read.complete then Listed(lab, before.(rects := []), window, fitted, raised)
       else raised && ViewOf(lab) == before.(rects := [])
  }

  /** load_current_image once the image decoded and its label file was
      read: take the image and the boxes, then resize, draw and list,
      unless reading raised. */
  method ShowImage(lab: Labeler, g: Image, boxes: seq<Box>, complete: bool, window: Size, fitted: Size)
    returns (raised: bool)
    requires lab.Valid()
    modifies lab`original, lab`display, lab`imageAngle, lab`angleHalves, lab`rotationDirty, lab`bboxes
    modifies lab`canvas, lab`shown, lab`preview, lab`rects, lab`captions
    ensures lab.Valid()
    ensures Shown(lab, old(ViewOf(lab)), g, LabelRead(boxes, complete), window, fitted, raised)
  {
    ghost var view := ViewOf(lab).(rects := []);
    TakeImage(lab, g, boxes);
    assert ViewOf(lab) == view;
    if !complete {
      return true;
    }
    raised := ResizeAndList(lab, window, fitted);
  }

  /** load_current_image once the image path is taken: decode it; when it
      decodes, read its label file and show it. */
  method LoadPath(lab: Labeler, disk: Disk, path: string, window: Size, fitted: Size) returns (raised: bool)
    requires lab.Valid()
    modifies lab`original, lab`display, lab`imageAngle, lab`angleHalves, lab`rotationDirty
    modifies lab`bboxes, lab`canvas, lab`shown, lab`preview, lab`rects, lab`captions
    ensures lab.Valid()
    ensures path !in disk.images ==>
      && unchanged(lab`original, lab`display, lab`imageAngle, lab`angleHalves, lab`rotationDirty, lab`bboxes)
      && unchanged(lab`canvas, lab`shown, lab`preview, lab`rects, lab`captions) && !raised
    ensures path in disk.images ==>
      Shown(lab, old(ViewOf(lab)), disk.images[path], StoredLabels(disk.texts, path), window, fitted, raised)
  {
    raised := false;
    var g := disk.Decode(path);
    if g.Some? {
      var boxes, complete := ReadStoredLabels(disk.texts, path);
      raised := ShowImage(lab, g.value, boxes, complete, window, fitted);
    }
  }

  /** `load_current_image`. The image path is taken before decoding, so an
      image that does not decode leaves the previous image, rotation and
      boxes in place under the new path. A label line that `float()`
      rejects raises and stops the load before anything is drawn. */
  method LoadCurrentImage(lab: Labeler, disk: Disk, window: Size, fitted: Size) returns (raised: bool)
    requires lab.Valid()
    modifies lab`imagePath, lab`original, lab`display, lab`imageAngle, lab`angleHalves, lab`rotationDirty
    modifies lab`bboxes, lab`canvas, lab`shown, lab`preview, lab`rects, lab`captions
    ensures lab.Valid()
    ensures lab.imageList == [] ==>
      && unchanged(lab`imagePath, lab`original, lab`display, lab`imageAngle, lab`angleHalves, lab`rotationDirty)
      && unchanged(lab`bboxes, lab`canvas, lab`shown, lab`preview, lab`rects, lab`captions) && !raised
    ensures lab.imageList != [] ==>
      var path := lab.imageList[lab.currentIndex];
      && lab.imagePath == Some(path)
      && (path !in disk.images ==>
            && unchanged(lab`original, lab`display, lab`imageAngle, lab`angleHalves, lab`rotationDirty, lab`bboxes)
            && unchanged(lab`canvas, lab`shown, lab`preview, lab`rects, lab`captions) && !raised)
      && (path in disk.images ==>
            Shown(lab, old(ViewOf(lab)), disk.images[path], StoredLabels(disk.texts, path), window, fitted, raised))
  {
    raised := false;
    if lab.imageList != [] {
      var path := lab.imageList[lab.currentIndex];
      ghost var view := ViewOf(lab);
      lab.imagePath := Some(path);
      assert ViewOf(lab) == view;
      raised := LoadPath(lab, disk, path, window, fitted);
    }
  }

  /** The state load_current_image leaves on a non-empty list: the current
      position is the image path and, when that image decoded, it is shown
      with the boxes of its label file and no rotation. */
  ghost predicate LoadedCurrent(lab: Labeler, disk: Disk)
    reads lab`imageList, lab`currentIndex, lab`imagePath, lab`original, lab`display
    reads lab`imageAngle, lab`angleHalves, lab`rotationDirty, lab`bboxes, disk
  {
    && 0 <= lab.currentIndex < |lab.imageList|
    && var path := lab.imageList[lab.currentIndex];
    && lab.imagePath == Some(path)
    && (path in disk.images ==>
          && lab.original == Some(disk.images[path]) && lab.display == lab.original
          && lab.imageAngle == 0 && lab.angleHalves == 0 && !lab.rotationDirty
          && lab.bboxes == StoredLabels(disk.texts, path).boxes)
  }

  /** What load_current_image leaves on the canvas for the image at `path`,
      from the view, displayed image and boxes before: decoded, the image is
      shown as Shown says; otherwise the displayed image, the boxes and the
      canvas stay and nothing raised. */
  ghost predicate Reloaded(lab: Labeler, disk: Disk, path: string, before: View, display: Option<Image>,
                           bboxes: seq<Box>, window: Size, fitted: Size, raised: bool)
    reads lab`original, lab`display, lab`imageAngle, lab`angleHalves, lab`rotationDirty, lab`bboxes
    reads lab`canvas, lab`shown, lab`preview, lab`rects, lab`captions, lab`classes, disk
  {
    if path in disk.images then
      Shown(lab, before, disk.images[path], StoredLabels(disk.texts, path), window, fitted, raised)
    else
      ViewOf(lab) == before && lab.display == display && lab.bboxes == bboxes && !raised
  }

  // ---------------------------------------------------------------------
  // Saving labels and moving through the list

  /** The label files after save_current_labels: nothing happens without an
      image path or without boxes (an existing file is kept); `writeOk`
      false stands for `open` raising; otherwise the label file holds one
      line per box, in list order. */
  predicate CurrentSaved(path: Option<string>, bs: seq<Box>, before: map<string, seq<string>>,
                         after: map<string, seq<string>>, writeOk: bool, raised: bool)
  {
    if path.None? || path == Some("") || bs == [] then after == before && !raised
    else if !writeOk then after == before && raised
    else after == before[LabelPath(path.value) := LabelLines(bs)] && !raised
  }

  /** A file save_current_labels wrote is read back by load_current_image
      as the same boxes in the same order, each with its class truncated
      to an integer and its coordinates rounded to six decimals. */
  lemma CurrentSavedReloads(path: Option<string>, bs: seq<Box>, before: map<string, seq<string>>,
                            after: map<string, seq<string>>, raised: bool)
    requires CurrentSaved(path, bs, before, after, true, raised)
    requires path.Some? && path != Some("") && bs != []
    ensures !raised && StoredLabels(after, path.value) == LabelRead(QuantizedAll(bs), true)
  {
    LabelFileRoundTrip(bs);
  }

  /** `save_current_labels`. */
  method SaveCurrentLabels(lab: Labeler, disk: Disk, writeOk: bool) returns (raised: bool)
    modifies disk`texts
    ensures CurrentSaved(lab.imagePath, lab.bboxes, old(disk.texts), disk.texts, writeOk, raised)
  {
    raised := false;
    if lab.imagePath.None? || lab.imagePath == Some("") || lab.bboxes == [] {
      return;
    }
    if !writeOk {
      return true;
    }
    var lines := FormatLabels(lab.bboxes);
    disk.texts := disk.texts[LabelPath(lab.imagePath.value) := lines];
  }

  /** The write loop of save_current_labels: one line per box, in order. */
  method FormatLabels(bs: seq<Box>) returns (lines: seq<string>)
    ensures lines == LabelLines(bs)
  {
    lines := [];
    var i := 0;
    while i < |bs|
      invariant 0 <= i <= |bs|
      invariant lines == Lines(bs[..i], LabelLine)
    {
      LinesSnoc(bs, i, LabelLine);
      lines := lines + [LabelLine(bs[i])];
      i := i + 1;
    }
    assert bs[..i] == bs;
  }

  /** The label files after the auto-save of a move. next_image
      (`removeEmpty`) removes the label file of an image without boxes,
      which raises when there is no image path; otherwise the labels are
      saved by save_current_labels. */
  predicate LabelsAutoSaved(path: Option<string>, bs: seq<Box>, before: map<string, seq<string>>,
                            after: map<string, seq<string>>, writeOk: bool, removeEmpty: bool, raised: bool)
  {
    if removeEmpty && bs == [] then
      if path.None? then after == before && raised
      else after == before - {LabelPath(path.value)} && !raised
    else CurrentSaved(path, bs, before, after, writeOk, raised)
  }

  /** The files after the auto-save of a move, from the state before it: an
      unsaved rotation is saved first, and when that raises (nothing is
      displayed) the labels are not saved. */
  predicate AutoSaved(dirty: bool, r: Orientation, display: Option<Image>, path: Option<string>, bs: seq<Box>,
                      texts: map<string, seq<string>>, texts': map<string, seq<string>>,
                      images': map<string, Image>, outcome: ImWrite, encode: (string, Image) -> Image,
                      writeOk: bool, removeEmpty: bool, raised: bool)
  {
    if dirty && display.None? then raised && texts' == texts && images' == r.images
    else
      && images' == (if dirty then SaveRotationSpec(r, display, path, outcome, encode).0.images else r.images)
      && LabelsAutoSaved(path, bs, texts, texts', writeOk, removeEmpty, raised)
  }

  /** The auto-save of prev_image and next_image: save an unsaved rotation,
      then the labels. */
  method AutoSave(lab: Labeler, disk: Disk, outcome: ImWrite, writeOk: bool, removeEmpty: bool)
    returns (raised: bool)
    requires lab.Valid()
    modifies disk`texts, disk`images, lab`original, lab`rotationDirty, lab`imageAngle, lab`angleHalves
    ensures lab.Valid()
    ensures old(lab.rotationDirty) ==>
      OrientationOf(lab, disk) == SaveRotationSpec(old(OrientationOf(lab, disk)), lab.display, lab.imagePath, outcome, disk.encode).0
    ensures old(!lab.rotationDirty) ==> unchanged(lab`original, lab`rotationDirty, lab`imageAngle, lab`angleHalves)
    ensures AutoSaved(old(lab.rotationDirty), old(OrientationOf(lab, disk)), lab.display, lab.imagePath, lab.bboxes,
                      old(disk.texts), disk.texts, disk.images, outcome, disk.encode, writeOk, removeEmpty, raised)
  {
    raised := false;
    if lab.rotationDirty {
      raised := SaveRotation(lab, disk, outcome);
      if raised {
        return;
      }
    }
    if removeEmpty && lab.bboxes == [] {
      if lab.imagePath.None? {
        return true;
      }
      var path := LabelPath(lab.imagePath.value);
      if path in disk.texts {
        disk.texts := disk.texts - {path};
      }
    } else {
      raised := SaveCurrentLabels(lab, disk, writeOk);
    }
  }

  /** Take position `target` of the list and load its image. */
  method LoadAt(lab: Labeler, disk: Disk, target: int, window: Size, fitted: Size) returns (raised: bool)
    requires lab.Valid() && 0 <= target < |lab.imageList|
    modifies lab`currentIndex, lab`imagePath, lab`original, lab`display, lab`imageAngle, lab`angleHalves
    modifies lab`rotationDirty, lab`bboxes, lab`canvas, lab`shown, lab`preview, lab`rects, lab`captions
    ensures lab.Valid()
    ensures lab.currentIndex == target && LoadedCurrent(lab, disk)
    ensures Reloaded(lab, disk, lab.imageList[target], old(ViewOf(lab)), old(lab.display), old(lab.bboxes),
                     window, fitted, raised)
  {
    lab.currentIndex := target;
    raised := LoadCurrentImage(lab, disk, window, fitted);
  }

  /** A move to position `target`: with auto-save on, save first, and stay
      when saving raised; then load the image at `target`. The move took
      place exactly when the index is `target` afterwards. */
  method MoveTo(lab: Labeler, disk: Disk, outcome: ImWrite, writeOk: bool, removeEmpty: bool, target: int,
                window: Size, fitted: Size)
    returns (raised: bool)
    requires lab.Valid() && 0 <= target < |lab.imageList| && target != lab.currentIndex
    modifies disk`texts, disk`images, lab`currentIndex, lab`imagePath, lab`original, lab`display
    modifies lab`imageAngle, lab`angleHalves, lab`rotationDirty, lab`bboxes
    modifies lab`canvas, lab`shown, lab`preview, lab`rects, lab`captions
    ensures lab.Valid()
    ensures lab.currentIndex == target || (lab.currentIndex == old(lab.currentIndex) && raised)
    ensures lab.currentIndex == target ==> LoadedCurrent(lab, disk)
    ensures lab.currentIndex == target ==>
      Reloaded(lab, disk, lab.imageList[target], old(ViewOf(lab)), old(lab.display), old(lab.bboxes),
               window, fitted, raised)
    ensures lab.currentIndex != target ==>
      unchanged(lab`imagePath, lab`display, lab`bboxes, lab`canvas, lab`shown, lab`preview, lab`rects, lab`captions)
    ensures !old(lab.autoSave) ==> unchanged(disk`texts, disk`images) && lab.currentIndex == target
    ensures old(!lab.rotationDirty) ==> unchanged(disk`images)
    ensures old(lab.autoSave) ==>
      AutoSaved(old(lab.rotationDirty), old(OrientationOf(lab, disk)), old(lab.display), old(lab.imagePath),
                old(lab.bboxes), old(disk.texts), disk.texts, disk.images, outcome, disk.encode, writeOk, removeEmpty,
                lab.currentIndex != target)
  {
    raised := false;
    ghost var view, shownImage, boxes := ViewOf(lab), lab.display, lab.bboxes;
    if lab.autoSave {
      ghost var r, dirty, display, path, bs, texts :=
        OrientationOf(lab, disk), lab.rotationDirty, lab.display, lab.imagePath, lab.bboxes, disk.texts;
      raised := AutoSave(lab, disk, outcome, writeOk, removeEmpty);
      assert AutoSaved(dirty, r, display, path, bs, texts, disk.texts, disk.images, outcome, disk.encode, writeOk, removeEmpty, raised);
      if raised {
        return;
      }
    }
    ghost var texts, images := disk.texts, disk.images;
    assert ViewOf(lab) == view && lab.display == shownImage && lab.bboxes == boxes;
    raised := LoadAt(lab, disk, target, window, fitted);
    assert disk.texts == texts && disk.images == images;
  }

  /** `next_image`, as written: it moves on without asking about an unsaved
      rotation. With auto-save off, a rotation not yet saved is dropped:
      nothing is written and the next image loads with no rotation. */
  method NextImage(lab: Labeler, disk: Disk, outcome: ImWrite, writeOk: bool, window: Size, fitted: Size)
    returns (raised: bool)
    requires lab.Valid()
    modifies disk`texts, disk`images, lab`currentIndex, lab`imagePath, lab`original, lab`display
    modifies lab`imageAngle, lab`angleHalves, lab`rotationDirty, lab`bboxes
    modifies lab`canvas, lab`shown, lab`preview, lab`rects, lab`captions
    ensures lab.Valid()
    ensures old(lab.imageList == [] || lab.currentIndex >= |lab.imageList| - 1) ==>
      && unchanged(disk`texts, disk`images, lab`currentIndex, lab`imagePath, lab`original, lab`display)
      && unchanged(lab`imageAngle, lab`angleHalves, lab`rotationDirty, lab`bboxes)
      && unchanged(lab`canvas, lab`shown, lab`preview, lab`rects, lab`captions) && !raised
    ensures lab.currentIndex == old(lab.currentIndex) || lab.currentIndex == old(lab.currentIndex) + 1
    ensures lab.currentIndex == old(lab.currentIndex) + 1 ==> LoadedCurrent(lab, disk)
    ensures old(!lab.rotationDirty) ==> unchanged(disk`images)
    ensures old(lab.imageList != [] && lab.currentIndex < |lab.imageList| - 1) ==>
      && (old(lab.autoSave) ==>
            AutoSaved(old(lab.rotationDirty), old(OrientationOf(lab, disk)), old(lab.display), old(lab.imagePath),
                      old(lab.bboxes), old(disk.texts), disk.texts, disk.images, outcome, disk.encode, writeOk, true,
                      lab.currentIndex == old(lab.currentIndex)))
      && (!old(lab.autoSave) ==>
            unchanged(disk`texts, disk`images) && lab.currentIndex == old(lab.currentIndex) + 1)
    ensures old(lab.imageList != [] && lab.currentIndex < |lab.imageList| - 1 && !lab.autoSave && lab.rotationDirty)
            && lab.imageList[lab.currentIndex] in disk.images ==>
      unchanged(disk`images) && !lab.rotationDirty && lab.imageAngle == 0
  {
    raised := false;
    if lab.imageList != [] && lab.currentIndex < |lab.imageList| - 1 {
      raised := MoveTo(lab, disk, outcome, writeOk, true, lab.currentIndex + 1, window, fitted);
    }
  }

  /** `next_image` asking first, as prev_image and a thumbnail click do: an
      unsaved rotation is saved, dropped or keeps the image, as the answer
      says. Cancel changes nothing; Yes writes the displayed image to its
      path before moving on. */
  method NextImageChecked(lab: Labeler, disk: Disk, answer: Answer, outcome: ImWrite, writeOk: bool,
                          window: Size, fitted: Size)
    returns (raised: bool)
    requires lab.Valid()
    modifies disk`texts, disk`images, lab`currentIndex, lab`imagePath, lab`original, lab`display
    modifies lab`imageAngle, lab`angleHalves, lab`rotationDirty, lab`bboxes
    modifies lab`canvas, lab`shown, lab`preview, lab`rects, lab`captions
    ensures lab.Valid()
    ensures old(lab.rotationDirty) && answer == Cancel ==>
      && unchanged(disk`texts, disk`images, lab`currentIndex, lab`imagePath, lab`original, lab`display)
      && unchanged(lab`imageAngle, lab`angleHalves, lab`rotationDirty, lab`bboxes)
      && unchanged(lab`canvas, lab`shown, lab`preview, lab`rects, lab`captions) && !raised
    ensures old(lab.rotationDirty && lab.display.Some? && lab.imagePath.Some?) && answer == Yes && outcome == Stored ==>
      disk.images == old(disk.images)[old(lab.imagePath.value) := disk.encode(old(lab.imagePath.value), old(lab.display.value))]
    ensures lab.currentIndex == old(lab.currentIndex) || lab.currentIndex == old(lab.currentIndex) + 1
    ensures lab.currentIndex == old(lab.currentIndex) + 1 ==> LoadedCurrent(lab, disk)
    ensures Proceeds(old(lab.rotationDirty), answer, old(lab.display))
            && old(lab.imageList != [] && lab.currentIndex < |lab.imageList| - 1) ==>
      var r := AfterPrompt(old(OrientationOf(lab, disk)), answer, old(lab.display), old(lab.imagePath), outcome, disk.encode);
      && (old(lab.autoSave) ==>
            AutoSaved(r.dirty, r, old(lab.display), old(lab.imagePath), old(lab.bboxes), old(disk.texts),
                      disk.texts, disk.images, outcome, disk.encode, writeOk, true,
                      lab.currentIndex == old(lab.currentIndex)))
      && (!old(lab.autoSave) ==>
            disk.texts == old(disk.texts) && disk.images == r.images && lab.currentIndex == old(lab.currentIndex) + 1)
  {
    var proceed;
    ghost var display, path, bs := lab.display, lab.imagePath, lab.bboxes;
    ghost var r0 := OrientationOf(lab, disk);
    proceed, raised := CheckUnsavedRotation(lab, disk, answer, outcome);
    ghost var r := OrientationOf(lab, disk);
    assert r == AfterPrompt(r0, answer, display, path, outcome, disk.encode);
    assert lab.display == display && lab.imagePath == path && lab.bboxes == bs;
    if proceed {
      ghost var clean, images := !lab.rotationDirty, disk.images;
      raised := NextImage(lab, disk, outcome, writeOk, window, fitted);
      assert clean ==> disk.images == images;
    }
  }

  /** `prev_image`: ask about an unsaved rotation first; then, when there is
      an earlier image, auto-save (without removing an empty label file)
      and load it. */
  method PrevImage(lab: Labeler, disk: Disk, answer: Answer, outcome: ImWrite, writeOk: bool,
                   window: Size, fitted: Size)
    returns (raised: bool)
    requires lab.Valid()
    modifies disk`texts, disk`images, lab`currentIndex, lab`imagePath, lab`original, lab`display
    modifies lab`imageAngle, lab`angleHalves, lab`rotationDirty, lab`bboxes
    modifies lab`canvas, lab`shown, lab`preview, lab`rects, lab`captions
    ensures lab.Valid()
    ensures old(lab.rotationDirty) && answer == Cancel ==>
      && unchanged(disk`texts, disk`images, lab`currentIndex, lab`imagePath, lab`original, lab`display)
      && unchanged(lab`imageAngle, lab`angleHalves, lab`rotationDirty, lab`bboxes)
      && unchanged(lab`canvas, lab`shown, lab`preview, lab`rects, lab`captions) && !raised
    ensures lab.currentIndex == old(lab.currentIndex)
            || (old(lab.currentIndex) > 0 && lab.currentIndex == old(lab.currentIndex) - 1)
    ensures old(lab.rotationDirty && lab.display.Some? && lab.imagePath.Some?) && answer == Yes && outcome == Stored ==>
      disk.images == old(disk.images)[old(lab.imagePath.value) := disk.encode(old(lab.imagePath.value), old(lab.display.value))]
    ensures lab.currentIndex != old(lab.currentIndex) ==> LoadedCurrent(lab, disk)
    ensures lab.currentIndex != old(lab.currentIndex) ==>
      Reloaded(lab, disk, lab.imageList[lab.currentIndex], old(ViewOf(lab)), old(lab.display), old(lab.bboxes),
               window, fitted, raised)
    ensures Proceeds(old(lab.rotationDirty), answer, old(lab.display)) && old(lab.imageList != [] && lab.currentIndex > 0) ==>
      var r := AfterPrompt(old(OrientationOf(lab, disk)), answer, old(lab.display), old(lab.imagePath), outcome, disk.encode);
      && (old(lab.autoSave) ==>
            AutoSaved(r.dirty, r, old(lab.display), old(lab.imagePath), old(lab.bboxes), old(disk.texts),
                      disk.texts, disk.images, outcome, disk.encode, writeOk, false,
                      lab.currentIndex == old(lab.currentIndex)))
      && (!old(lab.autoSave) ==>
            disk.texts == old(disk.texts) && disk.images == r.images && lab.currentIndex == old(lab.currentIndex) - 1)
  {
    var proceed;
    ghost var view, display, path, bs, texts := ViewOf(lab), lab.display, lab.imagePath, lab.bboxes, disk.texts;
    ghost var r0 := OrientationOf(lab, disk);
    proceed, raised := CheckUnsavedRotation(lab, disk, answer, outcome);
    ghost var r := OrientationOf(lab, disk);
    assert r == AfterPrompt(r0, answer, display, path, outcome, disk.encode);
    assert ViewOf(lab) == view && lab.display == display && lab.imagePath == path && lab.bboxes == bs;
    if proceed && lab.imageList != [] && lab.currentIndex > 0 {
      raised := MoveTo(lab, disk, outcome, writeOk, false, lab.currentIndex - 1, window, fitted);
    }
  }

  /** `save_changes`: in rotation mode, save an unsaved rotation (with
      nothing to save only a message is shown); in labeling mode, save the
      labels. */
  method SaveChanges(lab: Labeler, disk: Disk, outcome: ImWrite, writeOk: bool) returns (raised: bool)
    requires lab.Valid()
    modifies disk`texts, disk`images, lab`original, lab`rotationDirty, lab`imageAngle, lab`angleHalves
    ensures lab.Valid()
    ensures lab.mode == Rotation && old(lab.rotationDirty) ==>
      && (OrientationOf(lab, disk), raised)
           == SaveRotationSpec(old(OrientationOf(lab, disk)), lab.display, lab.imagePath, outcome, disk.encode)
      && unchanged(disk`texts)
    ensures lab.mode == Rotation && old(!lab.rotationDirty) ==>
      unchanged(disk`texts, disk`images, lab`original, lab`rotationDirty, lab`imageAngle, lab`angleHalves) && !raised
    ensures lab.mode == Labeling ==>
      && unchanged(disk`images, lab`original, lab`rotationDirty, lab`imageAngle, lab`angleHalves)
      && CurrentSaved(lab.imagePath, lab.bboxes, old(disk.texts), disk.texts, writeOk, raised)
  {
    raised := false;
    match lab.mode
    case Rotation =>
      if lab.rotationDirty {
        raised := SaveRotation(lab, disk, outcome);
      }
    case Labeling =>
      raised := SaveCurrentLabels(lab, disk, writeOk);
  }
}
