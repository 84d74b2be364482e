/** The annotation engine (`LabelingUtils`): drawing the stored boxes, the
    press / drag / release gesture that adds a box, deleting the box nearest
    a click or the one selected in the label list, and saving the boxes. */
module LabelingUtils {
  import opened Optional
  import opened Numeric
  import opened Geometry
  import opened LabelText
  import opened ClassTable
  import opened LabelerState

  // ---------------------------------------------------------------------
  // Drawing

  /** The outline of a stored box: its canvas corners, coloured by class id. */
  function Outline(b: Box, canvas: Size, img: Size): Drawn
  {
    Drawn(CanvasCorners(b, canvas, img), ColourIndex(Trunc(b.cls)))
  }

  /** What draw_all_bboxes leaves on the canvas. `raised`: a class id below
      -len(classes) made `classes[int(cid)]` raise IndexError, which ends
      the loop just after that box's outline. */
  datatype Drawing = Drawing(rects: seq<Drawn>, captions: seq<Caption>, raised: bool)

  /** One pass of the drawing loop: an outline for the box, and a caption
      above its top-left corner when `int(cid)` is below the number of
      classes (a negative id counts from the end of the table). */
  function DrawNext(d: Drawing, b: Box, classes: seq<string>, canvas: Size, img: Size): (e: Drawing)
    requires !d.raised
  {
    var k := Trunc(b.cls);
    var o := Outline(b, canvas, img);
    if k < |classes| then
      match PyIndex(|classes|, k)
      case None => Drawing(d.rects + [o], d.captions, true)
      case Some(p) =>
        Drawing(d.rects + [o], d.captions + [Caption(o.corners.x1, o.corners.y1 - 10.0, classes[p], o.colour)], false)
    else Drawing(d.rects + [o], d.captions, false)
  }

  /** The drawing loop over the boxes in list order, up to the first box
      whose caption lookup raises. */
  function Draw(bs: seq<Box>, classes: seq<string>, canvas: Size, img: Size): (d: Drawing)
    ensures |d.rects| <= |bs| && |d.captions| <= |d.rects|
    decreases |bs|
  {
    if bs == [] then Drawing([], [], false)
    else
      var d := Draw(bs[..|bs| - 1], classes, canvas, img);
      if d.raised then d else DrawNext(d, bs[|bs| - 1], classes, canvas, img)
  }

  /** Drawing one more box. */
  lemma DrawPrefix(bs: seq<Box>, i: nat, classes: seq<string>, canvas: Size, img: Size)
    requires i < |bs|
    ensures var d := Draw(bs[..i], classes, canvas, img);
      Draw(bs[..i + 1], classes, canvas, img) == if d.raised then d else DrawNext(d, bs[i], classes, canvas, img)
  {
    assert bs[..i + 1][..i] == bs[..i];
  }

  /** A class id the caption lookup cannot index. */
  predicate Unindexable(b: Box, classes: seq<string>)
  {
    Trunc(b.cls) < -|classes|
  }

  /** The outlines drawn are those of the boxes, in list order, one per box
      unless the loop stopped. */
  lemma {:induction false} DrawOutlines(bs: seq<Box>, classes: seq<string>, canvas: Size, img: Size)
    ensures var d := Draw(bs, classes, canvas, img);
      && (forall i :: 0 <= i < |d.rects| ==> d.rects[i] == Outline(bs[i], canvas, img))
      && (!d.raised ==> |d.rects| == |bs|)
    decreases |bs|
  {
    if bs != [] {
      var n := |bs|;
      var bs' := bs[..n - 1];
      DrawOutlines(bs', classes, canvas, img);
      var d' := Draw(bs', classes, canvas, img);
      if !d'.raised {
        assert Draw(bs, classes, canvas, img).rects == d'.rects + [Outline(bs[n - 1], canvas, img)];
        assert forall i :: 0 <= i < n - 1 ==> bs'[i] == bs[i];
      }
    }
  }

  /** One pass adds one outline, and raises exactly on an unindexable id. */
  lemma DrawNextStops(d: Drawing, b: Box, classes: seq<string>, canvas: Size, img: Size)
    requires !d.raised
    ensures var e := DrawNext(d, b, classes, canvas, img);
      && |e.rects| == |d.rects| + 1
      && (e.raised <==> Unindexable(b, classes))
  {
  }

  /** The loop stops exactly when some class id cannot be indexed, and then
      just after the first such box. */
  lemma {:induction false} DrawStops(bs: seq<Box>, classes: seq<string>, canvas: Size, img: Size)
    ensures var d := Draw(bs, classes, canvas, img);
      && (d.raised ==> |d.rects| > 0 && Unindexable(bs[|d.rects| - 1], classes))
      && (forall i :: 0 <= i < |d.rects| - 1 ==> !Unindexable(bs[i], classes))
      && (!d.raised ==> forall i :: 0 <= i < |bs| ==> !Unindexable(bs[i], classes))
    decreases |bs|
  {
    if bs != [] {
      var n := |bs|;
      var bs' := bs[..n - 1];
      DrawStops(bs', classes, canvas, img);
      DrawOutlines(bs', classes, canvas, img);
      var d' := Draw(bs', classes, canvas, img);
      assert forall i :: 0 <= i < n - 1 ==> bs'[i] == bs[i];
      if !d'.raised {
        DrawNextStops(d', bs[n - 1], classes, canvas, img);
        assert Draw(bs, classes, canvas, img) == DrawNext(d', bs[n - 1], classes, canvas, img);
      } else {
        assert Draw(bs, classes, canvas, img) == d';
      }
    }
  }

  /** When every class id names a class of the table, nothing raises and
      each box gets its class name as a caption above its outline. */
  lemma {:induction false} DrawCaptions(bs: seq<Box>, classes: seq<string>, canvas: Size, img: Size)
    requires forall i :: 0 <= i < |bs| ==> 0 <= Trunc(bs[i].cls) < |classes|
    ensures var d := Draw(bs, classes, canvas, img);
      && !d.raised && |d.captions| == |bs|
      && forall i :: 0 <= i < |bs| ==>
           var o := Outline(bs[i], canvas, img);
           d.captions[i] == Caption(o.corners.x1, o.corners.y1 - 10.0, classes[Trunc(bs[i].cls)], o.colour)
    decreases |bs|
  {
    if bs != [] {
      var n := |bs|;
      var bs' := bs[..n - 1];
      assert forall i :: 0 <= i < n - 1 ==> bs'[i] == bs[i];
      DrawCaptions(bs', classes, canvas, img);
      var d', b := Draw(bs', classes, canvas, img), bs[n - 1];
      var k, o := Trunc(b.cls), Outline(b, canvas, img);
      assert PyIndex(|classes|, k) == Some(k as nat);
      assert Draw(bs, classes, canvas, img).captions
        == d'.captions + [Caption(o.corners.x1, o.corners.y1 - 10.0, classes[k], o.colour)];
    }
  }

  /** Once the loop has raised, the boxes after that one draw nothing more. */
  lemma {:induction false} DrawRaisedStays(bs: seq<Box>, i: nat, classes: seq<string>, canvas: Size, img: Size)
    requires i <= |bs| && Draw(bs[..i], classes, canvas, img).raised
    ensures Draw(bs, classes, canvas, img) == Draw(bs[..i], classes, canvas, img)
    decreases |bs| - i
  {
    if i < |bs| {
      DrawPrefix(bs, i, classes, canvas, img);
      DrawRaisedStays(bs, i + 1, classes, canvas, img);
    } else {
      assert bs[..i] == bs;
    }
  }

  /** The loop of draw_all_bboxes over the boxes: outline each box and
      caption it, until a caption lookup raises. */
  method DrawBoxes(bs: seq<Box>, classes: seq<string>, canvas: Size, img: Size)
    returns (rects: seq<Drawn>, captions: seq<Caption>, raised: bool)
    ensures Draw(bs, classes, canvas, img) == Drawing(rects, captions, raised)
  {
    rects, captions, raised := [], [], false;
    var i := 0;
    while i < |bs|
      invariant 0 <= i <= |bs|
      invariant Draw(bs[..i], classes, canvas, img) == Drawing(rects, captions, false)
    {
      var b := bs[i];
      DrawPrefix(bs, i, classes, canvas, img);
      var k := Trunc(b.cls);
      var o := Outline(b, canvas, img);
      rects := rects + [o];
      if k < |classes| {
        var p := PyIndex(|classes|, k);
        if p.None? {
          raised := true;
          DrawRaisedStays(bs, i + 1, classes, canvas, img);
          return;
        }
        captions := captions + [Caption(o.corners.x1, o.corners.y1 - 10.0, classes[p.value], o.colour)];
      }
      i := i + 1;
    }
    assert bs[..i] == bs;
  }

  /** `draw_all_bboxes`: clear the outlines and captions, then draw the boxes
      of `bboxes` on the resized image, if there is one. */
  method DrawAllBoxes(lab: Labeler) returns (raised: bool)
    requires lab.Valid()
    modifies lab`rects, lab`captions
    ensures lab.Valid()
    ensures lab.shown.None? ==> lab.rects == [] && lab.captions == [] && !raised
    ensures lab.shown.Some? ==>
      Draw(lab.bboxes, lab.classes, lab.canvas, lab.shown.value) == Drawing(lab.rects, lab.captions, raised)
  {
    lab.rects, lab.captions := [], [];
    raised := false;
    if lab.shown.None? {
      return;
    }
    var rects, captions;
    rects, captions, raised := DrawBoxes(lab.bboxes, lab.classes, lab.canvas, lab.shown.value);
    lab.rects, lab.captions := rects, captions;
  }

  // ---------------------------------------------------------------------
  // The label list

  /** The class names update_label_list shows for the boxes, in list order;
      None where a lookup raises IndexError. */
  function ListNames(bs: seq<Box>, classes: seq<string>): (names: Option<seq<string>>)
    ensures names.Some? ==> |names.value| == |bs|
    decreases |bs|
  {
    if bs == [] then Some([])
    else
      match (ListNames(bs[..|bs| - 1], classes), ListName(classes, Trunc(bs[|bs| - 1].cls)))
      case (Some(ns), Some(n)) => Some(ns + [n])
      case _ => None
  }

  /** Listing raises exactly when some class id cannot be indexed, and
      otherwise shows each box's name in order. */
  lemma {:induction false} ListNamesSpec(bs: seq<Box>, classes: seq<string>)
    ensures var names := ListNames(bs, classes);
      && (names.None? <==> exists i :: 0 <= i < |bs| && Unindexable(bs[i], classes))
      && (names.Some? ==> forall i :: 0 <= i < |bs| ==> ListName(classes, Trunc(bs[i].cls)) == Some(names.value[i]))
    decreases |bs|
  {
    if bs != [] {
      var n := |bs|;
      var bs' := bs[..n - 1];
      ListNamesSpec(bs', classes);
      assert forall i :: 0 <= i < n - 1 ==> bs'[i] == bs[i];
    }
  }

  /** Once the boxes are drawn without raising, listing them cannot raise:
      both look a class id up the same way. */
  lemma ListingFollowsDrawing(bs: seq<Box>, classes: seq<string>, canvas: Size, img: Size)
    requires !Draw(bs, classes, canvas, img).raised
    ensures ListNames(bs, classes).Some?
  {
    DrawStops(bs, classes, canvas, img);
    ListNamesSpec(bs, classes);
  }

  /** The loop of `update_label_list` over the boxes: each entry shows the
      class name, or the fallback name; the loop raises at an id below
      -len(classes). */
  method UpdateLabelList(bs: seq<Box>, classes: seq<string>) returns (names: Option<seq<string>>)
    ensures names == ListNames(bs, classes)
  {
    var shown: seq<string> := [];
    var i := 0;
    while i < |bs|
      invariant 0 <= i <= |bs|
      invariant ListNames(bs[..i], classes) == Some(shown)
    {
      assert bs[..i + 1][..i] == bs[..i];
      var name := ListName(classes, Trunc(bs[i].cls));
      if name.None? {
        ListRaisedStays(bs, i + 1, classes);
        return None;
      }
      shown := shown + [name.value];
      i := i + 1;
    }
    assert bs[..i] == bs;
    names := Some(shown);
  }

  /** Once listing has raised, the boxes after that one change nothing. */
  lemma {:induction false} ListRaisedStays(bs: seq<Box>, i: nat, classes: seq<string>)
    requires i <= |bs| && ListNames(bs[..i], classes).None?
    ensures ListNames(bs, classes).None?
    decreases |bs| - i
  {
    if i < |bs| {
      assert bs[..i + 1][..i] == bs[..i];
      ListRaisedStays(bs, i + 1, classes);
    } else {
      assert bs[..i] == bs;
    }
  }

  // ---------------------------------------------------------------------
  // The box gesture

  /** `start_bbox`: in labeling mode with an image shown, remember the press
      and drop the preview. */
  method StartBox(lab: Labeler, x: int, y: int)
    requires lab.Valid()
    modifies lab`startX, lab`startY, lab`preview
    ensures lab.Valid()
    ensures if lab.mode == Labeling && lab.shown.Some? then
        lab.startX == Some(x) && lab.startY == Some(y) && lab.preview.None?
      else unchanged(lab)
  {
    if lab.mode != Labeling || lab.shown.None? {
      return;
    }
    lab.startX, lab.startY := Some(x), Some(y);
    lab.preview := None;
  }

  /** `draw_bbox`: while a gesture is under way, the dashed preview runs from
      the press to the mouse position. */
  method DrawBox(lab: Labeler, x: int, y: int)
    requires lab.Valid()
    modifies lab`preview
    ensures lab.Valid()
    ensures if lab.mode == Labeling && lab.startX.Some? then
        lab.preview == Some(Rect(lab.startX.value, lab.startY.value, x, y))
      else unchanged(lab)
  {
    if lab.mode != Labeling || lab.startX.None? {
      return;
    }
    lab.preview := Some(Rect(lab.startX.value, lab.startY.value, x, y));
  }

  /** The box end_bbox appends for a gesture from the recorded press to
      (x, y), or what else the release does. */
  function Gesture(lab: Labeler, x: int, y: int): Release
    reads lab`startX, lab`startY, lab`canvas, lab`shown
    requires lab.GestureValid() && lab.startX.Some?
  {
    Classify(lab.startX.value, lab.startY.value, x, y, lab.canvas, lab.shown.value)
  }

  /** The fields a box gesture changes: the boxes, the recorded press, the
      dashed preview and the outlines and captions drawn. */
  datatype Sketch = Sketch(bboxes: seq<Box>, startX: Option<int>, preview: Option<Rect>,
                           rects: seq<Drawn>, captions: seq<Caption>)

  function SketchOf(lab: Labeler): Sketch
    reads lab`bboxes, lab`startX, lab`preview, lab`rects, lab`captions
  {
    Sketch(lab.bboxes, lab.startX, lab.preview, lab.rects, lab.captions)
  }

  /** The gesture fields after end_bbox released gesture g, from those
      before. A gesture under five pixels on an axis is dropped. One whose
      clamped rectangle is empty changes nothing, and the press stays
      recorded. Otherwise the box, tagged with the current class, is
      appended, the gesture ends and the boxes are drawn again. */
  ghost predicate BoxEnded(lab: Labeler, before: Sketch, g: Release, raised: bool)
    reads lab`bboxes, lab`startX, lab`preview, lab`rects, lab`captions
    reads lab`currentClass, lab`shown, lab`classes, lab`canvas
  {
    match g
    case TooSmall =>
      && lab.bboxes == before.bboxes && lab.startX.None? && lab.preview.None?
      && lab.rects == before.rects && lab.captions == before.captions && !raised
    case Outside => SketchOf(lab) == before && !raised
    case Commit(r) =>
      && lab.shown.Some? && lab.shown.value.w > 0 && lab.shown.value.h > 0
      && lab.bboxes == before.bboxes + [Normalize(lab.currentClass as real, r, lab.shown.value)]
      && lab.startX.None? && lab.preview.None?
      && Draw(lab.bboxes, lab.classes, lab.canvas, lab.shown.value) == Drawing(lab.rects, lab.captions, raised)
  }

  /** `end_bbox`. Outside labeling mode or without a press, nothing;
      otherwise the gesture ends as BoxEnded says. */
  method EndBox(lab: Labeler, x: int, y: int) returns (raised: bool)
    requires lab.Valid()
    modifies lab`bboxes, lab`startX, lab`preview, lab`rects, lab`captions
    ensures lab.Valid()
    ensures old(lab.mode != Labeling || lab.startX.None?) ==> unchanged(lab) && !raised
    ensures old(lab.mode == Labeling && lab.startX.Some?) ==>
      BoxEnded(lab, old(SketchOf(lab)), old(Gesture(lab, x, y)), raised)
  {
    raised := false;
    if lab.mode != Labeling || lab.startX.None? {
      return;
    }
    var img := lab.shown.value;
    var g := Classify(lab.startX.value, lab.startY.value, x, y, lab.canvas, img);
    assert g == Gesture(lab, x, y);
    match g
    case TooSmall =>
      lab.preview := None;
      lab.startX := None;
    case Outside =>
    case Commit(r) =>
      raised := AddBox(lab, Normalize(lab.currentClass as real, r, img));
  }

  /** The committing branch of end_bbox: append the box, end the gesture and
      draw the boxes again. */
  method AddBox(lab: Labeler, b: Box) returns (raised: bool)
    requires lab.Valid() && lab.shown.Some?
    modifies lab`bboxes, lab`startX, lab`preview, lab`rects, lab`captions
    ensures lab.Valid()
    ensures lab.bboxes == old(lab.bboxes) + [b] && lab.startX.None? && lab.preview.None?
    ensures Draw(lab.bboxes, lab.classes, lab.canvas, lab.shown.value) == Drawing(lab.rects, lab.captions, raised)
  {
    lab.bboxes := lab.bboxes + [b];
    lab.preview := None;
    lab.startX := None;
    raised := DrawAllBoxes(lab);
    // update_label_list follows; it changes no modelled state and, by
    // ListingFollowsDrawing, cannot raise once drawing did not
  }

  // ---------------------------------------------------------------------
  // Deleting and saving

  /** The argmin loop of delete_bbox over the squared distances from the
      click, already moved into image pixels, to the box centres: a box
      replaces the best so far only when strictly closer. */
  method FindNearest(bs: seq<Box>, clickX: int, clickY: int, img: Size) returns (k: Option<nat>)
    ensures k.None? <==> bs == []
    ensures k.Some? ==> k.value == Nearest(Distances(bs, clickX, clickY, img))
  {
    ghost var ds := Distances(bs, clickX, clickY, img);
    var minDist: Option<real> := None;  // None stands for float('inf')
    k := None;
    var i := 0;
    while i < |bs|
      invariant 0 <= i <= |bs|
      invariant minDist.None? <==> k.None?
      invariant k.None? <==> i == 0
      invariant k.Some? ==> k.value == Nearest(ds[..i]) && minDist == Some(ds[k.value])
    {
      var d := CentreDistance(bs[i], clickX, clickY, img);
      assert ds[..i + 1][..i] == ds[..i] && ds[..i + 1][i] == d;
      if minDist.None? || d < minDist.value {
        minDist, k := Some(d), Some(i);
      }
      i := i + 1;
    }
    assert ds[..i] == ds;
  }

  /** The box a click at canvas position (x, y) selects: the first box whose
      centre is nearest the click, measured in image pixels. */
  function ClickedBox(bs: seq<Box>, canvas: Size, img: Size, x: int, y: int): (k: nat)
    requires bs != []
    ensures k < |bs|
  {
    Nearest(Distances(bs, x - Offset(canvas.w, img.w), y - Offset(canvas.h, img.h), img))
  }

  /** `bboxes` without the element at k, the others in order. */
  function Without(bs: seq<Box>, k: nat): (r: seq<Box>)
    requires k < |bs|
    ensures |r| == |bs| - 1
    ensures forall i :: 0 <= i < k ==> r[i] == bs[i]
    ensures forall i :: k <= i < |r| ==> r[i] == bs[i + 1]
  {
    bs[..k] + bs[k + 1..]
  }

  /** `save_labels_to_txt`: with no image path, nothing. With no boxes the
      label file is removed if present. Otherwise the file gets one line per
      box, in list order, each number written by `str()` (here `repr`);
      `writeOk` false stands for `open` raising. */
  method SaveLabelsToTxt(lab: Labeler, disk: Disk, repr: real -> string, writeOk: bool) returns (raised: bool)
    modifies disk`texts
    ensures lab.imagePath.None? || lab.imagePath == Some("") ==> unchanged(disk) && !raised
    ensures lab.imagePath.Some? && lab.imagePath != Some("") ==>
      var path := LabelPath(lab.imagePath.value);
      if lab.bboxes == [] then disk.texts == old(disk.texts) - {path} && !raised
      else if !writeOk then unchanged(disk) && raised
      else disk.texts == old(disk.texts)[path := ReprLines(lab.bboxes, repr)] && !raised
  {
    raised := false;
    if lab.imagePath.None? || lab.imagePath == Some("") {
      return;
    }
    var path := LabelPath(lab.imagePath.value);
    if lab.bboxes == [] {
      if path in disk.texts {
        disk.texts := disk.texts - {path};
      }
      return;
    }
    if !writeOk {
      raised := true;
      return;
    }
    var lines: seq<string> := [];
    var i := 0;
    while i < |lab.bboxes|
      invariant 0 <= i <= |lab.bboxes|
      invariant lines == ReprLines(lab.bboxes[..i], repr)
    {
      lines := lines + [ReprLine(lab.bboxes[i], repr)];
      i := i + 1;
    }
    assert lab.bboxes[..i] == lab.bboxes;
    disk.texts := disk.texts[path := lines];
  }

  /** The label files after save_labels_to_txt, from those before. */
  ghost predicate SavedLabels(lab: Labeler, before: map<string, seq<string>>, after: map<string, seq<string>>,
                              repr: real -> string, writeOk: bool, raised: bool)
    reads lab`imagePath, lab`bboxes
  {
    if lab.imagePath.None? || lab.imagePath == Some("") then after == before && !raised
    else
      var path := LabelPath(lab.imagePath.value);
      if lab.bboxes == [] then after == before - {path} && !raised
      else if !writeOk then after == before && raised
      else after == before[path := ReprLines(lab.bboxes, repr)] && !raised
  }

  /** The canvas and the label files after the boxes changed: the boxes are
      drawn again over the resized image, if there is one, listed, and
      saved unless drawing or listing raised. */
  ghost predicate Redrawn(lab: Labeler, before: map<string, seq<string>>, after: map<string, seq<string>>,
                          repr: real -> string, writeOk: bool, raised: bool)
    reads lab`imagePath, lab`bboxes, lab`classes, lab`canvas, lab`shown, lab`rects, lab`captions
  {
    var d := if lab.shown.Some? then Draw(lab.bboxes, lab.classes, lab.canvas, lab.shown.value)
             else Drawing([], [], false);
    var listed := ListNames(lab.bboxes, lab.classes);
    && lab.rects == d.rects && lab.captions == d.captions
    && (d.raised || listed.None? ==> raised && after == before)
    && (!d.raised && listed.Some? ==> SavedLabels(lab, before, after, repr, writeOk, raised))
  }

  /** What delete_bbox and delete_selected_label do once a box is removed:
      draw again, list the boxes, and save unless one of those raised. */
  method Redraw(lab: Labeler, disk: Disk, repr: real -> string, writeOk: bool) returns (raised: bool)
    requires lab.Valid()
    modifies lab`rects, lab`captions, disk`texts
    ensures lab.Valid() && unchanged(disk`images)
    ensures Redrawn(lab, old(disk.texts), disk.texts, repr, writeOk, raised)
  {
    raised := DrawAllBoxes(lab);
    if raised {
      return;
    }
    var names := UpdateLabelList(lab.bboxes, lab.classes);
    if names.None? {
      raised := true;
      return;
    }
    raised := SaveLabelsToTxt(lab, disk, repr, writeOk);
  }

  /** `delete_bbox`: in labeling mode, with boxes and an image shown, remove
      the box whose centre is nearest the click, then draw and save. */
  method DeleteBox(lab: Labeler, disk: Disk, x: int, y: int, repr: real -> string, writeOk: bool)
    returns (raised: bool)
    requires lab.Valid()
    modifies lab`bboxes, lab`rects, lab`captions, disk`texts
    ensures lab.Valid()
    ensures old(lab.mode != Labeling || lab.bboxes == [] || lab.shown.None?) ==> unchanged(lab, disk) && !raised
    ensures old(lab.mode == Labeling && lab.bboxes != [] && lab.shown.Some?) ==>
      && lab.bboxes == Without(old(lab.bboxes), ClickedBox(old(lab.bboxes), old(lab.canvas), old(lab.shown.value), x, y))
      && Redrawn(lab, old(disk.texts), disk.texts, repr, writeOk, raised)
  {
    raised := false;
    if lab.mode != Labeling || lab.bboxes == [] || lab.shown.None? {
      return;
    }
    var img := lab.shown.value;
    var clickX, clickY := x - Offset(lab.canvas.w, img.w), y - Offset(lab.canvas.h, img.h);
    var k := FindNearest(lab.bboxes, clickX, clickY, img);
    assert k.value == ClickedBox(lab.bboxes, lab.canvas, img, x, y);
    var remaining := Without(lab.bboxes, k.value);
    lab.bboxes := remaining;
    raised := Redraw(lab, disk, repr, writeOk);
    assert lab.bboxes == remaining;
  }

  /** `delete_selected_label`: in labeling mode, remove the box at the first
      selected position of the label list when it is a position of the list,
      then draw and save. */
  method DeleteSelectedLabel(lab: Labeler, disk: Disk, selection: seq<int>, repr: real -> string, writeOk: bool)
    returns (raised: bool)
    requires lab.Valid()
    modifies lab`bboxes, lab`rects, lab`captions, disk`texts
    ensures lab.Valid()
    ensures old(lab.mode != Labeling || selection == [] || !(0 <= selection[0] < |lab.bboxes|)) ==>
      unchanged(lab, disk) && !raised
    ensures old(lab.mode == Labeling && selection != [] && 0 <= selection[0] < |lab.bboxes|) ==>
      && lab.bboxes == Without(old(lab.bboxes), selection[0])
      && Redrawn(lab, old(disk.texts), disk.texts, repr, writeOk, raised)
  {
    raised := false;
    if lab.mode != Labeling || selection == [] {
      return;
    }
    var idx := selection[0];
    if 0 <= idx < |lab.bboxes| {
      var remaining := Without(lab.bboxes, idx);
      lab.bboxes := remaining;
      raised := Redraw(lab, disk, repr, writeOk);
      assert lab.bboxes == remaining;
    }
  }
}
