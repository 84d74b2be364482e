/** The letterbox arithmetic of the annotation engine: the resized image is
    shown centred on the canvas at 1:1, so canvas and image pixels differ by
    the offset (canvas - image) // 2 on each axis, and boxes are stored
    normalised to the resized image's width and height. */
module Geometry {
  import opened Numeric

  /** Width and height in pixels: of the canvas, or of the resized image. */
  datatype Size = Size(w: int, h: int)

  /** An axis-aligned rectangle in integer pixels, (x1, y1) its top-left corner. */
  datatype Rect = Rect(x1: int, y1: int, x2: int, y2: int)

  /** A label: the class id (read from a file it is a float) and the centre and
      extent normalised to the resized image. */
  datatype Box = Box(cls: real, cx: real, cy: real, w: real, h: real)

  /** Rectangle corners in canvas space, as the canvas receives them. */
  datatype Corners = Corners(x1: real, y1: real, x2: real, y2: real)

  /** Smallest gesture, in canvas pixels on each axis, that may become a box. */
  const MinExtent: int := 5

  function Min(a: int, b: int): int { if a <= b then a else b }
  function Max(a: int, b: int): int { if a >= b then a else b }
  function Gap(a: int, b: int): nat { if a <= b then b - a else a - b }

  /** The letterbox offset: Python's floor division `(canvas - image) // 2`. */
  function Offset(canvas: int, image: int): (off: int)
    ensures 2 * off <= canvas - image < 2 * off + 2
  {
    (canvas - image) / 2
  }

  /** The press/release pair moved into image pixels, each corner clamped to
      the image: the smaller corner to at least 0, the larger to at most the
      image size. */
  function ClampedRect(sx: int, sy: int, ex: int, ey: int, canvas: Size, img: Size): (r: Rect)
    ensures 0 <= r.x1 && 0 <= r.y1 && r.x2 <= img.w && r.y2 <= img.h
    ensures Min(sx, ex) - Offset(canvas.w, img.w) <= r.x1
    ensures r.x2 <= Max(sx, ex) - Offset(canvas.w, img.w)
    ensures Min(sy, ey) - Offset(canvas.h, img.h) <= r.y1
    ensures r.y2 <= Max(sy, ey) - Offset(canvas.h, img.h)
    ensures 0 <= Min(sx, ex) - Offset(canvas.w, img.w) ==> r.x1 == Min(sx, ex) - Offset(canvas.w, img.w)
    ensures Max(sx, ex) - Offset(canvas.w, img.w) <= img.w ==> r.x2 == Max(sx, ex) - Offset(canvas.w, img.w)
    ensures 0 <= Min(sy, ey) - Offset(canvas.h, img.h) ==> r.y1 == Min(sy, ey) - Offset(canvas.h, img.h)
    ensures Max(sy, ey) - Offset(canvas.h, img.h) <= img.h ==> r.y2 == Max(sy, ey) - Offset(canvas.h, img.h)
    ensures Min(sx, ex) - Offset(canvas.w, img.w) < 0 ==> r.x1 == 0
    ensures Max(sx, ex) - Offset(canvas.w, img.w) > img.w ==> r.x2 == img.w
    ensures Min(sy, ey) - Offset(canvas.h, img.h) < 0 ==> r.y1 == 0
    ensures Max(sy, ey) - Offset(canvas.h, img.h) > img.h ==> r.y2 == img.h
  {
    var offX, offY := Offset(canvas.w, img.w), Offset(canvas.h, img.h);
    Rect(Max(0, Min(sx, ex) - offX), Max(0, Min(sy, ey) - offY),
         Min(img.w, Max(sx, ex) - offX), Min(img.h, Max(sy, ey) - offY))
  }

  /** What releasing the mouse does with a gesture that started at (sx, sy). */
  datatype Release =
    | TooSmall        // under MinExtent on some axis: the gesture is dropped
    | Outside         // clamping leaves an empty rectangle: nothing happens
    | Commit(r: Rect) // the clamped rectangle becomes a box

  function Classify(sx: int, sy: int, ex: int, ey: int, canvas: Size, img: Size): (g: Release)
    ensures g.TooSmall? <==> Gap(sx, ex) < MinExtent || Gap(sy, ey) < MinExtent
    ensures g.Commit? ==> g.r == ClampedRect(sx, sy, ex, ey, canvas, img)
    ensures g.Commit? ==> 0 <= g.r.x1 < g.r.x2 <= img.w && 0 <= g.r.y1 < g.r.y2 <= img.h
    ensures g.Outside? ==>
      var c := ClampedRect(sx, sy, ex, ey, canvas, img); c.x1 >= c.x2 || c.y1 >= c.y2
  {
    if Gap(sx, ex) < MinExtent || Gap(sy, ey) < MinExtent then TooSmall
    else
      var c := ClampedRect(sx, sy, ex, ey, canvas, img);
      if c.x1 >= c.x2 || c.y1 >= c.y2 then Outside else Commit(c)
  }

  /** The box for an image-pixel rectangle: its left and right edges land on
      x1 / w and x2 / w, its top and bottom on y1 / h and y2 / h. */
  function Normalize(cls: real, r: Rect, img: Size): (b: Box)
    requires img.w > 0 && img.h > 0
    ensures b.cls == cls
    ensures b.cx - b.w / 2.0 == r.x1 as real / img.w as real
    ensures b.cx + b.w / 2.0 == r.x2 as real / img.w as real
    ensures b.cy - b.h / 2.0 == r.y1 as real / img.h as real
    ensures b.cy + b.h / 2.0 == r.y2 as real / img.h as real
  {
    var W, H := img.w as real, img.h as real;
    Box(cls, (r.x1 + r.x2) as real / 2.0 / W, (r.y1 + r.y2) as real / 2.0 / H,
        (r.x2 - r.x1) as real / W, (r.y2 - r.y1) as real / H)
  }

  /** A committed rectangle gives a box of positive size lying inside the
      unit square. */
  lemma NormalizedInBounds(cls: real, r: Rect, img: Size)
    requires 0 <= r.x1 < r.x2 <= img.w && 0 <= r.y1 < r.y2 <= img.h
    ensures var b := Normalize(cls, r, img);
      && b.w > 0.0 && b.h > 0.0
      && 0.0 <= b.cx - b.w / 2.0 && b.cx + b.w / 2.0 <= 1.0
      && 0.0 <= b.cy - b.h / 2.0 && b.cy + b.h / 2.0 <= 1.0
  {
    var b := Normalize(cls, r, img);
    var W, H := img.w as real, img.h as real;
    assert r.x2 as real / W <= 1.0 by { assert r.x2 as real <= W; }
    assert r.y2 as real / H <= 1.0 by { assert r.y2 as real <= H; }
    assert r.x1 as real / W < r.x2 as real / W by { assert (r.x2 - r.x1) as real / W > 0.0; }
    assert r.y1 as real / H < r.y2 as real / H by { assert (r.y2 - r.y1) as real / H > 0.0; }
  }

  /** Canvas corners of a stored box: its edges scaled by the image size and
      shifted by the letterbox offset. */
  function CanvasCorners(b: Box, canvas: Size, img: Size): Corners
  {
    var offX, offY := Offset(canvas.w, img.w) as real, Offset(canvas.h, img.h) as real;
    var W, H := img.w as real, img.h as real;
    Corners(offX + (b.cx - b.w / 2.0) * W, offY + (b.cy - b.h / 2.0) * H,
            offX + (b.cx + b.w / 2.0) * W, offY + (b.cy + b.h / 2.0) * H)
  }

  /** The outline is centred where the box's centre lands on the canvas and
      is as wide and as high as the box scaled to the image. */
  lemma CornersAroundCentre(b: Box, canvas: Size, img: Size)
    ensures var c := CanvasCorners(b, canvas, img);
      && (c.x1 + c.x2) / 2.0 == Offset(canvas.w, img.w) as real + b.cx * img.w as real
      && (c.y1 + c.y2) / 2.0 == Offset(canvas.h, img.h) as real + b.cy * img.h as real
      && c.x2 - c.x1 == b.w * img.w as real && c.y2 - c.y1 == b.h * img.h as real
  {
  }

  /** Drawing a committed box puts its corners back where the clamped
      rectangle was: both directions use the same offset. */
  lemma DrawInvertsCommit(cls: real, r: Rect, canvas: Size, img: Size)
    requires img.w > 0 && img.h > 0
    ensures CanvasCorners(Normalize(cls, r, img), canvas, img) ==
      Corners((Offset(canvas.w, img.w) + r.x1) as real, (Offset(canvas.h, img.h) + r.y1) as real,
              (Offset(canvas.w, img.w) + r.x2) as real, (Offset(canvas.h, img.h) + r.y2) as real)
  {
    var b := Normalize(cls, r, img);
    var W, H := img.w as real, img.h as real;
    assert (b.cx - b.w / 2.0) * W == r.x1 as real;
    assert (b.cx + b.w / 2.0) * W == r.x2 as real;
    assert (b.cy - b.h / 2.0) * H == r.y1 as real;
    assert (b.cy + b.h / 2.0) * H == r.y2 as real;
  }

  /** Squared distance from a click, in image pixels, to a box's centre. */
  function CentreDistance(b: Box, px: int, py: int, img: Size): (d: real)
    ensures d >= 0.0
  {
    var dx, dy := b.cx * img.w as real - px as real, b.cy * img.h as real - py as real;
    dx * dx + dy * dy
  }

  function Distances(bs: seq<Box>, px: int, py: int, img: Size): (ds: seq<real>)
    ensures |ds| == |bs|
    ensures forall i :: 0 <= i < |bs| ==> ds[i] == CentreDistance(bs[i], px, py, img)
  {
    seq(|bs|, i requires 0 <= i < |bs| => CentreDistance(bs[i], px, py, img))
  }

  /** k is a minimum of ds, and the first one: ties go to the lowest index. */
  ghost predicate IsFirstMin(ds: seq<real>, k: int)
  {
    && 0 <= k < |ds|
    && (forall j :: 0 <= j < |ds| ==> ds[k] <= ds[j])
    && (forall j :: 0 <= j < k ==> ds[k] < ds[j])
  }

  /** The first minimum, found by one pass from the front as the source's
      loop does: a later element replaces the best only when strictly smaller. */
  function Nearest(ds: seq<real>): (k: nat)
    requires |ds| > 0
    ensures k < |ds|
  {
    if |ds| == 1 then 0
    else
      var k := Nearest(ds[..|ds| - 1]);
      if ds[|ds| - 1] < ds[k] then |ds| - 1 else k
  }

  /** The one-pass scan finds the first minimum. */
  lemma {:induction false} NearestIsFirstMin(ds: seq<real>)
    requires |ds| > 0
    ensures IsFirstMin(ds, Nearest(ds))
  {
    if |ds| > 1 {
      var n, ds' := |ds|, ds[..|ds| - 1];
      NearestIsFirstMin(ds');
      assert forall j :: 0 <= j < n - 1 ==> ds'[j] == ds[j];
      var k' := Nearest(ds');
      assert ds[k'] == ds'[k'];
      assert Nearest(ds) == if ds[n - 1] < ds[k'] then n - 1 else k';
    }
  }

  /** There is only one first minimum. */
  lemma FirstMinUnique(ds: seq<real>, j: int, k: int)
    requires IsFirstMin(ds, j) && IsFirstMin(ds, k)
    ensures j == k
  {
    assert ds[j] <= ds[k] && ds[k] <= ds[j];
  }
}
