/** The state of the labeller window (the fields of `YOLOLabeler` that the
    modelled logic reads and writes) and the file system it works on. */
module LabelerState {
  import opened Optional
  import opened Geometry
  import opened Raster
  import opened ClassTable

  datatype Mode = Labeling | Rotation

  /** The answer to the yes / no / cancel question about an unsaved rotation. */
  datatype Answer = Yes | No | Cancel

  /** What `cv2.imwrite` does when asked to store the displayed image: it
      stores it, returns False without storing, or raises (the exception is
      caught and reported). */
  datatype ImWrite = Stored | NotStored | Raises

  /** A box outline on the canvas and the index of its colour in Colours. */
  datatype Drawn = Drawn(corners: Corners, colour: nat)

  /** A class name drawn next to an outline. */
  datatype Caption = Caption(x: real, y: real, text: string, colour: nat)

  /** A path whose extension names a lossless image format (PNG or BMP). */
  predicate LosslessPath(p: string)
  {
    |p| >= 4 && p[|p| - 4..] in {".png", ".PNG", ".bmp", ".BMP"}
  }

  /** An image codec that gives back the very pixels of an image written in
      a lossless format. */
  ghost predicate KeepsLossless(encode: (string, Image) -> Image)
  {
    forall p, g :: LosslessPath(p) ==> encode(p, g) == g
  }

  /** The files the labeller reads and writes: text files as their lines
      (label files and `classes.txt`), image files as the images they decode
      to. A path missing from `images` is one `cv2.imread` cannot decode.
      `encode(p, g)` is what `cv2.imread(p)` gives back after
      `cv2.imwrite(p, g)`: the codec chosen by the extension of p, lossy for
      JPEG. */
  class Disk {
    var texts: map<string, seq<string>>
    var images: map<string, Image>
    const encode: (string, Image) -> Image

    constructor(texts: map<string, seq<string>>, images: map<string, Image>,
                encode: (string, Image) -> Image)
      requires KeepsLossless(encode)
      ensures this.texts == texts && this.images == images && this.encode == encode
    {
      this.texts := texts;
      this.images := images;
      this.encode := encode;
    }

    /** `cv2.imread(path)`: the decoded image, or None. */
    function Decode(path: string): (g: Option<Image>)
      reads this
      ensures g.Some? <==> path in images
      ensures g.Some? ==> g.value == images[path]
    {
      if path in images then Some(images[path]) else None
    }
  }

  class Labeler {
    var mode: Mode
    var autoSave: bool
    var classes: seq<string>
    var currentClass: int
    var classFrameHeight: int

    var imageList: seq<string>
    var currentIndex: int
    var imagePath: Option<string>

    /** `original_image_cv2`: the image as decoded, or as last saved. */
    var original: Option<Image>
    /** `display_image_cv2`: what is shown, rotated from `original`. */
    var display: Option<Image>
    /** Size of `current_image`, the display resized to the canvas. */
    var shown: Option<Size>
    var canvas: Size

    var bboxes: seq<Box>
    /** The bbox_rects and bbox_texts lists: the outlines and captions
        drawn on the canvas, in the order they were drawn. */
    var rects: seq<Drawn>
    var captions: seq<Caption>

    /** The press that started a box gesture, and its dashed preview. */
    var startX: Option<int>
    var startY: Option<int>
    var preview: Option<Rect>

    var imageAngle: int
    /** `image_angle_float`, in half degrees. */
    var angleHalves: int
    var rotationDirty: bool
    var dragStartX: Option<int>
    var dragStartY: Option<int>
    /** `start_angle`, in half degrees. */
    var startHalves: int

    /** What every handler keeps true. */
    ghost predicate Valid()
      reads this`currentIndex, this`imageList, this`imagePath, this`original, this`display
      reads this`startX, this`startY, this`shown, this`classes, this`classFrameHeight
      reads this`currentClass, this`imageAngle, this`angleHalves, this`startHalves
      reads this`dragStartX, this`dragStartY
    {
      ImagesValid() && GestureValid() && ClassesValid() && AnglesValid()
    }

    /** A non-empty list has its current position loaded as the image path,
        and an original image always comes with a displayed one. */
    ghost predicate ImagesValid()
      reads this`currentIndex, this`imageList, this`imagePath, this`original, this`display
    {
      && 0 <= currentIndex
      && (imageList != [] ==> currentIndex < |imageList| && imagePath.Some?)
      && (original.Some? <==> display.Some?)
    }

    /** A box gesture starts only over a shown image, of positive size. */
    ghost predicate GestureValid()
      reads this`startX, this`startY, this`shown
    {
      && (startX.Some? ==> startY.Some? && shown.Some?)
      && (shown.Some? ==> shown.value.w >= 1 && shown.value.h >= 1)
    }

    /** The class table holds names, the panel height fits it, and the
        current class is one of its positions (0 for an empty table). */
    ghost predicate ClassesValid()
      reads this`classes, this`classFrameHeight, this`currentClass
    {
      && (forall i :: 0 <= i < |classes| ==> IsClassName(classes[i]))
      && classFrameHeight == FrameHeight(|classes|)
      && 0 <= currentClass && (currentClass < |classes| || currentClass == 0)
    }

    /** The angle is a whole degree in [0, 360], the fractional angle and the
        drag start lie in [0, 360), and a drag origin has both coordinates. */
    ghost predicate AnglesValid()
      reads this`imageAngle, this`angleHalves, this`startHalves, this`dragStartX, this`dragStartY
    {
      && 0 <= imageAngle <= 360
      && 0 <= angleHalves < 720
      && 0 <= startHalves < 720
      && (dragStartX.Some? <==> dragStartY.Some?)
    }

    /** A new window: labeling mode, auto-save on, an 800 x 600 canvas,
        nothing loaded, and the class table read from `classes.txt`. */
    constructor(disk: Disk)
      ensures Valid()
      ensures mode == Labeling && autoSave
      ensures classes == LoadedClasses(disk.texts) && currentClass == 0
      ensures imageList == [] && currentIndex == 0 && imagePath.None?
      ensures original.None? && display.None? && shown.None? && canvas == Size(800, 600)
      ensures bboxes == [] && rects == [] && captions == []
      ensures startX.None? && startY.None? && preview.None?
      ensures imageAngle == 0 && angleHalves == 0 && !rotationDirty
      ensures dragStartX.None? && dragStartY.None? && startHalves == 0
    {
      mode := Labeling;
      autoSave := true;
      imageList := [];
      currentIndex := 0;
      imagePath := None;
      original := None;
      display := None;
      shown := None;
      canvas := Size(800, 600);
      bboxes := [];
      rects := [];
      captions := [];
      startX := None;
      startY := None;
      preview := None;
      imageAngle := 0;
      angleHalves := 0;
      rotationDirty := false;
      dragStartX := None;
      dragStartY := None;
      startHalves := 0;
      currentClass := 0;
      var names := LoadedClasses(disk.texts);
      classes := names;
      classFrameHeight := FrameHeight(|names|);
    }
  }
}
