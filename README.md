# YOLO image labeller: a Dafny model of its core

The YOLO image labelling tool is a desktop program. It shows one image at a
time from a list and lets the user do two things:

- draw bounding boxes over the image. Each box is stored as a YOLO label
  line, `class cx cy w h`, with coordinates normalised to the image. The
  lines go into a `.txt` file next to the image;
- rotate the image, by quarter turns or by dragging. The rotated pixels are
  written back over the image file.

This project models the program's core in Dafny and proves properties of
that model.

- `LabelingUtils` is the annotation engine. Its parts are:
  - drawing the stored boxes over the letterboxed image;
  - the press, drag and release gesture that makes a box;
  - deleting the box nearest a click, or the box at a list position;
  - writing the label file.
- `RotationUtils` is the rotation engine. It covers the quarter-turn
  buttons, the image shown for an angle, and the free rotation while
  dragging. The image shown is always computed from the original image.
- `YOLOLabeler`, the window, holds the state that the two engines update.
  Its modelled handlers are:
  - the canvas handlers, which dispatch on the mode (labeling or rotation);
  - `perform_resize`;
  - saving a rotation, and the "save the unsaved rotation?" prompt;
  - loading an image together with its label file;
  - saving the labels;
  - moving to the next or previous image, with auto-save.

The window's state is a `class Labeler`. Its fields carry the source
attributes' names in Dafny style, and every handler is a `method` that
modifies those fields. The file system is a `class Disk` with two maps: from
paths to text files (as lists of lines) and from paths to decoded images.
Label files, image files and `classes.txt` all live in it. Exceptions that
abort a handler (an `IndexError` while drawing, a failing `open`, a colour
conversion of a missing image) are a `raised` result, and callers stop where
the exception would unwind. Pure logic sits in separate modules, each with
its own lemmas:

- **Geometry:** the letterbox offset, the clamp and normalisation of a
  gesture, box corners on the canvas, and the nearest-centre search.
- **LabelText:** the label-line text, the `split`/`strip`/`float` parser of
  label files, and the label path.
- **Raster:** quarter-turn rotations of a pixel grid.
- **Angles:** the angle steps, and the drag angle kept in half degrees.
- **ClassTable:** the class table and the label-list names.
- **Numeric:** Python's `round`, `int()` and float `%`.

Module layout: `Optional`, `Numeric`, `Geometry`, `LabelText`, `Raster`,
`Angles`, `ClassTable`, `LabelerState` (the `Labeler` and `Disk` classes),
`LabelingUtils`, `Display` (`perform_resize`), `RotationUtils` and
`Labelling` (the window's handlers).

The main results are:

- **Label file round trip.** A label file written by `save_current_labels`
  reads back as the same boxes, each coordinate rounded to six decimals
  (`LabelFileRoundTrip`, `CurrentSavedReloads`). Reading it back and saving
  again changes nothing (`ReloadIsStable`).
- **`str()` round trip.** A file written by `save_labels_to_txt` reads back
  exactly, provided the number printer reads back (`ReprFileRoundTrip`).
- **Drawing inverts committing, in exact arithmetic.** Computed in real
  numbers, the corners drawn for a committed box are the gesture's clamped
  rectangle, shifted by the letterbox offset (`DrawInvertsCommit`). With
  binary floats they can differ in the last place. Every committed box lies
  inside the image (`NormalizedInBounds`).
- **Quarter turns.** From a right angle, with the display showing the
  original turned by that angle, a right step turns the shown image a
  quarter turn clockwise, and a left step a quarter turn counter-clockwise
  (`RightStepTurnsClockwise`, `LeftStepTurnsCounterClockwise`). Four right
  steps return to the start, and a left step undoes a right step.
- **Drag angle.** The drag angle equals Python's float `%` on half degrees,
  and the snapped angle is Python's banker's `round` (`DragHalvesIsFloatMod`,
  `RoundHalvesIsRound`, `SnapRange`).
- **Label file parser.** The parser skips lines that do not have five
  fields (`ReadSkipsMalformed`). It stops the load at the first field that
  `float` rejects (`ReadLabelFile`).
- **Nearest box.** `delete_bbox` removes the first box whose centre is
  nearest the click (`FindNearest`, `NearestIsFirstMin`, `DeleteBox`).
- **Moving between images.** A move auto-saves before it leaves. If saving
  raised, the index and the view stay where they were (`MoveTo`). After a
  move, the new image is loaded with its stored labels (`LoadedCurrent`),
  and the canvas shows it as `load_current_image` draws it (`Reloaded`).

## Model

| member | source | states |
|---|---|---|
| Numeric.RoundHalfEven | labelling.py:462 | `round()` on a float: the nearest integer, and the even one at a tie |
| Numeric.RoundHalfEvenUnique | labelling.py:462 | any integer within one half of x, and even at a tie, is `round(x)`; the rounding is determined |
| Numeric.Trunc | labeling_utils.py:25 | `int()` on a float truncates toward zero: floor for non-negative values, ceiling for negative ones |
| Numeric.FloatMod | labelling.py:453 | Python float `%` by a positive modulus lies in `[0, m)` |
| Numeric.FloatModUnique | labelling.py:453 | a value in `[0, m)` that differs from x by a whole multiple of m is `x % m` |
| Geometry.Offset | labeling_utils.py:19-20 | the letterbox offset `(canvas - image) // 2`, stated by the floor-division bounds |
| Geometry.ClampedRect | labeling_utils.py:56-59 | the gesture rectangle, shifted into image pixels and clamped to the image; each side equals the shifted side of the gesture when that side is inside the image, and is pinned to 0 or to the image's width or height when the side falls outside |
| Geometry.Classify | labeling_utils.py:51-61 | a release is too small exactly when it moved under 5 pixels on some axis; otherwise it commits the clamped rectangle when that is non-empty, and is outside when it is empty |
| Geometry.Normalize | labeling_utils.py:62-64 | the stored box has the current class, and its centre and size give back the rectangle's sides divided by the image size |
| Geometry.NormalizedInBounds | labeling_utils.py:56-64 | every committed box has positive size and lies inside the unit square |
| Geometry.CornersAroundCentre | labeling_utils.py:23-24 | the drawn corners sit half a size either side of the centre, scaled by the image and shifted by the letterbox offset |
| Geometry.DrawInvertsCommit | labeling_utils.py:19-24 | in exact real arithmetic, drawing a committed box gives back the clamped rectangle shifted by the offset: drawing inverts `end_bbox`'s normalisation |
| Geometry.CentreDistance | labeling_utils.py:96-98 | the squared distance from the click to a box centre in image pixels, which is non-negative |
| Geometry.Distances | labeling_utils.py:95-98 | one distance per box, in list order |
| Geometry.Nearest | labeling_utils.py:93-101 | the argmin over a non-empty list is one of its positions |
| Geometry.NearestIsFirstMin | labeling_utils.py:93-101 | the argmin is the first position holding the least distance, as the strict `<` keeps the earlier box on a tie |
| Geometry.FirstMinUnique | labeling_utils.py:99-101 | two first minima are the same position: the box deleted is determined |
| Angles.RightStep | rotation_utils.py:31 | `(a + 90) % 360` lies in `[0, 360)` and is a quarter turn on from a |
| Angles.LeftStep | rotation_utils.py:23 | `(a - 90 + 360) % 360` lies in `[0, 360)` and is a quarter turn back from a |
| Angles.StepsKeepRightAngles | rotation_utils.py:20-34 | both steps keep a right angle (0, 90, 180 or 270) a right angle |
| Angles.FourRightStepsReturn | rotation_utils.py:28-34 | four right steps return any angle in `[0, 360)` to itself |
| Angles.LeftUndoesRight | rotation_utils.py:20-34 | on `[0, 360)`, a left step undoes a right step and a right step undoes a left one |
| Angles.DragHalves | labelling.py:450-453 | the new drag angle, in half degrees, lies in `[0, 720)` and is congruent to the start plus the mouse's x movement |
| Angles.DragHalvesIsFloatMod | labelling.py:450-453 | in degrees, that angle is exactly `(start_angle + dx * 0.5) % 360` |
| Angles.RoundHalvesIsRound | labelling.py:461-462 | the integer angle snapped from half degrees is Python's `round` of the angle |
| Angles.SnapRange | labelling.py:461-462 | the snapped angle lies in `[0, 360]` and is 360 exactly at 359.5 degrees |
| ClassTable.ClassNames | labelling.py:223 | the class table keeps only stripped, non-empty lines, in order |
| ClassTable.ClassNamesOfLine | labelling.py:223 | one line gives its stripped text when that is not empty, and nothing otherwise |
| ClassTable.ClassNamesAppend | labelling.py:223 | the classes of two runs of lines are those of the first run followed by those of the second |
| ClassTable.ClassNamesOfTable | labelling.py:223 | a table of names reads back as itself |
| ClassTable.ClassNamesIdempotent | labelling.py:223 | filtering twice is filtering once |
| ClassTable.LoadedClasses | labelling.py:220-225 | the table holds names, and without `classes.txt` it is the five defaults |
| ClassTable.DefaultsAreNames | labelling.py:225 | the five default classes are names |
| ClassTable.FrameHeight | labelling.py:415-416 | the class panel height: 80 for up to two classes, `30n + 20` for 2 to 9, and 300 from 10 on |
| ClassTable.FrameHeightMonotone | labelling.py:416 | more classes never make the panel shorter |
| ClassTable.PyIndex | labelling.py:363 | Python indexing of a list of length n succeeds exactly for `-n <= k < n`, and a negative k counts from the end |
| ClassTable.ListName | labelling.py:363 | the list shows the class name for an id of the table and `Class<id>` for an id beyond it; the lookup raises exactly for ids below `-len(classes)` |
| ClassTable.FallbackNameCarriesId | labelling.py:363 | the fallback name is `Class` followed by text that `float` reads back as the id |
| ClassTable.ColourIndex | labeling_utils.py:25 | the outline colour is the class id modulo the six colours |
| Raster.Rot90 | rotation_utils.py:11 | a quarter turn clockwise swaps height and width |
| Raster.Rot180 | rotation_utils.py:13 | a half turn keeps the size |
| Raster.Rot270 | rotation_utils.py:15 | a quarter turn counter-clockwise swaps height and width |
| Raster.PixelMoves | rotation_utils.py:10-15 | where each pixel lands under each of the three turns |
| Raster.Rot180IsTwoQuarters | rotation_utils.py:11-13 | a half turn is two clockwise quarter turns |
| Raster.Rot270IsThreeQuarters | rotation_utils.py:11-15 | a counter-clockwise quarter turn is three clockwise ones |
| Raster.Rot90UndoesRot270 | rotation_utils.py:11-15 | a clockwise quarter turn undoes a counter-clockwise one, and four clockwise quarter turns are the identity |
| Raster.Rot270UndoesRot90 | rotation_utils.py:11-15 | a counter-clockwise quarter turn undoes a clockwise one |
| LabelText.Words | labelling.py:294 | `strip().split()` yields non-empty tokens without whitespace which, written one after the other, give back exactly the non-whitespace characters of the line |
| LabelText.WordsAfterBlank | labelling.py:294 | leading whitespace adds no word |
| LabelText.WordsOfBlank | labelling.py:294 | a line of whitespace only has no words |
| LabelText.WordsOfRun | labelling.py:294 | after whitespace, a whole run of non-whitespace is the next word; with `WordsOfBlank` this fixes the words of every line as its maximal non-whitespace runs, and so the field count that decides whether a line is kept |
| LabelText.WordsOfJoin | labelling.py:294 | splitting words joined by single spaces gives the words back |
| LabelText.Strip | labelling.py:223 | `strip()` leaves no whitespace at either end |
| LabelText.LStripCutsBlank | labelling.py:223 | `lstrip()` removes whitespace only, from the front |
| LabelText.RStripCutsBlank | labelling.py:223 | `rstrip()` removes whitespace only, from the back |
| LabelText.StripKeepsInner | labelling.py:223 | `strip()` returns a contiguous part of the line, and everything cut off at either end is whitespace |
| LabelText.StripUnpadded | labelling.py:223 | `strip()` leaves a string with no whitespace at either end unchanged |
| LabelText.StripIdempotent | labelling.py:223 | stripping twice is stripping once |
| LabelText.Quantize6 | labelling.py:401 | the value written with `:.6f` is within half a millionth of the box's value |
| LabelText.Quantize6Idempotent | labelling.py:401 | writing a value that was already rounded to six decimals keeps it |
| LabelText.ParseIntText | labelling.py:296 | `float` reads the `int(cid)` text back as that integer |
| LabelText.ParseSigned | labelling.py:296 | `float` honours a leading minus sign |
| LabelText.ParseMicros | labelling.py:296 | `float` reads a fixed six-decimal magnitude back as its value |
| LabelText.ParseFixed6 | labelling.py:296 | `float` reads each `:.6f` field back as the six-decimal rounding of the value |
| LabelText.LabelTokens | labelling.py:401 | a label line has five fields |
| LabelText.Quantized | labelling.py:401 | the box a label line stands for is within half a millionth of the stored box in each coordinate |
| LabelText.LabelLines | labelling.py:399-401 | one label line per box, in list order |
| LabelText.ReprLines | labeling_utils.py:82-83 | one `str()`-joined line per box, in list order |
| LabelText.QuantizedAll | labelling.py:399-401 | the boxes a label file stands for, one per stored box, in order |
| LabelText.ParseAll | labelling.py:296 | `map(float, parts)` gives one number per field when every field parses |
| LabelText.ParseBoxOf | labelling.py:296 | five fields that parse give the box `tuple(map(float, parts))` |
| LabelText.ReadLine | labelling.py:294-296 | a line is skipped exactly when it does not split into five fields |
| LabelText.Scan | labelling.py:293-296 | the read never yields more boxes than the file has lines |
| LabelText.ReadLabels | labelling.py:291-296 | reading a label file yields at most one box per line |
| LabelText.ReadLabelsAppend | labelling.py:293-296 | reading a file is reading its first part, then (unless that stopped) its rest |
| LabelText.ReadSkipsMalformed | labelling.py:295 | a line without five fields has no effect on what the file reads as |
| LabelText.JoinedParses | labelling.py:294-296 | a line of five tokens that parse reads as their box |
| LabelText.LabelLineParses | labelling.py:294-296 | a label line written by `save_current_labels` reads as the six-decimal rounding of its box |
| LabelText.ReadWellFormed | labelling.py:291-296 | a file whose every line reads as a box reads completely, as those boxes in order |
| LabelText.LabelFileRoundTrip | labelling.py:395-401 | the label file of a box list reads back completely, as the boxes rounded to six decimals |
| LabelText.QuantizedIdempotent | labelling.py:401 | rounding a box to six decimals twice is rounding it once |
| LabelText.QuantizedAllIdempotent | labelling.py:401 | the same, for a list of boxes |
| LabelText.ReloadIsStable | labelling.py:290-296 | saving the boxes read back from a saved file gives a file that reads as the same boxes |
| LabelText.ReprFileRoundTrip | labeling_utils.py:81-83 | a file written by `save_labels_to_txt` reads back exactly, whenever `str()` of each number reads back |
| LabelText.LastDot | labelling.py:290 | the position `rsplit('.', 1)` splits at: the last dot, or none |
| LabelText.LabelPath | labelling.py:290 | the label path replaces the extension after the last dot with `.txt`, and appends `.txt` to a path without a dot |
| LabelText.LabelPathReplacesExtension | labelling.py:398 | `stem.ext` maps to `stem.txt` whenever the extension has no dot |
| LabelerState.Disk.constructor | labelling.py:280 | the file system holds the given text files and images, and an image codec that reads `.png` and `.bmp` files back unchanged |
| LabelerState.Disk.Decode | labelling.py:280-281 | `imread` yields the stored image, and None exactly for a path that is not a readable image |
| LabelerState.Labeler.constructor | labelling.py:11-54 | a new window: labeling mode, auto-save on, an 800 x 600 canvas, nothing loaded, no boxes, all angles zero, and the class table from `classes.txt` |
| LabelingUtils.Draw | labeling_utils.py:22-30 | the drawing loop makes at most one outline per box and at most one caption per outline |
| LabelingUtils.DrawOutlines | labeling_utils.py:22-27 | the outlines are those of the boxes, in list order; all boxes are outlined unless a caption lookup raised |
| LabelingUtils.DrawNextStops | labeling_utils.py:26-30 | one pass adds one outline, and raises exactly when the box's class id cannot index the table |
| LabelingUtils.DrawStops | labeling_utils.py:22-30 | the loop raises exactly at the first box whose class id cannot index the table, and every box before it is indexable |
| LabelingUtils.DrawCaptions | labeling_utils.py:28-30 | with every class id in the table, nothing raises and each box is captioned with its class name above its top-left corner |
| LabelingUtils.DrawRaisedStays | labeling_utils.py:22-30 | after the loop raises, the later boxes draw nothing |
| LabelingUtils.DrawBoxes | labeling_utils.py:22-30 | the drawing loop computes the outlines, captions and exception of `Draw` |
| LabelingUtils.DrawAllBoxes | labeling_utils.py:9-30 | the canvas is cleared; with no resized image nothing is drawn, and otherwise it shows what `Draw` gives for the boxes |
| LabelingUtils.ListNames | labelling.py:360-364 | the list has one entry per box when it does not raise |
| LabelingUtils.ListNamesSpec | labelling.py:362-363 | listing raises exactly when some class id is below `-len(classes)`; otherwise each entry is that box's name |
| LabelingUtils.ListingFollowsDrawing | labelling.py:362-363 | once the boxes are drawn without raising, listing them cannot raise |
| LabelingUtils.UpdateLabelList | labelling.py:360-364 | the listing loop computes `ListNames` |
| LabelingUtils.ListRaisedStays | labelling.py:362-363 | once listing raised, the later boxes do not change that |
| LabelingUtils.StartBox | labeling_utils.py:32-38 | in labeling mode with an image shown, the press is recorded and the preview dropped; otherwise nothing changes |
| LabelingUtils.DrawBox | labeling_utils.py:40-46 | during a gesture, the dashed preview runs from the press to the mouse position; otherwise nothing changes |
| LabelingUtils.EndBox | labeling_utils.py:48-69 | outside a gesture nothing changes. A small gesture is dropped and its preview removed. A gesture whose clamped rectangle is empty changes nothing and keeps its press. Otherwise the normalised box with the current class is appended, the gesture ends and the canvas holds the drawing of all boxes (`BoxEnded`) |
| LabelingUtils.AddBox | labeling_utils.py:64-69 | the box is appended, the gesture and preview end, and the canvas shows the drawing of the new list |
| LabelingUtils.FindNearest | labeling_utils.py:93-101 | none exactly for no boxes; otherwise the first box with the least squared centre distance |
| LabelingUtils.ClickedBox | labeling_utils.py:90-101 | the box a click selects is a position of the list |
| LabelingUtils.Without | labeling_utils.py:103 | `del bboxes[k]`: one box fewer, the others kept in order |
| LabelingUtils.SaveLabelsToTxt | labeling_utils.py:71-83 | without an image path nothing changes. Without boxes the label file is removed. Otherwise it holds one `str()`-joined line per box, or the write raises and nothing changes |
| LabelingUtils.Redraw | labeling_utils.py:104-106 | the boxes are redrawn and listed, and saved unless drawing or listing raised; images are untouched |
| LabelingUtils.DeleteBox | labeling_utils.py:85-106 | in labeling mode, with boxes and an image shown, the box nearest the click is removed and the rest redrawn and saved; otherwise nothing changes |
| LabelingUtils.DeleteSelectedLabel | labeling_utils.py:108-118 | in labeling mode, the box at the first selected position is removed when that position is in the list; otherwise nothing changes |
| Display.PerformResize | labelling.py:203-218 | without a displayed image nothing changes. Otherwise the canvas size is taken, and unless canvas or image is too small the canvas is cleared, the resized image shown and the boxes drawn |
| RotationUtils.Rotated | rotation_utils.py:10-17 | the image shown for an angle: a quarter turn swaps the sides, any other angle keeps them |
| RotationUtils.RightStepTurnsClockwise | rotation_utils.py:28-34 | from a right angle, the image after a right step is the image before, turned a quarter clockwise |
| RotationUtils.LeftStepTurnsCounterClockwise | rotation_utils.py:20-26 | from a right angle, the image after a left step is the image before, turned a quarter counter-clockwise |
| RotationUtils.ApplyRotationAndRedraw | rotation_utils.py:7-18 | without an original nothing changes; otherwise the display is the original turned by the angle, and the canvas is resized and redrawn |
| RotationUtils.RotateImageRight | rotation_utils.py:28-34 | the angle steps right, the rotation is marked unsaved, and a shown image at a right angle turns a quarter clockwise; without an image nothing changes |
| RotationUtils.RotateImageLeft | rotation_utils.py:20-26 | the angle steps left, the rotation is marked unsaved, and a shown image at a right angle turns a quarter counter-clockwise; without an image nothing changes |
| RotationUtils.ApplySmoothRotation | rotation_utils.py:36-63 | without an original nothing changes; otherwise the display is the original warped by the fractional angle, and the canvas is redrawn |
| Labelling.StoredRotationReadsBack | labelling.py:471-480 | a stored rotation reads back from the image path as the codec's encoding of the image that was shown, which is that image itself for a lossless path; other images are kept, and nothing is left unsaved |
| Labelling.SaveRotationOutcomes | labelling.py:471-480 | saving raises exactly without a displayed image; it either changes nothing or clears the angles and makes the display the original |
| Labelling.SaveRotation | labelling.py:471-480 | `save_rotation` on the rotation state and the stored images, with its three outcomes (stored through the image codec, not stored, exception) |
| Labelling.CheckUnsavedRotation | labelling.py:482-492 | a clean state goes on without change; Yes saves and goes on unless saving raised; No goes on with the rotation unsaved; Cancel stops. The caller goes on exactly when `Proceeds` holds, from the rotation state `AfterPrompt` gives |
| Labelling.OnButtonPress | labelling.py:440-446 | in rotation mode the drag origin and start angle are recorded; in labeling mode a box gesture starts |
| Labelling.DragTo | labelling.py:449-455 | the drag angle follows the mouse at half a degree per pixel, mod 360, and the display shows the original warped to it |
| Labelling.OnMouseDrag | labelling.py:448-457 | in rotation mode with a drag under way, as `DragTo`; in labeling mode the box preview follows the mouse |
| Labelling.EndDrag | labelling.py:460-466 | the angle is snapped to `round(angle % 360)`, the rotation is marked unsaved, and the drag is cleared |
| Labelling.OnButtonRelease | labelling.py:459-468 | in rotation mode, as `EndDrag` when a drag is under way and the boxes stay unchanged; in labeling mode without a press nothing changes, and with one the boxes, press, preview, outlines and captions end as `end_bbox` leaves them (`BoxEnded`) |
| Labelling.LabelFile | labelling.py:291 | a missing label file reads as no lines |
| Labelling.ReadLabelFile | labelling.py:291-296 | the reading loop appends the box of each five-field line in order, skips other lines, and stops at the first field `float` rejects |
| Labelling.ReadStoredLabels | labelling.py:290-296 | the boxes read from the label file of an image path |
| Labelling.ResizeAndList | labelling.py:297-299 | the canvas is resized and redrawn, then the boxes listed; it raises exactly when drawing or listing raised |
| Labelling.TakeImage | labelling.py:284-289 | the decoded image becomes original and display, the angles are zero and clean, and the boxes are the ones read |
| Labelling.ShowImage | labelling.py:284-299 | the image is taken with its boxes. When the label file read completely, the canvas is resized and listed; otherwise the load stops raised with the canvas untouched |
| Labelling.LoadPath | labelling.py:280-299 | an unreadable image changes nothing further; a readable one is shown with the boxes of its label file |
| Labelling.LoadCurrentImage | labelling.py:277-299 | with an empty list nothing changes. Otherwise the image path becomes the current entry, and its image, when readable, is shown with its stored labels |
| Labelling.CurrentSavedReloads | labelling.py:395-401 | after a successful save, the image's label file reads back completely as the boxes rounded to six decimals |
| Labelling.SaveCurrentLabels | labelling.py:395-401 | without a path or boxes nothing is written; otherwise the label file holds one label line per box, or the write raises and nothing changes |
| Labelling.FormatLabels | labelling.py:399-401 | the write loop produces the label lines of the boxes, in order |
| Labelling.AutoSave | labelling.py:382-391 | an unsaved rotation is saved first, and a raise there stops the save; then the labels are saved. In `next_image`, the label file of an image without boxes is removed instead |
| Labelling.LoadAt | labelling.py:392-393 | the index moves to the target and the image there is loaded with its labels; the canvas shows it, resized and drawn, or keeps the previous view when it does not decode, with `raised` exactly when a label line, the drawing or the listing raised (`Reloaded`) |
| Labelling.MoveTo | labelling.py:372-378 | the index moves to the target, or stays with the view unchanged when the auto-save raised. After a move the canvas shows the new image as `load_current_image` draws it (`Reloaded`). The files change only by the auto-save, and not at all with auto-save off |
| Labelling.NextImage | labelling.py:380-393 | at the end of the list nothing changes. Otherwise the index moves on by one, after the auto-save. With auto-save off, an unsaved rotation is dropped |
| Labelling.NextImageChecked | labelling.py:380-393 | `next_image` preceded by the unsaved-rotation prompt: Cancel changes nothing, and Yes stores the codec's encoding of the shown image at its path. Whenever the prompt lets it go on (clean, No, or Yes with an image shown) and there is a later image, it moves on by one with auto-save off, and with auto-save on the files are auto-saved from the state the prompt left, the index moving exactly when that did not raise |
| Labelling.PrevImage | labelling.py:370-378 | whenever the prompt lets it go on (clean, No, or Yes with an image shown) and there is an earlier image: with auto-save off the index moves back by one; with it on the files are auto-saved from the state the prompt left (keeping empty label files), the index moving back exactly when that did not raise. After a move the canvas shows that image (`Reloaded`); Cancel changes nothing, and Yes stores the codec's encoding of the shown image at its path |
| Labelling.SaveChanges | labelling.py:403-413 | in rotation mode an unsaved rotation is saved (and a clean one changes nothing); in labeling mode the labels are saved |

## Left out

- Widgets are not modelled: the list box text with its sizes to three
  decimals, the image information label, the class radio buttons, the
  crosshair lines, the thumbnails and the mouse-wheel scrolling. They only
  format what the model already states.
- `load_images`, `load_single_image` (file dialogs and directory listings),
  `setup_classes` (a text dialog), `toggle_mode` and `toggle_auto_save`
  (radio button and check box reads) and the resize debounce timer are not
  modelled. The mode and the auto-save flag are fields that the handlers
  read.
- Display.PerformResize: the fitted size `int(w * scale)`,
  `int(h * scale)` and the canvas size reported by the window are inputs.
  The floating-point scale factor and the resized pixels are not modelled;
  only the resized image's size is kept.
- RotationUtils.ApplySmoothRotation: the affine warp (rotation matrix,
  enlarged canvas, linear interpolation, white border) is an abstract
  function of the original image and the angle in half degrees.
- `imread` is a map lookup, and the BGR/RGB colour conversions are not
  modelled, since they cancel out between reading and writing.
- LabelerState.Disk.constructor, Labelling.SaveRotation,
  Labelling.StoredRotationReadsBack, Labelling.NextImageChecked,
  Labelling.PrevImage: the pixels `imread` returns after `imwrite` are an
  abstract function `encode` of the path and the image. The codec is not
  modelled. The image reads back unchanged only for `.png` and `.bmp`
  paths (`KeepsLossless`); a JPEG file is re-encoded lossily.
- Geometry.Normalize, LabelText.Quantize6, LabelText.Fixed6,
  Geometry.CornersAroundCentre, Geometry.DrawInvertsCommit: the model
  computes in exact real numbers, not IEEE-754 doubles. The last digit
  written by `:.6f` and the drawn corners can differ from the float
  program. For example, `f"{3/640:.6f}"` gives `0.004687` in Python, since
  the double nearest 3/640 lies below the halfway point, while the model
  gives `0.004688`.
- Labelling.SaveRotation: the outcome of `imwrite` (stored, returned
  False, raised) is an input, one per handler call.
- LabelingUtils.SaveLabelsToTxt, LabelText.ReprLines: the text `str()`
  gives for a number is an abstract function `repr`, used for the class id
  and the four floats alike. A box committed in the session carries the
  int `current_class`, which `str()` writes as `0`; a box loaded from a
  file carries a float and is written as `0.0`. A single `repr` gives both
  the same text. The round trip is proved for every `repr` that reads back
  and is unaffected, since `float` reads both texts as the same number.
- `os.remove` is assumed to succeed. A failing `open` for writing is the
  `writeOk` input.
- The label file parser covers the decimal forms `float` accepts: an
  optional sign, digits and at most one point. Exponents, `inf`, `nan`
  and digit underscores are read as rejected fields.
- LabelingUtils.AddBox: the names `update_label_list` shows after a
  committed box are not part of the model's state. `ListingFollowsDrawing`
  shows that listing cannot raise there.
- Labelling.LoadCurrentImage: `update_image_info` (label text only) is not
  modelled.
- Labelling.NextImage, Labelling.NextImageChecked: their ensures do not
  restate the canvas redraw of the newly loaded image, only the state
  `LoadedCurrent` names. `LoadAt`, `MoveTo` and `PrevImage` state the
  redraw through `Reloaded`.
- Label captions are not cleared by `load_current_image` in the source
  (only `bbox_rects` is). The model follows the code: captions are replaced
  only by the redraw.
- Where the documented design differs from the code, the model follows the
  code:
  - `end_bbox` does not save the label file after a committed box;
  - a list position that is out of range is a silent no-op in
    `delete_selected_label`;
  - `load_current_image` sets the image path before it knows the image can
    be decoded.

## Findings

| source | as written | input that shows it | evidently intended | confidence | as-written member | corrected member |
|---|---|---|---|---|---|---|
| labelling.py:380-393 | `next_image` moves on without `check_unsaved_rotation`, which `prev_image` (labelling.py:371) and both image loaders call first. With auto-save off, an unsaved rotation is dropped without a prompt | a rotation not yet saved (`rotation_dirty` true), auto-save off, index 0 of two readable images: `next_image` loads image 1, clears `rotation_dirty` and the angle, and writes nothing | ask about the unsaved rotation before leaving, as `prev_image` does | not executed | Labelling.NextImage | Labelling.NextImageChecked |
