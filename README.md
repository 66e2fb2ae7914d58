# CImg matching viewer, modelled in Dafny

This project models the core of a small CImg-based viewer for point matches
between two images. It has four parts.

- **Thick lines** (`thick_line.dfy`, module `ThickLine`). `draw_line_thick`
  draws a centre segment, four copies shifted by the radius along x and y, and
  then copies shifted by every octant offset of an integer midpoint-circle sweep.
  `DrawLineThick` keeps the source's loop over `f`, `ddFx`, `ddFy`, `x` and `y`.
  It is proved to append exactly `ThickLineStrokes` to the image. The lemmas
  about that function give:
  - the first five segments;
  - the loop-head invariant of the error term;
  - the 0/4/8 segments per iteration;
  - the parallel shift of every sweep segment;
  - the bound `|dx|, |dy| <= radius`;
  - the closeness of every offset to the circle.
- **Match drawing and the interactive loop** (`matching_app.dfy`, module
  `MatchingApp`).
  - Both `drawMatching` overloads are methods that append `MatchingPicture` to
    the image: pairs `0 .. k-1`, in order, then the text overlay.
  - One pass of the `while` loop in `main` is the step function `Poll` over
    `(cur, prev, dispUpdate, closed, fullscreen)` and an input record.
  - `Run` folds `Poll` over a finite list of inputs. It stops after the first
    poll that leaves the display closed, and it lists the cursor of every
    redraw. `EventLoop` runs `main` from its first drawing and is proved to
    make exactly the polls and redraws of `Run`. The lemmas about `Run` show
    that a Q or Esc ends the run, that every redrawn cursor is in range and
    differs from the one before it, and that the image shows the picture for
    the last cursor drawn.
- **`MatchingViewer`** (`matching_viewer.dfy`, module `Viewer`). This is a class
  with the source's fields. The composites are values that record how they were
  computed (`AppendX`, `Blend`). `Consistent()` states that the composites are
  up to date. The image setters re-establish it; `alpha(a)` does not.
- **Colour conversion** (`convert_color.dfy`, module `ConvertColor`). The
  RGB-to-gray conversion is parametrised by the luma of one pixel. Gray-to-RGB
  fills a buffer of three channel planes in a loop.

`cimg_model.dfy` (module `CImgModel`) holds the library pieces the core uses:
- `Image`, as width, height and channel planes;
- `Grid`, a `CImg<int>` used as a table;
- `Canvas`, an image drawn on in place, which records `Line`, `Circle` and
  `Text` drawing calls instead of rasterising them.

In `matching_viewer.dfy`, `Viewer.AppendWidth` and `Viewer.AppendHeight` stand
in for the size of CImg's `get_append('x')`: both widths together, and the
larger height.

Some facts about the code that the model keeps:
- The cursor is clamped into `[0, numPoint]`. Both ends are included, so the
  upper bound is the number of points itself.
- Correspondence `m` joins point `m` of set 0 to point `m` of set 1.
- The overlay shows the count drawn, `k/numPoint`.
- The thick line's extra segments are drawn for any non-zero radius
  (`if (radius)`), negative ones included.
- On the diagonal `x == y`, only the four `(±y, ±x)` segments are drawn; at
  `x == y + 1` nothing is.

## Model

| member | source | states |
|---|---|---|
| CImgModel.Canvas.DrawLine | cimgDrawLineThick.hpp:22 | `draw_line` appends one line record with its end points, colour and opacity; nothing else changes |
| CImgModel.Canvas.DrawCircle | main.cpp:51-52 | `draw_circle` appends one disc record with its centre, radius and colour |
| CImgModel.Canvas.DrawText | main.cpp:65 | `draw_text` appends one text record with position, text, colours, opacity and font height |
| CImgModel.Canvas.Restore | main.cpp:259 | `imgShow = imgMatch` brings back the undrawn image: no drawing calls remain |
| ThickLine.ErrorSteps | cimgDrawLineThick.hpp:27-29 | moving y down by one changes the error term by `-2(y-1)`, and moving x up by one changes it by `2(x+1)+1` |
| ThickLine.ErrorStep | cimgDrawLineThick.hpp:27-29 | one loop update of `f` keeps it equal to `x*x + 2x + y*y - y - r*r + 1` at the new loop head |
| ThickLine.OctantOffsetsCount | cimgDrawLineThick.hpp:30-37 | an iteration draws 0 segments when `x == y+1`, 4 when `x == y`, and 8 otherwise |
| ThickLine.OctantOffsetsGeometry | cimgDrawLineThick.hpp:31-37 | for `0 <= x <= y`, every offset of an iteration has larger coordinate `y` and squared length `x*x + y*y` |
| ThickLine.SweepStepStaysNearCircle | cimgDrawLineThick.hpp:27-30 | one step keeps `y <= radius`, keeps the loop head between the half-pixel circle bounds, and a step that draws has `x <= y` |
| ThickLine.OctantOffsetsNearCircle | cimgDrawLineThick.hpp:30-37 | the offsets of a drawing step between the circle bounds are within `radius` on both axes and next to the circle |
| ThickLine.SweepOffsetsNearCircle | cimgDrawLineThick.hpp:27-37 | from any loop head the sweep reaches, every offset it draws is within `radius` on both axes and next to the circle |
| ThickLine.SweepNearCircle | cimgDrawLineThick.hpp:27-37 | every offset of the whole sweep from `f = 1-radius, x = 0, y = radius` is within `radius` and next to the circle |
| ThickLine.SweepEmptyForSmallRadius | cimgDrawLineThick.hpp:27 | with `radius <= 1`, which includes 1, 0 and every negative radius, the sweep draws nothing |
| ThickLine.ThickLineStartsWithCentre | cimgDrawLineThick.hpp:22-26 | the first segment is the centre line at full opacity; with radius 0 it is the only one; with any non-zero radius the four axis shifts at full opacity follow |
| ThickLine.ThickLineTail | cimgDrawLineThick.hpp:27-37 | after the first five segments come exactly the sweep's offsets, in order, each applied to both ends at the caller's opacity |
| ThickLine.ThickLineSweepStrokes | cimgDrawLineThick.hpp:27-37 | every segment after the first five is a line parallel to the centre line, at the caller's colour and opacity, shifted by an offset within `radius` and next to the circle |
| ThickLine.OctantStrokesAreShifts | cimgDrawLineThick.hpp:33-37 | the eight segments of an iteration, in drawing order, are the centre line shifted by the iteration's offsets |
| ThickLine.SweepStrokesAreShifts | cimgDrawLineThick.hpp:27-39 | the segments the loop draws from any head are the centre line shifted by the sweep's offsets, in order |
| ThickLine.DrawFour | cimgDrawLineThick.hpp:25-26 | four chained `draw_line` calls append the centre line shifted by four offsets, in order |
| ThickLine.DrawOctant | cimgDrawLineThick.hpp:30-37 | the loop body appends the iteration's segments, with the `x != y+1` and `x != y` tests |
| ThickLine.DrawSweep | cimgDrawLineThick.hpp:27-39 | the loop keeps `ddFx == 2x`, `ddFy == -2y` and `f` equal to the error term, ends because `y - x` shrinks, and appends exactly the sweep's shifted segments |
| ThickLine.DrawLineThick | cimgDrawLineThick.hpp:7-41 | needs a 3-channel image and appends exactly `ThickLineStrokes`: the centre, then the axis shifts and the sweep when the radius is non-zero |
| ThickLine.DrawLineThickPoints | cimgDrawLineThick.hpp:43-63 | needs a 3-channel image and a 2x2 point array, and draws the thick line from `(points(0,0), points(0,1))` to `(points(1,0), points(1,1))` with colour, radius and opacity unchanged |
| MatchingApp.DecimalRoundTrip | main.cpp:56 | the count written into the overlay is a non-empty string of decimal digits that reads back as the count |
| MatchingApp.OverlayTextsAgree | main.cpp:116-124 | the vector overload writes the same overlay as the grid overload (main.cpp:55-64): `"k/n points: Energy = "`, then `energy[k-1]`, or `"0.0"` when `k` is 0 |
| MatchingApp.FromGrids | main.cpp:50-52 | point `m` of each set is read as `(points(m,0), points(m,1))` for every `m` below the width |
| MatchingApp.MatchingStrokesPrefix | main.cpp:48-53 | what is drawn for `j` pairs is the start of what is drawn for any `k >= j` pairs |
| MatchingApp.MatchingStrokesDrawExactlyRevealed | main.cpp:48-53 | a drawing call belongs to the picture for `k` if and only if it belongs to one of pairs `0 .. k-1`; nothing is drawn for `m >= k` |
| MatchingApp.MarkersOnRevealedEnds | main.cpp:51-52 | each revealed pair has a marker at its set-0 point and one at its set-1 point shifted right by `offset` |
| MatchingApp.DrawPair | main.cpp:50-52 | one pass draws the thick line between the two points, then a marker at each end |
| MatchingApp.DrawPairs | main.cpp:48-53 | the loop appends exactly pairs `0 .. k-1`, in order, point set 1 shifted by `offset` |
| MatchingApp.DrawMatching | main.cpp:13-66 | under the source's shape checks it appends the pairs with line radius 2 and marker radius 4, then the overlay |
| MatchingApp.VecGuardAdmitsOutOfRangeRead | main.cpp:83-96 | the vector overload's checks as written accept a draw count larger than the point lists |
| MatchingApp.VecGuardKeepsReadsInRange | main.cpp:83-96 | with the draw count bounded by the point lists, every pair read and the energy shown exist |
| MatchingApp.DrawPairPoints | main.cpp:107-113 | one pass copies the pair into the point array, draws the thick line through the point-array overload, then a marker at each column |
| MatchingApp.DrawPairsVec | main.cpp:104-114 | the loop appends exactly pairs `0 .. k-1`, point list 1 shifted by `offset` |
| MatchingApp.DrawMatchingVec | main.cpp:68-126 | appends the same pairs as the grid overload, but with marker radius 2 instead of 4, then the same overlay |
| MatchingApp.Clamp | main.cpp:255-256 | the result lies in `[0, numPoint]`; it keeps a cursor already in range and otherwise moves it to the nearer bound |
| MatchingApp.Poll | main.cpp:218-264 | `closed` is set by Q or Esc. F only toggles full screen. Wheel or arrow input sets the update flag and moves the cursor by the net delta, clamped. A redraw happens iff an update is pending and the clamped cursor differs from the last one drawn; it then records the cursor and clears the flag, and otherwise `prev` and the flag are kept |
| MatchingApp.PollKeepsCursorInRange | main.cpp:253-256 | a cursor in `[0, numPoint]` stays there after any poll |
| MatchingApp.FullscreenKeyKeepsCursor | main.cpp:235-246 | pressing F or not changes neither the cursor, nor `prev`, nor the update flag, nor the redraw decision |
| MatchingApp.NoRedrawWithoutMove | main.cpp:253-264 | after a redraw, a poll without wheel or arrow input redraws nothing |
| MatchingApp.Redraw | main.cpp:259-260 | after restoring the undrawn image and drawing cursor `k`, the image holds exactly the picture for `k` |
| MatchingApp.Update | main.cpp:216-265 | one loop pass follows `Poll`; on a redraw the image becomes the picture of the new cursor, and otherwise it is unchanged |
| MatchingApp.Run | main.cpp:212-264 | the run of the loop over a list of inputs makes at most one poll per input, and it ends with the display closed or every input used |
| MatchingApp.RunStopsAtQuit | main.cpp:212-249 | if input `i` holds Q or Esc, the run makes at most `i + 1` polls and ends with the display closed |
| MatchingApp.RunRedraws | main.cpp:251-264 | from a cursor in `[0, numPoint]`, every run keeps the cursor in range. Every redrawn cursor is in range and differs from the one redrawn before it; the first differs from the value last drawn before the run. Afterwards `prev` is the last cursor redrawn, or the old value when nothing was redrawn |
| MatchingApp.PollUntilClosed | main.cpp:212-265 | the `while` loop makes exactly the polls and redraws of `Run`, and the image then shows the picture for the last value drawn |
| MatchingApp.EventLoop | main.cpp:196-266 | after the first drawing of cursor 0, the final state, the number of polls and the redrawn cursors are exactly those of `Run` over the inputs. As consequences, the cursor is in `[0, numPoint]`, every redrawn cursor is in range and differs from the one before it, `prev` is the last one redrawn, and the image shows the picture of the last cursor drawn |
| Viewer.AppendHeight | cimgMatchingViewer.hpp:71 | the x-append is as high as the taller image |
| Viewer.MatchingViewer.constructor | cimgMatchingViewer.hpp:17-23 | two empty image slots, two composite slots and two point-set slots, no correspondences, and `alpha = 1` |
| Viewer.MatchingViewer.SetAlpha | cimgMatchingViewer.hpp:49 | stores `alpha` only and recomputes nothing: both composites are left as they were, so they stay up to date when the value is unchanged |
| Viewer.MatchingViewer.ImageAt | cimgMatchingViewer.hpp:56 | the image in slot `n`, with the width and height the queries report |
| Viewer.MatchingViewer.SetImage | cimgMatchingViewer.hpp:58 | replaces slot `n` only, then brings both composites up to date; afterwards `image(n)`, `width(n)` and `height(n)` (lines 51-56) report the new image |
| Viewer.MatchingViewer.Images | cimgMatchingViewer.hpp:61 | the whole image list, of any length, element by element as `image(n)` gives it |
| Viewer.MatchingViewer.SetImages | cimgMatchingViewer.hpp:63 | replaces the list, then brings both composites up to date |
| Viewer.MatchingViewer.SetImagePair | cimgMatchingViewer.hpp:65 | slot 0 holds `img0`, slot 1 holds `img1`, and both composites are computed from that final pair |
| Viewer.MatchingViewer.ImgAlign | cimgMatchingViewer.hpp:68 | composite 0; when up to date, the x-append of images 0 and 1 |
| Viewer.MatchingViewer.ImgMerge | cimgMatchingViewer.hpp:70 | composite 1; when up to date, the blend of images 0 and 1 with the current alpha |
| Viewer.MatchingViewer.ImagesAlign | cimgMatchingViewer.hpp:71 | recomputes composite 0 only |
| Viewer.MatchingViewer.ImagesMerge | cimgMatchingViewer.hpp:72 | recomputes composite 1 only, with the current alpha |
| Viewer.MatchingViewer.ImagesUpdate | cimgMatchingViewer.hpp:73 | brings both composites up to date |
| Viewer.AlignedSize | cimgMatchingViewer.hpp:71 | once up to date, the aligned composite is `width(0) + width(1)` wide and `max(height(0), height(1))` high |
| Viewer.MatchingViewer.NumberOfPoint | cimgMatchingViewer.hpp:84 | the width of point set `n` |
| Viewer.MatchingViewer.SetPoint | cimgMatchingViewer.hpp:88 | replaces point set `n` only; images and composites are untouched; afterwards `point(n)` and `numberOfPoint(n)` (lines 84-86) report the new set and its width |
| Viewer.MatchingViewer.Points | cimgMatchingViewer.hpp:91 | the list of point sets, element by element |
| Viewer.MatchingViewer.SetPoints | cimgMatchingViewer.hpp:93 | replaces the list of point sets only |
| Viewer.MatchingViewer.SetPointPair | cimgMatchingViewer.hpp:95 | sets point set 0, then point set 1; nothing else changes |
| Viewer.MatchingViewer.NumberOfCorrespondences | cimgMatchingViewer.hpp:102 | the width of the correspondence array |
| Viewer.MatchingViewer.SetCorrespondences | cimgMatchingViewer.hpp:106 | replaces the correspondence array only; afterwards `correspondences()` and `numberOfCorrespondences()` (lines 102-104) report it and its width |
| ConvertColor.GetRGBtoGray | cimgConvertColor.hpp:6-16 | needs 3 channels; returns one channel of the same size holding the luma of every pixel |
| ConvertColor.GetGraytoRGB | cimgConvertColor.hpp:18-33 | needs 1 channel; returns the same size with exactly 3 channels, each equal to the gray input pixel for pixel |
| ConvertColor.GetGrayscaledRGB | cimgConvertColor.hpp:35-45 | needs 3 channels; returns 3 identical channels, each holding the luma of every pixel |

## Left out

- Rasterisation: pixels of lines, discs and text, and CImg's `get_append`,
  blend and RGB-to-YCbCr conversions are library code outside this model. Drawing
  calls are recorded, composites record their inputs, and the luma of a pixel is
  a parameter.
- `CImgDisplay`: opening the window, `wait()`, the resize on F, and the
  floating-point screen-scale computation (main.cpp:203-211, 239-245). F is
  modelled only as the full-screen flag it toggles.
- Reading the image files, the command line, and the choice between
  `getGrayscaledRGB` and `getGraytoRGB` in `main` (main.cpp:131-166) are I/O.
- The random points and energies of `main` (main.cpp:169-194): the model takes
  the point sets and energies as inputs.
- The formatting of a `double` energy by the string stream: it is a parameter
  `fmt`. Energies are opaque `real` values.
- EventLoop: `numPointPrev` is read before it is ever assigned. The model takes
  its initial value as the parameter `prev0` and claims nothing about it beyond
  what the loop assigns.
- `_imagesDisp`, `_dispEnergy`, `_dispTrans` and the `energy` vector of
  `MatchingViewer` are never read, so the model does not include them.
- DrawSweep: `-(radius<<1)` is modelled as `-2 * radius`. C++ `int` overflow is
  not modelled; all arithmetic is unbounded.
- Images have depth 1. The `(int)` casts of the point array's `TP` values are
  not modelled, because the points are already integers.
- Viewer.MatchingViewer.SetImages: `images(list)` with fewer than two images
  replaces `_imagesRaw` and then fails inside CImg when `imagesAlign` reads
  images 0 and 1. The model requires at least two images and does not model
  that failure or the half-updated state it leaves.
- Viewer.MatchingViewer.ImageAt: `image(n)`, `width(n)`, `height(n)` and
  `point(n)` index a CImg list, and an index out of range is a failure inside
  CImg. The model requires an index in range instead.
- Default arguments (`radius = 0`, `opacity = 1.f`, `alpha = 1.0`) are not
  modelled; callers pass every argument.

## Findings

| source | as written | input that shows it | evidently intended | confidence | as-written member | corrected member |
|---|---|---|---|---|---|---|
| main.cpp:83-96 | the vector `drawMatching` checks `0 <= numPointDraw <= numPoint` against a separately passed `numPoint`, and checks the list sizes only against each other | one point per list, `energy = [0.5]`, `numPoint = 2`, `numPointDraw = 2`: the checks pass, then the loop reads `ptX[0][1]` and the overlay reads `energy[1]` | the draw count is also bounded by the length of the point lists | not executed; high | MatchingApp.VecGuardAdmitsOutOfRangeRead | MatchingApp.VecGuardKeepsReadsInRange |
