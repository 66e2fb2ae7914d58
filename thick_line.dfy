/** `draw_line_thick` (cimgDrawLineThick.hpp): a line of a given radius drawn
    as a bundle of one-pixel CImg lines, the centre line, four copies shifted
    by the radius along each axis, and copies shifted by the offsets that a
    midpoint-circle sweep of that radius enumerates. */
module ThickLine {
  import opened CImgModel

  /** The opacity CImg's `draw_line` uses when none is given. */
  const FullOpacity: real := 1.0

  /** A shift applied to both end points of the centre line. */
  datatype Offset = Offset(dx: int, dy: int)

  function Abs(n: int): nat {
    if n < 0 then -n else n
  }

  /** The midpoint-circle error term `f` as a function of the loop head
      position (x, y): the loop keeps `f` equal to it, and `f >= 0` says
      that the midpoint (x + 1, y - 1/2) lies outside the circle. */
  function Error(x: int, y: int, radius: int): int {
    x * x + 2 * x + y * y - y - radius * radius + 1
  }

  /** The offsets one iteration draws once it has moved to (x, y): none when
      x has passed y, the four (±y, ±x) when x == y, and all eight (±y, ±x),
      (±x, ±y) otherwise. */
  function OctantOffsets(x: int, y: int): seq<Offset> {
    if x == y + 1 then []
    else
      [Offset(-y, -x), Offset(-y, x), Offset(y, -x), Offset(y, x)]
      + (if x != y then [Offset(-x, -y), Offset(x, y), Offset(x, -y), Offset(-x, y)] else [])
  }

  /** All offsets the sweep draws from loop head (x, y) with error term f
      to its end. Each step moves x up by one and y down by one or not at
      all, so y - x shrinks and the sweep ends. */
  function SweepOffsets(f: int, x: int, y: int): seq<Offset>
    decreases y - x
  {
    if x >= y then []
    else OctantOffsets(x + 1, NextY(f, y)) + SweepOffsets(NextF(f, x, y), x + 1, NextY(f, y))
  }

  /** Where y goes in one step: down by one when the error term is not
      negative. */
  function NextY(f: int, y: int): int {
    if f >= 0 then y - 1 else y
  }

  /** The error term after one step: `f += (ddFy += 2)` when y moves down,
      then `f += (ddFx += 2)` and `++f` as x moves up, with ddFx = 2x and
      ddFy = -2y before the step. */
  function NextF(f: int, x: int, y: int): int {
    (if f >= 0 then f - 2 * y + 2 else f) + 2 * (x + 1) + 1
  }

  /** The centre line (x0, y0)-(x1, y1) moved by `o` at both ends. */
  function Shift(x0: int, y0: int, x1: int, y1: int, color: Color, opacity: real, o: Offset): DrawCmd {
    Line(x0 + o.dx, y0 + o.dy, x1 + o.dx, y1 + o.dy, color, opacity)
  }

  function ShiftAll(x0: int, y0: int, x1: int, y1: int, color: Color, opacity: real, offsets: seq<Offset>): seq<DrawCmd> {
    seq(|offsets|, i requires 0 <= i < |offsets| => Shift(x0, y0, x1, y1, color, opacity, offsets[i]))
  }

  /** The first four lines of a sweep iteration at (x, y): the centre
      line shifted by (-y, -x), (-y, x), (y, -x) and (y, x). */
  function StrokesYX(x0: int, y0: int, x1: int, y1: int, color: Color, opacity: real, x: int, y: int): seq<DrawCmd> {
    [Line(x0 - y, y0 - x, x1 - y, y1 - x, color, opacity), Line(x0 - y, y0 + x, x1 - y, y1 + x, color, opacity),
     Line(x0 + y, y0 - x, x1 + y, y1 - x, color, opacity), Line(x0 + y, y0 + x, x1 + y, y1 + x, color, opacity)]
  }

  /** The other four: shifted by (-x, -y), (x, y), (x, -y) and (-x, y). */
  function StrokesXY(x0: int, y0: int, x1: int, y1: int, color: Color, opacity: real, x: int, y: int): seq<DrawCmd> {
    [Line(x0 - x, y0 - y, x1 - x, y1 - y, color, opacity), Line(x0 + x, y0 + y, x1 + x, y1 + y, color, opacity),
     Line(x0 + x, y0 - y, x1 + x, y1 - y, color, opacity), Line(x0 - x, y0 + y, x1 - x, y1 + y, color, opacity)]
  }

  /** The lines one sweep iteration draws once it has moved to (x, y), in
      drawing order. */
  function OctantStrokes(x0: int, y0: int, x1: int, y1: int, color: Color, opacity: real, x: int, y: int): seq<DrawCmd> {
    if x == y + 1 then []
    else StrokesYX(x0, y0, x1, y1, color, opacity, x, y)
         + if x != y then StrokesXY(x0, y0, x1, y1, color, opacity, x, y) else []
  }

  /** The lines the sweep draws from loop head (x, y) with error term f to
      its end. */
  function SweepStrokes(x0: int, y0: int, x1: int, y1: int, color: Color, opacity: real, f: int, x: int, y: int): seq<DrawCmd>
    decreases y - x
  {
    if x >= y then []
    else OctantStrokes(x0, y0, x1, y1, color, opacity, x + 1, NextY(f, y))
         + SweepStrokes(x0, y0, x1, y1, color, opacity, NextF(f, x, y), x + 1, NextY(f, y))
  }

  /** Every line `draw_line_thick` draws, in order. The centre and axis
      lines use CImg's default opacity; only the sweep uses `opacity`. */
  function ThickLineStrokes(x0: int, y0: int, x1: int, y1: int, color: Color, radius: int, opacity: real): seq<DrawCmd> {
    [Line(x0, y0, x1, y1, color, FullOpacity)]
    + if radius == 0 then []
      else [Line(x0 - radius, y0, x1 - radius, y1, color, FullOpacity), Line(x0 + radius, y0, x1 + radius, y1, color, FullOpacity),
            Line(x0, y0 - radius, x1, y1 - radius, color, FullOpacity), Line(x0, y0 + radius, x1, y1 + radius, color, FullOpacity)]
           + ShiftAll(x0, y0, x1, y1, color, opacity, SweepOffsets(1 - radius, 0, radius))
  }

  /** An offset lies within half a pixel of the circle of radius `radius`,
      measured along its larger coordinate m: r*r falls in
      (dx*dx + dy*dy - m, dx*dx + dy*dy + m]. */
  predicate NearCircle(o: Offset, radius: int) {
    var m := Max(Abs(o.dx), Abs(o.dy));
    o.dx * o.dx + o.dy * o.dy - m < radius * radius <= o.dx * o.dx + o.dy * o.dy + m
  }

  /** An offset within `radius` on both axes and next to the circle. */
  predicate InReach(o: Offset, radius: int) {
    Abs(o.dx) <= radius && Abs(o.dy) <= radius && NearCircle(o, radius)
  }

  lemma ShiftAllAppend(x0: int, y0: int, x1: int, y1: int, color: Color, opacity: real, a: seq<Offset>, b: seq<Offset>)
    ensures ShiftAll(x0, y0, x1, y1, color, opacity, a + b)
         == ShiftAll(x0, y0, x1, y1, color, opacity, a) + ShiftAll(x0, y0, x1, y1, color, opacity, b)
  {
    var l := ShiftAll(x0, y0, x1, y1, color, opacity, a + b);
    var r := ShiftAll(x0, y0, x1, y1, color, opacity, a) + ShiftAll(x0, y0, x1, y1, color, opacity, b);
    assert |l| == |r|;
    forall i | 0 <= i < |l| ensures l[i] == r[i] {
      if i < |a| {
        assert (a + b)[i] == a[i];
      } else {
        assert (a + b)[i] == b[i - |a|];
      }
    }
  }

  /** How the error term changes when y moves down and when x moves up:
      the updates `f += ddFy` and `f += ddFx + 1` of the loop. */
  lemma ErrorSteps(x: int, y: int, radius: int)
    ensures Error(x, y - 1, radius) == Error(x, y, radius) - 2 * (y - 1)
    ensures Error(x + 1, y, radius) == Error(x, y, radius) + 2 * (x + 1) + 1
  {
    assert (y - 1) * (y - 1) == y * y - 2 * y + 1;
    assert (x + 1) * (x + 1) == x * x + 2 * x + 1;
  }

  /** The loop's update of f keeps it equal to the error term of the loop
      head: y moves down exactly when the midpoint lies outside the circle. */
  lemma ErrorStep(f: int, x: int, y: int, radius: int)
    requires f == Error(x, y, radius)
    ensures NextF(f, x, y) == Error(x + 1, NextY(f, y), radius)
  {
    ErrorSteps(x, y, radius);
    ErrorSteps(x, y - 1, radius);
  }

  /** One iteration draws 0, 4 or 8 lines. */
  lemma OctantOffsetsCount(x: int, y: int)
    ensures |OctantOffsets(x, y)| == if x == y + 1 then 0 else if x == y then 4 else 8
  {
  }

  /** The offsets of one iteration at (x, y), 0 <= x <= y, are the eight
      reflections of (x, y): each has y as its larger coordinate and the same
      squared length x*x + y*y. */
  lemma OctantOffsetsGeometry(x: int, y: int)
    requires 0 <= x <= y
    ensures forall o :: o in OctantOffsets(x, y) ==>
              Max(Abs(o.dx), Abs(o.dy)) == y && o.dx * o.dx + o.dy * o.dy == x * x + y * y
  {
    assert (-x) * (-x) == x * x && (-y) * (-y) == y * y;
  }

  /** The point (x, y + 1/2) is on or outside the circle of radius `radius`. */
  predicate AboveCircle(x: int, y: int, radius: int) {
    x * x + y * y + y >= radius * radius
  }

  /** The point (x, y - 1/2) is inside the circle of radius `radius`. */
  predicate BelowCircle(x: int, y: int, radius: int) {
    x * x + y * y - y < radius * radius
  }

  /** One step of the sweep keeps the loop head between the two half-pixel
      bounds of the circle, and a step that draws has 0 <= x <= y. */
  lemma SweepStepStaysNearCircle(radius: int, f: int, x: int, y: int)
    requires 0 <= x < y <= radius && f == Error(x, y, radius)
    requires AboveCircle(x, y, radius) && BelowCircle(x, y, radius)
    ensures var y' := NextY(f, y);
      && y' <= radius
      && AboveCircle(x + 1, y', radius)
      && (x + 1 <= y' ==> BelowCircle(x + 1, y', radius))
      && (x + 1 != y' + 1 ==> x + 1 <= y')
  {
    var y' := NextY(f, y);
    assert (x + 1) * (x + 1) == x * x + 2 * x + 1;
    if f >= 0 {
      assert y' == y - 1;
      assert (y - 1) * (y - 1) == y * y - 2 * y + 1;
    } else {
      assert y' == y;
    }
  }

  /** The offsets of a drawing step at (x, y) inherit the step's closeness
      to the circle. */
  lemma OctantOffsetsNearCircle(radius: int, x: int, y: int)
    requires 0 <= x <= y <= radius
    requires AboveCircle(x, y, radius) && BelowCircle(x, y, radius)
    ensures forall o :: o in OctantOffsets(x, y) ==>
              InReach(o, radius)
  {
    OctantOffsetsGeometry(x, y);
  }

  /** From any loop head that the sweep reaches, every offset drawn stays
      within `radius` on both axes and lies next to the circle. The
      conditions are those that hold at the first loop head (0, radius). */
  lemma {:induction false} SweepOffsetsNearCircle(radius: int, f: int, x: int, y: int)
    requires 0 <= x && y <= radius && f == Error(x, y, radius)
    requires AboveCircle(x, y, radius)
    requires x < y ==> BelowCircle(x, y, radius)
    ensures forall o :: o in SweepOffsets(f, x, y) ==>
              InReach(o, radius)
    decreases y - x
  {
    if x < y {
      var y', f' := NextY(f, y), NextF(f, x, y);
      SweepStepStaysNearCircle(radius, f, x, y);
      ErrorStep(f, x, y, radius);
      if x + 1 != y' + 1 {
        OctantOffsetsNearCircle(radius, x + 1, y');
      }
      SweepOffsetsNearCircle(radius, f', x + 1, y');
      assert SweepOffsets(f, x, y) == OctantOffsets(x + 1, y') + SweepOffsets(f', x + 1, y');
    }
  }

  /** With radius 1, or a negative radius, the sweep draws nothing. */
  lemma SweepEmptyForSmallRadius(radius: int)
    requires radius <= 1
    ensures SweepOffsets(1 - radius, 0, radius) == []
  {
  }

  /** The first line drawn is the centre line at full opacity; with radius 0
      it is the only one; with any other radius, positive or not, the four
      axis shifts at full opacity follow it. */
  lemma ThickLineStartsWithCentre(x0: int, y0: int, x1: int, y1: int, color: Color, radius: int, opacity: real)
    ensures var t := ThickLineStrokes(x0, y0, x1, y1, color, radius, opacity);
      && |t| >= 1
      && t[0] == Line(x0, y0, x1, y1, color, FullOpacity)
      && (radius == 0 <==> |t| == 1)
      && (radius != 0 ==> t[1..5] == [Line(x0 - radius, y0, x1 - radius, y1, color, FullOpacity),
                                      Line(x0 + radius, y0, x1 + radius, y1, color, FullOpacity),
                                      Line(x0, y0 - radius, x1, y1 - radius, color, FullOpacity),
                                      Line(x0, y0 + radius, x1, y1 + radius, color, FullOpacity)])
  {
  }

  /** After the centre and axis lines come the sweep's offsets, in order,
      each applied to both ends of the centre line at the caller's opacity. */
  lemma ThickLineTail(x0: int, y0: int, x1: int, y1: int, color: Color, radius: int, opacity: real)
    requires radius != 0
    ensures var t := ThickLineStrokes(x0, y0, x1, y1, color, radius, opacity);
      var sweep := SweepOffsets(1 - radius, 0, radius);
      && |t| == 5 + |sweep|
      && forall i :: 5 <= i < |t| ==> t[i] == Shift(x0, y0, x1, y1, color, opacity, sweep[i - 5])
  {
    var t := ThickLineStrokes(x0, y0, x1, y1, color, radius, opacity);
    var lines := ShiftAll(x0, y0, x1, y1, color, opacity, SweepOffsets(1 - radius, 0, radius));
    assert |t| == 5 + |lines|;
    forall i | 5 <= i < |t|
      ensures t[i] == lines[i - 5]
    {
    }
  }

  /** Every line after the centre and axis lines is the centre line shifted by
      one offset (dx, dy) at both ends, drawn at the caller's opacity, with
      |dx| <= radius, |dy| <= radius and (dx, dy) next to the circle. */
  lemma ThickLineSweepStrokes(x0: int, y0: int, x1: int, y1: int, color: Color, radius: int, opacity: real)
    ensures var t := ThickLineStrokes(x0, y0, x1, y1, color, radius, opacity);
      forall i :: 5 <= i < |t| ==>
        && t[i].Line?
        && t[i].color == color && t[i].opacity == opacity
        && t[i].xb - t[i].xa == x1 - x0 && t[i].yb - t[i].ya == y1 - y0
        && InReach(Offset(t[i].xa - x0, t[i].ya - y0), radius)
  {
    var t := ThickLineStrokes(x0, y0, x1, y1, color, radius, opacity);
    if radius != 0 {
      var sweep := SweepOffsets(1 - radius, 0, radius);
      ThickLineTail(x0, y0, x1, y1, color, radius, opacity);
      SweepNearCircle(radius);
      forall i | 5 <= i < |t|
        ensures Offset(t[i].xa - x0, t[i].ya - y0) == sweep[i - 5]
      {
      }
    }
  }

  /** Every offset of the whole sweep for `radius` is within `radius` on
      both axes and next to the circle. */
  lemma SweepNearCircle(radius: int)
    ensures var sweep := SweepOffsets(1 - radius, 0, radius);
      forall j :: 0 <= j < |sweep| ==>
        InReach(sweep[j], radius)
  {
    var sweep := SweepOffsets(1 - radius, 0, radius);
    if 0 < radius {
      assert Error(0, radius, radius) == 1 - radius;
      SweepOffsetsNearCircle(radius, 1 - radius, 0, radius);
      forall j | 0 <= j < |sweep|
        ensures InReach(sweep[j], radius)
      {
        assert sweep[j] in sweep;
      }
    }
  }

  /** The body of one sweep iteration after (x, y) has moved: the lines
      shifted by the iteration's octant offsets, at the caller's opacity. */
  method DrawOctant(img: Canvas, x0: int, y0: int, x1: int, y1: int, color: Color, opacity: real, x: int, y: int)
    modifies img
    ensures img.spectrum == old(img.spectrum)
    ensures img.strokes == old(img.strokes) + OctantStrokes(x0, y0, x1, y1, color, opacity, x, y)
  {
    if x != y + 1 {
      DrawFour(img, x0, y0, x1, y1, color, opacity, Offset(-y, -x), Offset(-y, x), Offset(y, -x), Offset(y, x));
      if x != y {
        DrawFour(img, x0, y0, x1, y1, color, opacity, Offset(-x, -y), Offset(x, y), Offset(x, -y), Offset(-x, y));
      }
    }
  }

  /** Four lines: the centre line shifted by a, b, c and d, in that order. */
  method DrawFour(img: Canvas, x0: int, y0: int, x1: int, y1: int, color: Color, opacity: real,
                  a: Offset, b: Offset, c: Offset, d: Offset)
    modifies img
    ensures img.spectrum == old(img.spectrum)
    ensures img.strokes == old(img.strokes)
      + [Shift(x0, y0, x1, y1, color, opacity, a), Shift(x0, y0, x1, y1, color, opacity, b),
         Shift(x0, y0, x1, y1, color, opacity, c), Shift(x0, y0, x1, y1, color, opacity, d)]
  {
    img.DrawLine(x0 + a.dx, y0 + a.dy, x1 + a.dx, y1 + a.dy, color, opacity);
    img.DrawLine(x0 + b.dx, y0 + b.dy, x1 + b.dx, y1 + b.dy, color, opacity);
    img.DrawLine(x0 + c.dx, y0 + c.dy, x1 + c.dx, y1 + c.dy, color, opacity);
    img.DrawLine(x0 + d.dx, y0 + d.dy, x1 + d.dx, y1 + d.dy, color, opacity);
  }

  /** An iteration's lines are the centre line shifted by each of its
      octant offsets in turn. */
  lemma OctantStrokesAreShifts(x0: int, y0: int, x1: int, y1: int, color: Color, opacity: real, x: int, y: int)
    ensures OctantStrokes(x0, y0, x1, y1, color, opacity, x, y)
         == ShiftAll(x0, y0, x1, y1, color, opacity, OctantOffsets(x, y))
  {
  }

  /** The sweep's lines are the centre line shifted by each of the sweep's
      offsets in turn. */
  lemma {:induction false} SweepStrokesAreShifts(x0: int, y0: int, x1: int, y1: int, color: Color, opacity: real, f: int, x: int, y: int)
    ensures SweepStrokes(x0, y0, x1, y1, color, opacity, f, x, y)
         == ShiftAll(x0, y0, x1, y1, color, opacity, SweepOffsets(f, x, y))
    decreases y - x
  {
    if x < y {
      var nf, ny := NextF(f, x, y), NextY(f, y);
      calc {
        SweepStrokes(x0, y0, x1, y1, color, opacity, f, x, y);
        OctantStrokes(x0, y0, x1, y1, color, opacity, x + 1, ny) + SweepStrokes(x0, y0, x1, y1, color, opacity, nf, x + 1, ny);
        { SweepStrokesAreShifts(x0, y0, x1, y1, color, opacity, nf, x + 1, ny);
          OctantStrokesAreShifts(x0, y0, x1, y1, color, opacity, x + 1, ny); }
        ShiftAll(x0, y0, x1, y1, color, opacity, OctantOffsets(x + 1, ny))
          + ShiftAll(x0, y0, x1, y1, color, opacity, SweepOffsets(nf, x + 1, ny));
        { ShiftAllAppend(x0, y0, x1, y1, color, opacity, OctantOffsets(x + 1, ny), SweepOffsets(nf, x + 1, ny)); }
        ShiftAll(x0, y0, x1, y1, color, opacity, OctantOffsets(x + 1, ny) + SweepOffsets(nf, x + 1, ny));
        ShiftAll(x0, y0, x1, y1, color, opacity, SweepOffsets(f, x, y));
      }
    }
  }

  /** The midpoint-circle sweep of `draw_line_thick`: starting at
      (x, y) = (0, radius) with the error term and its second differences,
      it draws the octant offsets of every step until x reaches y. */
  method DrawSweep(img: Canvas, x0: int, y0: int, x1: int, y1: int, color: Color, radius: int, opacity: real)
    modifies img
    ensures img.spectrum == old(img.spectrum)
    ensures img.strokes == old(img.strokes) + ShiftAll(x0, y0, x1, y1, color, opacity, SweepOffsets(1 - radius, 0, radius))
  {
    SweepStrokesAreShifts(x0, y0, x1, y1, color, opacity, 1 - radius, 0, radius);
    var f, ddFx, ddFy, x, y := 1 - radius, 0, -2 * radius, 0, radius;
    while x < y
      invariant ddFx == 2 * x && ddFy == -2 * y && f == Error(x, y, radius)
      invariant img.spectrum == old(img.spectrum)
      invariant img.strokes + SweepStrokes(x0, y0, x1, y1, color, opacity, f, x, y)
             == old(img.strokes) + SweepStrokes(x0, y0, x1, y1, color, opacity, 1 - radius, 0, radius)
      decreases y - x
    {
      ghost var nf, nx, ny := NextF(f, x, y), x + 1, NextY(f, y);
      ErrorStep(f, x, y, radius);
      if f >= 0 {
        ddFy := ddFy + 2;
        f := f + ddFy;
        y := y - 1;
      }
      x := x + 1;
      ddFx := ddFx + 2;
      f := f + ddFx;
      f := f + 1;
      assert f == nf && x == nx && y == ny;
      AppendAssoc(img.strokes, OctantStrokes(x0, y0, x1, y1, color, opacity, x, y), SweepStrokes(x0, y0, x1, y1, color, opacity, f, x, y));
      DrawOctant(img, x0, y0, x1, y1, color, opacity, x, y);
    }
  }

  /** `draw_line_thick(img, x0, y0, x1, y1, color, radius, opacity)`: the
      lines it draws are exactly `ThickLineStrokes`, appended to `img`. */
  method DrawLineThick(img: Canvas, x0: int, y0: int, x1: int, y1: int, color: Color, radius: int, opacity: real)
    requires img.spectrum == 3
    modifies img
    ensures img.spectrum == old(img.spectrum)
    ensures img.strokes == old(img.strokes) + ThickLineStrokes(x0, y0, x1, y1, color, radius, opacity)
  {
    img.DrawLine(x0, y0, x1, y1, color, FullOpacity);
    if radius != 0 {
      ghost var centre := img.strokes;
      DrawFour(img, x0, y0, x1, y1, color, FullOpacity, Offset(-radius, 0), Offset(radius, 0), Offset(0, -radius), Offset(0, radius));
      ghost var axes := [Line(x0 - radius, y0, x1 - radius, y1, color, FullOpacity), Line(x0 + radius, y0, x1 + radius, y1, color, FullOpacity),
                         Line(x0, y0 - radius, x1, y1 - radius, color, FullOpacity), Line(x0, y0 + radius, x1, y1 + radius, color, FullOpacity)];
      assert img.strokes == centre + axes;
      ghost var sweep := ShiftAll(x0, y0, x1, y1, color, opacity, SweepOffsets(1 - radius, 0, radius));
      DrawSweep(img, x0, y0, x1, y1, color, radius, opacity);
      AppendAssoc(centre, axes, sweep);
      AppendAssoc(old(img.strokes), [Line(x0, y0, x1, y1, color, FullOpacity)], axes + sweep);
    }
  }

  /** The overload taking a 2x2 point array: column 0 is the first end point,
      column 1 the second, row 0 the x and row 1 the y coordinates. */
  method DrawLineThickPoints(img: Canvas, points: Grid, color: Color, radius: int, opacity: real)
    requires img.spectrum == 3
    requires points.Valid() && points.width == 2 && points.Height() == 2
    modifies img
    ensures img.spectrum == old(img.spectrum)
    ensures img.strokes == old(img.strokes)
      + ThickLineStrokes(points.At(0, 0), points.At(0, 1), points.At(1, 0), points.At(1, 1), color, radius, opacity)
  {
    var x0, y0 := points.At(0, 0), points.At(0, 1);
    var x1, y1 := points.At(1, 0), points.At(1, 1);
    DrawLineThick(img, x0, y0, x1, y1, color, radius, opacity);
  }
}
