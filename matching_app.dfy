/** The viewer program of main.cpp: `drawMatching`, which draws the first
    k correspondences over the side-by-side composite with an overlay line
    of text, and the body of the interactive loop, which moves a cursor k
    with the mouse wheel and arrow keys, clamps it into [0, numPoint] and
    redraws only when it differs from the value last drawn. */
module MatchingApp {
  import opened CImgModel
  import opened ThickLine

  const ColorPt0: Color := [255, 0, 0]
  const ColorPt1: Color := [0, 255, 0]
  const ColorLine: Color := [0, 0, 255]
  const ColorBG: Color := [255, 255, 255]
  const ColorFG: Color := [0, 0, 0]
  /** The radius of every correspondence line. */
  const LineRadius: int := 2
  const FontHeight: int := 25

  // ---------------------------------------------------------------------
  // Overlay text

  function Digit(d: nat): char
    requires d < 10
  {
    ('0' as int + d) as char
  }

  /** The decimal digits a stream writes for a non-negative int. */
  function Decimal(n: nat): string
    decreases n
  {
    if n < 10 then [Digit(n)] else Decimal(n / 10) + [Digit(n % 10)]
  }

  /** The number a string of decimal digits denotes. */
  function DigitsValue(s: string): int
    decreases |s|
  {
    if s == [] then 0 else 10 * DigitsValue(s[..|s| - 1]) + (s[|s| - 1] as int - '0' as int)
  }

  /** The count written into the overlay reads back as that count: it is a
      non-empty string of decimal digits that denotes it. */
  lemma {:induction false} DecimalRoundTrip(n: nat)
    ensures |Decimal(n)| > 0
    ensures forall i :: 0 <= i < |Decimal(n)| ==> '0' <= Decimal(n)[i] <= '9'
    ensures DigitsValue(Decimal(n)) == n
    decreases n
  {
    if n >= 10 {
      DecimalRoundTrip(n / 10);
      var s := Decimal(n);
      assert s[..|s| - 1] == Decimal(n / 10);
    }
  }

  /** The overlay of the grid overload: "k/n points: Energy = " followed by
      energy[k - 1] as the stream formats it (`fmt`), or "0.0" when k is 0. */
  function OverlayText(numPointDraw: nat, numPoint: nat, energy: seq<real>, fmt: real -> string): string
    requires numPointDraw <= |energy|
  {
    Decimal(numPointDraw) + "/" + Decimal(numPoint) + " points: Energy = "
    + if numPointDraw != 0 then fmt(energy[numPointDraw - 1]) else "0.0"
  }

  /** The overlay of the vector overload, which writes the whole line in
      each branch. */
  function OverlayTextVec(numPointDraw: nat, numPoint: nat, energy: seq<real>, fmt: real -> string): string
    requires numPointDraw <= |energy|
  {
    if numPointDraw != 0 then
      Decimal(numPointDraw) + "/" + Decimal(numPoint) + " points: Energy = " + fmt(energy[numPointDraw - 1])
    else
      Decimal(numPointDraw) + "/" + Decimal(numPoint) + " points: Energy = 0.0"
  }

  /** Both overloads write the same overlay, and it starts with the count
      drawn and the total. */
  lemma OverlayTextsAgree(numPointDraw: nat, numPoint: nat, energy: seq<real>, fmt: real -> string)
    requires numPointDraw <= |energy|
    ensures OverlayTextVec(numPointDraw, numPoint, energy, fmt) == OverlayText(numPointDraw, numPoint, energy, fmt)
    ensures var prefix := Decimal(numPointDraw) + "/" + Decimal(numPoint) + " points: Energy = ";
      OverlayText(numPointDraw, numPoint, energy, fmt)[..|prefix|] == prefix
  {
    var prefix := Decimal(numPointDraw) + "/" + Decimal(numPoint) + " points: Energy = ";
    if numPointDraw == 0 {
      assert prefix + "0.0" == Decimal(numPointDraw) + "/" + Decimal(numPoint) + " points: Energy = 0.0";
    }
  }

  /** The overlay drawn at the top-left corner. */
  function Overlay(numPointDraw: nat, numPoint: nat, energy: seq<real>, fmt: real -> string): DrawCmd
    requires numPointDraw <= |energy|
  {
    Text(0, 0, OverlayText(numPointDraw, numPoint, energy, fmt), ColorFG, ColorBG, 1.0, FontHeight)
  }

  // ---------------------------------------------------------------------
  // Correspondence lines

  /** Two point sets as coordinate lists: point m of set 0 is (x0[m], y0[m]),
      its partner in set 1 is (x1[m], y1[m]). */
  datatype PointPairs = PointPairs(x0: seq<int>, y0: seq<int>, x1: seq<int>, y1: seq<int>) {
    /** The first k pairs exist. */
    predicate Covers(k: int) {
      0 <= k <= |x0| && k <= |y0| && k <= |x1| && k <= |y1|
    }
  }

  /** The coordinate lists of two 2-row point grids. */
  function FromGrids(points0: Grid, points1: Grid): (p: PointPairs)
    requires points0.Valid() && points1.Valid() && points0.Height() == 2 && points1.Height() == 2
    requires points0.width == points1.width
    ensures p.Covers(points0.width)
    ensures forall m :: 0 <= m < points0.width ==>
              p.x0[m] == points0.At(m, 0) && p.y0[m] == points0.At(m, 1)
              && p.x1[m] == points1.At(m, 0) && p.y1[m] == points1.At(m, 1)
  {
    PointPairs(points0.rows[0], points0.rows[1], points1.rows[0], points1.rows[1])
  }

  /** What is drawn for one correspondence from (xa, ya) to (xb, yb): the
      thick line of radius `radius` between them, then a marker disc of
      radius `marker` at each end. */
  function PairStrokes(xa: int, ya: int, xb: int, yb: int, radius: int, marker: int): seq<DrawCmd> {
    ThickLineStrokes(xa, ya, xb, yb, ColorLine, radius, FullOpacity)
    + [Circle(xa, ya, marker, ColorPt0), Circle(xb, yb, marker, ColorPt1)]
  }

  /** What is drawn for pair m: point m of set 0 joined to point m of set 1
      shifted right by `offset`. */
  function PairAt(p: PointPairs, offset: int, radius: int, marker: int, m: nat): seq<DrawCmd>
    requires p.Covers(m + 1)
  {
    PairStrokes(p.x0[m], p.y0[m], p.x1[m] + offset, p.y1[m], radius, marker)
  }

  /** What is drawn for pairs 0 .. k - 1, in order. */
  function MatchingStrokes(p: PointPairs, offset: int, radius: int, marker: int, k: nat): seq<DrawCmd>
    requires p.Covers(k)
    decreases k
  {
    if k == 0 then [] else MatchingStrokes(p, offset, radius, marker, k - 1) + PairAt(p, offset, radius, marker, k - 1)
  }

  /** The whole of what `drawMatching` draws for cursor k. */
  function MatchingPicture(p: PointPairs, offset: int, radius: int, marker: int, energy: seq<real>, numPoint: nat, k: nat, fmt: real -> string): seq<DrawCmd>
    requires p.Covers(k) && k <= |energy|
  {
    MatchingStrokes(p, offset, radius, marker, k) + [Overlay(k, numPoint, energy, fmt)]
  }

  /** Revealing is cumulative: what is drawn for j pairs is the start of
      what is drawn for k >= j pairs. */
  lemma {:induction false} MatchingStrokesPrefix(p: PointPairs, offset: int, radius: int, marker: int, j: nat, k: nat)
    requires j <= k && p.Covers(k)
    ensures var small := MatchingStrokes(p, offset, radius, marker, j);
      var large := MatchingStrokes(p, offset, radius, marker, k);
      |small| <= |large| && large[..|small|] == small
    decreases k
  {
    if j < k {
      MatchingStrokesPrefix(p, offset, radius, marker, j, k - 1);
    }
  }

  /** Exactly the pairs 0 .. k - 1 are drawn: a drawing call is made for
      cursor k if and only if it belongs to one of those pairs. */
  lemma {:induction false} MatchingStrokesDrawExactlyRevealed(p: PointPairs, offset: int, radius: int, marker: int, k: nat)
    requires p.Covers(k)
    ensures forall c :: c in MatchingStrokes(p, offset, radius, marker, k) <==>
              exists m :: 0 <= m < k && c in PairAt(p, offset, radius, marker, m)
    decreases k
  {
    if k > 0 {
      MatchingStrokesDrawExactlyRevealed(p, offset, radius, marker, k - 1);
      var prev := MatchingStrokes(p, offset, radius, marker, k - 1);
      var last := PairAt(p, offset, radius, marker, k - 1);
      assert MatchingStrokes(p, offset, radius, marker, k) == prev + last;
      forall c | c in prev + last
        ensures exists m :: 0 <= m < k && c in PairAt(p, offset, radius, marker, m)
      {
        if c !in last {
          assert c in prev;
        }
      }
      forall c, m | 0 <= m < k && c in PairAt(p, offset, radius, marker, m)
        ensures c in prev + last
      {
        if m < k - 1 {
          assert c in prev;
        }
      }
    }
  }

  /** Both markers of every revealed pair are drawn for cursor k: one on
      its point in set 0 and one on its point in set 1 shifted by
      `offset`. */
  lemma MarkersOnRevealedEnds(p: PointPairs, offset: int, radius: int, marker: int, k: nat, m: nat)
    requires p.Covers(k) && m < k
    ensures Circle(p.x0[m], p.y0[m], marker, ColorPt0) in MatchingStrokes(p, offset, radius, marker, k)
    ensures Circle(p.x1[m] + offset, p.y1[m], marker, ColorPt1) in MatchingStrokes(p, offset, radius, marker, k)
  {
    MatchingStrokesDrawExactlyRevealed(p, offset, radius, marker, k);
    var pair := PairAt(p, offset, radius, marker, m);
    assert pair[|pair| - 2] == Circle(p.x0[m], p.y0[m], marker, ColorPt0);
    assert pair[|pair| - 1] == Circle(p.x1[m] + offset, p.y1[m], marker, ColorPt1);
  }

  /** The shape `drawMatching` (grid overload) demands of its inputs: two
      point sets of two rows, as many points in each as energies, at least
      one. */
  predicate MatchingInputs(points0: Grid, points1: Grid, energy: seq<real>) {
    && points0.Valid() && points1.Valid()
    && points0.width == points1.width && points0.width == |energy| && points0.width > 0
    && points0.Height() == 2 && points1.Height() == 2
  }

  /** The loop of `drawMatching` (grid overload): pair m is a thick line of
      radius `radius` from point m of set 0 to point m of set 1 shifted by
      `offset`, then a marker of radius `marker` at each end. */
  method DrawPairs(img: Canvas, points0: Grid, points1: Grid, offset: int, radius: int, marker: int, k: nat)
    requires img.spectrum == 3
    requires points0.Valid() && points1.Valid() && points0.Height() == 2 && points1.Height() == 2
    requires points0.width == points1.width && k <= points0.width
    modifies img
    ensures img.spectrum == old(img.spectrum)
    ensures img.strokes == old(img.strokes) + MatchingStrokes(FromGrids(points0, points1), offset, radius, marker, k)
  {
    ghost var p := FromGrids(points0, points1);
    for m := 0 to k
      invariant img.spectrum == old(img.spectrum)
      invariant img.strokes == old(img.strokes) + MatchingStrokes(p, offset, radius, marker, m)
    {
      var xa, ya, xb, yb := points0.At(m, 0), points0.At(m, 1), points1.At(m, 0) + offset, points1.At(m, 1);
      assert PairAt(p, offset, radius, marker, m) == PairStrokes(xa, ya, xb, yb, radius, marker);
      AppendAssoc(old(img.strokes), MatchingStrokes(p, offset, radius, marker, m), PairAt(p, offset, radius, marker, m));
      DrawPair(img, xa, ya, xb, yb, radius, marker);
    }
  }

  /** One pass of that loop: the thick line from (xa, ya) to (xb, yb) and
      a marker on each end. */
  method DrawPair(img: Canvas, xa: int, ya: int, xb: int, yb: int, radius: int, marker: int)
    requires img.spectrum == 3
    modifies img
    ensures img.spectrum == old(img.spectrum)
    ensures img.strokes == old(img.strokes) + PairStrokes(xa, ya, xb, yb, radius, marker)
  {
    DrawLineThick(img, xa, ya, xb, yb, ColorLine, radius, FullOpacity);
    ghost var line := img.strokes;
    img.DrawCircle(xa, ya, marker, ColorPt0);
    img.DrawCircle(xb, yb, marker, ColorPt1);
    assert img.strokes == line + [Circle(xa, ya, marker, ColorPt0), Circle(xb, yb, marker, ColorPt1)];
    AppendAssoc(old(img.strokes), ThickLineStrokes(xa, ya, xb, yb, ColorLine, radius, FullOpacity),
                [Circle(xa, ya, marker, ColorPt0), Circle(xb, yb, marker, ColorPt1)]);
  }

  /** `drawMatching(img, points0, points1, offset, energy, numPointDraw)`:
      draws pairs 0 .. numPointDraw - 1 with lines of radius 2 and markers
      of radius 2 * 2, then the overlay. */
  method DrawMatching(img: Canvas, points0: Grid, points1: Grid, offset: int, energy: seq<real>,
                      numPointDraw: int, fmt: real -> string)
    requires img.spectrum == 3
    requires MatchingInputs(points0, points1, energy)
    requires 0 <= numPointDraw <= points0.width
    modifies img
    ensures img.spectrum == old(img.spectrum)
    ensures img.strokes == old(img.strokes)
      + MatchingPicture(FromGrids(points0, points1), offset, LineRadius, 2 * LineRadius, energy, points0.width, numPointDraw, fmt)
  {
    var numPoint := points0.width;
    var radius := LineRadius;
    DrawPairs(img, points0, points1, offset, radius, radius * 2, numPointDraw);
    img.DrawText(0, 0, OverlayText(numPointDraw, numPoint, energy, fmt), ColorFG, ColorBG, 1.0, FontHeight);
    AppendAssoc(old(img.strokes), MatchingStrokes(FromGrids(points0, points1), offset, radius, radius * 2, numPointDraw),
                [Overlay(numPointDraw, numPoint, energy, fmt)]);
  }

  /** The shape checks of the vector overload, as written: two lists of x
      and two of y coordinates, all as long as the energy list. */
  predicate VecShapeAsWritten(ptX: seq<seq<int>>, ptY: seq<seq<int>>, energy: seq<real>) {
    && |ptX| == 2 && |ptY| == 2
    && |ptX[0]| == |ptY[0]| && |ptX[0]| == |ptX[1]| && |ptY[0]| == |ptY[1]| && |ptX[0]| == |energy|
  }

  /** The vector overload's checks as written: the shape, and 0 <=
      numPointDraw <= numPoint for a numPoint the caller passes separately. */
  predicate VecGuardAsWritten(ptX: seq<seq<int>>, ptY: seq<seq<int>>, energy: seq<real>, numPoint: int, numPointDraw: int) {
    VecShapeAsWritten(ptX, ptY, energy) && 0 <= numPointDraw <= numPoint
  }

  /** The checks as written let through a draw count larger than the point
      lists: one point per list, numPoint 2, numPointDraw 2 pass, and the
      loop then reads ptX[0][1] and the overlay energy[1]. */
  lemma VecGuardAdmitsOutOfRangeRead()
    ensures var ptX, ptY, energy := [[0], [0]], [[0], [0]], [0.5];
      VecGuardAsWritten(ptX, ptY, energy, 2, 2) && 2 > |ptX[0]| && 2 - 1 >= |energy|
  {
  }

  /** The checks with the draw count tied to the point lists. */
  predicate VecGuard(ptX: seq<seq<int>>, ptY: seq<seq<int>>, energy: seq<real>, numPoint: int, numPointDraw: int) {
    VecGuardAsWritten(ptX, ptY, energy, numPoint, numPointDraw) && numPointDraw <= |ptX[0]|
  }

  /** Under the corrected checks every pair the loop reads exists, and so
      does the energy the overlay shows. */
  lemma VecGuardKeepsReadsInRange(ptX: seq<seq<int>>, ptY: seq<seq<int>>, energy: seq<real>, numPoint: int, numPointDraw: int)
    requires VecGuard(ptX, ptY, energy, numPoint, numPointDraw)
    ensures PointPairs(ptX[0], ptY[0], ptX[1], ptY[1]).Covers(numPointDraw)
    ensures numPointDraw <= |energy| && 0 <= numPointDraw <= numPoint
  {
  }

  /** The loop of `drawMatching` (vector overload): pair m is copied into a
      2x2 point array, drawn through the point-array overload of the thick
      line, and marked at both ends with markers of radius `marker`. */
  method DrawPairsVec(img: Canvas, ptX: seq<seq<int>>, ptY: seq<seq<int>>, offset: int, radius: int, marker: int, k: nat)
    requires img.spectrum == 3
    requires |ptX| == 2 && |ptY| == 2 && PointPairs(ptX[0], ptY[0], ptX[1], ptY[1]).Covers(k)
    modifies img
    ensures img.spectrum == old(img.spectrum)
    ensures img.strokes == old(img.strokes) + MatchingStrokes(PointPairs(ptX[0], ptY[0], ptX[1], ptY[1]), offset, radius, marker, k)
  {
    ghost var p := PointPairs(ptX[0], ptY[0], ptX[1], ptY[1]);
    var points := Grid(2, [[0, 0], [0, 0]]);
    for m := 0 to k
      invariant img.spectrum == old(img.spectrum)
      invariant img.strokes == old(img.strokes) + MatchingStrokes(p, offset, radius, marker, m)
    {
      points := Grid(2, [[ptX[0][m], ptX[1][m] + offset], [ptY[0][m], ptY[1][m]]]);
      assert PairAt(p, offset, radius, marker, m)
          == PairStrokes(points.At(0, 0), points.At(0, 1), points.At(1, 0), points.At(1, 1), radius, marker);
      AppendAssoc(old(img.strokes), MatchingStrokes(p, offset, radius, marker, m), PairAt(p, offset, radius, marker, m));
      DrawPairPoints(img, points, radius, marker);
    }
  }

  /** One pass of that loop once pair m is in the point array: the thick
      line between its two columns and a marker on each. */
  method DrawPairPoints(img: Canvas, points: Grid, radius: int, marker: int)
    requires img.spectrum == 3
    requires points.Valid() && points.width == 2 && points.Height() == 2
    modifies img
    ensures img.spectrum == old(img.spectrum)
    ensures img.strokes == old(img.strokes)
      + PairStrokes(points.At(0, 0), points.At(0, 1), points.At(1, 0), points.At(1, 1), radius, marker)
  {
    DrawLineThickPoints(img, points, ColorLine, radius, FullOpacity);
    ghost var line := img.strokes;
    img.DrawCircle(points.At(0, 0), points.At(0, 1), marker, ColorPt0);
    img.DrawCircle(points.At(1, 0), points.At(1, 1), marker, ColorPt1);
    ghost var markers := [Circle(points.At(0, 0), points.At(0, 1), marker, ColorPt0), Circle(points.At(1, 0), points.At(1, 1), marker, ColorPt1)];
    assert img.strokes == line + markers;
    AppendAssoc(old(img.strokes), ThickLineStrokes(points.At(0, 0), points.At(0, 1), points.At(1, 0), points.At(1, 1), ColorLine, radius, FullOpacity), markers);
  }

  /** `drawMatching(img, ptX, ptY, offset, energy, numPoint, numPointDraw)`:
      the same pairs as the grid overload, drawn through the 2x2 point-array
      overload of the thick line, but with markers of radius 2 rather than
      2 * 2. */
  method DrawMatchingVec(img: Canvas, ptX: seq<seq<int>>, ptY: seq<seq<int>>, offset: int, energy: seq<real>,
                         numPoint: int, numPointDraw: int, fmt: real -> string)
    requires img.spectrum == 3
    requires VecGuard(ptX, ptY, energy, numPoint, numPointDraw)
    modifies img
    ensures img.spectrum == old(img.spectrum)
    ensures img.strokes == old(img.strokes)
      + MatchingPicture(PointPairs(ptX[0], ptY[0], ptX[1], ptY[1]), offset, LineRadius, LineRadius, energy, numPoint, numPointDraw, fmt)
  {
    VecGuardKeepsReadsInRange(ptX, ptY, energy, numPoint, numPointDraw);
    var radius := LineRadius;
    DrawPairsVec(img, ptX, ptY, offset, radius, radius, numPointDraw);
    OverlayTextsAgree(numPointDraw, numPoint, energy, fmt);
    img.DrawText(0, 0, OverlayTextVec(numPointDraw, numPoint, energy, fmt), ColorFG, ColorBG, 1.0, FontHeight);
    AppendAssoc(old(img.strokes), MatchingStrokes(PointPairs(ptX[0], ptY[0], ptX[1], ptY[1]), offset, radius, radius, numPointDraw),
                [Overlay(numPointDraw, numPoint, energy, fmt)]);
  }

  // ---------------------------------------------------------------------
  // The interactive loop

  /** What one poll of the display reports: the wheel ticks accumulated
      since the last reset and which keys are down. */
  datatype Input = Input(wheel: int, down: bool, left: bool, up: bool, right: bool,
                         keyF: bool, keyQ: bool, keyEsc: bool)

  /** The loop's variables: the cursor `numPointCur`, the value last drawn
      `numPointPrev`, the pending-update flag `dispUpdate`, whether the
      display is closed, and whether it is full screen. */
  datatype LoopState = LoopState(cur: int, prev: int, dispUpdate: bool, closed: bool, fullscreen: bool)

  datatype PollResult = PollResult(state: LoopState, redraw: bool)

  /** `std::max(std::min(numPoint, cur), 0)`. */
  function Clamp(numPoint: int, cur: int): (c: int)
    ensures 0 <= c
    ensures 0 <= numPoint ==> c <= numPoint
    ensures 0 <= cur <= numPoint ==> c == cur
    ensures 0 <= numPoint < cur ==> c == numPoint
    ensures cur < 0 ==> c == 0
  {
    var low := if numPoint < cur then numPoint else cur;
    if low < 0 then 0 else low
  }

  /** The input moves the cursor: wheel ticks or an arrow key. */
  predicate Moves(k: Input) {
    k.wheel != 0 || k.down || k.left || k.up || k.right
  }

  /** The net change of the cursor before clamping: the wheel ticks, minus
      one for down or left, plus one for up or right. */
  function Delta(k: Input): int {
    k.wheel - (if k.down || k.left then 1 else 0) + (if k.up || k.right then 1 else 0)
  }

  /** One pass through the body of the loop in `main`, after `wait()`: the
      cursor moves with the wheel (which is then reset) and the arrow keys,
      F toggles full screen, Q or Esc closes the display; then, if an update
      is pending, the cursor is clamped into [0, numPoint] and the picture is
      redrawn when the cursor differs from the value last drawn. */
  function Poll(numPoint: int, s: LoopState, k: Input): (r: PollResult)
    ensures r.state.closed == (s.closed || k.keyQ || k.keyEsc)
    ensures r.state.fullscreen == (s.fullscreen != k.keyF)
    ensures s.dispUpdate || Moves(k) ==> r.state.cur == Clamp(numPoint, s.cur + Delta(k))
    ensures !(s.dispUpdate || Moves(k)) ==> r.state.cur == s.cur && r.state.dispUpdate == false
    ensures r.redraw <==> (s.dispUpdate || Moves(k)) && r.state.cur != s.prev
    ensures r.redraw ==> r.state.prev == r.state.cur && !r.state.dispUpdate
    ensures !r.redraw ==> r.state.prev == s.prev && r.state.dispUpdate == (s.dispUpdate || Moves(k))
  {
    var (cur1, upd1) := if k.wheel != 0 then (s.cur + k.wheel, true) else (s.cur, s.dispUpdate);
    var (cur2, upd2) := if k.down || k.left then (cur1 - 1, true) else (cur1, upd1);
    var (cur3, upd3) := if k.up || k.right then (cur2 + 1, true) else (cur2, upd2);
    var fullscreen := if k.keyF then !s.fullscreen else s.fullscreen;
    var closed := if k.keyQ || k.keyEsc then true else s.closed;
    if !upd3 then
      PollResult(LoopState(cur3, s.prev, upd3, closed, fullscreen), false)
    else
      var cur4 := Clamp(numPoint, cur3);
      if cur4 != s.prev then PollResult(LoopState(cur4, cur4, false, closed, fullscreen), true)
      else PollResult(LoopState(cur4, s.prev, upd3, closed, fullscreen), false)
  }

  /** From a cursor in [0, numPoint], every poll leaves it there. */
  lemma PollKeepsCursorInRange(numPoint: int, s: LoopState, k: Input)
    requires 0 <= s.cur <= numPoint
    ensures 0 <= Poll(numPoint, s, k).state.cur <= numPoint
  {
  }

  /** The F key changes only the full-screen flag: the cursor, the last
      drawn value, the pending flag and the redraw decision are the same
      with or without it. */
  lemma FullscreenKeyKeepsCursor(numPoint: int, s: LoopState, k: Input)
    ensures var a, b := Poll(numPoint, s, k), Poll(numPoint, s, k.(keyF := !k.keyF));
      a.state.cur == b.state.cur && a.state.prev == b.state.prev
      && a.state.dispUpdate == b.state.dispUpdate && a.redraw == b.redraw
  {
  }

  /** After a redraw, polls with no wheel or arrow input draw nothing more. */
  lemma NoRedrawWithoutMove(numPoint: int, s: LoopState, k: Input, idle: Input)
    requires Poll(numPoint, s, k).redraw && !Moves(idle)
    ensures !Poll(numPoint, Poll(numPoint, s, k).state, idle).redraw
  {
  }

  /** Where a run of polls ends: the loop's variables, the number of polls
      made and the cursor of every redraw, in order. */
  datatype RunResult = RunResult(state: LoopState, polls: nat, frames: seq<int>)

  /** The loop of `main` over a finite list of inputs: `Poll` is applied to
      each input in turn until a poll leaves the display closed or the
      inputs run out, and every poll that calls for a redraw adds the new
      cursor to `frames`. */
  ghost function Run(numPoint: int, s: LoopState, inputs: seq<Input>): (r: RunResult)
    ensures r.polls <= |inputs|
    ensures r.state.closed || r.polls == |inputs|
    decreases |inputs|
  {
    if s.closed || |inputs| == 0 then RunResult(s, 0, [])
    else
      var p := Poll(numPoint, s, inputs[0]);
      var rest := Run(numPoint, p.state, inputs[1..]);
      RunResult(rest.state, rest.polls + 1, (if p.redraw then [p.state.cur] else []) + rest.frames)
  }

  /** An open display runs until the first poll that sees Q or Esc and no
      further: if input i is a quit key, the run makes at most i + 1 polls
      and ends closed. */
  lemma {:induction false} RunStopsAtQuit(numPoint: int, s: LoopState, inputs: seq<Input>, i: nat)
    requires i < |inputs| && (inputs[i].keyQ || inputs[i].keyEsc)
    ensures Run(numPoint, s, inputs).polls <= i + 1
    ensures Run(numPoint, s, inputs).state.closed
    decreases i
  {
    if !s.closed && i > 0 {
      RunStopsAtQuit(numPoint, Poll(numPoint, s, inputs[0]).state, inputs[1..], i - 1);
    }
  }

  /** Polls `0 .. n-1` made, with `frames` drawn so far, followed by the
      run from the state reached. */
  function Resume(n: nat, frames: seq<int>, rest: RunResult): RunResult
  {
    RunResult(rest.state, n + rest.polls, frames + rest.frames)
  }

  /** One more poll of an open display, with outcome `(t, redraw)`,
      splits the run one input later. */
  lemma RunOnePoll(numPoint: int, s0: LoopState, inputs: seq<Input>, polls: nat, frames: seq<int>,
                   s: LoopState, t: LoopState, redraw: bool)
    requires polls < |inputs| && !s.closed
    requires Run(numPoint, s0, inputs) == Resume(polls, frames, Run(numPoint, s, inputs[polls..]))
    requires PollResult(t, redraw) == Poll(numPoint, s, inputs[polls])
    ensures Run(numPoint, s0, inputs)
      == Resume(polls + 1, if redraw then frames + [t.cur] else frames, Run(numPoint, t, inputs[polls + 1..]))
  {
  }

  /** Once the display is closed or the inputs are used up, nothing
      follows: the run is what has been made so far. */
  lemma RunEnded(numPoint: int, s0: LoopState, inputs: seq<Input>, polls: nat, frames: seq<int>, s: LoopState)
    requires polls <= |inputs| && (s.closed || polls == |inputs|)
    requires Run(numPoint, s0, inputs) == Resume(polls, frames, Run(numPoint, s, inputs[polls..]))
    ensures Run(numPoint, s0, inputs) == RunResult(s, polls, frames)
  {
  }

  /** What every run of the loop keeps from a cursor in [0, numPoint]:
      the cursor stays in range, every redrawn cursor is in range, each
      redraw differs from the one before it (the first from the value last
      drawn before the run), and the value last drawn afterwards is the last
      redrawn cursor, or the old one when nothing was redrawn. */
  lemma {:induction false} RunRedraws(numPoint: int, s: LoopState, inputs: seq<Input>)
    requires 0 <= s.cur <= numPoint
    ensures var r := Run(numPoint, s, inputs);
      && 0 <= r.state.cur <= numPoint
      && (forall i :: 0 <= i < |r.frames| ==> 0 <= r.frames[i] <= numPoint)
      && (forall i :: 0 < i < |r.frames| ==> r.frames[i] != r.frames[i - 1])
      && (|r.frames| == 0 ==> r.state.prev == s.prev)
      && (|r.frames| > 0 ==> r.frames[0] != s.prev && r.state.prev == r.frames[|r.frames| - 1])
    decreases |inputs|
  {
    if !s.closed && |inputs| > 0 {
      var p := Poll(numPoint, s, inputs[0]);
      PollKeepsCursorInRange(numPoint, s, inputs[0]);
      RunRedraws(numPoint, p.state, inputs[1..]);
      var rest := Run(numPoint, p.state, inputs[1..]);
      if p.redraw {
        var frames := [p.state.cur] + rest.frames;
        assert forall i :: 0 < i < |frames| ==> frames[i] == rest.frames[i - 1];
      }
    }
  }

  /** The picture `main` shows for cursor k: the matching drawn with the
      grid overload over the undrawn composite, shifted by `offset`. */
  ghost function Shown(points0: Grid, points1: Grid, offset: int, energy: seq<real>, k: int, fmt: real -> string): seq<DrawCmd>
    requires MatchingInputs(points0, points1, energy) && 0 <= k <= points0.width
  {
    MatchingPicture(FromGrids(points0, points1), offset, LineRadius, 2 * LineRadius, energy, points0.width, k, fmt)
  }

  /** `imgShow = imgMatch` followed by `drawMatching(imgShow, ...)` for
      cursor k: what is shown afterwards is the picture of k alone. */
  method Redraw(show: Canvas, points0: Grid, points1: Grid, offset: int, energy: seq<real>, k: int, fmt: real -> string)
    requires show.spectrum == 3
    requires MatchingInputs(points0, points1, energy) && 0 <= k <= points0.width
    modifies show
    ensures show.spectrum == 3
    ensures show.strokes == Shown(points0, points1, offset, energy, k, fmt)
  {
    show.Restore(show.spectrum);
    DrawMatching(show, points0, points1, offset, energy, k, fmt);
  }

  /** `main` from the first drawing on, over a finite run of polls: it
      draws cursor 0, then runs the loop until the display is closed or the
      inputs run out. `prev0` stands for the value `numPointPrev` holds
      before its first assignment, which the program leaves unset. `frames`
      lists the cursor of every redraw made by the loop, in order. */
  method EventLoop(show: Canvas, points0: Grid, points1: Grid, offset: int, energy: seq<real>,
                   fmt: real -> string, prev0: int, inputs: seq<Input>)
      returns (s: LoopState, polls: nat, frames: seq<int>)
    requires show.spectrum == 3
    requires MatchingInputs(points0, points1, energy)
    modifies show
    ensures RunResult(s, polls, frames) == Run(points0.width, LoopState(0, prev0, false, false, false), inputs)
    ensures polls <= |inputs| && (s.closed || polls == |inputs|)
    ensures 0 <= s.cur <= points0.width
    ensures forall i :: 0 <= i < |frames| ==> 0 <= frames[i] <= points0.width
    ensures forall i :: 0 < i < |frames| ==> frames[i] != frames[i - 1]
    ensures |frames| == 0 ==> s.prev == prev0
    ensures |frames| > 0 ==> frames[0] != prev0 && s.prev == frames[|frames| - 1]
    ensures show.strokes == Shown(points0, points1, offset, energy, if |frames| == 0 then 0 else frames[|frames| - 1], fmt)
  {
    Redraw(show, points0, points1, offset, energy, 0, fmt);
    s, polls, frames := PollUntilClosed(show, points0, points1, offset, energy, fmt, LoopState(0, prev0, false, false, false), inputs, 0);
    RunRedraws(points0.width, LoopState(0, prev0, false, false, false), inputs);
  }

  /** The `while` loop of `main`: poll and redraw until the display is
      closed or the inputs run out. It makes exactly the polls and redraws
      of `Run`; `shown0` is the cursor whose picture is on show when the
      loop starts. */
  method PollUntilClosed(show: Canvas, points0: Grid, points1: Grid, offset: int, energy: seq<real>,
                         fmt: real -> string, s0: LoopState, inputs: seq<Input>, ghost shown0: int)
      returns (s: LoopState, polls: nat, frames: seq<int>)
    requires show.spectrum == 3
    requires MatchingInputs(points0, points1, energy) && 0 <= s0.cur <= points0.width
    requires 0 <= shown0 <= points0.width && show.strokes == Shown(points0, points1, offset, energy, shown0, fmt)
    modifies show
    ensures RunResult(s, polls, frames) == Run(points0.width, s0, inputs)
    ensures |frames| > 0 ==> 0 <= s.prev <= points0.width
    ensures show.strokes == Shown(points0, points1, offset, energy, if |frames| == 0 then shown0 else s.prev, fmt)
  {
    var numPoint := points0.width;
    s, polls, frames := s0, 0, [];
    assert inputs[0..] == inputs;
    while !s.closed && polls < |inputs|
      invariant polls <= |inputs|
      invariant Run(numPoint, s0, inputs) == Resume(polls, frames, Run(numPoint, s, inputs[polls..]))
      invariant show.spectrum == 3
      invariant 0 <= s.cur <= numPoint
      invariant |frames| > 0 ==> 0 <= s.prev <= numPoint
      invariant show.strokes == Shown(points0, points1, offset, energy, if |frames| == 0 then shown0 else s.prev, fmt)
      decreases |inputs| - polls
    {
      var t, redraw := Update(show, points0, points1, offset, energy, fmt, s, inputs[polls]);
      RunOnePoll(numPoint, s0, inputs, polls, frames, s, t, redraw);
      s := t;
      if redraw {
        frames := frames + [s.cur];
      }
      polls := polls + 1;
    }
    RunEnded(numPoint, s0, inputs, polls, frames, s);
  }

  /** One pass through the loop of `main` after `wait()`: the poll, then
      the redraw it calls for, if any. */
  method Update(show: Canvas, points0: Grid, points1: Grid, offset: int, energy: seq<real>,
                fmt: real -> string, s: LoopState, k: Input)
      returns (t: LoopState, redraw: bool)
    requires show.spectrum == 3
    requires MatchingInputs(points0, points1, energy) && 0 <= s.cur <= points0.width
    modifies show
    ensures PollResult(t, redraw) == Poll(points0.width, s, k)
    ensures 0 <= t.cur <= points0.width
    ensures show.spectrum == 3
    ensures redraw ==> show.strokes == Shown(points0, points1, offset, energy, t.cur, fmt)
    ensures !redraw ==> show.strokes == old(show.strokes)
  {
    var r := Poll(points0.width, s, k);
    t, redraw := r.state, r.redraw;
    if redraw {
      Redraw(show, points0, points1, offset, energy, t.cur, fmt);
    }
  }
}
