/** The parts of the CImg library that the viewer uses, reduced to what its
    own code relies on: image dimensions and channel planes, small integer
    arrays (point sets, correspondences), and a drawing target that records
    the drawing calls made on it instead of rasterising them. */
module CImgModel {

  /** A colour as the array of channel values handed to CImg's drawing calls. */
  type Color = seq<int>

  function Max(a: int, b: int): int {
    if a < b then b else a
  }

  /** Appending is associative; drawing proofs use it to regroup what an
      image has recorded. */
  lemma AppendAssoc<T>(a: seq<T>, b: seq<T>, c: seq<T>)
    ensures (a + b) + c == a + (b + c)
  {
  }

  /** A CImg image of depth 1: `width` x `height` pixels and one plane per
      channel (the spectrum), each plane holding width * height values. */
  datatype Image = Image(width: nat, height: nat, channels: seq<seq<int>>) {

    /** Every channel plane has one value per pixel. */
    predicate Valid() {
      forall c :: 0 <= c < |channels| ==> |channels[c]| == width * height
    }

    /** The number of channels, CImg's `spectrum()`. */
    function Spectrum(): nat {
      |channels|
    }
  }

  /** A default-constructed CImg: no pixels, no channels. */
  const EmptyImage: Image := Image(0, 0, [])

  /** A CImg<int> used as a table: `rows[y][x]` is the value CImg reads as
      `(x, y)`. A point set has one column per point, row 0 holding the x and
      row 1 the y coordinates. */
  datatype Grid = Grid(width: nat, rows: seq<seq<int>>) {

    predicate Valid() {
      forall y :: 0 <= y < |rows| ==> |rows[y]| == width
    }

    function Height(): nat {
      |rows|
    }

    /** CImg's `operator()(x, y)`. */
    function At(x: int, y: int): int
      requires Valid() && 0 <= x < width && 0 <= y < Height()
    {
      rows[y][x]
    }
  }

  /** A default-constructed CImg<int>. */
  const EmptyGrid: Grid := Grid(0, [])

  /** One drawing call made on an image. */
  datatype DrawCmd =
    | Line(xa: int, ya: int, xb: int, yb: int, color: Color, opacity: real)
    | Circle(cx: int, cy: int, radius: int, color: Color)
    | Text(tx: int, ty: int, text: string, foreground: Color, background: Color, opacity: real, fontHeight: int)

  /** An image that is drawn on in place. Its pixels are not modelled: it
      keeps its channel count and the drawing calls made on it since it was
      last restored to the undrawn image it was copied from. */
  class Canvas {
    var spectrum: nat
    var strokes: seq<DrawCmd>

    /** CImg's `draw_line(xa, ya, xb, yb, color, opacity)`. */
    method DrawLine(xa: int, ya: int, xb: int, yb: int, color: Color, opacity: real)
      modifies this
      ensures spectrum == old(spectrum)
      ensures strokes == old(strokes) + [Line(xa, ya, xb, yb, color, opacity)]
    {
      strokes := strokes + [Line(xa, ya, xb, yb, color, opacity)];
    }

    /** CImg's `draw_circle(x, y, radius, color)`: a filled disc. */
    method DrawCircle(x: int, y: int, radius: int, color: Color)
      modifies this
      ensures spectrum == old(spectrum)
      ensures strokes == old(strokes) + [Circle(x, y, radius, color)]
    {
      strokes := strokes + [Circle(x, y, radius, color)];
    }

    /** CImg's `draw_text(x, y, text, foreground, background, opacity, fontHeight)`. */
    method DrawText(x: int, y: int, text: string, foreground: Color, background: Color, opacity: real, fontHeight: int)
      modifies this
      ensures spectrum == old(spectrum)
      ensures strokes == old(strokes) + [Text(x, y, text, foreground, background, opacity, fontHeight)]
    {
      strokes := strokes + [Text(x, y, text, foreground, background, opacity, fontHeight)];
    }

    /** Assigning the undrawn image back to this one (`imgShow = imgMatch`). */
    method Restore(spectrum: nat)
      modifies this
      ensures this.spectrum == spectrum && strokes == []
    {
      this.spectrum := spectrum;
      strokes := [];
    }
  }
}
