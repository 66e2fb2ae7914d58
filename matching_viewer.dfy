/** The `MatchingViewer` state class of cimgMatchingViewer.hpp: two images,
    the two composites derived from them (side by side, and blended), two
    point sets, a correspondence array and the blending factor. */
module Viewer {
  import opened CImgModel

  /** A composite image, known by how it was computed. CImg's `get_append`
      and pixelwise blend are not part of this model, so a composite records
      its inputs rather than its pixels. */
  datatype Composite =
    | Stored(image: Image)
      /** The two images side by side along x (`get_append('x')`). */
    | AppendX(left: Image, right: Image)
      /** `alpha * first + (1 - alpha) * second`. */
    | Blend(alpha: real, first: Image, second: Image)

  /** The width of the x-append of two images (CImg's `get_append('x')`):
      both widths together. */
  function AppendWidth(left: Image, right: Image): (w: nat)
  {
    left.width + right.width
  }

  /** The height of the x-append: that of the taller image. */
  function AppendHeight(left: Image, right: Image): (h: nat)
    ensures h >= left.height && h >= right.height
    ensures h == left.height || h == right.height
  {
    if left.height < right.height then right.height else left.height
  }

  class MatchingViewer {
    /** `_imagesRaw`: slot 0 the first image, slot 1 the second. */
    var imagesRaw: seq<Image>
    /** `_imagesDispRaw`: slot 0 the aligned composite, slot 1 the merged one. */
    var imagesDispRaw: seq<Composite>
    /** `_alpha`: the weight of the first image in the merged composite. */
    var alpha: real
    /** `_points`: slot n the point set on image n. */
    var points: seq<Grid>
    /** `_correspondences`. */
    var correspondences: Grid

    /** Both image slots that the composites read exist, and so do both
        composite slots. */
    ghost predicate Valid()
      reads this
    {
      |imagesRaw| >= 2 && |imagesDispRaw| == 2
    }

    /** The composites are the ones computed from the current images and
        alpha: what `imagesUpdate` establishes. */
    ghost predicate Consistent()
      reads this
      requires Valid()
    {
      imagesDispRaw == [AppendX(imagesRaw[0], imagesRaw[1]), Blend(alpha, imagesRaw[0], imagesRaw[1])]
    }

    /** The default constructor: two empty image slots, two empty composite
        slots, two empty point sets, no correspondences, alpha 1. */
    constructor ()
      ensures Valid()
      ensures imagesRaw == [EmptyImage, EmptyImage]
      ensures imagesDispRaw == [Stored(EmptyImage), Stored(EmptyImage)]
      ensures points == [EmptyGrid, EmptyGrid]
      ensures correspondences == EmptyGrid
      ensures alpha == 1.0
    {
      imagesRaw := [EmptyImage, EmptyImage];
      imagesDispRaw := [Stored(EmptyImage), Stored(EmptyImage)];
      points := [EmptyGrid, EmptyGrid];
      correspondences := EmptyGrid;
      alpha := 1.0;
    }

    /** `alpha(a)`: stores the blending factor and nothing else; the merged
        composite keeps the old factor until the images are set again. */
    method SetAlpha(a: real)
      requires Valid()
      modifies this`alpha
      ensures Valid() && alpha == a
      ensures imagesDispRaw == old(imagesDispRaw)
      ensures old(Consistent()) && a == old(alpha) ==> Consistent()
    {
      alpha := a;
    }

    /** `width(n)`: the width of image n. */
    function Width(n: int): (w: nat)
      reads this
      requires 0 <= n < |imagesRaw|
    {
      imagesRaw[n].width
    }

    /** `height(n)`: the height of image n. */
    function Height(n: int): (h: nat)
      reads this
      requires 0 <= n < |imagesRaw|
    {
      imagesRaw[n].height
    }

    /** `image(n)`: a copy of image n. */
    function ImageAt(n: int): (img: Image)
      reads this
      requires 0 <= n < |imagesRaw|
      ensures img == imagesRaw[n]
      ensures img.width == Width(n) && img.height == Height(n)
    {
      imagesRaw[n]
    }

    /** `image(n, img)`: replaces image n, then recomputes both composites. */
    method SetImage(n: int, img: Image)
      requires Valid() && 0 <= n < |imagesRaw|
      modifies this`imagesRaw, this`imagesDispRaw
      ensures Valid() && Consistent()
      ensures imagesRaw == old(imagesRaw)[n := img]
      ensures ImageAt(n) == img && Width(n) == img.width && Height(n) == img.height
    {
      imagesRaw := imagesRaw[n := img];
      ImagesUpdate();
    }

    /** `images()`: a copy of the image list. */
    function Images(): (list: seq<Image>)
      reads this
      ensures |list| == |imagesRaw| && forall n :: 0 <= n < |list| ==> list[n] == ImageAt(n)
    {
      imagesRaw
    }

    /** `images(list)`: replaces the whole image list, then recomputes both
        composites from its first two images. */
    method SetImages(list: seq<Image>)
      requires |list| >= 2 && |imagesDispRaw| == 2
      modifies this`imagesRaw, this`imagesDispRaw
      ensures Valid() && Consistent()
      ensures imagesRaw == list
    {
      imagesRaw := list;
      ImagesUpdate();
    }

    /** `images(img0, img1)`: sets image 0, then image 1 (each recomputing
        the composites), then recomputes them once more; the composites end
        up computed from the final pair. */
    method SetImagePair(img0: Image, img1: Image)
      requires Valid()
      modifies this`imagesRaw, this`imagesDispRaw
      ensures Valid() && Consistent()
      ensures imagesRaw == old(imagesRaw)[0 := img0][1 := img1]
      ensures imagesDispRaw == [AppendX(img0, img1), Blend(alpha, img0, img1)]
    {
      SetImage(0, img0);
      SetImage(1, img1);
      ImagesUpdate();
    }

    /** `imgAlign()`: the aligned composite; once computed it is the two
        images side by side. */
    function ImgAlign(): (c: Composite)
      reads this
      requires Valid()
      ensures Consistent() ==> c == AppendX(ImageAt(0), ImageAt(1))
      ensures c == imagesDispRaw[0]
    {
      imagesDispRaw[0]
    }

    /** `imgMerge()`: the merged composite; once computed it blends the two
        images with the current alpha. */
    function ImgMerge(): (c: Composite)
      reads this
      requires Valid()
      ensures Consistent() ==> c == Blend(alpha, ImageAt(0), ImageAt(1))
      ensures c == imagesDispRaw[1]
    {
      imagesDispRaw[1]
    }

    /** `imagesAlign()`: recomputes the aligned composite only. */
    method ImagesAlign()
      requires Valid()
      modifies this`imagesDispRaw
      ensures Valid()
      ensures imagesDispRaw == old(imagesDispRaw)[0 := AppendX(imagesRaw[0], imagesRaw[1])]
    {
      imagesDispRaw := imagesDispRaw[0 := AppendX(imagesRaw[0], imagesRaw[1])];
    }

    /** `imagesMerge()`: recomputes the merged composite only. */
    method ImagesMerge()
      requires Valid()
      modifies this`imagesDispRaw
      ensures Valid()
      ensures imagesDispRaw == old(imagesDispRaw)[1 := Blend(alpha, imagesRaw[0], imagesRaw[1])]
    {
      imagesDispRaw := imagesDispRaw[1 := Blend(alpha, imagesRaw[0], imagesRaw[1])];
    }

    /** `imagesUpdate()`: recomputes both composites. */
    method ImagesUpdate()
      requires Valid()
      modifies this`imagesDispRaw
      ensures Valid() && Consistent()
    {
      ImagesAlign();
      ImagesMerge();
    }

    /** `numberOfPoint(n)`: the number of points of point set n, its width. */
    function NumberOfPoint(n: int): (count: nat)
      reads this
      requires 0 <= n < |points|
      ensures count == PointAt(n).width
    {
      points[n].width
    }

    /** `point(n)`: a copy of point set n. */
    function PointAt(n: int): (p: Grid)
      reads this
      requires 0 <= n < |points|
    {
      points[n]
    }

    /** `point(n, p)`: replaces point set n; images and composites stay. */
    method SetPoint(n: int, p: Grid)
      requires 0 <= n < |points|
      modifies this`points
      ensures points == old(points)[n := p]
      ensures PointAt(n) == p && NumberOfPoint(n) == p.width
    {
      points := points[n := p];
    }

    /** `points()`: a copy of the list of point sets. */
    function Points(): (list: seq<Grid>)
      reads this
      ensures |list| == |points| && forall n :: 0 <= n < |list| ==> list[n] == PointAt(n)
    {
      points
    }

    /** `points(list)`: replaces the list of point sets. */
    method SetPoints(list: seq<Grid>)
      modifies this`points
      ensures points == list
    {
      points := list;
    }

    /** `points(p0, p1)`: sets point set 0, then point set 1. */
    method SetPointPair(p0: Grid, p1: Grid)
      requires |points| >= 2
      modifies this`points
      ensures points == old(points)[0 := p0][1 := p1]
    {
      SetPoint(0, p0);
      SetPoint(1, p1);
    }

    /** `numberOfCorrespondences()`: the width of the correspondence array. */
    function NumberOfCorrespondences(): (count: nat)
      reads this
      ensures count == Correspondences().width
    {
      correspondences.width
    }

    /** `correspondences()`: a copy of the correspondence array. */
    function Correspondences(): (c: Grid)
      reads this
    {
      correspondences
    }

    /** `correspondences(c)`: replaces the correspondence array. */
    method SetCorrespondences(c: Grid)
      modifies this`correspondences
      ensures correspondences == c
      ensures Correspondences() == c && NumberOfCorrespondences() == c.width
    {
      correspondences := c;
    }
  }

  /** Setting the images makes the aligned composite exactly as wide as the
      two images together and as high as the taller one. */
  lemma AlignedSize(v: MatchingViewer)
    requires v.Valid() && v.Consistent()
    ensures var c := v.ImgAlign();
      c.AppendX? && AppendWidth(c.left, c.right) == v.Width(0) + v.Width(1)
      && AppendHeight(c.left, c.right) == Max(v.Height(0), v.Height(1))
  {
  }
}
