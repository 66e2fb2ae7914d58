/** Colour conversions of cimgConvertColor.hpp: RGB to a one-channel gray
    image, a gray image replicated into three channels, and the two
    composed. CImg's RGB-to-YCbCr conversion is not part of this model: its
    luma (Y) for one pixel is passed in as `luma`. */
module ConvertColor {
  import opened CImgModel

  /** The Y value CImg's RGB-to-YCbCr conversion gives one (R, G, B) pixel. */
  type Luma = (int, int, int) -> int

  /** `getRGBtoGray`: channel 0 (luma) of the YCbCr conversion of a
      three-channel image. */
  function GetRGBtoGray(img: Image, luma: Luma): (gray: Image)
    requires img.Valid() && img.Spectrum() == 3
    ensures gray.Valid() && gray.Spectrum() == 1
    ensures gray.width == img.width && gray.height == img.height
    ensures forall i :: 0 <= i < img.width * img.height ==>
              gray.channels[0][i] == luma(img.channels[0][i], img.channels[1][i], img.channels[2][i])
  {
    var n := img.width * img.height;
    Image(img.width, img.height,
          [seq(n, i requires 0 <= i < n => luma(img.channels[0][i], img.channels[1][i], img.channels[2][i]))])
  }

  /** `getGraytoRGB`: a buffer of the gray image's size with three channels,
      all zero, whose channels are then each assigned the gray image. */
  method GetGraytoRGB(gray: Image) returns (rgb: Image)
    requires gray.Valid() && gray.Spectrum() == 1
    ensures rgb.Valid() && rgb.Spectrum() == 3
    ensures rgb.width == gray.width && rgb.height == gray.height
    ensures forall c :: 0 <= c < 3 ==> rgb.channels[c] == gray.channels[0]
  {
    var n := gray.width * gray.height;
    var planes := new seq<int>[3](_ => seq(n, _ => 0));
    for c := 0 to 3
      invariant forall k :: 0 <= k < c ==> planes[k] == gray.channels[0]
    {
      planes[c] := gray.channels[0];
    }
    rgb := Image(gray.width, gray.height, planes[..]);
  }

  /** `getGrayscaledRGB`: a three-channel image whose channels are all the
      luma of the input, so that it shows as gray. */
  method GetGrayscaledRGB(img: Image, luma: Luma) returns (rgb: Image)
    requires img.Valid() && img.Spectrum() == 3
    ensures rgb.Valid() && rgb.Spectrum() == 3
    ensures rgb.width == img.width && rgb.height == img.height
    ensures forall c, i :: 0 <= c < 3 && 0 <= i < img.width * img.height ==>
              rgb.channels[c][i] == luma(img.channels[0][i], img.channels[1][i], img.channels[2][i])
  {
    rgb := GetGraytoRGB(GetRGBtoGray(img, luma));
  }
}
