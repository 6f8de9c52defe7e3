/** The side-by-side merge of the two uploads: both drawn at the taller one's height, a gap between them. */
module Compositor {
  import opened Rounding
  import opened Encoding

  /** Pixels of white background between the two images. */
  const Gap: int := 10

  /** Where the merge draws: the canvas size, the width image 1 is drawn at (from x = 0), and the x offset
      and width image 2 is drawn at. Both are drawn at the full canvas height. */
  datatype Layout = Layout(canvasWidth: int, canvasHeight: int, image1Width: real, image2X: real, image2Width: real)

  /** The layout for images of `w1` × `h1` and `w2` × `h2` pixels. */
  function MergeLayout(w1: int, h1: int, w2: int, h2: int): (l: Layout)
    requires 0 <= w1 && 0 < h1 && 0 <= w2 && 0 < h2
    // the common height is the larger of the two
    ensures l.canvasHeight == h1 || l.canvasHeight == h2
    ensures h1 <= l.canvasHeight && h2 <= l.canvasHeight
    // each image keeps its own aspect ratio: drawn width / common height == own width / own height
    ensures l.image1Width * h1 as real == (w1 * l.canvasHeight) as real
    ensures l.image2Width * h2 as real == (w2 * l.canvasHeight) as real
    // image 2 starts one gap to the right of image 1
    ensures l.image2X == l.image1Width + Gap as real
    // the canvas is the drawn extent cut down to whole pixels: at most a fraction of a pixel of image 2 is lost
    ensures l.canvasWidth as real <= l.image2X + l.image2Width < l.canvasWidth as real + 1.0
    // scaling only ever enlarges, so the canvas is at least as wide as the two images and the gap
    ensures w1 + w2 + Gap <= l.canvasWidth
  {
    var maxHeight := if h1 >= h2 then h1 else h2;
    var img1Width := DrawnWidth(w1, h1, maxHeight);
    var img2Width := DrawnWidth(w2, h2, maxHeight);
    Layout(Truncate(img1Width + img2Width + Gap as real), maxHeight, img1Width, img1Width + Gap as real, img2Width)
  }

  /** `width * (target / height)`: the width an image of `w` × `h` is drawn at when stretched to height
      `target` >= `h`. It keeps the aspect ratio and is never narrower than `w`. */
  function DrawnWidth(w: int, h: int, target: int): (d: real)
    requires 0 <= w && 0 < h <= target
    ensures d * h as real == (w * target) as real
    ensures w as real <= d
  {
    var scale := target as real / h as real;
    assert scale * h as real == target as real;
    assert w as real * scale - w as real == w as real * (scale - 1.0);
    w as real * scale
  }

  /** Two images of equal height are drawn unscaled: the canvas is their widths plus the gap. */
  lemma EqualHeightsNeedNoScaling(w1: int, w2: int, h: int)
    requires 0 <= w1 && 0 <= w2 && 0 < h
    ensures MergeLayout(w1, h, w2, h) == Layout(w1 + w2 + Gap, h, w1 as real, (w1 + Gap) as real, w2 as real)
  {
  }

  /** The merged image of two decoded uploads, encoded as PNG at full quality. */
  function CreateMergedImage(image1: ImageData, image2: ImageData, encoder: Encoder): (merged: ImageData)
    requires Decoded(image1) && Decoded(image2)
    ensures merged.height == image1.height || merged.height == image2.height
    ensures image1.height <= merged.height && image2.height <= merged.height
    ensures image1.width + image2.width + Gap <= merged.width
    // the record carries the canvas of the merge layout: the drawn extent cut down to whole pixels
    ensures var l := MergeLayout(image1.width, image1.height, image2.width, image2.height);
      merged.width == l.canvasWidth && merged.height == l.canvasHeight
    ensures merged.format == "png"
    ensures merged.size == EstimatedSize(encoder("png", 1.0, merged.width, merged.height))
  {
    var l := MergeLayout(image1.width, image1.height, image2.width, image2.height);
    ImageData(l.canvasWidth, l.canvasHeight, EstimatedSize(encoder("png", 1.0, l.canvasWidth, l.canvasHeight)), "png")
  }
}
