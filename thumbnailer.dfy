/**
 * The thumbnailer (`resizeImage` in App.tsx): decode a data URL into an
 * image, shrink it so that its dominant side fits the bound, draw it on a
 * canvas of that size and re-encode it as JPEG.
 *
 * Decoding, drawing and encoding are browser services; here they are the
 * inputs of `ResizeImage`. The size rule is stated over the reals.
 */
module Thumbnailer {
  import opened Outcome

  /** Pixel dimensions of an image or a canvas. */
  datatype Size = Size(width: real, height: real)

  /** Default bounds of `resizeImage`. */
  const MaxThumbWidth: real := 256.0
  const MaxThumbHeight: real := 256.0

  /** How loading the data URL into an image ended: `onload` with its
      intrinsic size, or `onerror`. */
  datatype Decode = Decoded(width: real, height: real) | DecodeFailed

  /** Why the thumbnail promise was rejected. */
  datatype ThumbError =
    | ImageLoadError    // the image's `onerror` fired
    | NoCanvasContext   // 'Failed to get canvas context'

  /** A resolved thumbnail: the JPEG data URL and the canvas size it was drawn at. */
  datatype Thumbnail = Thumbnail(dataUrl: string, size: Size)

  /**
   * The size rule. Only the dominant side is compared with its bound (a
   * square counts as tall), and the image is only ever scaled down, by the
   * one factor that brings the dominant side to its bound.
   */
  function Resize(width: real, height: real, maxWidth: real, maxHeight: real): (r: Size)
    requires 0.0 <= width && 0.0 <= height
    requires 0.0 < maxWidth && 0.0 < maxHeight
    // never scaled up
    ensures r.width <= width && r.height <= height
    // aspect ratio kept
    ensures r.width * height == r.height * width
    // the dominant side fits its bound and stays dominant
    ensures width > height ==> r.width <= maxWidth && r.height < r.width
    ensures width <= height ==> r.height <= maxHeight && r.width <= r.height
    // an oversized dominant side is brought exactly to its bound
    ensures width > height && width > maxWidth ==> r.width == maxWidth
    ensures width <= height && height > maxHeight ==> r.height == maxHeight
    // an image whose dominant side already fits is left alone
    ensures (if width > height then width <= maxWidth else height <= maxHeight) ==> r == Size(width, height)
  {
    if width > height then
      if width > maxWidth then Size(maxWidth, Scaled(height, width, maxWidth)) else Size(width, height)
    else
      if height > maxHeight then Size(Scaled(width, height, maxHeight), maxHeight) else Size(width, height)
  }

  /**
   * The minor side after scaling by `bound / dominant` (`height *= maxWidth / width`),
   * when the dominant side exceeds its bound: the side shrinks, keeps its
   * proportion to the dominant side, and stays below the bound when it was
   * below the dominant side.
   */
  function Scaled(side: real, dominant: real, bound: real): (r: real)
    requires 0.0 < bound < dominant && 0.0 <= side
    ensures 0.0 <= r <= side
    ensures r * dominant == bound * side
    ensures side <= dominant ==> r <= bound
    ensures side < dominant ==> r < bound
  {
    var scale := bound / dominant;
    FactorBelowOne(dominant, bound);
    assert side * (1.0 - scale) >= 0.0;
    assert side * scale * dominant == side * (scale * dominant);
    assert side < dominant ==> side * scale < dominant * scale;
    side * scale
  }

  /** The factor `bound / length` brings `length` to `bound`, and lies in (0, 1). */
  lemma FactorBelowOne(length: real, bound: real)
    requires 0.0 < bound < length
    ensures length * (bound / length) == bound
    ensures 0.0 < bound / length < 1.0
  {
    var scale := bound / length;
    assert length * scale == bound;
    ProductBelow(length, scale, bound);
    ShrinkingFactor(length, scale);
  }

  // The two arithmetic steps below are kept apart so that each goal stays linear.
  lemma ProductBelow(length: real, scale: real, bound: real)
    requires length * scale == bound
    requires bound < length
    ensures length * scale < length
  {
  }

  lemma ShrinkingFactor(length: real, scale: real)
    requires 0.0 < length && 0.0 < length * scale < length
    ensures 0.0 < scale < 1.0
  {
  }

  /**
   * The whole thumbnail promise: rejected when the image does not load or
   * no 2D context is available; otherwise resolved with the JPEG that the
   * canvas encodes (`jpeg`, quality 0.8) at the size `Resize` chooses with
   * the default 256 x 256 bounds.
   */
  function ResizeImage(decode: Decode, hasContext: bool, jpeg: string): (r: Result<Thumbnail, ThumbError>)
    requires decode.Decoded? ==> 0.0 <= decode.width && 0.0 <= decode.height
    ensures r.Ok? <==> decode.Decoded? && hasContext
    ensures decode.DecodeFailed? ==> r == Err(ImageLoadError)
    ensures decode.Decoded? && !hasContext ==> r == Err(NoCanvasContext)
    ensures r.Ok? ==> r.value.dataUrl == jpeg
    // the thumbnail fits the 256 x 256 box ...
    ensures r.Ok? ==> r.value.size.width <= MaxThumbWidth && r.value.size.height <= MaxThumbHeight
    // ... is no larger than the decoded image, and has its proportions
    ensures r.Ok? ==> r.value.size.width <= decode.width && r.value.size.height <= decode.height
    ensures r.Ok? ==> r.value.size.width * decode.height == r.value.size.height * decode.width
  {
    match decode
    case DecodeFailed => Err(ImageLoadError)
    case Decoded(width, height) =>
      if !hasContext then Err(NoCanvasContext)
      else Ok(Thumbnail(jpeg, Resize(width, height, MaxThumbWidth, MaxThumbHeight)))
  }
}
