/** Crop-to-fill placement of the passport photo: a centred crop of the photo
    with the aspect ratio of the 200 x 280 frame, scaled onto the frame, shrunk
    by 0.78 and pulled 15 units left. Exact real arithmetic stands in for the
    source's floating point. */
module PhotoFit {
  import opened Canvas

  const PhotoX: real := 520.0
  const PhotoY: real := 80.0
  const PhotoW: real := 200.0
  const PhotoH: real := 280.0
  const Shrink: real := 0.78
  const OffsetLeft: real := -15.0

  /** The frame reserved for the photo on the 720 x 463 card. */
  const Frame: Rect := Rect(PhotoX, PhotoY, PhotoW, PhotoH)
  const CardBounds: Rect := Rect(0.0, 0.0, 720.0, 463.0)

  /** Where every photo lands, whatever its size. */
  const PhotoBox: Rect := Rect(527.0, 110.8, 156.0, 218.4)

  /** `imgAspect > frameAspect`: the photo is relatively wider than the frame. */
  predicate IsWider(width: real, height: real)
    requires height > 0.0
  {
    width / height > PhotoW / PhotoH
  }

  /** The comparison of aspect ratios, without division. */
  lemma WiderByCrossMultiplication(width: real, height: real)
    requires height > 0.0
    ensures IsWider(width, height) <==> width * PhotoH > height * PhotoW
  {
    var q := width / height;
    assert q * height == width;
    if q > PhotoW / PhotoH {
      assert (q - PhotoW / PhotoH) * height > 0.0;
    } else {
      assert (PhotoW / PhotoH - q) * height >= 0.0;
    }
  }

  /** The crop lies inside a width x height image. */
  predicate Within(r: Rect, width: real, height: real) {
    0.0 <= r.x && 0.0 <= r.y && r.x + r.w <= width && r.y + r.h <= height
  }

  /** w / h == 200 / 280, written without division. */
  predicate HasFrameAspect(r: Rect) {
    r.w * PhotoH == r.h * PhotoW
  }

  /** The crop's centre is the image's centre. */
  predicate IsCentred(r: Rect, width: real, height: real) {
    2.0 * r.x + r.w == width && 2.0 * r.y + r.h == height
  }

  /** A crop-to-fill rectangle: non-empty, inside the image, centred, with the
      frame's aspect, and spanning the whole image on at least one axis. */
  predicate IsCentredFill(r: Rect, width: real, height: real) {
    r.w > 0.0 && r.h > 0.0 && Within(r, width, height) && HasFrameAspect(r)
    && IsCentred(r, width, height) && (r.w == width || r.h == height)
  }

  /** The crop block: a relatively wider photo keeps its full height and is
      cut on both sides, any other photo keeps its full width and is cut at
      top and bottom. A square photo is relatively wider than 200 x 280. */
  method CropToFrame(width: real, height: real) returns (srcX: real, srcY: real, srcW: real, srcH: real)
    requires width > 0.0 && height > 0.0
    ensures IsCentredFill(Rect(srcX, srcY, srcW, srcH), width, height)
    ensures IsWider(width, height) ==> srcH == height && srcY == 0.0 && srcX == (width - srcW) / 2.0
    ensures !IsWider(width, height) ==> srcW == width && srcX == 0.0 && srcY == (height - srcH) / 2.0
    ensures width == height ==> IsWider(width, height) && srcH == height && srcW < width
  {
    WiderByCrossMultiplication(width, height);
    var frameAspect := PhotoW / PhotoH;
    var imgAspect := width / height;
    if imgAspect > frameAspect {
      srcH := height;
      srcW := srcH * frameAspect;
      srcX := (width - srcW) / 2.0;
      srcY := 0.0;
    } else {
      srcW := width;
      srcH := srcW / frameAspect;
      srcX := 0.0;
      srcY := (height - srcH) / 2.0;
    }
  }

  /** There is only one crop-to-fill rectangle for an image, so the two
      branches agree when the photo has exactly the frame's aspect. */
  lemma {:induction false} CentredFillUnique(width: real, height: real, r1: Rect, r2: Rect)
    requires IsCentredFill(r1, width, height) && IsCentredFill(r2, width, height)
    ensures r1 == r2
  {
  }

  /** `Math.min(PHOTO_W / srcW, PHOTO_H / srcH)`: the largest scale at which
      the crop still fits the frame; it fills the frame on one axis, and on
      both when the crop has the frame's aspect. */
  function BaseScale(srcW: real, srcH: real): (s: real)
    requires srcW > 0.0 && srcH > 0.0
    ensures s > 0.0
    ensures srcW * s <= PhotoW && srcH * s <= PhotoH
    ensures srcW * s == PhotoW || srcH * s == PhotoH
    ensures srcW * PhotoH == srcH * PhotoW ==> srcW * s == PhotoW && srcH * s == PhotoH
  {
    var sx := PhotoW / srcW;
    var sy := PhotoH / srcH;
    assert srcW * sx == PhotoW && srcH * sy == PhotoH;
    if sx <= sy then
      assert srcH * sx <= srcH * sy;
      sx
    else
      assert srcW * sy <= srcW * sx;
      sy
  }

  /** The destination rectangle (drawX, drawY, drawW, drawH): the crop scaled
      by baseScale * 0.78, centred in the frame and moved 15 units left. It
      always lies strictly inside the frame, and for a crop with the frame's
      aspect it is the fixed box 156 x 218.4 at (527, 110.8). */
  function PhotoDest(srcW: real, srcH: real): (d: Rect)
    requires srcW > 0.0 && srcH > 0.0
    ensures 0.0 < d.w <= PhotoW * Shrink && 0.0 < d.h <= PhotoH * Shrink
    ensures StrictlyInside(d, Frame) && Inside(d, CardBounds)
    ensures srcW * PhotoH == srcH * PhotoW ==> d == PhotoBox
  {
    var scale := BaseScale(srcW, srcH) * Shrink;
    var drawW := srcW * scale;
    var drawH := srcH * scale;
    assert drawW == srcW * BaseScale(srcW, srcH) * Shrink;
    assert drawH == srcH * BaseScale(srcW, srcH) * Shrink;
    Rect(PhotoX + (PhotoW - drawW) / 2.0 + OffsetLeft, PhotoY + (PhotoH - drawH) / 2.0, drawW, drawH)
  }

  /** A 400 x 600 portrait is relatively taller than the frame: its crop is
      the full width, 560 high, 20 from the top; a 300 x 300 square is
      relatively wider: its crop is the full height, 300 * 200 / 280 wide. */
  lemma CropExamples()
    ensures !IsWider(400.0, 600.0) && IsCentredFill(Rect(0.0, 20.0, 400.0, 560.0), 400.0, 600.0)
    ensures IsWider(300.0, 300.0)
      && IsCentredFill(Rect((300.0 - 300.0 * PhotoW / PhotoH) / 2.0, 0.0, 300.0 * PhotoW / PhotoH, 300.0), 300.0, 300.0)
  {
    WiderByCrossMultiplication(400.0, 600.0);
    WiderByCrossMultiplication(300.0, 300.0);
  }
}
