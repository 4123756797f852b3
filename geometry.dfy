/** Box arithmetic of `NOD.infer`: the conversion of Grounding DINO's
    centre-format boxes to corner format, Python's truncating `int()`, and
    the size of a Python slice, which decides whether a background crop is
    empty. */
module Geometry {

  /** A box in corner format `(x1, y1, x2, y2)`. */
  datatype Box = Box(x1: real, y1: real, x2: real, y2: real)

  /** A box in centre format `(cx, cy, w, h)`. */
  datatype CenterBox = CenterBox(cx: real, cy: real, w: real, h: real)

  /** `boxes * torch.Tensor([w, h, w, h])`: normalised coordinates to pixels. */
  function ScaleToImage(b: CenterBox, imgW: real, imgH: real): CenterBox {
    CenterBox(b.cx * imgW, b.cy * imgH, b.w * imgW, b.h * imgH)
  }

  /** `box_convert(in_fmt="cxcywh", out_fmt="xyxy")`. */
  function CenterToCorner(b: CenterBox): (r: Box)
    ensures r.x2 - r.x1 == b.w && r.y2 - r.y1 == b.h
    ensures (r.x1 + r.x2) / 2.0 == b.cx && (r.y1 + r.y2) / 2.0 == b.cy
  {
    Box(b.cx - b.w / 2.0, b.cy - b.h / 2.0, b.cx + b.w / 2.0, b.cy + b.h / 2.0)
  }

  /** The inverse conversion, `xyxy` to `cxcywh`. */
  function CornerToCenter(b: Box): (r: CenterBox)
    ensures r.w == b.x2 - b.x1 && r.h == b.y2 - b.y1
  {
    CenterBox((b.x1 + b.x2) / 2.0, (b.y1 + b.y2) / 2.0, b.x2 - b.x1, b.y2 - b.y1)
  }

  /** Converting to corners and back gives the same box. */
  lemma CenterCornerRoundTrip(b: CenterBox)
    ensures CornerToCenter(CenterToCorner(b)) == b
  {
  }

  /** A box with non-negative width and height has ordered corners. */
  lemma CornersOrdered(b: CenterBox, imgW: real, imgH: real)
    requires b.w >= 0.0 && b.h >= 0.0 && imgW >= 0.0 && imgH >= 0.0
    ensures var r := CenterToCorner(ScaleToImage(b, imgW, imgH)); r.x1 <= r.x2 && r.y1 <= r.y2
  {
    var s := ScaleToImage(b, imgW, imgH);
    assert s.w >= 0.0 && s.h >= 0.0 by { NonNegProduct(b.w, imgW); NonNegProduct(b.h, imgH); }
  }

  lemma NonNegProduct(a: real, b: real)
    requires a >= 0.0 && b >= 0.0
    ensures a * b >= 0.0
  {
  }

  /** Python's `int(x)` on a float: truncation toward zero. */
  function Trunc(x: real): (r: int)
    ensures x >= 0.0 ==> r >= 0 && r as real <= x < r as real + 1.0
    ensures x < 0.0 ==> r <= 0 && r as real - 1.0 < x <= r as real
  {
    if x >= 0.0 then x.Floor else -((-x).Floor)
  }

  /** Python's normalisation of a slice bound against a dimension of size n:
      a negative bound counts from the end, and the result is clamped to [0, n]. */
  function SliceBound(n: nat, i: int): (r: nat)
    ensures r <= n
    ensures 0 <= i <= n ==> r == i
  {
    if i < 0 then (if i + n < 0 then 0 else i + n) else if i > n then n else i
  }

  /** Length of `a[lo:hi]` on an axis of size `n`. */
  function SliceLen(n: nat, lo: int, hi: int): (r: nat)
    ensures r <= n
  {
    var a := SliceBound(n, lo);
    var b := SliceBound(n, hi);
    if b > a then b - a else 0
  }

  /** For bounds inside the axis, the slice is non-empty exactly when the
      lower bound is below the upper one. */
  lemma SliceNonEmptyInRange(n: nat, lo: int, hi: int)
    requires 0 <= lo <= n && 0 <= hi <= n
    ensures SliceLen(n, lo, hi) > 0 <==> lo < hi
    ensures SliceLen(n, lo, hi) == if lo < hi then hi - lo else 0
  {
  }

  /** Integer crop coordinates of a background box, scaled from the original
      image size to the resized tensor and truncated as `int()` does. */
  datatype Crop = Crop(x1: int, y1: int, x2: int, y2: int)

  function CropOf(b: Box, origW: real, origH: real, newW: nat, newH: nat): Crop
    requires origW > 0.0 && origH > 0.0
  {
    Crop(Trunc(b.x1 * newW as real / origW), Trunc(b.y1 * newH as real / origH),
         Trunc(b.x2 * newW as real / origW), Trunc(b.y2 * newH as real / origH))
  }

  /** `img[:, y1:y2, x1:x2]` has positive height and width. */
  predicate CropNonEmpty(c: Crop, newW: nat, newH: nat) {
    SliceLen(newH, c.y1, c.y2) > 0 && SliceLen(newW, c.x1, c.x2) > 0
  }
}
