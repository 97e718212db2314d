/**
 * The dimension arithmetic of `HumanDriver.image_resize` and of the frame
 * preprocessing in `update` (resize to width 200, then keep the top-left
 * 150 x 200 window). Pixel content, interpolation and the colour conversion
 * are not modelled: a frame is represented by its shape.
 */
module Resize {
  import opened Types

  /** `image.shape[:2]`, that is (rows, columns). */
  datatype Shape = Shape(height: nat, width: nat)

  /** What `image_resize` does with an image of a given shape. */
  datatype Resized =
    | Unchanged                          // neither width nor height given: the image itself is returned
    | Target(width: nat, height: nat)    // `dim` handed to `cv2.resize`, in (width, height) order
    | ZeroDivision                       // `height / float(h)` or `width / float(w)` with a zero side

  /** Width the preprocessing resizes every observation to. */
  const NvidiaWidth: nat := 200
  /** Rows kept by the crop `[0:150, 0:200]`. */
  const CropHeight: nat := 150
  /** Columns kept by the crop `[0:150, 0:200]`. */
  const CropWidth: nat := 200

  /**
   * `image_resize(image, width, height)` on an image of shape `s`. A given
   * width wins over a given height; the other side is scaled by the same
   * ratio and truncated by `int(...)` (the operands are non-negative, so
   * truncation is the floor).
   */
  function ImageResize(s: Shape, width: Option<nat>, height: Option<nat>): (r: Resized)
    ensures r.Unchanged? <==> width.None? && height.None?
    ensures r.ZeroDivision? <==>
      (width.Some? && s.width == 0) || (width.None? && height.Some? && s.height == 0)
    ensures width.Some? && r.Target? ==>
      r.width == width.value &&
      r.height * s.width <= s.height * width.value < (r.height + 1) * s.width
    ensures width.None? && r.Target? ==>
      r.height == height.value &&
      r.width * s.height <= s.width * height.value < (r.width + 1) * s.height
  {
    if width.None? && height.None? then
      Unchanged
    else if width.None? then
      if s.height == 0 then ZeroDivision
      else
        var w := (s.width * height.value) / s.height;
        FloorBounds(s.width * height.value, s.height);
        Target(w, height.value)
    else
      if s.width == 0 then ZeroDivision
      else
        var h := (s.height * width.value) / s.width;
        FloorBounds(s.height * width.value, s.width);
        Target(width.value, h)
  }

  /** The quotient of `int(a / b)` brackets `a` between two multiples of `b`. */
  lemma FloorBounds(a: nat, b: nat)
    requires b > 0
    ensures (a / b) * b <= a < (a / b + 1) * b
  {
  }

  /**
   * The shape of `image[0:150, 0:200]`: numpy slicing keeps what lies inside
   * the window and silently truncates a smaller image.
   */
  function Crop(s: Shape): (r: Shape)
    ensures r.height <= CropHeight && r.width <= CropWidth
    ensures r.height <= s.height && r.width <= s.width
    ensures (r.height == CropHeight || r.height == s.height) && (r.width == CropWidth || r.width == s.width)
  {
    Shape(if s.height < CropHeight then s.height else CropHeight,
          if s.width < CropWidth then s.width else CropWidth)
  }

  /**
   * A floor quotient `h` of `a` by `w` is zero exactly when `a < w`, and
   * reaches `k` once `a` reaches `k * w`.
   */
  lemma QuotientBrackets(a: nat, w: nat, h: nat, k: nat)
    requires w > 0 && h * w <= a < (h + 1) * w
    ensures h == 0 <==> a < w
    ensures a >= k * w ==> h >= k
  {
    if h >= 1 {
      assert h * w >= 1 * w;
    }
    if h < k {
      assert (h + 1) * w <= k * w;
    }
  }

  /** How the preprocessing of an accepted observation ends. */
  datatype Prepared =
    | Prepared(frame: Shape)   // the shape of the cropped, colour-converted frame
    | DivideByZero             // `image_resize` computes `200 / float(0)`
    | ResizeRejected           // `cv2.resize` refuses an empty source or a target with a zero side

  /**
   * `cv2.resize` accepts a non-empty source and a target size whose sides
   * are both positive; otherwise it fails an internal assertion.
   */
  predicate ResizeAccepts(source: Shape, width: nat, height: nat)
  {
    source.height > 0 && source.width > 0 && width > 0 && height > 0
  }

  /**
   * The preprocessing of an accepted observation (resize to width 200, then
   * crop): the logged frame's shape, or the failure that ends `update`.
   */
  function Preprocess(obs: Shape): (r: Prepared)
    ensures r.DivideByZero? <==> obs.width == 0
    ensures r.ResizeRejected? <==> obs.width > 0 && obs.height * NvidiaWidth < obs.width
    ensures r.Prepared? ==> 1 <= r.frame.height <= CropHeight && r.frame.width == CropWidth
    ensures r.Prepared? && obs.height * NvidiaWidth >= CropHeight * obs.width ==> r.frame == Shape(CropHeight, CropWidth)
  {
    match ImageResize(obs, Some(NvidiaWidth), None)
    case Target(w, h) =>
      QuotientBrackets(obs.height * NvidiaWidth, obs.width, h, CropHeight);
      if ResizeAccepts(obs, w, h) then Prepared(Crop(Shape(h, w))) else ResizeRejected
    case _ => DivideByZero
  }
}
