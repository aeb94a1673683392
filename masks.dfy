/**
 * Grey-scale masks decoded into RGBA pixel buffers, and the nearest-pixel
 * lookup that the player controller, the grass field and the bugs all use.
 * A mask is the `ImageData` a 2D canvas returns: `width * height` pixels of
 * four bytes each, rows top to bottom. A lookup maps (u, v) in the unit
 * square to the red byte of one pixel and divides it by 255.
 */
module Masks {

  type byte = x: int | 0 <= x < 256

  /** 2^31: the first integer that JavaScript's ToInt32 no longer keeps as is. */
  const Int32Bound: int := 0x8000_0000

  datatype ImageData = ImageData(width: int, height: int, data: seq<byte>)

  /**
   * What a canvas can hand back: a non-empty image (getImageData refuses a
   * zero width or height), no side reaching 2^31 (a canvas is far smaller),
   * and exactly four bytes per pixel.
   */
  predicate WellFormed(img: ImageData) {
    && 1 <= img.width < Int32Bound
    && 1 <= img.height < Int32Bound
    && |img.data| == img.width * img.height * 4
  }

  type Image = img: ImageData | WellFormed(img) witness ImageData(1, 1, [0, 0, 0, 0])

  /** True when (u, v) lies in the unit square that the mask covers. */
  predicate InUnitSquare(u: real, v: real) {
    0.0 <= u <= 1.0 && 0.0 <= v <= 1.0
  }

  /**
   * JavaScript's `~~r` on a finite number (the ToInt32 conversion):
   * truncate toward zero, then wrap into the signed 32-bit range.
   */
  function ToInt32(r: real): int {
    var t := if r >= 0.0 then r.Floor else -((-r).Floor);
    var m := t % 0x1_0000_0000;
    if m >= Int32Bound then m - 0x1_0000_0000 else m
  }

  /** On a non-negative value below 2^31, `~~r` is `Math.floor(r)`. */
  lemma ToInt32IsFloor(r: real)
    requires 0.0 <= r < Int32Bound as real
    ensures ToInt32(r) == r.Floor
  {
    assert 0 <= r.Floor < Int32Bound;
  }

  /** u * n stays within [0, n] when u is in [0, 1]. */
  lemma ScaledBounds(u: real, n: nat)
    requires 0.0 <= u <= 1.0
    ensures 0.0 <= u * n as real <= n as real
  {
    assert (1.0 - u) * n as real >= 0.0;
  }

  /** floor(u * n) stays within [0, n] when u is in [0, 1]. */
  lemma ScaledFloorBounds(u: real, n: nat)
    requires 0.0 <= u <= 1.0
    ensures 0 <= (u * n as real).Floor <= n
  {
    ScaledBounds(u, n);
  }

  /** The index of the cell that floor(u * (size - 1)) selects along one side. */
  function Cell(size: int, u: real): (i: int)
    requires 1 <= size
    requires 0.0 <= u <= 1.0
    ensures 0 <= i < size
  {
    ScaledFloorBounds(u, size - 1);
    (u * (size - 1) as real).Floor
  }

  /** Byte offset of the red channel of pixel (ix, iz) in a row-major RGBA buffer. */
  function RedOffset(width: int, ix: int, iz: int): int {
    (iz * width + ix) * 4
  }

  /** The whole pixel (ix, iz), red to alpha, lies inside the buffer of a well-formed image. */
  lemma {:induction false} RedOffsetInside(img: Image, ix: int, iz: int)
    requires 0 <= ix < img.width && 0 <= iz < img.height
    ensures 0 <= RedOffset(img.width, ix, iz)
    ensures RedOffset(img.width, ix, iz) + 3 < |img.data|
  {
    var w, h := img.width, img.height;
    assert 0 <= iz * w by { assert 0 <= iz && 0 <= w; }
    assert iz * w <= (h - 1) * w by {
      assert (h - 1 - iz) * w >= 0 by { assert h - 1 - iz >= 0; }
    }
    assert (h - 1) * w + w == w * h;
    assert iz * w + ix <= w * h - 1;
  }

  /** The red byte of pixel (ix, iz), normalised to [0, 1]. */
  function RedOfPixel(img: Image, ix: int, iz: int): (r: real)
    requires 0 <= ix < img.width && 0 <= iz < img.height
    ensures 0.0 <= r <= 1.0
  {
    RedOffsetInside(img, ix, iz);
    img.data[RedOffset(img.width, ix, iz)] as real / 255.0
  }

  /**
   * The red byte of the pixel nearest to (u, v), normalised to [0, 1], with
   * the column and row chosen by Math.floor.
   */
  function RedAt(img: Image, u: real, v: real): (r: real)
    requires InUnitSquare(u, v)
    ensures 0.0 <= r <= 1.0
  {
    RedOfPixel(img, Cell(img.width, u), Cell(img.height, v))
  }

  /** `~~(u * (size - 1))` selects the same cell as Math.floor does. */
  lemma TruncatedCell(size: int, u: real, scaled: real)
    requires 1 <= size < Int32Bound
    requires 0.0 <= u <= 1.0
    requires scaled == u * (size - 1) as real
    ensures ToInt32(scaled) == Cell(size, u)
  {
    ScaledBounds(u, size - 1);
    assert scaled <= (size - 1) as real;
    assert (size - 1) as real < Int32Bound as real;
    ToInt32IsFloor(scaled);
  }

  /**
   * The same lookup with the column and row chosen by `~~`, as the grass and
   * bug masks write it. The result equals RedAt: on these arguments `~~`
   * and Math.floor agree, so the index stays inside the buffer.
   */
  function RedAtTruncated(img: Image, u: real, v: real): (r: real)
    requires InUnitSquare(u, v)
    ensures r == RedAt(img, u, v)
  {
    var su := u * (img.width - 1) as real;
    var sv := v * (img.height - 1) as real;
    TruncatedCell(img.width, u, su);
    TruncatedCell(img.height, v, sv);
    RedOfPixel(img, ToInt32(su), ToInt32(sv))
  }

  /**
   * The mask level under (u, v) with no index arithmetic: the red level of
   * the pixel under it when (u, v) is on the mask, 0 off it. Both scatter
   * lookups (`sample` and `lum`) compute this.
   */
  ghost function MaskLevel(img: Image, u: real, v: real): real {
    if InUnitSquare(u, v) then RedAt(img, u, v) else 0.0
  }
}
