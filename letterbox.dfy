/** The aspect-correct viewport that `handle_reshape` computes for a window of
    `w` x `h` pixels: the largest centred rectangle of (truncated) ratio 16:9.

    The shim is built with `-m32`, so `int` and `long` are both 32 bits wide.
    C's `/` truncates toward zero, which `CDiv` spells out; on the
    non-negative operands of a real window it agrees with Dafny's `/`. */
module Letterbox {

  const Int32Max: int := 0x7fff_ffff

  /** `h * 16` fits in an `int` exactly when `-MaxHeight - 1 <= h <= MaxHeight`. */
  const MaxHeight: int := Int32Max / 16

  /** `w * 9` fits in an `int` exactly when `-MaxWidth <= w <= MaxWidth`. */
  const MaxWidth: int := Int32Max / 9

  predicate InInt32(v: int) {
    -Int32Max - 1 <= v <= Int32Max
  }

  /** Window sizes for which every `int` product and difference that
      `handle_reshape` evaluates fits in 32 bits: `h * 16` always, `w * 9`
      and `h - act_h` only in the height-clip branch, `w - act_w` only in
      the width-clip branch. */
  predicate InRange(w: int, h: int) {
    && InInt32(w) && -MaxHeight - 1 <= h <= MaxHeight
    && (w < TargetWidth(h) ==> -MaxWidth <= w <= MaxWidth && InInt32(h - CDiv(w * 9, 16)))
    && (w > TargetWidth(h) ==> InInt32(w - TargetWidth(h)))
  }

  function Abs(a: int): (r: nat)
    ensures r == a || r == -a
  {
    if a < 0 then -a else a
  }

  /** C integer division by a positive constant: the magnitude is rounded
      down and the sign is that of the dividend, i.e. it rounds toward zero. */
  function CDiv(a: int, b: int): (q: int)
    requires b > 0
    ensures Abs(q) == Abs(a) / b
    ensures q != 0 ==> (q < 0 <==> a < 0)
    ensures 0 <= a ==> q == a / b
  {
    if a >= 0 then a / b else -((-a) / b)
  }

  /** `act_w`, `act_h`, `act_xoff`, `act_yoff` after a reshape. */
  datatype Viewport = Viewport(width: int, height: int, xoff: int, yoff: int)

  /** The width a window of height `h` would have at 16:9, as the source's
      branch conditions compute it (`h * 16/9`). */
  function TargetWidth(h: int): (r: int)
    requires -MaxHeight - 1 <= h <= MaxHeight
    ensures 0 <= h ==> 9 * r <= 16 * h < 9 * r + 9
  {
    CDiv(h * 16, 9)
  }

  /** The viewport of a `w` x `h` window: narrower than 16:9 keeps the width
      and clips the height, wider keeps the height and clips the width, and
      exactly 16:9 (by the truncated test) uses the whole window. */
  function Compute(w: int, h: int): (v: Viewport)
    requires InRange(w, h)
    ensures InInt32(v.width) && InInt32(v.height) && InInt32(v.xoff) && InInt32(v.yoff)
  {
    var tw := TargetWidth(h);
    if w < tw then
      var ah := CDiv(w * 9, 16);
      Viewport(w, ah, 0, CDiv(h - ah, 2))
    else if w > tw then
      Viewport(tw, h, CDiv(w - tw, 2), 0)
    else
      Viewport(w, h, 0, 0)
  }

  /** For a real window (both sides positive) the only overflow is `h * 16`:
      every width an `int` can hold is in range. */
  lemma PositiveInRange(w: int, h: int)
    requires 0 < w <= Int32Max && 0 < h <= MaxHeight
    ensures InRange(w, h)
  {
  }

  /** The viewport lies inside the window, its offsets are non-negative, at
      least one offset is zero and at least one axis is used in full. */
  lemma Bounds(w: int, h: int)
    requires InRange(w, h) && 0 < w && 0 < h
    ensures var v := Compute(w, h);
      && 0 <= v.width <= w && 0 <= v.height <= h
      && 0 <= v.xoff && 0 <= v.yoff
      && (v.xoff == 0 || v.yoff == 0)
      && (v.width == w || v.height == h)
  {
  }

  /** The viewport is centred: the two bars of the clipped axis differ by at
      most the one pixel that halving truncates away. */
  lemma Centred(w: int, h: int)
    requires InRange(w, h) && 0 < w && 0 < h
    ensures var v := Compute(w, h);
      && (2 * v.xoff + v.width == w || 2 * v.xoff + v.width == w - 1)
      && (2 * v.yoff + v.height == h || 2 * v.yoff + v.height == h - 1)
  {
  }

  /** The viewport has ratio 16:9 up to truncation: on the height-clipped side
      the height is 9/16 of the width rounded down, otherwise the width is
      16/9 of the height rounded down. */
  lemma Ratio(w: int, h: int)
    requires InRange(w, h) && 0 < w && 0 < h
    ensures var v := Compute(w, h);
      && (w < TargetWidth(h) ==> 16 * v.height <= 9 * v.width < 16 * v.height + 16)
      && (w >= TargetWidth(h) ==> 9 * v.width <= 16 * v.height < 9 * v.width + 9)
  {
  }

  /** Which branch is taken is exactly which axis ends up clipped. */
  lemma BranchDirection(w: int, h: int)
    requires InRange(w, h) && 0 < w && 0 < h
    ensures var v := Compute(w, h);
      && (w < TargetWidth(h) <==> v.height < h)
      && (w > TargetWidth(h) <==> v.width < w)
      && (w == TargetWidth(h) <==> v == Viewport(w, h, 0, 0))
      && (w < TargetWidth(h) ==> v.width == w && v.height == w * 9 / 16 && v.xoff == 0 && v.yoff == (h - v.height) / 2)
      && (w > TargetWidth(h) ==> v.height == h && v.width == h * 16 / 9 && v.yoff == 0 && v.xoff == (w - v.width) / 2)
  {
  }

  /** A window whose sides are exactly in ratio 16:9 gets no bars at all. */
  lemma ExactRatio(w: int, h: int)
    requires InRange(w, h) && 0 < w && 0 < h
    requires w * 9 == h * 16
    ensures Compute(w, h) == Viewport(w, h, 0, 0)
  {
  }

  /** One worked size per branch, and one where the branch test is exact. */
  lemma Examples()
    ensures Compute(1920, 1200) == Viewport(1920, 1080, 0, 60)
    ensures Compute(1000, 1000) == Viewport(1000, 562, 0, 219)
    ensures Compute(2000, 900) == Viewport(1600, 900, 200, 0)
    ensures Compute(1920, 1080) == Viewport(1920, 1080, 0, 0)
    ensures InRange(200_000_000, 100) && Compute(200_000_000, 100) == Viewport(177, 100, 99_999_911, 0)
  {
  }
}
