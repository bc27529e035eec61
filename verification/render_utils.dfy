/** Display-viewport fitting: where on the output the low-resolution internal image is
    shown. Integer scaling multiplies the render size by a whole factor chosen from the
    heights; otherwise the image is pillarboxed or letterboxed so that its aspect ratio is
    kept. The rectangle is centred, with offsets computed from the rounded size. */
module RenderUtils {
  import opened EngineTypes
  import opened Mathf

  /** Width and height of the display viewport in exact arithmetic, before any rounding. */
  datatype Extent = Extent(width: real, height: real)

  function AspectRatio(size: Int2): real
    requires size.y > 0
  {
    size.x as real / size.y as real
  }

  /** The quotient of two whole numbers, floored, is their integer division. */
  lemma FloorOfQuotient(a: int, b: int)
    requires a >= 0 && b > 0
    ensures (a as real / b as real).Floor == a / b
  {
    var k, m := a / b, a % b;
    assert a == k * b + m && 0 <= m < b;
    var q := a as real / b as real;
    assert q * b as real == a as real;
    assert q == k as real + m as real / b as real;
    assert 0.0 <= m as real / b as real < 1.0;
  }

  /** The whole factor used by integer scaling: the largest multiple of the render height
      that still fits the target height. */
  function IntegerScale(renderSize: Int2, targetSize: Int2): (scale: int)
    requires IsPositive(renderSize) && IsPositive(targetSize)
    ensures 0 <= scale
    ensures scale * renderSize.y <= targetSize.y < (scale + 1) * renderSize.y
  {
    FloorOfQuotient(targetSize.y, renderSize.y);
    (targetSize.y as real / renderSize.y as real).Floor
  }

  /** The unrounded viewport size. Its height never exceeds the target height, and
      without integer scaling its width never exceeds the target width either. */
  function ViewportExtent(renderSize: Int2, targetSize: Int2, integerScaling: bool): (e: Extent)
    requires IsPositive(renderSize) && IsPositive(targetSize)
    ensures 0.0 <= e.width && 0.0 <= e.height <= targetSize.y as real
    ensures !integerScaling ==> e.width <= targetSize.x as real
  {
    var aspectTarget := AspectRatio(renderSize);
    var aspectScreen := AspectRatio(targetSize);
    if integerScaling then
      var scale := IntegerScale(renderSize, targetSize) as real;
      ScaledRenderFits(renderSize, targetSize);
      Extent(renderSize.x as real * scale, renderSize.y as real * scale)
    else if aspectScreen > aspectTarget then
      // the screen is wider: pillarbox
      WiderIffCrossProduct(renderSize, targetSize);
      PillarboxWidth(renderSize, targetSize);
      var height := targetSize.y as real;
      Extent(height * aspectTarget, height)
    else
      // the screen is taller: letterbox
      WiderIffCrossProduct(renderSize, targetSize);
      LetterboxHeight(renderSize, targetSize);
      var width := targetSize.x as real;
      Extent(width, width / aspectTarget)
  }

  /** The render size times the integer scale has a height within the target's. */
  lemma ScaledRenderFits(renderSize: Int2, targetSize: Int2)
    requires IsPositive(renderSize) && IsPositive(targetSize)
    ensures var scale := IntegerScale(renderSize, targetSize) as real;
            && 0.0 <= renderSize.x as real * scale
            && 0.0 <= renderSize.y as real * scale <= targetSize.y as real
  {
    var k := IntegerScale(renderSize, targetSize);
    assert renderSize.y as real * k as real == (k * renderSize.y) as real;
    assert renderSize.x as real * k as real == (renderSize.x * k) as real;
  }

  /** The offset that centres an extent of unrounded length `length` on a target of
      `target` pixels: half the margin left by the rounded length, rounded, then floored. */
  function Centre(target: int, length: real, round: real -> int): (offset: int)
    requires IsRoundToInt(round)
    ensures -1 <= 2 * offset - (target - round(length)) <= 1
    ensures round(length) <= target ==> 0 <= offset
    ensures round(length) == target ==> offset == 0
  {
    var rounded := round(length);
    var offset := round((target - rounded) as real * 0.5);
    RoundHalf(round, target - rounded);
    RoundOfWhole(round, 0);
    assert rounded <= target ==> 0 <= offset by {
      if rounded <= target {
        RoundAtLeast(round, (target - rounded) as real * 0.5, 0);
      }
    }
    (offset as real).Floor
  }

  /** The centred display viewport for showing an image of `renderSize` on `targetSize`.
      Its size is the floor of the unrounded extent, while the offsets centre the ROUNDED
      extent, each to within one pixel of an even split of the margin. */
  function CalculateDisplayViewport(renderSize: Int2, targetSize: Int2, integerScaling: bool,
                                    round: real -> int): (v: Viewport)
    requires IsPositive(renderSize) && IsPositive(targetSize) && IsRoundToInt(round)
    ensures var e := ViewportExtent(renderSize, targetSize, integerScaling);
            && v.width as real <= e.width < v.width as real + 1.0
            && v.height as real <= e.height < v.height as real + 1.0
    ensures var e := ViewportExtent(renderSize, targetSize, integerScaling);
            var margin := targetSize.x - round(e.width) - v.x;
            -1 <= v.x - margin <= 1
    ensures var e := ViewportExtent(renderSize, targetSize, integerScaling);
            var margin := targetSize.y - round(e.height) - v.y;
            -1 <= v.y - margin <= 1
  {
    var e := ViewportExtent(renderSize, targetSize, integerScaling);
    Viewport(Centre(targetSize.x, e.width, round), Centre(targetSize.y, e.height, round),
             e.width.Floor, e.height.Floor)
  }

  // ---------------------------------------------------------------------------------
  // Integer scaling

  /** The integer scale is exactly the largest whole factor `k` with `k * renderHeight`
      not above the target height: every smaller factor fits, every larger one does not. */
  lemma {:induction false} IntegerScaleIsLargest(renderSize: Int2, targetSize: Int2, k: int)
    requires IsPositive(renderSize) && IsPositive(targetSize) && 0 <= k
    ensures k * renderSize.y <= targetSize.y <==> k <= IntegerScale(renderSize, targetSize)
  {
    var s := IntegerScale(renderSize, targetSize);
    if k <= s {
      MulMonotone(k, s, renderSize.y);
    } else {
      MulMonotone(s + 1, k, renderSize.y);
    }
  }

  lemma MulMonotone(a: int, b: int, c: int)
    requires a <= b && 0 <= c
    ensures a * c <= b * c
  {
    assert b * c - a * c == (b - a) * c;
  }

  /** With integer scaling the extent is the render size times the integer scale. */
  lemma IntegerExtent(renderSize: Int2, targetSize: Int2)
    requires IsPositive(renderSize) && IsPositive(targetSize)
    ensures var k := IntegerScale(renderSize, targetSize);
            ViewportExtent(renderSize, targetSize, true)
            == Extent((renderSize.x * k) as real, (renderSize.y * k) as real)
  {
  }

  /** With integer scaling both sides of the viewport are the same whole multiple of the
      render size, namely the integer scale (the largest factor whose height fits), the
      height fits the target and the top offset is not negative. */
  lemma IntegerScalingIsWholeMultiple(renderSize: Int2, targetSize: Int2, round: real -> int)
    requires IsPositive(renderSize) && IsPositive(targetSize) && IsRoundToInt(round)
    ensures var v := CalculateDisplayViewport(renderSize, targetSize, true, round);
            var k := IntegerScale(renderSize, targetSize);
            && v.width == renderSize.x * k
            && v.height == renderSize.y * k
            && k * renderSize.y <= targetSize.y < (k + 1) * renderSize.y
    ensures var v := CalculateDisplayViewport(renderSize, targetSize, true, round);
            0 <= v.height <= targetSize.y && 0 <= v.y
  {
    var v := CalculateDisplayViewport(renderSize, targetSize, true, round);
    var k := IntegerScale(renderSize, targetSize);
    IntegerExtent(renderSize, targetSize);
    RoundOfWhole(round, renderSize.y * k);
  }

  /** With integer scaling and a target lower than the render height the scale is zero and
      the viewport collapses to nothing: no minimum factor of one is enforced. */
  lemma IntegerScalingDegenerates(renderSize: Int2, targetSize: Int2, round: real -> int)
    requires IsPositive(renderSize) && IsPositive(targetSize) && IsRoundToInt(round)
    requires targetSize.y < renderSize.y
    ensures IntegerScale(renderSize, targetSize) == 0
    ensures var v := CalculateDisplayViewport(renderSize, targetSize, true, round);
            v.width == 0 && v.height == 0
  {
    IntegerScaleIsLargest(renderSize, targetSize, 1);
    IntegerExtent(renderSize, targetSize);
  }

  /** The scale is chosen from the heights alone, so in a target narrower than the scaled
      image the viewport is wider than the target and starts left of it: a 320x240 image on
      a 400x480 target is shown 640 pixels wide at x = -120. */
  lemma IntegerScalingMayOverflowWidth(round: real -> int)
    requires IsRoundToInt(round)
    ensures CalculateDisplayViewport(Int2(320, 240), Int2(400, 480), true, round)
            == Viewport(-120, 0, 640, 480)
  {
    FloorOfQuotient(480, 240);
    IntegerExtent(Int2(320, 240), Int2(400, 480));
    RoundOfWhole(round, 640);
    RoundOfWhole(round, 480);
    RoundOfWhole(round, -120);
    RoundOfWhole(round, 0);
  }

  /** A 320x240 image on a 1920x1080 target is scaled four times and centred exactly. */
  lemma IntegerScalingExample(round: real -> int)
    requires IsRoundToInt(round)
    ensures CalculateDisplayViewport(Int2(320, 240), Int2(1920, 1080), true, round)
            == Viewport(320, 60, 1280, 960)
  {
    FloorOfQuotient(1080, 240);
    IntegerExtent(Int2(320, 240), Int2(1920, 1080));
    RoundOfWhole(round, 1280);
    RoundOfWhole(round, 960);
    RoundOfWhole(round, 320);
    RoundOfWhole(round, 60);
  }

  // ---------------------------------------------------------------------------------
  // Aspect-preserving fit

  /** The screen is wider than the image exactly when the cross products say so. */
  lemma WiderIffCrossProduct(renderSize: Int2, targetSize: Int2)
    requires IsPositive(renderSize) && IsPositive(targetSize)
    ensures AspectRatio(targetSize) > AspectRatio(renderSize)
            <==> targetSize.x * renderSize.y > renderSize.x * targetSize.y
  {
    var rx, ry := renderSize.x as real, renderSize.y as real;
    var tx, ty := targetSize.x as real, targetSize.y as real;
    var p := tx / ty - rx / ry;
    assert p * (ty * ry) == tx * ry - rx * ty;
    assert ty * ry > 0.0;
    assert (targetSize.x * renderSize.y) as real == tx * ry;
    assert (renderSize.x * targetSize.y) as real == rx * ty;
    if p > 0.0 {
      assert p * (ty * ry) > 0.0;
    } else {
      assert p * (ty * ry) <= 0.0;
    }
  }

  /** Multiplying by the reciprocal ratio `b / c` and then by `c` gives back `a * b`. */
  lemma ScaleByRatio(a: real, b: real, c: real)
    requires c > 0.0
    ensures a * (b / c) == (a * b) / c
    ensures a * (b / c) * c == a * b
  {
  }

  /** Dividing by `b / c` is multiplying by `c / b`. */
  lemma DivideByRatio(a: real, b: real, c: real)
    requires b > 0.0 && c > 0.0
    ensures a / (b / c) == (a * c) / b
    ensures a / (b / c) * b == a * c
  {
    var q := a / (b / c);
    assert q * (b / c) == a;
    assert q * b == a * c;
  }

  /** A strict or non-strict inequality between products with the same positive factor
      holds between the other factors. */
  lemma CancelPositive(a: real, b: real, c: real)
    requires c > 0.0
    ensures a * c < b * c ==> a < b
    ensures a * c <= b * c ==> a <= b
  {
    if b < a {
      assert b * c < a * c;
    }
    if b <= a {
      assert b * c <= a * c;
    }
  }

  /** Pillarbox arithmetic: the target height times the image's aspect is below the target
      width when the screen is wider. */
  lemma PillarboxWidth(renderSize: Int2, targetSize: Int2)
    requires IsPositive(renderSize) && IsPositive(targetSize)
    requires targetSize.x * renderSize.y > renderSize.x * targetSize.y
    ensures targetSize.y as real * AspectRatio(renderSize)
            == (targetSize.y * renderSize.x) as real / renderSize.y as real
            < targetSize.x as real
  {
    var rx, ry := renderSize.x as real, renderSize.y as real;
    var tx, ty := targetSize.x as real, targetSize.y as real;
    ScaleByRatio(ty, rx, ry);
    var w := ty * (rx / ry);
    assert (targetSize.y * renderSize.x) as real == ty * rx;
    assert (renderSize.x * targetSize.y) as real == ty * rx;
    assert (targetSize.x * renderSize.y) as real == tx * ry;
    assert w * ry < tx * ry;
    CancelPositive(w, tx, ry);
  }

  /** Letterbox arithmetic: the target width divided by the image's aspect does not exceed
      the target height when the screen is not wider. */
  lemma LetterboxHeight(renderSize: Int2, targetSize: Int2)
    requires IsPositive(renderSize) && IsPositive(targetSize)
    requires targetSize.x * renderSize.y <= renderSize.x * targetSize.y
    ensures targetSize.x as real / AspectRatio(renderSize)
            == (targetSize.x * renderSize.y) as real / renderSize.x as real
            <= targetSize.y as real
  {
    var rx, ry := renderSize.x as real, renderSize.y as real;
    var tx, ty := targetSize.x as real, targetSize.y as real;
    DivideByRatio(tx, rx, ry);
    var h := tx / (rx / ry);
    assert (targetSize.x * renderSize.y) as real == tx * ry;
    assert (renderSize.x * targetSize.y) as real == ty * rx;
    assert h * rx <= ty * rx;
    CancelPositive(h, ty, rx);
  }

  /** A screen wider than the image is pillarboxed: the viewport takes the full target
      height, its width follows the image's aspect and is strictly less than the target
      width, and it is centred with a zero top offset. */
  lemma Pillarbox(renderSize: Int2, targetSize: Int2, round: real -> int)
    requires IsPositive(renderSize) && IsPositive(targetSize) && IsRoundToInt(round)
    requires targetSize.x * renderSize.y > renderSize.x * targetSize.y
    ensures var e := ViewportExtent(renderSize, targetSize, false);
            && e.height == targetSize.y as real
            && e.width == (targetSize.y * renderSize.x) as real / renderSize.y as real
            && e.width < targetSize.x as real
    ensures var v := CalculateDisplayViewport(renderSize, targetSize, false, round);
            v.height == targetSize.y && v.y == 0 && 0 <= v.x && v.width < targetSize.x
  {
    WiderIffCrossProduct(renderSize, targetSize);
    PillarboxWidth(renderSize, targetSize);
    var e := ViewportExtent(renderSize, targetSize, false);
    assert e == Extent(targetSize.y as real * AspectRatio(renderSize), targetSize.y as real);
    RoundOfWhole(round, targetSize.y);
    RoundAtMost(round, e.width, targetSize.x);
  }

  /** A screen not wider than the image is letterboxed: the viewport takes the full target
      width, its height follows the image's aspect and does not exceed the target height,
      and it is centred with a zero left offset. */
  lemma Letterbox(renderSize: Int2, targetSize: Int2, round: real -> int)
    requires IsPositive(renderSize) && IsPositive(targetSize) && IsRoundToInt(round)
    requires targetSize.x * renderSize.y <= renderSize.x * targetSize.y
    ensures var e := ViewportExtent(renderSize, targetSize, false);
            && e.width == targetSize.x as real
            && e.height == (targetSize.x * renderSize.y) as real / renderSize.x as real
            && e.height <= targetSize.y as real
    ensures var v := CalculateDisplayViewport(renderSize, targetSize, false, round);
            v.width == targetSize.x && v.x == 0 && 0 <= v.y && v.height <= targetSize.y
  {
    WiderIffCrossProduct(renderSize, targetSize);
    LetterboxHeight(renderSize, targetSize);
    var e := ViewportExtent(renderSize, targetSize, false);
    assert e == Extent(targetSize.x as real, targetSize.x as real / AspectRatio(renderSize));
    RoundOfWhole(round, targetSize.x);
    RoundAtMost(round, e.height, targetSize.y);
  }

  /** A rectangle with exactly the image's aspect ratio that fits inside the target. */
  ghost predicate FitsWithAspect(e: Extent, renderSize: Int2, targetSize: Int2) {
    && 0.0 <= e.width <= targetSize.x as real
    && 0.0 <= e.height <= targetSize.y as real
    && e.width * renderSize.y as real == e.height * renderSize.x as real
  }

  /** Without integer scaling the unrounded viewport keeps the image's aspect ratio, fits
      the target and touches it on at least one axis. */
  lemma FitKeepsAspect(renderSize: Int2, targetSize: Int2)
    requires IsPositive(renderSize) && IsPositive(targetSize)
    ensures var e := ViewportExtent(renderSize, targetSize, false);
            && FitsWithAspect(e, renderSize, targetSize)
            && (e.width == targetSize.x as real || e.height == targetSize.y as real)
  {
    var e := ViewportExtent(renderSize, targetSize, false);
    var rx, ry := renderSize.x as real, renderSize.y as real;
    var tx, ty := targetSize.x as real, targetSize.y as real;
    WiderIffCrossProduct(renderSize, targetSize);
    if targetSize.x * renderSize.y > renderSize.x * targetSize.y {
      PillarboxWidth(renderSize, targetSize);
      assert e == Extent(ty * (rx / ry), ty);
      assert e.width * ry == ty * rx;
    } else {
      LetterboxHeight(renderSize, targetSize);
      assert e == Extent(tx, tx / (rx / ry));
      assert e.height * (rx / ry) == tx;
      assert e.height * rx == tx * ry;
    }
  }

  /** The aspect-preserving fit is the largest rectangle of the image's aspect ratio inside
      the target: any other such rectangle is no wider and no taller. */
  lemma FitIsLargest(renderSize: Int2, targetSize: Int2, other: Extent)
    requires IsPositive(renderSize) && IsPositive(targetSize)
    requires FitsWithAspect(other, renderSize, targetSize)
    ensures var e := ViewportExtent(renderSize, targetSize, false);
            other.width <= e.width && other.height <= e.height
  {
    var e := ViewportExtent(renderSize, targetSize, false);
    FitKeepsAspect(renderSize, targetSize);
    var rx, ry := renderSize.x as real, renderSize.y as real;
    if e.width == targetSize.x as real {
      assert other.width <= e.width;
      assert other.height * rx == other.width * ry <= e.width * ry == e.height * rx;
    } else {
      assert e.height == targetSize.y as real;
      assert other.height <= e.height;
      assert other.width * ry == other.height * rx <= e.height * rx == e.width * ry;
    }
  }

  // ---------------------------------------------------------------------------------
  // Offsets and the final rounding

  /** The offsets centre the ROUNDED extent: an axis the rounded extent spans completely has
      offset zero, and an axis it does not overflow has a non-negative offset. Without
      integer scaling neither axis overflows, so both offsets are non-negative. */
  lemma OffsetsCentreRoundedExtent(renderSize: Int2, targetSize: Int2, integerScaling: bool,
                                   round: real -> int)
    requires IsPositive(renderSize) && IsPositive(targetSize) && IsRoundToInt(round)
    ensures var e := ViewportExtent(renderSize, targetSize, integerScaling);
            var v := CalculateDisplayViewport(renderSize, targetSize, integerScaling, round);
            && (round(e.width) == targetSize.x ==> v.x == 0)
            && (round(e.height) == targetSize.y ==> v.y == 0)
            && (round(e.width) <= targetSize.x ==> 0 <= v.x)
            && (round(e.height) <= targetSize.y ==> 0 <= v.y)
            && (!integerScaling ==> 0 <= v.x && 0 <= v.y)
  {
    var e := ViewportExtent(renderSize, targetSize, integerScaling);
    if !integerScaling {
      FitKeepsAspect(renderSize, targetSize);
      RoundAtMost(round, e.width, targetSize.x);
      RoundAtMost(round, e.height, targetSize.y);
    }
  }

  /** The returned size is the floor of the unrounded extent while the offset is computed
      from the rounded one, and the two can differ: a 320x240 image on a 1367x701 target has
      an exact width of 934 2/3, which rounds to 935 for the offset but is reported as 934. */
  lemma WidthIsFlooredNotRounded(round: real -> int)
    requires IsRoundToInt(round)
    ensures round(ViewportExtent(Int2(320, 240), Int2(1367, 701), false).width) == 935
    ensures CalculateDisplayViewport(Int2(320, 240), Int2(1367, 701), false, round)
            == Viewport(216, 0, 934, 701)
  {
    WiderIffCrossProduct(Int2(320, 240), Int2(1367, 701));
    var e := ViewportExtent(Int2(320, 240), Int2(1367, 701), false);
    assert e.width == 701.0 * (320.0 / 240.0);
    assert e.width == 934.0 + 2.0 / 3.0;
    RoundAtLeast(round, e.width, 935);
    RoundAtMost(round, e.width, 935);
    RoundOfWhole(round, 701);
    RoundOfWhole(round, 0);
    RoundOfWhole(round, 216);
  }

  /** A 320x240 image on a 1920x1080 target without integer scaling is pillarboxed to
      1440x1080 and centred at x = 240. */
  lemma PillarboxExample(round: real -> int)
    requires IsRoundToInt(round)
    ensures CalculateDisplayViewport(Int2(320, 240), Int2(1920, 1080), false, round)
            == Viewport(240, 0, 1440, 1080)
  {
    WiderIffCrossProduct(Int2(320, 240), Int2(1920, 1080));
    var e := ViewportExtent(Int2(320, 240), Int2(1920, 1080), false);
    assert e.width == 1080.0 * (320.0 / 240.0) == 1440.0;
    RoundOfWhole(round, 1440);
    RoundOfWhole(round, 1080);
    RoundOfWhole(round, 240);
    RoundOfWhole(round, 0);
  }
}
