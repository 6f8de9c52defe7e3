/** The custom width and height fields and the aspect-ratio lock that couples them. */
module CustomSizeInputs {
  import opened Wrappers
  import opened Rounding
  import opened Encoding
  import opened ConversionSettings

  /** `Math.round(width / aspectRatio)` with `aspectRatio = original.width / original.height`: the height
      nearest to the one that gives `width` the original's aspect ratio (a tie going up). */
  function LockedHeight(width: int, original: ImageData): (height: int)
    requires Decoded(original)
    ensures -original.width < 2 * (height * original.width - width * original.height) <= original.width
  {
    var aspectRatio := original.width as real / original.height as real;
    var exact := width as real / aspectRatio;
    DividedByRatio(width, original.width, original.height);
    NearestMultiple(Round(exact), exact, original.width, width * original.height);
    Round(exact)
  }

  /** `Math.round(height * aspectRatio)`: the width nearest to the one that gives `height` the original's
      aspect ratio (a tie going up). */
  function LockedWidth(height: int, original: ImageData): (width: int)
    requires Decoded(original)
    ensures -original.height < 2 * (width * original.height - height * original.width) <= original.height
  {
    var aspectRatio := original.width as real / original.height as real;
    var exact := height as real * aspectRatio;
    TimesRatio(height, original.width, original.height);
    NearestMultiple(Round(exact), exact, original.height, height * original.width);
    Round(exact)
  }

  lemma DividedByRatio(v: int, n: int, d: int)
    requires 0 < n && 0 < d
    ensures (v as real / (n as real / d as real)) * n as real == (v * d) as real
  {
    var ratio := n as real / d as real;
    assert ratio * d as real == n as real;
    var x := v as real / ratio;
    assert x * ratio == v as real;
    assert x * n as real == x * ratio * d as real;
  }

  lemma TimesRatio(v: int, n: int, d: int)
    requires 0 < n && 0 < d
    ensures (v as real * (n as real / d as real)) * d as real == (v * n) as real
  {
    var ratio := n as real / d as real;
    assert ratio * d as real == n as real;
  }

  /** An integer within half of `x` = `m / n` is, scaled by `n`, within half of `n` of `m`. */
  lemma NearestMultiple(r: int, x: real, n: int, m: int)
    requires 0 < n && x * n as real == m as real
    requires x - 0.5 < r as real <= x + 0.5
    ensures -n < 2 * (r * n - m) <= n
  {
    var nr := n as real;
    assert r as real * nr == (r * n) as real;
    assert (r as real - x) * nr == (r * n - m) as real;
    HalfBounds(r as real - x, nr, (r * n - m) as real);
    HalfFromReal(r * n - m, n);
  }

  /** A distance of at most a half, scaled by a positive factor, is at most half that factor. */
  lemma HalfBounds(d: real, scale: real, product: real)
    requires -0.5 < d <= 0.5 && 0.0 < scale && d * scale == product
    ensures -scale < 2.0 * product <= scale
  {
    assert (d + 0.5) * scale > 0.0;
    assert (0.5 - d) * scale >= 0.0;
  }

  lemma HalfFromReal(k: int, n: int)
    requires -(n as real) < 2.0 * k as real <= n as real
    ensures -n < 2 * k <= n
  {
  }

  /** An integer `k` with `-2n < 2 * k * n < 2n` for a positive `n` is zero. */
  lemma ZeroFromBound(k: int, n: int)
    requires 0 < n && -2 * n < 2 * (k * n) < 2 * n
    ensures k == 0
  {
  }

  /** Rounding twice through the aspect ratio returns the value started from when the second division is by
      the larger side: `v` scaled to `u` and back to `b`, within half of a pixel each time. */
  lemma RoundTripCore(v: int, u: int, b: int, small: int, large: int)
    requires 0 < small <= large
    requires -small < 2 * (u * small - v * large) <= small
    requires -large < 2 * (b * large - u * small) <= large
    ensures b == v
  {
    if small == large {
      assert u * small - v * large == (u - v) * small;
      ZeroFromBound(u - v, small);
      assert b * large - u * small == (b - u) * large;
      ZeroFromBound(b - u, large);
    } else {
      assert (b - v) * large == (b * large - u * small) + (u * small - v * large);
      ZeroFromBound(b - v, large);
    }
  }

  /** Typing the original width back in gives the original height. */
  lemma LockedHeightOfOriginalWidth(original: ImageData)
    requires Decoded(original)
    ensures LockedHeight(original.width, original) == original.height
  {
    var h := LockedHeight(original.width, original);
    assert h * original.width - original.width * original.height == (h - original.height) * original.width;
    ZeroFromBound(h - original.height, original.width);
  }

  /** Typing the original height back in gives the original width. */
  lemma LockedWidthOfOriginalHeight(original: ImageData)
    requires Decoded(original)
    ensures LockedWidth(original.height, original) == original.width
  {
    var w := LockedWidth(original.height, original);
    assert w * original.height - original.height * original.width == (w - original.width) * original.height;
    ZeroFromBound(w - original.width, original.height);
  }

  /** For an original at least as wide as it is tall (a side-by-side merge nearly always is), a height
      entered with the lock on survives the round trip: the width it produces gives that height back. */
  lemma HeightSurvivesRoundTrip(height: int, original: ImageData)
    requires Decoded(original) && original.height <= original.width
    ensures LockedHeight(LockedWidth(height, original), original) == height
  {
    var w := LockedWidth(height, original);
    RoundTripCore(height, w, LockedHeight(w, original), original.height, original.width);
  }

  /** For an original at least as tall as it is wide, a width entered with the lock on survives the round
      trip in the same way. */
  lemma WidthSurvivesRoundTrip(width: int, original: ImageData)
    requires Decoded(original) && original.width <= original.height
    ensures LockedWidth(LockedHeight(width, original), original) == width
  {
    var h := LockedHeight(width, original);
    RoundTripCore(width, h, LockedWidth(h, original), original.width, original.height);
  }

  /** The settings after an `input` event on the width field, whose parsed content is `entered` (None when
      the field is empty). The width is stored as `parseInt(..) || null`; with the lock checkbox ticked
      (`locked`), a merged image on record and a non-empty field, the height is recomputed from the aspect
      ratio. The lock is the checkbox itself, not the settings' copy of it. */
  function AfterWidthInput(s: Settings, locked: bool, original: Option<ImageData>, entered: Option<int>): (r: Settings)
    requires original.Some? ==> Decoded(original.value)
    ensures r.customWidth == OrNull(entered)
    ensures locked && original.Some? && entered.Some? ==>
      r.customHeight == Some(LockedHeight(entered.value, original.value))
    ensures !(locked && original.Some? && entered.Some?) ==> r.customHeight == s.customHeight
    ensures r.(customWidth := s.customWidth, customHeight := s.customHeight) == s
  {
    var stored := s.(customWidth := OrNull(entered));
    if locked && original.Some? && entered.Some? then
      stored.(customHeight := Some(LockedHeight(entered.value, original.value)))
    else
      stored
  }

  /** The settings after an `input` event on the height field: the mirror image of AfterWidthInput. */
  function AfterHeightInput(s: Settings, locked: bool, original: Option<ImageData>, entered: Option<int>): (r: Settings)
    requires original.Some? ==> Decoded(original.value)
    ensures r.customHeight == OrNull(entered)
    ensures locked && original.Some? && entered.Some? ==>
      r.customWidth == Some(LockedWidth(entered.value, original.value))
    ensures !(locked && original.Some? && entered.Some?) ==> r.customWidth == s.customWidth
    ensures r.(customWidth := s.customWidth, customHeight := s.customHeight) == s
  {
    var stored := s.(customHeight := OrNull(entered));
    if locked && original.Some? && entered.Some? then
      stored.(customWidth := Some(LockedWidth(entered.value, original.value)))
    else
      stored
  }

  /** With the lock ticked, a non-zero width entered for a merged image on record is stored as entered and the
      stored height gives the pair the original's aspect ratio to within half a pixel. */
  lemma WidthInputKeepsAspectRatio(s: Settings, original: ImageData, width: int)
    requires Decoded(original) && width != 0
    ensures var r := AfterWidthInput(s, true, Some(original), Some(width));
      && r.customWidth == Some(width)
      && r.customHeight.Some?
      && -original.width < 2 * (r.customHeight.value * original.width - width * original.height) <= original.width
  {
  }

  /** With the lock ticked, a non-zero height entered is stored as entered and the stored width gives the pair
      the original's aspect ratio to within half a pixel. */
  lemma HeightInputKeepsAspectRatio(s: Settings, original: ImageData, height: int)
    requires Decoded(original) && height != 0
    ensures var r := AfterHeightInput(s, true, Some(original), Some(height));
      && r.customHeight == Some(height)
      && r.customWidth.Some?
      && -original.height < 2 * (r.customWidth.value * original.height - height * original.width) <= original.height
  {
  }
}
