/**
 * Pointer arithmetic of the scrubbing timeline: the pointer's horizontal position over
 * the timeline rectangle becomes a progress fraction in [0, 1], and the fraction, scaled
 * by the media duration, selects one preview thumbnail per 10-second bucket.
 *
 * Positions, widths, fractions and durations are `real`: exact arithmetic standing in
 * for the source's floating point.
 */
module Timeline {
  import Format

  function Max(a: real, b: real): real { if a >= b then a else b }
  function Min(a: real, b: real): real { if a <= b then a else b }

  lemma DivideMonotone(a: real, b: real, w: real)
    requires a <= b && w > 0.0
    ensures a / w <= b / w
  {
    var d := b / w - a / w;
    assert d * w == b - a;
  }

  /**
   * `Math.min(Math.max(0, x - rect.x), rect.width) / rect.width`: how far along the
   * timeline the pointer is, clamped to the rectangle.
   */
  function Fraction(x: real, left: real, width: real): (p: real)
    requires width > 0.0
    ensures 0.0 <= p <= 1.0
  {
    var offset := Min(Max(0.0, x - left), width);
    DivideMonotone(offset, width, width);
    DivideMonotone(0.0, offset, width);
    offset / width
  }

  /** Independent description of `Fraction`: 0 left of the bar, 1 right of it, linear between. */
  lemma FractionPiecewise(x: real, left: real, width: real)
    requires width > 0.0
    ensures x <= left ==> Fraction(x, left, width) == 0.0
    ensures x >= left + width ==> Fraction(x, left, width) == 1.0
    ensures left <= x <= left + width ==> Fraction(x, left, width) * width == x - left
  {
  }

  /** Moving the pointer right never moves the fraction left. */
  lemma FractionMonotone(x1: real, x2: real, left: real, width: real)
    requires width > 0.0 && x1 <= x2
    ensures Fraction(x1, left, width) <= Fraction(x2, left, width)
  {
    var o1 := Min(Max(0.0, x1 - left), width);
    var o2 := Min(Max(0.0, x2 - left), width);
    assert o1 <= o2;
    DivideMonotone(o1, o2, width);
  }

  /** `Math.max(1, Math.floor(percent * duration / 10))`: the preview thumbnail number. */
  function PreviewIndex(fraction: real, duration: real): (n: nat)
    ensures n >= 1
  {
    var bucket := (fraction * duration / 10.0).Floor;
    if bucket < 1 then 1 else bucket
  }

  /**
   * The bucket, described without `Floor`: thumbnail 1 stands for the first 20
   * seconds (and for any position before the start), thumbnail n >= 2 for the
   * seconds [10n, 10n + 10).
   */
  predicate InBucket(time: real, n: nat) {
    if n == 1 then time < 20.0 else n >= 2 && 10.0 * n as real <= time < 10.0 * (n + 1) as real
  }

  lemma PreviewIndexBucket(fraction: real, duration: real, n: nat)
    ensures PreviewIndex(fraction, duration) == n <==> InBucket(fraction * duration, n)
  {
    var t := fraction * duration;
    var b := (t / 10.0).Floor;
    assert b as real <= t / 10.0 < b as real + 1.0;
    if InBucket(t, n) {
      if n >= 2 {
        assert n as real <= t / 10.0 < n as real + 1.0;
      } else {
        assert t / 10.0 < 2.0;
      }
    }
  }

  /** On a timeline of `duration` seconds the thumbnail number never passes the last bucket. */
  lemma PreviewIndexBounded(fraction: real, duration: real)
    requires 0.0 <= fraction <= 1.0 && duration >= 0.0
    ensures PreviewIndex(fraction, duration) as real <= Max(1.0, duration / 10.0)
  {
    var t := fraction * duration;
    assert t <= duration by {
      assert fraction * duration <= 1.0 * duration;
    }
    var b := (t / 10.0).Floor;
    assert b as real <= t / 10.0;
  }

  /** The preview image path, `src/assets/previewImgs/preview${n}.jpg`. */
  function PreviewSource(n: nat): string {
    "src/assets/previewImgs/preview" + Format.NatToString(n) + ".jpg"
  }

  /** Different thumbnail numbers address different images. */
  lemma PreviewSourceInjective(m: nat, n: nat)
    requires PreviewSource(m) == PreviewSource(n)
    ensures m == n
  {
    var prefix := "src/assets/previewImgs/preview";
    var a, b := PreviewSource(m), PreviewSource(n);
    assert |a| == |b|;
    assert a[|prefix|..|a| - 4] == Format.NatToString(m);
    assert b[|prefix|..|b| - 4] == Format.NatToString(n);
    Format.NatToStringInjective(m, n);
  }
}
