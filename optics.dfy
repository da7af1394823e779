/**
 * The derived quantities of the simulator: the smallest real focal allowed
 * for a sensor, the real focal derived from the stored full-frame
 * equivalent, the displayed equivalent, the zoom of the preview and the
 * clamp applied to the slider. All arithmetic is exact over `real`;
 * JavaScript's `Math.round` is rounding to the nearest integer with ties
 * going up.
 */
module Optics {
  import opened Sensors

  /** Focal (full-frame equivalent) at which the sample image was taken: zoom x1. */
  const ReferenceFocalFF: int := 18
  /** Lower bound of the focal slider (its upper bound, 600 mm, only enters the curve of `SliderToFocal`). */
  const MinFocal: int := 7

  /** `Math.round`: the nearest integer, halves rounded towards +infinity. */
  function Round(x: real): (r: int)
    ensures x - 0.5 < r as real <= x + 0.5
  {
    (x + 0.5).Floor
  }

  lemma RoundMonotone(x: real, y: real)
    requires x <= y
    ensures Round(x) <= Round(y)
  {
  }

  lemma RoundWhole(n: int)
    ensures Round(n as real) == n
  {
  }

  /**
   * The smallest real focal offered for a sensor: the whole focal nearest
   * to the one that gives the 18 mm reference once multiplied by the crop.
   */
  function MinFocalForSensor(crop: real): (r: int)
    requires crop > 0.0
    ensures ReferenceFocalFF as real - crop / 2.0 < r as real * crop <= ReferenceFocalFF as real + crop / 2.0
  {
    var q := ReferenceFocalFF as real / crop;
    var m := Round(q);
    MinFocalBounds(q, m, crop);
    m
  }

  lemma MinFocalBounds(q: real, m: int, crop: real)
    requires crop > 0.0 && q == ReferenceFocalFF as real / crop
    requires q - 0.5 < m as real <= q + 0.5
    ensures ReferenceFocalFF as real - crop / 2.0 < m as real * crop <= ReferenceFocalFF as real + crop / 2.0
  {
    var lo, hi := q - 0.5, q + 0.5;
    ScaleStrict(lo, m as real, crop);
    ScaleWeak(m as real, hi, crop);
    assert q * crop == ReferenceFocalFF as real;
    assert lo * crop == q * crop - 0.5 * crop;
    assert hi * crop == q * crop + 0.5 * crop;
  }

  lemma ScaleStrict(a: real, b: real, c: real)
    requires a < b && c > 0.0
    ensures a * c < b * c
  {
    assert b * c - a * c == (b - a) * c;
  }

  lemma ScaleWeak(a: real, b: real, c: real)
    requires a <= b && c > 0.0
    ensures a * c <= b * c
  {
    assert b * c - a * c == (b - a) * c;
  }

  /**
   * The real focal derived from the stored full-frame equivalent: the
   * nearest whole focal, but never below the sensor's minimum.
   */
  function FocalLength(equivalentFF: real, crop: real): (r: int)
    requires crop > 0.0
    ensures r >= MinFocalForSensor(crop)
    ensures r >= Round(equivalentFF / crop)
    ensures r == MinFocalForSensor(crop) || r == Round(equivalentFF / crop)
  {
    var calculated := Round(equivalentFF / crop);
    var minimum := MinFocalForSensor(crop);
    if calculated >= minimum then calculated else minimum
  }

  /** Full-frame equivalent of a whole real focal, unrounded: what the handlers store. */
  function FullFrameOf(focal: int, crop: real): (r: real)
    ensures crop == 1.0 ==> r == focal as real
    ensures focal >= 0 && crop >= 1.0 ==> r >= focal as real
  {
    focal as real * crop
  }

  /** The full-frame equivalent shown to the user, recomputed from the real focal. */
  function EquivalentFocalLength(focal: int, crop: real): (r: int)
    ensures FullFrameOf(focal, crop) - 0.5 < r as real <= FullFrameOf(focal, crop) + 0.5
  {
    Round(FullFrameOf(focal, crop))
  }

  /**
   * Scale of the preview image: exactly 1 at the 18 mm reference, and at
   * least 1 exactly from the reference on.
   */
  function ZoomScale(equivalent: int): (z: real)
    ensures z == 1.0 <==> equivalent == ReferenceFocalFF
    ensures z >= 1.0 <==> equivalent >= ReferenceFocalFF
  {
    equivalent as real / ReferenceFocalFF as real
  }

  /**
   * Focal picked by the slider. `curve` stands for the logarithmic mapping
   * of the slider position onto [7 mm, 600 mm]
   * (`exp(ln 7 + s / 100 * (ln 600 - ln 7))`); only the rounding and the
   * final clamp to the sensor's minimum are modelled.
   */
  function SliderToFocal(sliderValue: real, curve: real -> real, minFocalForSensor: int): (r: int)
    ensures r >= minFocalForSensor
    ensures r >= Round(curve(sliderValue))
    ensures r == minFocalForSensor || r == Round(curve(sliderValue))
  {
    var focal := Round(curve(sliderValue));
    if focal >= minFocalForSensor then focal else minFocalForSensor
  }

  /** The minimum focal of each catalog sensor, and the equivalent it maps back to. */
  lemma MinimumFocalsOfCatalog()
    ensures MinFocalForSensor(1.0) == 18 && EquivalentFocalLength(18, 1.0) == 18
    ensures MinFocalForSensor(1.6) == 11 && EquivalentFocalLength(11, 1.6) == 18
    ensures MinFocalForSensor(1.5) == 12 && EquivalentFocalLength(12, 1.5) == 18
    ensures MinFocalForSensor(2.0) == 9 && EquivalentFocalLength(9, 2.0) == 18
    ensures MinFocalForSensor(2.7) == 7 && EquivalentFocalLength(7, 2.7) == 19
  {
  }

  /** For every catalog crop, the minimum focal maps back to at least the reference. */
  lemma MinimumMapsBackToReference(crop: real)
    requires crop in CatalogCrops
    ensures EquivalentFocalLength(MinFocalForSensor(crop), crop) >= ReferenceFocalFF
  {
    MinimumFocalsOfCatalog();
  }

  /**
   * The displayed equivalent never drops below the 18 mm reference, so the
   * preview zoom is never below x1, for every catalog sensor and whatever
   * the stored equivalent holds.
   */
  lemma EquivalentNeverBelowReference(key: string, equivalentFF: real)
    requires key in Catalog
    ensures EquivalentFocalLength(FocalLength(equivalentFF, CropOf(key)), CropOf(key)) >= ReferenceFocalFF
    ensures ZoomScale(EquivalentFocalLength(FocalLength(equivalentFF, CropOf(key)), CropOf(key))) >= 1.0
  {
    var c := CropOf(key);
    var m := MinFocalForSensor(c);
    var f := FocalLength(equivalentFF, c);
    ScaleWeak(m as real, f as real, c);
    RoundMonotone(FullFrameOf(m, c), FullFrameOf(f, c));
    MinimumMapsBackToReference(c);
  }

  /**
   * The guarantee rests on the catalog: a sensor with crop factor 4.2 would
   * get minimum focal 4, shown as 17 mm equivalent.
   */
  lemma OffCatalogCropUndershoots()
    ensures MinFocalForSensor(4.2) == 4
    ensures EquivalentFocalLength(MinFocalForSensor(4.2), 4.2) == 17
  {
  }

  /**
   * While the stored equivalent is at least the reference, the clamp in
   * `FocalLength` never binds: the real focal is the nearest whole focal
   * to equivalent / crop.
   */
  lemma ClampInactiveAboveReference(equivalentFF: real, crop: real)
    requires crop > 0.0 && equivalentFF >= ReferenceFocalFF as real
    ensures FocalLength(equivalentFF, crop) == Round(equivalentFF / crop)
  {
    var q := ReferenceFocalFF as real / crop;
    var e := equivalentFF / crop;
    assert q * crop == ReferenceFocalFF as real;
    assert e * crop == equivalentFF;
    if e < q {
      ScaleStrict(e, q, crop);
      assert false;
    }
    RoundMonotone(q, e);
  }

  /** Zoom is strictly increasing in the displayed equivalent. */
  lemma ZoomScaleOrder(e1: int, e2: int)
    ensures e1 < e2 <==> ZoomScale(e1) < ZoomScale(e2)
  {
  }

  /**
   * Storing `f * crop` for a whole focal at or above the sensor minimum
   * makes the derived real focal exactly `f`.
   */
  lemma StoredEquivalentYieldsFocal(f: int, crop: real)
    requires crop > 0.0 && f >= MinFocalForSensor(crop)
    ensures FocalLength(FullFrameOf(f, crop), crop) == f
  {
    assert (f as real * crop) / crop == f as real;
    RoundWhole(f);
  }
}
