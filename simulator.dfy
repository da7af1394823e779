/**
 * The simulator's state: the stored full-frame equivalent (the source of
 * truth) and the selected sensor key, with the three event handlers that
 * overwrite them and the readout derived from them on every render.
 */
module Simulator {
  import opened Sensors
  import opened Optics
  import opened Lens
  import opened Filters

  /** What a render derives from the state. */
  datatype Readout = Readout(
    focalLength: int,
    equivalentFocalLength: int,
    zoomScale: real,
    lensType: LensType,
    quickFocals: seq<int>)

  function MaxReal(a: real, b: real): (m: real)
    ensures m >= a && m >= b && (m == a || m == b)
  {
    if a >= b then a else b
  }

  class FocalSimulator {
    var equivalentFF: real
    var sensorKey: string

    /** The selected sensor is in the catalog and the stored equivalent never drops below the reference. */
    ghost predicate Valid()
      reads this
    {
      sensorKey in Catalog && equivalentFF >= ReferenceFocalFF as real
    }

    /** Initial state: 18 mm equivalent on a full-frame sensor. */
    constructor ()
      ensures Valid()
      ensures equivalentFF == ReferenceFocalFF as real && sensorKey == FullFrameKey
    {
      equivalentFF := ReferenceFocalFF as real;
      sensorKey := FullFrameKey;
    }

    /**
     * The quantities a render shows. The real focal is never below the
     * sensor's minimum, the equivalent never below 18 mm and the zoom
     * never below x1; the clamp on the real focal never binds.
     */
    method Render() returns (d: Readout)
      requires Valid()
      ensures d.focalLength == FocalLength(equivalentFF, CropOf(sensorKey))
      ensures d.focalLength == Round(equivalentFF / CropOf(sensorKey))
      ensures d.focalLength >= MinFocalForSensor(CropOf(sensorKey))
      ensures d.equivalentFocalLength == EquivalentFocalLength(d.focalLength, CropOf(sensorKey))
      ensures d.equivalentFocalLength >= ReferenceFocalFF
      ensures d.zoomScale == ZoomScale(d.equivalentFocalLength) && d.zoomScale >= 1.0
      ensures d.lensType == Classify(d.equivalentFocalLength)
      ensures d.quickFocals == VisibleQuickFocals(CropOf(sensorKey))
    {
      var crop := CropOf(sensorKey);
      var focal := FocalLength(equivalentFF, crop);
      var equivalent := EquivalentFocalLength(focal, crop);
      EquivalentNeverBelowReference(sensorKey, equivalentFF);
      ClampInactiveAboveReference(equivalentFF, crop);
      d := Readout(focal, equivalent, ZoomScale(equivalent), Classify(equivalent), VisibleQuickFocals(crop));
    }

    /** Slider moved to `sliderValue`; `curve` is the slider's logarithmic mapping. */
    method HandleSliderChange(sliderValue: real, curve: real -> real)
      requires Valid()
      modifies this
      ensures Valid() && sensorKey == old(sensorKey)
      ensures equivalentFF == MaxReal(
        FullFrameOf(SliderToFocal(sliderValue, curve, MinFocalForSensor(CropOf(sensorKey))), CropOf(sensorKey)),
        ReferenceFocalFF as real)
    {
      var crop := CropOf(sensorKey);
      var newFocal := SliderToFocal(sliderValue, curve, MinFocalForSensor(crop));
      var newEquivalent := FullFrameOf(newFocal, crop);
      equivalentFF := MaxReal(newEquivalent, ReferenceFocalFF as real);
    }

    /**
     * A quick-select button was clicked. Only visible buttons can be
     * clicked; afterwards the clicked focal is the derived real focal, so
     * that button is the highlighted one.
     */
    method HandleQuickFocal(f: int)
      requires Valid() && f in VisibleQuickFocals(CropOf(sensorKey))
      modifies this
      ensures Valid() && sensorKey == old(sensorKey)
      ensures equivalentFF == FullFrameOf(f, CropOf(sensorKey))
      ensures FocalLength(equivalentFF, CropOf(sensorKey)) == f
    {
      var crop := CropOf(sensorKey);
      VisibleQuickFocalAboveReference(crop, f);
      StoredEquivalentYieldsFocal(f, crop);
      equivalentFF := FullFrameOf(f, crop);
    }

    /** A sensor was picked in the selector; the stored equivalent is kept. */
    method SelectSensor(key: string)
      requires Valid() && key in Catalog
      modifies this
      ensures Valid() && sensorKey == key && equivalentFF == old(equivalentFF)
    {
      sensorKey := key;
    }
  }

  /**
   * Worked examples: 50 mm on full frame shows 50 mm, a standard lens;
   * 18 mm on Canon APS-C shows 29 mm (28.8 rounded), a wide angle.
   */
  lemma WorkedExamples()
    ensures FocalLength(50.0, CropOf(FullFrameKey)) == 50
    ensures EquivalentFocalLength(50, CropOf(FullFrameKey)) == 50 && Classify(50) == Standard
    ensures FocalLength(FullFrameOf(18, CropOf(ApsCCanonKey)), CropOf(ApsCCanonKey)) == 18
    ensures EquivalentFocalLength(18, CropOf(ApsCCanonKey)) == 29 && Classify(29) == Wide
  {
    MinimumFocalsOfCatalog();
    StoredEquivalentYieldsFocal(18, CropOf(ApsCCanonKey));
  }

  /**
   * The clamp to the reference in the slider handler binds: on the Canon
   * APS-C sensor the smallest slider focal, 11 mm, multiplies to 17.6 mm,
   * and the clamp stores 18 mm instead, which keeps `Valid()`.
   */
  lemma SliderClampBinds()
    ensures FullFrameOf(MinFocalForSensor(CropOf(ApsCCanonKey)), CropOf(ApsCCanonKey)) == 17.6
    ensures FullFrameOf(MinFocalForSensor(CropOf(ApsCCanonKey)), CropOf(ApsCCanonKey)) < ReferenceFocalFF as real
    ensures MaxReal(FullFrameOf(MinFocalForSensor(CropOf(ApsCCanonKey)), CropOf(ApsCCanonKey)), ReferenceFocalFF as real)
      == ReferenceFocalFF as real
  {
    MinimumFocalsOfCatalog();
  }
}
