/**
 * The two lists the simulator filters before rendering: the quick-select
 * focals (kept when the current sensor can reach them) and the slider
 * marks (kept when they lie on the slider).
 */
module Filters {
  import opened Sensors
  import opened Optics

  /** Quick-select focals, in the order the buttons are laid out. */
  const QuickFocals: seq<int> := [9, 12, 18, 24, 35, 50, 85, 135]
  /** Candidate slider marks. */
  const SliderMarkFocals: seq<int> := [7, 9, 12, 18, 24, 35, 50, 85, 135, 200, 400]

  /** `xs.filter(f => f >= lo)`. */
  function KeepAtLeast(xs: seq<int>, lo: int): (r: seq<int>)
    ensures forall x :: x in r <==> x in xs && x >= lo
    ensures |r| <= |xs|
  {
    if xs == [] then []
    else if xs[0] >= lo then [xs[0]] + KeepAtLeast(xs[1..], lo)
    else KeepAtLeast(xs[1..], lo)
  }

  /**
   * Filtering preserves the original order: it distributes over
   * concatenation, so each kept element stays in its place relative to
   * the others.
   */
  lemma {:induction false} KeepAtLeastAppend(xs: seq<int>, ys: seq<int>, lo: int)
    ensures KeepAtLeast(xs + ys, lo) == KeepAtLeast(xs, lo) + KeepAtLeast(ys, lo)
  {
    if xs != [] {
      assert (xs + ys)[0] == xs[0];
      assert (xs + ys)[1..] == xs[1..] + ys;
      KeepAtLeastAppend(xs[1..], ys, lo);
    } else {
      assert xs + ys == ys;
    }
  }

  /** A list whose elements all pass is returned unchanged. */
  lemma {:induction false} KeepAtLeastAllPass(xs: seq<int>, lo: int)
    requires forall i :: 0 <= i < |xs| ==> xs[i] >= lo
    ensures KeepAtLeast(xs, lo) == xs
  {
    if xs != [] {
      KeepAtLeastAllPass(xs[1..], lo);
    }
  }

  predicate StrictlyAscending(xs: seq<int>)
  {
    forall i, j :: 0 <= i < j < |xs| ==> xs[i] < xs[j]
  }

  /** Index of the first element at or above `lo` (|xs| when there is none). */
  function FirstAtLeast(xs: seq<int>, lo: int): (k: nat)
    ensures k <= |xs|
    ensures forall i :: 0 <= i < k ==> xs[i] < lo
    ensures k < |xs| ==> xs[k] >= lo
  {
    if xs == [] || xs[0] >= lo then 0 else 1 + FirstAtLeast(xs[1..], lo)
  }

  /** On an ascending list the filter keeps exactly a suffix. */
  lemma {:induction false} KeepAtLeastAscendingSuffix(xs: seq<int>, lo: int)
    requires StrictlyAscending(xs)
    ensures KeepAtLeast(xs, lo) == xs[FirstAtLeast(xs, lo)..]
  {
    if xs != [] {
      if xs[0] >= lo {
        KeepAtLeastAllPass(xs, lo);
      } else {
        KeepAtLeastAscendingSuffix(xs[1..], lo);
      }
    }
  }

  /** The quick-select buttons shown for a sensor. */
  function VisibleQuickFocals(crop: real): (r: seq<int>)
    requires crop > 0.0
    ensures forall f :: f in r <==> f in QuickFocals && f >= MinFocalForSensor(crop)
  {
    KeepAtLeast(QuickFocals, MinFocalForSensor(crop))
  }

  /** The buttons shown are a suffix of the layout, in layout order. */
  lemma VisibleQuickFocalsSuffix(crop: real)
    requires crop > 0.0
    ensures VisibleQuickFocals(crop) == QuickFocals[FirstAtLeast(QuickFocals, MinFocalForSensor(crop))..]
  {
    KeepAtLeastAscendingSuffix(QuickFocals, MinFocalForSensor(crop));
  }

  /**
   * The slider marks actually drawn. No candidate mark is below the
   * slider's minimum, so the filter drops nothing.
   */
  function SliderMarks(): (r: seq<int>)
    ensures r == SliderMarkFocals
  {
    var marks := SliderMarkFocals;
    assert forall i :: 0 <= i < |marks| ==> marks[i] >= MinFocal;
    KeepAtLeastAllPass(marks, MinFocal);
    KeepAtLeast(marks, MinFocal)
  }

  /**
   * Every visible button stores an equivalent of at least the reference:
   * for each catalog sensor the smallest visible focal times the crop
   * reaches 18 mm (18, 12 x 1.6, 12 x 1.5, 9 x 2 and 9 x 2.7).
   */
  lemma VisibleQuickFocalAboveReference(crop: real, f: int)
    requires crop in CatalogCrops && f in VisibleQuickFocals(crop)
    ensures FullFrameOf(f, crop) >= ReferenceFocalFF as real
  {
    MinimumFocalsOfCatalog();
    assert f in QuickFocals && f >= MinFocalForSensor(crop);
  }
}
