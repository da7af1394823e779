# Focal-length simulator: a Dafny model

This project models the computational core of a small photography
simulator (`src/App.tsx`): the user picks a camera sensor from a fixed
catalog and a focal length, and the simulator shows the real focal, its
full-frame equivalent, a zoomed preview of a landscape shot at 18 mm
full-frame equivalent, and the lens category.

The model has five modules:

- `Sensors` (`sensors.dfy`): the five-entry sensor catalog, keyed by the
  names the selector shows, with exact decimal crop factors
  (1, 1.6, 1.5, 2, 2.7).
- `Optics` (`optics.dfy`): the constants (18 mm reference, 7 mm slider
  minimum; the 600 mm maximum only enters the abstract slider `curve`), `Math.round` as `Round` (nearest integer, halves rounded
  up), and the derived quantities: `MinFocalForSensor`, `FocalLength`,
  `EquivalentFocalLength`, `ZoomScale` and the clamp of `SliderToFocal`.
- `Lens` (`lens.dfy`): the six-way lens category table.
- `Filters` (`filters.dfy`): the quick-select and slider-mark filters.
- `Simulator` (`simulator.dfy`): the two state cells (stored full-frame
  equivalent, selected sensor key) as a class `FocalSimulator` with the
  three event handlers and a `Render` method that derives what a render
  shows.

The central fact is that the displayed equivalent never drops below the
18 mm reference. So the preview zoom is never below x1, for every catalog
sensor and whatever value the stored equivalent holds
(`Optics.EquivalentNeverBelowReference`). The fact depends on the
catalog: a sensor with crop factor 4.2 would show 17 mm at its minimum
(`Optics.OffCatalogCropUndershoots`). On the 1-inch sensor the minimum
focal, 7 mm, shows as 19 mm, so the smallest zoom there is 19/18 rather
than exactly x1. The slider handler's clamp to 18 mm binds on Canon
APS-C, where the smallest focal, 11 mm, multiplies to 17.6 mm
(`Simulator.SliderClampBinds`); it is what keeps the stored equivalent at
or above 18 mm.

The stored equivalent stays at or above 18 mm in every reachable state.
This is the class invariant `Valid()`. The slider handler keeps it by its
explicit clamp. The quick-select handler keeps it because every button
left visible for a catalog sensor multiplies to at least 18 mm.

The code has no upper cap on the zoom. The stored value is the full-frame
equivalent, not the focal. `focalToSlider` does not clamp.

## Model

| member | source | states |
|---|---|---|
| `Sensors.CropOf` | src/App.tsx:41-42 | the crop factor of a selected key is one of the five catalog values and at least 1 |
| `Sensors.CatalogWellFormed` | src/App.tsx:18-24 | the catalog has exactly the five keys; every entry has positive crop factor, width and height; full frame has crop factor exactly 1 |
| `Optics.Round` | src/App.tsx:46 | `Math.round`: the result is the integer within half a unit of the input, ties going up |
| `Optics.MinFocalForSensor` | src/App.tsx:44-47 | the minimum focal times the crop lies within half a crop of the 18 mm reference |
| `Optics.FocalLength` | src/App.tsx:49-53 | the derived real focal is a whole number, never below the sensor minimum nor below the rounded equivalent/crop, and equals one of the two |
| `Optics.EquivalentFocalLength` | src/App.tsx:55-56 | the displayed equivalent is within half a millimetre of focal times crop |
| `Optics.SliderToFocal` | src/App.tsx:93-99 | whatever the logarithmic curve returns, the slider focal is never below the sensor minimum and is the rounded curve value unless clamped |
| `Optics.MinimumFocalsOfCatalog` | src/App.tsx:44-56 | minimum focals 18/11/12/9/7 for the five sensors, shown as 18/18/18/18/19 mm |
| `Optics.MinimumMapsBackToReference` | src/App.tsx:44-56 | for every catalog crop, the minimum focal shows at least 18 mm |
| `Optics.EquivalentNeverBelowReference` | src/App.tsx:44-68 | for every catalog sensor and every stored equivalent, the displayed equivalent is at least 18 mm and the zoom at least 1 |
| `Optics.OffCatalogCropUndershoots` | src/App.tsx:44-56 | with crop 4.2 (not in the catalog) the minimum focal 4 shows 17 mm: the guarantee depends on the catalog |
| `Optics.ClampInactiveAboveReference` | src/App.tsx:49-53 | when the stored equivalent is at least 18 mm, the max-clamp never binds and the focal is the rounded equivalent/crop |
| `Optics.ZoomScale` | src/App.tsx:64-68 | zoom is 1 exactly at 18 mm, and at least 1 exactly from 18 mm on |
| `Optics.ZoomScaleOrder` | src/App.tsx:64-68 | zoom is strictly increasing in the displayed equivalent, both directions |
| `Optics.FullFrameOf` | src/App.tsx:102-112 | the unrounded equivalent the handlers store, focal times crop: equal to the focal on full frame and, for a non-negative focal, never shorter than it for crops of at least 1 |
| `Optics.StoredEquivalentYieldsFocal` | src/App.tsx:50-53 | storing focal times crop, for a focal at or above the minimum, makes the derived focal equal that focal |
| `Lens.Classify` | src/App.tsx:70-78 | the category's rank equals the number of boundaries 20, 35, 60, 90, 300 the focal has reached |
| `Lens.BoundariesReached` | src/App.tsx:71-77 | the boundary count is the sum of one indicator per threshold of the table |
| `Lens.LensType.Label` | src/App.tsx:72-77 | the six badge labels, each non-empty; that they are pairwise different is `Lens.LabelsDistinct` |
| `Lens.CountReachedMonotone` | src/App.tsx:70-78 | a larger focal reaches no fewer boundaries |
| `Lens.ClassifyMonotone` | src/App.tsx:70-78 | the category never moves back towards the wide end as the equivalent grows |
| `Lens.ClassifyIntervals` | src/App.tsx:71-77 | each of the six categories is given exactly on its interval, in both directions |
| `Lens.LabelsDistinct` | src/App.tsx:72-77 | the six badge labels are pairwise different |
| `Filters.KeepAtLeast` | src/App.tsx:354 | the filter keeps exactly the elements at or above the bound |
| `Filters.KeepAtLeastAppend` | src/App.tsx:354 | the filter distributes over concatenation, so kept elements keep their original order |
| `Filters.KeepAtLeastAllPass` | src/App.tsx:118 | a list whose elements all pass is returned unchanged |
| `Filters.FirstAtLeast` | src/App.tsx:354 | the index of the first element at or above the bound: all earlier ones are below it |
| `Filters.KeepAtLeastAscendingSuffix` | src/App.tsx:354 | on an ascending list the filter returns the suffix starting at the first passing element |
| `Filters.VisibleQuickFocals` | src/App.tsx:354 | the visible buttons are exactly the listed focals at or above the sensor minimum |
| `Filters.VisibleQuickFocalsSuffix` | src/App.tsx:354 | the visible buttons are a suffix of the button list, in list order |
| `Filters.SliderMarks` | src/App.tsx:117-118 | no mark is below the 7 mm slider minimum, so the drawn marks are exactly the candidate list: the filter is the identity |
| `Filters.VisibleQuickFocalAboveReference` | src/App.tsx:110-112 | every visible button of a catalog sensor stores an equivalent of at least 18 mm |
| `Simulator.FocalSimulator.constructor` | src/App.tsx:37-39 | initial state: 18 mm stored equivalent, full-frame sensor, invariant established |
| `Simulator.FocalSimulator.Render` | src/App.tsx:41-78 | the readout's focal, equivalent, zoom, category and visible buttons; focal at least the minimum and unclamped, equivalent at least 18, zoom at least 1 |
| `Simulator.MaxReal` | src/App.tsx:106 | `Math.max`: the result is at least both arguments and is one of them |
| `Simulator.FocalSimulator.HandleSliderChange` | src/App.tsx:101-107 | stores the larger of the clamped slider focal times crop and 18, keeps the sensor and the invariant |
| `Simulator.FocalSimulator.HandleQuickFocal` | src/App.tsx:109-112 | stores focal times crop, keeps the sensor and the invariant, and the clicked focal becomes the derived focal, so its button is highlighted |
| `Simulator.FocalSimulator.SelectSensor` | src/App.tsx:256-258 | replaces the sensor key by a catalog key and leaves the stored equivalent unchanged |
| `Simulator.WorkedExamples` | src/App.tsx:50-78 | 50 mm on full frame shows 50 mm, Standard; 18 mm on Canon APS-C shows 29 mm, wide angle |
| `Simulator.SliderClampBinds` | src/App.tsx:102-107 | on Canon APS-C the minimum focal times crop is exactly 17.6, below 18, and the clamp `MaxReal(17.6, 18)` of the slider handler yields 18 |

## Left out

- Rendering: all JSX, Chakra components, the CSS scale transform, badges, colours (including greying of marks below the minimum), the image URL and the option list of the selector. These are UI.
- `angleOfView` (`Math.atan`, `Math.sqrt`) and the SVG wedge geometry (`Math.cos`, `Math.sin`). These are floating-point drawing numerics.
- `focalToSlider`, `blockedSliderPosition` and the numeric content of `sliderToFocal` (`Math.log`, `Math.exp`). The logarithmic curve is a parameter `curve` of `SliderToFocal` and `HandleSliderChange`; only the rounding and the final clamp are modelled. The slider's 0..100 range and 0.5 step are not modelled either, because the curve is arbitrary.
- `toFixed` formatting and `useMemo` caching. Memoisation does not change values.
- IEEE-754 effects: crop factors such as 1.6 and 2.7 and all products are exact reals, not doubles. A last-bit difference in a double product could in principle move a value across a rounding tie.
- Sensor keys outside the catalog: `SelectSensor` requires a catalog key, because the selector only offers catalog keys and an unknown key would make the sensor lookup fail.
- Clicks on buttons that are not shown: the quick-select handler requires the clicked focal to be a visible button, because only visible buttons have a click handler.
