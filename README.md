# Farm-mapping dashboard core, modelled in Dafny

The dashboard lets a user trace a field boundary on a map. It computes the
enclosed area, shows it in Thai land units (rai, ngan, square wa), and
estimates the daily irrigation water from the selected crop and soil profiles.
This project models three parts of it and proves their properties:

- **Area engine** (`utils/geometry.ts`, `calculateArea`). Each coordinate is
  projected equirectangularly with Earth radius 6378137 m. The projected points
  go through the shoelace formula as a closed ring: term `i` pairs point `i`
  with point `(i + 1) % n`. The result is half the absolute sum, or 0 below
  three points.
  - `Math.PI` and `Math.cos` are kept abstract in the datatype `Geometry.Trig`.
    Every theorem holds whatever they are.
  - The loop is the method `Geometry.CalculateArea`. It is proved equal to the
    recursive specification `Geometry.Area`, which is built from `Sum` over
    `RingTerms`.
  - Proved: the area is never negative, it is 0 below three points, and it does
    not change when the ring is rotated or reversed.
- **Thai-unit formatter** (`formatThaiArea`).
  - `Geometry.ThaiUnits` splits an area the way the code does: `Math.floor`,
    then JavaScript's `%`, whose result takes the sign of the dividend.
  - `Geometry.FormatThaiArea` lays out the string. `JsNumber` models
    `toFixed(2)` and integer interpolation.
  - Proved: the parts add back to the area, and each part stays in its range,
    with wa taken before rounding. The wa figure is rounded after the split, so
    1599.99 m² shows as 0 rai, 3 ngan and 100.00 square wa
    (`Geometry.ThaiUnitsWaRoundsToHundred`).
  - Proved: the split is unique, and for whole square metres the printed
    figures rebuild the area exactly.
  - Proved: the output for 0, 1600 and 2000 m².
- **Session and water demand** (`App.tsx`).
  - `App.FarmSession` is a class holding the `FarmState` record, the system log
    and the advice slot. Its methods mirror the component's handlers.
  - Its invariant is `Valid()`: `areaSqm` is the area of the current points,
    and the log holds 1 to 5 lines.
  - `App.DailyWater` is the estimate `area × (crop need || 0) × (soil factor || 1)`.
    It uses first-match lookups modelled on `Array.prototype.find`.

The two async handlers take the collaborator's reply as a parameter. Each one
returns what it would have sent to the collaborator.

Files: `types.dfy` (the records of `types.ts`), `js_number.dfy` (the JavaScript
number operations used), `geometry.dfy`, `app.dfy`.

The model follows the code in three places where it departs from the intended behaviour:

- A negative area is meant to show as zeros, but `formatThaiArea` does not give three zeros. JavaScript's
  `%` keeps the sign, so -1 m² gives -1 rai, -1 ngan and -0.25 square wa
  (`Geometry.ThaiUnitsNegativeExample`). The dashboard never passes a negative
  area, because `calculateArea` cannot return one.
- The estimator is meant to return a known soil id, but its reply is not checked against the soil table.
  An unknown id is stored as is, and the water estimate then falls back to a
  factor of 1.
- The water estimate is meant to grow with the area, the water need and the
  retention factor. It does grow with the area and the need
  (`App.DailyWaterMonotone`, `App.DailyWaterMonotoneNeed`), and with any
  non-zero factor (`App.DailyWaterMonotoneFactor`). But `retentionFactor || 1`
  reads a factor of 0 as 1. So 1 m² of a crop needing 1 L gets 1 L on a soil
  with factor 0 and 0.5 L on a soil with factor 0.5
  (`App.DailyWaterFactorZeroExceedsHalf`).

## Model

| member | source | states |
|---|---|---|
| `Geometry.PolygonArea` | utils/geometry.ts:9-27 | the planar ring's area is never negative and is 0 for fewer than three points |
| `Geometry.Area` | utils/geometry.ts:8-28 | the area of a traced boundary (projection, then shoelace) is never negative and is 0 for fewer than three coordinates |
| `Geometry.CalculateArea` | utils/geometry.ts:8-28 | the accumulating loop returns exactly the recursive shoelace area of the projected ring, hence a non-negative value, 0 below three points |
| `Geometry.RingTerms` | utils/geometry.ts:14-16 | there is one term per point, and the last term closes the ring by pairing the last point with the first |
| `Geometry.RingTermsRotate` | utils/geometry.ts:14-24 | starting the ring at point k rotates the sequence of cross terms by k |
| `Geometry.PolygonAreaRotate` | utils/geometry.ts:14-27 | rotating the starting point leaves the planar area unchanged |
| `Geometry.AreaRotate` | utils/geometry.ts:8-28 | rotating the traced coordinates leaves the computed area unchanged |
| `Geometry.RingTermsReverse` | utils/geometry.ts:14-24 | reversing the points negates every cross term (first n-1 reversed, closing term kept last) |
| `Geometry.ShoelaceSumReverse` | utils/geometry.ts:14-25 | reversing the orientation negates the signed shoelace sum |
| `Geometry.PolygonAreaReverse` | utils/geometry.ts:24-27 | the absolute value cancels the sign flip: reversal leaves the planar area unchanged |
| `Geometry.AreaReverse` | utils/geometry.ts:8-28 | tracing the boundary in the opposite direction leaves the computed area unchanged |
| `Geometry.SumConcat` | utils/geometry.ts:12-25 | the accumulated sum of two runs of terms is the sum of their sums |
| `Geometry.RectangleArea` | utils/geometry.ts:12-27 | a known value: a w-by-h axis-aligned rectangle has area w·h |
| `Geometry.ThaiUnits` | utils/geometry.ts:31-35 | for sqm ≥ 0: 1600·rai + 400·ngan + 4·wa = sqm (wa before rounding), rai ≥ 0, ngan in 0..3, wa in [0, 100) |
| `Geometry.ThaiUnitsUnique` | utils/geometry.ts:31-35 | any rai ≥ 0, ngan in 0..3, wa in [0, 100) that rebuild sqm are exactly the split the code computes |
| `Geometry.FormatWholeAreaExact` | utils/geometry.ts:35-37 | for whole square metres the string shows rai, ngan and wa unsigned and in that order, and the printed figures read back rebuild the area exactly |
| `Geometry.FormatThaiAreaExamples` | utils/geometry.ts:30-38 | 0, 1600 and 2000 m² print as "0 ไร่ 0 งาน 0.00 ตร.ว.", "1 ไร่ 0 งาน 0.00 ตร.ว." and "1 ไร่ 1 งาน 0.00 ตร.ว." |
| `Geometry.ThaiUnitsNegativeExample` | utils/geometry.ts:31-34 | with JavaScript's sign-keeping `%`, -1 m² splits into -1 rai, -1 ngan and -0.25 square wa, not zeros |
| `Geometry.ThaiUnitsWaRoundsToHundred` | utils/geometry.ts:31-37 | wa is rounded after the split: 1599.99 m² splits into 0 rai, 3 ngan, 99.9975 wa and prints as "0 ไร่ 3 งาน 100.00 ตร.ว." |
| `JsNumber.Floor` | utils/geometry.ts:31 | `Math.floor` returns the greatest integer not above its argument |
| `JsNumber.Trunc` | utils/geometry.ts:32 | the quotient behind `%` rounds toward zero |
| `JsNumber.Rem` | utils/geometry.ts:32-34 | `x % m` lies in [0, m) for x ≥ 0 and in (-m, 0] for x < 0, and equals x - m·floor(x/m) for x ≥ 0 |
| `JsNumber.NatToString` | utils/geometry.ts:37 | an integer is written as a non-empty numeral of decimal digits with no leading zero |
| `JsNumber.ParseNatToString` | utils/geometry.ts:37 | reading a written numeral back gives the number |
| `JsNumber.Hundredths` | utils/geometry.ts:35 | `toFixed(2)` picks the hundredths count nearest to 100·x, the larger on a tie |
| `JsNumber.ToFixed2` | utils/geometry.ts:35 | for x ≥ 0 the rendering ends in a point and exactly two decimals |
| `JsNumber.ToFixed2Value` | utils/geometry.ts:35 | for x ≥ 0 the rendered string denotes x rounded to the nearest hundredth |
| `JsNumber.ToFixed2Exact` | utils/geometry.ts:35 | when 100·x is whole, the rendering denotes x exactly |
| `App.Find` | App.tsx:74-75 | `find` returns nothing exactly when no element matches, and otherwise returns the element at the first matching index |
| `App.FindFirst` | App.tsx:74-75 | the element at the first matching index is the one `find` returns |
| `App.DailyWaterFirstMatch` | App.tsx:74-78 | with both ids found, the daily water is area × need × factor of the first matching crop and soil |
| `App.DailyWaterUnknownCrop` | App.tsx:74-78 | an unknown crop id gives 0 litres |
| `App.DailyWaterNeutralSoil` | App.tsx:75-78 | an unknown soil id, or a first-matching soil whose factor is 0, gives a factor of 1 |
| `App.DailyWaterZeroArea` | App.tsx:78 | no area, no water |
| `App.DailyWaterNonNegative` | App.tsx:78 | with non-negative profile values and area, the estimate is non-negative |
| `App.DailyWaterMonotone` | App.tsx:78 | with non-negative profile values, a larger area never gives less water |
| `App.DailyWaterMonotoneNeed` | App.tsx:74-78 | with the crop found first at i, a non-negative area and non-negative soil factors, raising that crop's need never lowers the water |
| `App.DailyWaterMonotoneFactor` | App.tsx:75-78 | with the soil found first at j, a non-negative area and non-negative needs, raising that soil's non-zero factor never lowers the water |
| `App.DailyWaterFactorZeroExceedsHalf` | App.tsx:75-78 | a factor of 0 is read as 1 by `|| 1`, so it gives more water (1 L) than a factor of 0.5 (0.5 L): the estimate is not monotone in the factor |
| `App.DailyWaterExample` | App.tsx:77-78 | 1000 m² × 5 L/m² × 1.2 = 6000 L |
| `App.PushLog` | App.tsx:71 | the new line comes first, followed by at most four older lines in their order; the log never exceeds five lines |
| `App.FarmSession.constructor` | App.tsx:10-22 | no points, area 0, the first crop and soil selected, irrigation off, no advice, exactly one log line |
| `App.FarmSession.AddPoint` | App.tsx:24-33 | the coordinate is appended after the earlier points, the area is recomputed from the new list, and nothing else changes |
| `App.FarmSession.ClearPoints` | App.tsx:35-38 | points emptied, area 0, advice cleared; crop, soil, irrigation and log unchanged |
| `App.FarmSession.SelectCrop` | App.tsx:119 | only the crop id changes; the area still matches the points |
| `App.FarmSession.SelectSoil` | App.tsx:139 | only the soil id changes; the area still matches the points |
| `App.FarmSession.ToggleIrrigation` | App.tsx:67-72 | only the irrigation status changes, and the matching message is pushed onto the capped log |
| `App.FarmSession.AutoSoilEstimate` | App.tsx:40-55 | without points nothing is asked and nothing changes; otherwise the first point is asked about, and only a reply with a non-empty soil id sets the soil (unchecked) and pushes its reason onto the log |
| `App.FarmSession.GetAdvice` | App.tsx:57-65 | with area ≤ 0 nothing is asked; otherwise the area and the selected profiles' names (or the default names) are sent and the reply, possibly none, replaces the advice |
| `App.FewPointsNoWater` | App.tsx:78-111 | in a valid session with fewer than three points the shown area reads "0 ไร่ 0 งาน 0.00 ตร.ว." and the daily water is 0 |

## Left out

- `Math.PI`, `Math.cos` and floating-point rounding are not modelled. Both
  constants are parameters, and all arithmetic is over exact reals. The
  theorems describe the formula, not its double-precision evaluation. The
  known value of about 12,365 m² for a 0.001° square near the equator depends
  on the cosine, so it is not proved. `Geometry.RectangleArea` checks the
  planar formula instead.
- Accuracy of the flat-plane approximation, polygons across the ±180° seam, NaN
  and infinities are not modelled. JavaScript's `||` also treats NaN as a
  missing value; the model has no NaN.
- JavaScript writes numbers of 10^21 or more in exponential notation, both in
  `${rai}` and in `toFixed`. The model always writes plain digits.
- `services/geminiService.ts` is not part of this model. Its network calls are
  foreign; the async handlers take their replies as parameters. The rai figure
  it writes into its prompt is left out with it.
- `components/AgriMap.tsx` is not part of this model. It only forwards a clicked
  or located `{lat, lng}`, which becomes the argument of `AddPoint`.
- `constants.ts` is not part of this model. The crop and soil tables are
  constructor parameters, and the constructor requires both to be non-empty, as
  `CROP_PROFILES[0]` and `SOIL_PROFILES[0]` do.
- The awaits and loading flags (`isLoadingAdvice`, `isEstimatingSoil`) are left
  out. Each handler runs as one step, so handlers cannot interleave.
- `alert`, `navigator.geolocation`, the JSX rendering and the `toLocaleString`
  rounding of the water figure are left out. `isRecording` is carried in
  `FarmState` unchanged, since nothing in the component sets it.
- The estimator's reply may lack a `soilId`. The model writes a missing id as
  the empty string, which the code treats the same way, since both are falsy.
