# SIDE_MERGE conversion core, in Dafny

SIDE_MERGE is a browser page that takes two uploaded images, draws them side by side on one canvas, and
re-encodes the merged picture in a chosen format, quality and size, so that the merged original and the
converted result can be compared. This project models the arithmetic and search under that page
(`index.js`), with the browser's canvas encoder taken as an abstract function, and proves what that
logic promises.

- `rounding.dfy` (`Rounding`): JavaScript's `Math.round` as `Floor(x + 0.5)`, and the truncation a canvas
  applies to a fractional width.
- `encoding.dfy` (`Encoding`): image records, the encoder oracle (format, quality, width, height ↦ length
  of the base64 payload of `toDataURL`), and the size estimate `round(base64Length * 3 / 4)`.
- `compositor.dfy` (`Compositor`): the side-by-side layout of `createMergedImage`: common height, per-image
  scaled widths, the 10-pixel gap, image 2's x offset, the truncated canvas width.
- `size_fitter.dfy` (`SizeFitter`): `findScaleForTargetFileSize`. The search is given twice: as
  specification functions (`Step`, `Run`, `Trials` over a `Search` record of `minScale`, `maxScale`,
  `bestScale`, `iterations`) about which the lemmas are proved, and as the imperative method
  `FindScaleForTargetFileSize`, whose `while` loop over `real` variables is proved to compute exactly
  what `Run` does.
- `settings.dfy` (`ConversionSettings`): the settings record, its defaults, JavaScript truthiness of an
  optional number, and `parseInt(..) || null`.
- `custom_size_inputs.dfy` (`CustomSizeInputs`): the aspect-ratio lock of the custom width and height
  fields.
- `conversion.dfy` (`Conversion`): the choice of output dimensions, the whole conversion as a function
  `Convert`, and a `Session` class whose fields are the page's globals (`uploadedImages`,
  `conversionSettings`, `convertedImageData`, `originalImageData`) plus the state of the lock checkbox, and
  whose methods are the page's event handlers: an upload decoded, `removeImage`, the three dropdowns,
  the custom-size and target-size fields, the lock checkbox, `resetAll` and `convertImage`.

Scales are exact reals. In exact arithmetic the search interval is 0.9 / 2^k wide after k passes, so the
`> 0.01` guard stops the loop after exactly 7 trial encodes, never at the cap of 15. The lowest scale the
search ever tests is 0.1 + 0.9/128 (about 0.107). If no trial fits the budget, `bestScale` keeps its
initial value 1.0, and the page encodes the image at full size. The model follows the code here.
`OverBudgetResultMeansUnreachable` states the exact condition: with an encoder whose output never
shrinks as the picture grows, the search returns an over-budget result only when no scale from about
0.107 upwards fits. So a fitting scale below about 0.107 is never found, and the full size is
returned instead.

## Model

| member | source | states |
|---|---|---|
| `Rounding.Round` | index.js:331-332 | `Math.round` gives the integer within half of x, a tie going up |
| `Rounding.Truncate` | index.js:443 | a canvas width assigned a non-negative real keeps its integer part |
| `Encoding.EstimatedSize` | index.js:344-345 | the estimate is non-negative and within half a byte of three quarters of the base64 length |
| `Encoding.EstimatedSizeMonotone` | index.js:281-282 | a longer payload never gives a smaller estimate |
| `Encoding.EstimatedSizeOfWholeGroups` | index.js:459-460 | 4k base64 characters are estimated as exactly 3k bytes |
| `Compositor.MergeLayout` | index.js:432-444 | canvas height is the larger height; each image keeps its aspect ratio at that height; image 2 starts at image 1's scaled width plus 10; the canvas width is the drawn extent truncated, losing less than one pixel, and is at least w1 + w2 + 10 |
| `Compositor.DrawnWidth` | index.js:435-439 | `width * (maxHeight / height)` keeps the aspect ratio and never narrows the image |
| `Compositor.EqualHeightsNeedNoScaling` | index.js:432-444 | uploads of equal height are drawn unscaled and the canvas is w1 + w2 + 10 wide |
| `Compositor.CreateMergedImage` | index.js:431-468 | the merged record has exactly the canvas width and height of `MergeLayout` (so it is as tall as the taller upload and at least w1 + w2 + 10 wide), is PNG, and is sized by the estimate of its PNG encoding |
| `SizeFitter.WidthAfterPasses` | index.js:330 | after k passes the interval is 0.9 / 2^k wide |
| `SizeFitter.WidthAboveResolution` | index.js:329 | the width test of the guard holds exactly for the first 7 passes |
| `SizeFitter.StepKeepsInv` | index.js:330 | one pass keeps 0.1 ≤ minScale < maxScale ≤ 1.0, halves the interval, and tests a scale strictly inside it |
| `SizeFitter.RunShape` | index.js:323-355 | from any reachable state the loop ends after 7 passes in all, its final interval nested in the current one, every trial inside it |
| `SizeFitter.RunSeparatesTrials` | index.js:347-352 | trials that fit lie at or below the final minScale, trials that did not at or above the final maxScale |
| `SizeFitter.RunWitnesses` | index.js:347-352 | bestScale changes only on the fitting branch: at the end it is unchanged or is minScale and a trial that fit; maxScale is unchanged or a trial that did not fit |
| `SizeFitter.SearchMakesSevenTrials` | index.js:326-329 | the search makes exactly 7 trial encodes, within the cap of 15 |
| `SizeFitter.ResultScaleInRange` | index.js:323-329 | the returned scale is in [0.1, 1.0], at least the final minScale, and the final interval is at most 0.01 wide |
| `SizeFitter.ScaledDimensionsWithin` | index.js:357-360 | rounding width and height at a scale in [0, 1] never enlarges either |
| `SizeFitter.ResultWithinOriginal` | index.js:357-360 | the returned dimensions are never larger than the image's own |
| `SizeFitter.BestScaleIsLargestFittingTrial` | index.js:325 | bestScale is the largest trial that fit and equals minScale once any fits; it stays 1.0 exactly when no trial fits; every trial that did not fit lies at or above the final maxScale |
| `SizeFitter.TrialSizeMonotone` | index.js:331-345 | with an encoder that never shrinks as the picture grows, a larger scale never gives a smaller trial size |
| `SizeFitter.NearOptimalForMonotoneEncoder` | index.js:329-352 | with such an encoder, no fitting scale in [0.1, 1.0] lies more than 0.01 above the returned one |
| `SizeFitter.OverBudgetResultMeansUnreachable` | index.js:325 | with such an encoder, an over-budget result is the full size 1.0 and nothing from about 0.107 upwards fits |
| `SizeFitter.FindScaleForTargetFileSize` | index.js:313-361 | the loop computes `Run`'s result: its dimensions are the image's at the kept scale, rounded, never larger than the image; it makes at most 15 trial encodes |
| `ConversionSettings.OrNull` | index.js:220 | a non-zero entry is stored as entered; zero or an empty field stores null |
| `CustomSizeInputs.LockedHeight` | index.js:200-201 | the height is the integer nearest to width × originalHeight / originalWidth |
| `CustomSizeInputs.LockedWidth` | index.js:209-210 | the width is the integer nearest to height × originalWidth / originalHeight |
| `CustomSizeInputs.LockedHeightOfOriginalWidth` | index.js:199-202 | entering the original width gives the original height |
| `CustomSizeInputs.LockedWidthOfOriginalHeight` | index.js:208-211 | entering the original height gives the original width |
| `CustomSizeInputs.HeightSurvivesRoundTrip` | index.js:197-213 | for a picture at least as wide as tall, height → locked width → locked height gives the height back |
| `CustomSizeInputs.WidthSurvivesRoundTrip` | index.js:197-213 | for a picture at least as tall as wide, width → locked height → locked width gives the width back |
| `CustomSizeInputs.AfterWidthInput` | index.js:197-204 | the width is stored, with zero or empty as null; with the lock ticked, a merged image on record and a non-empty field the height is recomputed; nothing else changes. The lock is the checkbox state passed in |
| `CustomSizeInputs.AfterHeightInput` | index.js:206-213 | the mirror image for the height field |
| `CustomSizeInputs.WidthInputKeepsAspectRatio` | index.js:199-202 | with the lock ticked, a non-zero width is stored and the stored pair has the original's aspect ratio to within half a pixel |
| `CustomSizeInputs.HeightInputKeepsAspectRatio` | index.js:208-211 | the same for a height entered |
| `Conversion.ChosenDimensions` | index.js:253-264 | `'custom-kb'` with a target runs the search; `'custom'` with both values set takes them verbatim; anything else keeps the merged size; only `'custom'` can enlarge the image |
| `Conversion.Convert` | index.js:231-245 | a conversion is refused exactly when either upload is missing; otherwise the merged result is `CreateMergedImage` of the two uploads, a decoded PNG, and the converted one has the chosen format |
| `Conversion.ConvertedCarriesChosenDimensions` | index.js:284-290 | the converted record carries the chosen dimensions unchanged and the estimate of the encoding at them |
| `Conversion.OriginalModeKeepsMergedDimensions` | index.js:261-264 | in the `'original'` mode the converted image is exactly as large as the merged one |
| `Conversion.MergedImageLayout` | index.js:462-468 | the merged record's height is the larger upload height, its width at least both widths plus 10, and exactly that for equal heights |
| `Conversion.TargetModeMeetsBudget` | index.js:253-257 | in `'custom-kb'` mode, with a monotone encoder, the converted image fits targetKB × 1024 bytes whenever some scale from about 0.107 up does, and is no larger than the merged image |
| `Conversion.Session.constructor` | index.js:7-18 | the page starts with empty slots, the initial settings and no merged or converted result on record |
| `Conversion.Session.OnImageLoaded` | index.js:90-99 | a decoded upload is stored in its slot and the other slot is kept |
| `Conversion.Session.RemoveImage` | index.js:109-119 | the slot is emptied, the other slot is kept, and the converted result is dropped (index.js:412) |
| `Conversion.Session.SelectFormat` | index.js:149-150 | only the format setting changes |
| `Conversion.Session.SelectSize` | index.js:149-150 | only the size mode changes |
| `Conversion.Session.SelectQuality` | index.js:149-150 | only the quality setting changes |
| `Conversion.Session.ResetAll` | index.js:506-556 | both slots are emptied, the settings return to their initial values and the converted result is dropped, while the lock checkbox and the merged result stay as they are |
| `Conversion.Session.ConvertImage` | index.js:231-311 | refused, with the results untouched, when either upload is missing; otherwise the recorded merged and converted images are those `Convert` gives |
| `Conversion.Session.OnCustomWidthInput` | index.js:197-204 | the settings become `AfterWidthInput` of the old settings, under the checkbox's state |
| `Conversion.Session.OnCustomHeightInput` | index.js:206-213 | the settings become `AfterHeightInput` of the old settings, under the checkbox's state |
| `Conversion.Session.OnMaintainAspectRatioChange` | index.js:215-217 | the checkbox takes the new state and the settings' lock flag copies it; nothing else changes |
| `Conversion.Session.OnTargetFileSizeInput` | index.js:219-221 | only the target size changes, with zero or empty stored as null |

## Left out

- The DOM and UI: previews, file-name text, dropdown labels and visibility, the comparison panel and the download link. They only change what the page shows. The handlers that change state (an upload, `removeImage`, the dropdown items, `resetAll`) are modelled as `Session` methods for their effect on the globals.
- The checks before an upload is handled (a file is present and its type starts with `image/`) are not modelled. `OnImageLoaded` takes the record once the image has decoded, and requires positive dimensions.
- `CustomSizeInputs.AfterWidthInput` / `AfterHeightInput`: the lock reads the checkbox, which `Session.lockChecked` holds. The settings' `maintainAspectRatio` is the copy that index.js:215-217 keeps equal to it. `resetAll` sets the copy back to true without touching the checkbox, so the two can differ; the copy is then never read.
- FileReader, `Image` decoding, `drawImage`, `fillRect` and `toDataURL`. These are platform calls, so pixels are not modelled. The encoder is a function parameter giving the base64 payload length for a format, quality and drawing size. The merged PNG is that function at ("png", 1.0) and the merged size.
- The Promise and `onload` sequencing in `convertImage` and `createMergedImage`. It is asynchronous plumbing; the model runs the steps in order.
- The `if (!mergedData)` branch (index.js:240-243) is not modelled. `createMergedImage` always resolves to an object, so it is never taken.
- `formatFileSize` and the percentage text of `updateComparisonSection` are not modelled. They are display formatting over floating point.
- IEEE-754 arithmetic is not modelled. Scales, midpoints and the 0.01 threshold are exact reals. The proof that the loop makes exactly 7 passes holds in exact arithmetic.
- The custom width, height and target fields are modelled as their parsed content, with None for an empty field. A non-empty field that `parseInt` cannot read, which would store `NaN`, is not modelled.
- The visible `value` of the width and height fields is not modelled. The lock handlers write it, but only the settings they store are kept.
- Canvas dimensions outside the non-negative range (a negative custom width), and the modulo-2^32 conversion of a canvas size, are not modelled.
- `SizeFitter.Monotone` is a hypothesis of the optimality lemmas, not a fact about real encoders. A lossy encoder can break it, and the unconditional lemmas do not use it.
