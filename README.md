# Mouth checker: a Dafny model of the gap checker and the overlay state

The browser tool stacks a mouth-interior background image under some
interchangeable "vowel" mouth-shape overlays. You choose an overlay with
`showMouth`. Three sliders move and resize it (`applyAdjustments`), and a
parallax handler moves every layer with the mouse. After each slider input or
mouse move, `checkGap` draws the background and the current layer onto a green-filled
off-screen canvas. It then samples a 30 x 30 window placed by the current
layer's offset from the container's centre, and counts the pixels that are
still green, which are the places where neither image covers the canvas.
It reports the count as one of four severity tiers. The drawing maps the
container's centre to 60 px above the canvas centre, while the window maps
it to the canvas centre. So the window sits 60 px below the centre of the
layer as drawn (`Geometry.ScanStart`).

The model covers that logic in `static/script.js`:

- `geometry.dfy` (module `Geometry`): where the scan window starts, and the clamp that keeps it on the canvas.
- `pixels.dfy` (module `Pixels`): the green-pixel test, the counting loop, and its reference definition as a set of pixel indices.
- `severity.dfy` (module `Severity`): the four tiers and what the alert box and the ratio label show after a check.
- `styles.dfy` (module `Styles`): the inline style properties the script writes. It also covers `applyAdjustments` as a record update, and the `'-50%'` fallback the parallax handler uses when a style variable is unset.
- `overlay.dfy` (module `Overlay`): the layer records and `getElementById` as a first-match lookup (`IndexOf`). The class `Page` holds the script's global state (`layers`, `currentLayer`, the layer-name label, `#gap-alert`, `#gap-ratio`). Its methods `ShowMouth`, `ApplyAdjustments`, `ApplyParallax`, `OnSliderInput` and `CheckGap` change that state.
- `wrappers.dfy` (module `Wrappers`): `Option`.

Behaviour of the code that the model keeps as written:

- The Y slider has no effect. The source documents a Y adjustment: `yOffset` is a parameter (static/script.js:63), and the comment at static/script.js:69 says the slider values are added to the -50% base position. `adjustedY` is computed at static/script.js:70 but never used. `--adjusted-y` always receives the constant `calc(-50% + -50px)` (lemma `Styles.YSliderIgnored`). The model follows the code.
- `showMouth(v)` may find no layer with id `mouth-v`. All overlays are hidden anyway, `currentLayer` becomes `null`, and reading the layer's name then throws. The model returns `ok == false` in that state, and leaves the label unchanged. Until a later `showMouth` finds its layer, `checkGap` and the slider handler do nothing.
- Without a layer `mouth-inside`, `checkGap` throws while drawing the background (static/script.js:204, 216, 227), before any pixel is read. The model's `CheckGap` then changes nothing and returns no window (`Page.Reports` is false).
- `showMouth('inside')` selects the background, as `'none'` does. Unlike `'none'`, it also writes `display: block` on it (lemma `Overlay.ShowInsideSelectsBackground`).
- A check that counts zero pixels only hides the alert box. The box's colour and text still hold what the previous check wrote (`Severity.AlertAfter`).

## Model

| member | source | states |
|---|---|---|
| Geometry.Clamp | static/script.js:256-257 | the clamped start is never negative; it leaves a full window on a canvas at least 30 wide; it is unchanged when already in range; it is 0 for a negative start or a canvas narrower than 30; it is dim - 30 for a start past that on a canvas at least 30 wide |
| Geometry.DrawnCentre | static/script.js:215-224 | `drawToCanvas` keeps an element's offset from the container's centre, and maps the container's centre to (W/2, H/2 - 60) |
| Geometry.ScanStart | static/script.js:215-250 | the window's centre has the x of the layer's centre as `drawToCanvas` places it, and lies 60 px below it |
| Geometry.ScanWindow | static/script.js:236-257 | the sampled corner `(safeX, safeY)` is non-negative, and on a large enough canvas the whole 30 x 30 window lies inside it |
| Geometry.ScanStartCentredOnLayer | static/script.js:236-250 | the unclamped window's centre is the canvas centre plus the offset of the layer's centre from the container's centre |
| Geometry.ScanStartTracksLayer | static/script.js:236-250 | translating the layer's rectangle by (dx, dy) translates the unclamped start by exactly (dx, dy) |
| Geometry.ScanStartIgnoresScroll | static/script.js:236-250 | translating container and layer together leaves the start where it was |
| Geometry.ClampIdempotent | static/script.js:256-257 | clamping an already clamped start changes nothing |
| Geometry.ClampMonotone | static/script.js:256-257 | clamping preserves the order of two starts |
| Geometry.ScanWindowTracksLayer | static/script.js:236-257 | when the old and new starts are both in range, moving the layer by (dx, dy) moves the sampled window by (dx, dy) |
| Pixels.IsGreen | static/script.js:272 | a pixel passes the test only when its green exceeds both red and blue by more than 100 |
| Pixels.FillColourCountsAsGap | static/script.js:211-272 | the fill colour #00FF00 passes the test; transparent black, opaque black and white do not |
| Pixels.CountGreen | static/script.js:267-275 | the green count lies between 0 and the number of pixels in the buffer |
| Pixels.CountIsGreenPixels | static/script.js:270-275 | the count equals the number of 4-byte pixels with G > 200, R < 100 and B < 100 |
| Pixels.AllGreenCountsAll | static/script.js:267-275 | a buffer whose every pixel is green counts every pixel |
| Pixels.NoGreenCountsZero | static/script.js:267-275 | a buffer with no green pixel counts 0 |
| Pixels.FullGreenWindow | static/script.js:259-275 | a 30 x 30 window that is entirely background green counts exactly 900 |
| Pixels.CountGreenPixels | static/script.js:267-275 | the loop stepping 4 bytes at a time returns the number of green pixels, at most a quarter of the buffer length |
| Severity.Classify | static/script.js:279-308 | the tiers are total and disjoint: 0 is no gap, 1..10 slight, 11..49 warning, 50 and above critical, each as an if-and-only-if |
| Severity.Boundaries | static/script.js:287-307 | 0/1, 10/11 and 49/50 fall on the stated sides |
| Severity.ClassifyMonotone | static/script.js:279-308 | a larger count never gets a milder tier |
| Severity.AlertAfter | static/script.js:279-307 | the alert is shown exactly when the count is positive and hidden exactly when it is 0; a positive count writes its tier and count, and 0 keeps the previous message |
| Severity.RatioAgreesWithAlert | static/script.js:279-306 | after a gap, the alert and the ratio label carry the same message; the label says "no gap" exactly when the alert is hidden; the label always shows the count |
| Severity.AlertShownIffGap | static/script.js:279-285 | the alert is shown exactly when the tier is not "no gap" |
| Styles.ParallaxTransform | static/script.js:179-182 | the transform starts from `--adjusted-x` and `--adjusted-y` when they are set and from `-50%` otherwise, followed by the given parallax shift |
| Styles.Adjusted | static/script.js:68-85 | an adjustment keeps display and transform, and gives width and height the same value |
| Styles.AdjustedWrites | static/script.js:68-90 | `--adjusted-x` becomes (-50 + xOffset)%, while width and height both become size%; `--adjusted-y` becomes `calc(-50% + -50px)`, and display and transform are kept |
| Styles.YSliderIgnored | static/script.js:70-81 | two adjustments that differ only in yOffset give the same style |
| Styles.LastAdjustmentWins | static/script.js:68-85 | an adjustment after another gives the same style as the second alone |
| Styles.AdjustedBase | static/script.js:179-182 | after an adjustment, the parallax transform starts from ((-50 + xOffset)%, calc(-50% + -50px)) |
| Styles.UnadjustedBase | static/script.js:179-182 | a layer never adjusted is translated from (-50%, -50%) |
| Overlay.IndexOf | static/script.js:109-112 | the lookup finds the first layer with the id, or reports that no layer has it |
| Overlay.TargetId | static/script.js:108-112 | every looked-up id starts with `mouth-`, and for any argument other than 'none' the rest of the id is that argument |
| Overlay.AfterShowMouth | static/script.js:99-116 | `showMouth` keeps the number of layers and changes nothing of any layer but its display |
| Overlay.NameText | static/script.js:122 | the label shows the layer's `data-initial-name`, and is empty exactly when the attribute is missing or empty |
| Overlay.WithParallax | static/script.js:173-182 | a layer's parallax shift is the mouse offset times its speed times the damping; only its transform changes |
| Overlay.ShowMouthDisplays | static/script.js:99-116 | the requested layer shows 'block'; every other vowel layer shows 'none'; every other non-vowel layer keeps its display |
| Overlay.AtMostOneVowelShown | static/script.js:99-116 | after `showMouth`, at most one vowel layer is not hidden |
| Overlay.VowelDisplaysForgetHistory | static/script.js:99-116 | vowel layers' displays after a call do not depend on earlier calls |
| Overlay.ShowInsideSelectsBackground | static/script.js:108-115 | 'inside' looks up the same layer as 'none' but, unlike 'none', writes display 'block' on it |
| Overlay.Page.constructor | static/script.js:51 | on page load `currentLayer` is the background layer and no gap has been reported |
| Overlay.Page.ShowMouth | static/script.js:98-126 | the layers become `AfterShowMouth` of the old ones; `currentLayer` becomes `mouth-inside` for 'none' and otherwise `mouth-v`, or null when missing; the label shows the new layer's name, or is unchanged when there is none |
| Overlay.Page.ApplyAdjustments | static/script.js:68-90 | only the given layer's style changes, to the adjusted style |
| Overlay.Page.ApplyParallax | static/script.js:172-183 | every layer's transform becomes its base offset (or the fallback) followed by mouse offset times speed times damping; nothing else changes |
| Overlay.Page.OnSliderInput | static/script.js:132-142 | with no current layer nothing changes; otherwise the current layer is adjusted and the gap is checked again |
| Overlay.Page.CheckGap | static/script.js:200-309 | with no current layer, or no background layer to draw, nothing changes; otherwise the sampled window is the clamped scan window, and the alert and ratio label show the green count and its tier |
| Overlay.FullGreenWindowIsCritical | static/script.js:267-307 | a window showing only background reports a critical gap of 900 pixels with the alert shown |
| Overlay.CoveredWindowIsNoGap | static/script.js:267-285 | a window the images cover completely reports no gap and hides the alert |

## Left out

- `app.py`: a Flask route that renders the page with a constant list of layers. It has no logic of its own. It is not part of this model.
- The parallax damping (static/script.js:154-170) uses the mouse position, `Math.sqrt` and floating point. `Page.ApplyParallax` takes the mouse offset and the damping factor as parameters.
- Rendering is left out: `fillRect`, `drawImage`, `getImageData`, `strokeRect` and `getBoundingClientRect`. Only the centre at which `drawToCanvas` places an element is modelled (`Geometry.DrawnCentre`). `Page.CheckGap` takes the current layer's rectangle and the sampled pixels as inputs, so the model does not prove that the buffer holds the pixels under the window. Nor does it model how `getImageData` rounds a fractional corner.
- Page.CheckGap: requires a buffer of exactly 30 x 30 x 4 bytes, the size an `ImageData` of the scan window always has. `Pixels.CountGreen` likewise requires a length that is a multiple of four.
- Event wiring is left out: `setupSliders`'s `addEventListener` calls and `requestAnimationFrame`. Each method models one handler call; `Page.OnSliderInput` is the body of the `update` closure.
- The wording and colour strings of the alert box and the ratio label are left out. A label is reduced to its tier and its count.
- The first `showMouth` (static/script.js:26-42) is left out, because the declaration at static/script.js:98 replaces it.
- The first mouse-move handler (static/script.js:7-21) is left out. It stays registered and runs before the second one on every move. Its only effect is the transform it writes at static/script.js:19, which the second handler overwrites at static/script.js:182 in the same event. The model therefore does not capture the transform between the two handlers.
- Numbers are exact reals. Floating-point rounding, `NaN` from `parseFloat` on a missing attribute, and number-to-string formatting are not modelled.
- `getElementById` searches only the parallax layers. Elements outside the layer list are not modelled.
- Node identity is not modelled. A layer is a value in `Page.layers` and `currentLayer` is its index, so aliasing between DOM elements does not arise.
