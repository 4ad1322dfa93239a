# Earthquake marker styling

The earthquake map draws every event of a GeoJSON feed as a circle marker.
The marker's style is computed by three small pure functions:

- `chooseColor(depth)` puts the depth (km, third coordinate, signed) into one of six buckets. The buckets end at 10, 30, 50, 70 and 90 km, and each includes its upper bound.
- `chooseRadius(magnitude)` multiplies the magnitude by 4.
- `styleInfo(feature)` builds the path options. Stroke and fill colour are both `chooseColor(coordinates[2])`. The radius is `chooseRadius(mag)`. Fill opacity is 0.8 and stroke weight is 0.5.

This project models those three functions in Dafny, together with the legend's colour data:

- `palette.dfy` (module `Palette`) holds the six colours, their hex codes, and each colour's branch number in the classifier.
- `depth_color.dfy` (module `DepthColor`) holds the depth classifier as written and a table-driven equivalent.
- `marker_style.dfy` (module `MarkerStyle`) holds the radius scaler, the `Feature` and `Style` records, and the styler.
- `legend.dfy` (module `Legend`) holds the legend's rows and a defect in their colours (see Findings).

Depth and magnitude are Dafny `real`. The constants 0.8 and 0.5 are exact literals.

The source joins its two comparisons with `&`, which is bitwise and. On two booleans it is truthy exactly when both hold, so the model writes `&&`.

## Model

| member | source | states |
|---|---|---|
| Palette.ToHex | Leaflet-static/js/logic.js:82-92 | each colour's code is one of the six literals the chain returns: seven characters beginning with `#` |
| Palette.Index | Leaflet-static/js/logic.js:81-92 | each colour has a branch number in the if/else chain, below six, and the branch with that number returns that colour |
| Palette.HexRoundTrip | Leaflet-static/js/logic.js:81-92 | each colour's code reads back as that colour |
| Palette.ToHexInjective | Leaflet-static/js/logic.js:81-92 | the six branches return six distinct codes |
| Palette.FromHex | Leaflet-static/js/logic.js:81-92 | a string names a colour exactly when it is one of the six codes, and then it is that colour's code |
| DepthColor.DepthBucket | Leaflet-static/js/logic.js:80-93 | the branch taken is the number of thresholds strictly below the depth; the depth is at or under the k-th threshold exactly when the branch is k or earlier |
| DepthColor.ChooseColor | Leaflet-static/js/logic.js:80-93 | total and closed: every real depth yields one of the six codes, namely the code of its bucket |
| DepthColor.ClassifyByTable | Leaflet-static/js/logic.js:81-92 | a flat threshold table gives the same result as the if/else chain, so the chain's lower-bound guards are redundant |
| DepthColor.ShallowIsSalmon | Leaflet-static/js/logic.js:81-82 | the first colour is returned exactly for depths at or below 10, negative depths included |
| DepthColor.Boundaries | Leaflet-static/js/logic.js:83-92 | each of 10, 30, 50, 70 and 90 takes the colour of the bucket it closes, and any depth just above it takes the next colour |
| DepthColor.Monotone | Leaflet-static/js/logic.js:81-92 | a deeper event never gets an earlier branch |
| DepthColor.Onto | Leaflet-static/js/logic.js:80-93 | every one of the six codes is produced by some depth |
| MarkerStyle.ChooseRadius | Leaflet-static/js/logic.js:75-77 | the radius divided by 4 is the magnitude, and it is negative exactly when the magnitude is |
| MarkerStyle.RadiusOfZero | Leaflet-static/js/logic.js:75-77 | magnitude 0 gives radius 0 |
| MarkerStyle.RadiusMonotone | Leaflet-static/js/logic.js:75-77 | the radius order is the magnitude order, in both directions |
| MarkerStyle.RadiusAdditive | Leaflet-static/js/logic.js:75-77 | the radius of a sum of magnitudes is the sum of their radii |
| MarkerStyle.StyleInfo | Leaflet-static/js/logic.js:63-71 | stroke colour equals fill colour, and both are the code of the third coordinate's bucket; the radius is 4 times the magnitude; opacity is 0.8 and weight is 0.5 |
| MarkerStyle.StyleDependsOnlyOnDepthAndMag | Leaflet-static/js/logic.js:63-70 | two features get the same style exactly when their depths share a bucket and their magnitudes are equal; longitude, latitude, place and time play no part |
| MarkerStyle.ShallowExample | Leaflet-static/js/logic.js:63-70 | a 5 km, magnitude-3 event gets the first colour for both stroke and fill, radius 12, opacity 0.8 and weight 0.5 |
| Legend.AsWrittenRowsMismatch | Leaflet-static/js/logic.js:124-133 | with the swatch list as written, each row's swatch differs from the colour of every depth in the row's labelled range |
| Legend.AsWrittenDisagrees | Leaflet-static/js/logic.js:124-127 | a 0 km event is drawn in `#F75D59`, but the "-10-10" row shows `#2E8B57` |
| Legend.AsWrittenIsRotation | Leaflet-static/js/logic.js:124 | the written swatch list is the classifier's colour order rotated by one |
| Legend.CorrectedAgrees | Leaflet-static/js/logic.js:124-133 | with the swatches in branch order, every row's swatch is the colour of every depth in its labelled range |

## Left out

- Map, tile layers, layer groups and the layer control (Leaflet-static/js/logic.js:7-48): calls into the map library's widget API.
- Both remote fetches and their callbacks (Leaflet-static/js/logic.js:53-60, 97-116): network I/O. The tectonic-plate layer has fixed styling and no logic.
- The popup HTML and its date formatting (Leaflet-static/js/logic.js:101): string and DOM output.
- Building the legend's HTML (Leaflet-static/js/logic.js:120-153): only its colour, limit and label data is modelled.
- Values that are not plain numbers. JavaScript converts them before comparing or multiplying, and the model does not follow those conversions:
  - An undefined or NaN depth fails every comparison and falls into the last colour, `#2E8B57`.
  - A `null` depth compares as 0 and gets the first colour, `#F75D59`.
  - A numeric string such as `"20"` compares as the number it spells.
  - An undefined magnitude gives `undefined * 4`, which is NaN. A `null` magnitude gives radius 0.
  - The source promises nothing for such input, so depth and magnitude are modelled as reals.
- MarkerStyle.StyleInfo: requires at least three coordinates rather than modelling an undefined depth, for the same reason.
- Floating-point rounding: `real` is exact, so `4 * m` and the constants 0.8 and 0.5 carry no rounding.

## Findings

| source | as written | input that shows it | evidently intended | confidence | as-written member | corrected member |
|---|---|---|---|---|---|---|
| Leaflet-static/js/logic.js:124 | the legend's swatch list is the classifier's colour order with the deepest colour, `#2E8B57`, moved to the front: `#F75D59` to `#040720` each sit one row late, and `#2E8B57` lands on row 0 | depth 0 km: drawn `#F75D59`, but its legend row "-10-10" shows `#2E8B57` | swatches in the classifier's order, starting with `#F75D59` and ending with `#2E8B57` for "90+" | high (not executed) | Legend.AsWrittenRowsMismatch | Legend.CorrectedAgrees |
