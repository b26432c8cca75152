# Line chart series model

A Dafny model of `SeriesModel`, the object that holds the series data of one
line chart and turns it into drawing geometry. Raw values come in as a
two-level sequence: one inner sequence per series, one element per category.
At construction the model validates its argument. It keeps the raw values as
`markers` and normalises each one against the value axis scale with the
literal formula `(value - min) / max`. The divisor is `max`, not the span
`max - min`, and the model keeps it that way. Later, `getPixelValues(size)`
multiplies every percent value by a pixel length. `pickLastColors()`
extracts the colours of the series' last items for end-of-line markers.

The model is functional. The mutable JavaScript object becomes the immutable
datatype `Series.SeriesModel`. The constructor becomes `Series.Init`, which
returns either the model or the `"Invalid series data."` error the source
throws. An absent JavaScript property is an `Option`. Numbers are exact
`real`s. A colour is `Option<string>`, and it is falsy when it is absent or
the empty string.

Files:
- `wrappers.dfy`: the `Option` and `Result` datatypes.
- `series_model.dfy`: module `Series`, holding the data model and the operations.
- `series_properties.dfy`: module `SeriesProperties`, holding laws that relate
  several operations. These cover the percent/restore round trip, pixel values
  against the raw data, resizing, the colour guard, and worked examples.

## Model

| member | source | states |
|---|---|---|
| Series.Init | src/js/models/seriesModel.js:22-56 | Without data the result is the model with every field empty. With data, construction fails exactly when the validation guard fails. A built model always has `tickScale` `{}` and `colors` `[]`, and its percent grid has the shape of its markers. When no non-empty `lastItemStyles` is supplied, that field is `[]`. |
| Series.SetData | src/js/models/seriesModel.js:63-74 | It fails, with the message `Invalid series data.`, if and only if the data is absent, its values are absent or empty, or its scale is absent. On success, `markers` is the supplied values. Every percent value is `(value - min) / max` of the marker at the same position. `lastItemStyles` is replaced only by a non-empty supplied sequence and is otherwise kept. `tickScale` and `colors` are left unchanged. |
| Series.MapRow | src/js/models/seriesModel.js:84-86 | The inner map keeps the row's length and holds `f` of each element at the same index. |
| Series.ConvertValues | src/js/models/seriesModel.js:83-88 | The result has the same number of series, each of the same length, and element `[i][j]` is the callback applied to input `[i][j]`. |
| Series.MakePercentValues | src/js/models/seriesModel.js:97-104 | Keeps the shape. Each element is `(value - min) / max`. Multiplying it by `max` and adding `min` gives back the raw value. |
| Series.GetPixelValues | src/js/models/seriesModel.js:112-117 | Has the shape of `percentValues`, with each element being the percent value times `size`. |
| Series.Pluck | src/js/models/seriesModel.js:128 | The projection has one entry per style, holding that style's `color` (possibly absent), in order. |
| Series.PickLastColors | src/js/models/seriesModel.js:123-129 | `[]` when there are no styles or the first style's colour is falsy. Otherwise it has one entry per style, holding each style's colour in order. |
| SeriesProperties.ConvertFusion | src/js/models/seriesModel.js:83-88 | Converting a grid with `f` and then `g` equals converting it once with `g` after `f`. |
| SeriesProperties.PercentRoundTrip | src/js/models/seriesModel.js:97-104 | Restoring the percent values with `p * max + min` gives back exactly the raw grid, for every grid and every scale with `max != 0`. |
| SeriesProperties.PercentOfRestored | src/js/models/seriesModel.js:101 | The percent formula maps `p * max + min` back to `p`. |
| SeriesProperties.RestoreRoundTrip | src/js/models/seriesModel.js:97-104 | Any percent grid is the percent conversion of its restored grid. So the conversion is a bijection on grids. |
| SeriesProperties.InitStoresValues | src/js/models/seriesModel.js:68-69 | After a successful construction, the values and the scale were present. `markers` equals the supplied values, and `percentValues` is their percent conversion. |
| SeriesProperties.InitFailsIff | src/js/models/seriesModel.js:64-66 | Construction with data fails exactly when `values` is absent or `[]`, or `scale` is absent. The error carries the source's message. |
| SeriesProperties.InitIgnoresColors | src/js/models/seriesModel.js:60-74 | The documented `colors` property of the argument has no influence on the constructed model. |
| SeriesProperties.PixelValuesOfData | src/js/models/seriesModel.js:97-117 | The pixels of a constructed model have the raw values' shape. Each one is `(value - min) / max * size` of the raw value at the same position. |
| SeriesProperties.PixelValuesUnitSize | src/js/models/seriesModel.js:112-117 | At size 1 the pixel values are the percent values themselves. |
| SeriesProperties.PixelValuesResize | src/js/models/seriesModel.js:112-117 | The pixels at size `a * b` equal the size-`a` pixels scaled by `b`. Repeated calls on resize agree with each other. |
| SeriesProperties.PixelValuesInverse | src/js/models/seriesModel.js:112-117 | For a non-zero size, dividing the pixel values by the size recovers `percentValues`, which the call leaves intact. |
| SeriesProperties.EmptyModelOutputs | src/js/models/seriesModel.js:27-55 | The model built without data yields no pixel values at any size and no colours. |
| SeriesProperties.PickLastColorsIgnoresTail | src/js/models/seriesModel.js:124-126 | A first style whose colour is falsy yields `[]`, whatever the later styles contain. |
| SeriesProperties.PickLastColorsEmptyIff | src/js/models/seriesModel.js:124-128 | The result is empty if and only if there are no styles or the first style's colour is falsy. |
| SeriesProperties.PickLastColorsOfData | src/js/models/seriesModel.js:71-73 | After construction, absent or empty supplied styles give no colours. Supplied styles whose first colour is truthy give exactly their colour projection. |
| SeriesProperties.ExamplePixelValues | src/js/models/seriesModel.js:112-117 | The percents `[[0, 0.5, 1]]` at 200 pixels give `[[0, 100, 200]]`. |
| SeriesProperties.ExampleLastColors | src/js/models/seriesModel.js:123-129 | Styles red and blue give the colours red and blue. No styles give no colours. |
| SeriesProperties.ExampleEmptyValuesRejected | src/js/models/seriesModel.js:64-66 | Empty values are rejected with the source's error even when the scale is valid. |

## Left out

- Series.Init: requires `scale.max != 0` whenever the data passes validation. The source does not guard this case and produces `NaN`/`Infinity` percent values, which exact real arithmetic cannot represent.
- Series.SetData: has the same `scale.max != 0` requirement as `Series.Init`, for the same reason.
- Series.MakePercentValues: requires `scale.max != 0` for the same reason.
- IEEE-754 rounding: every quantity is an exact real, so the model does not represent floating-point rounding of `(value - min) / max` or `percent * size`.
- JavaScript falsiness of a colour: only an absent colour and the empty string are falsy here. Other falsy values (`0`, `false`, `null`) collapse into "absent", because a colour is a string.
- Non-numeric or ragged data: values are reals by type. The generic emptiness test on `values` is modelled only for absent and `[]` arrays.
- "getPixelValues does not mutate the model": the model is an immutable value, so the function can only return a grid. `SeriesProperties.PixelValuesInverse` shows that the percent values are still recoverable from that grid.
- `tickScale` and `colors` fields: they keep their empty initial values, because the source never assigns them.
- The `Model` base class and the class machinery: they hold no logic that the series model uses.
- `src/js/charts/lineChart.js`: only wiring. It calls the inherited base constructor and `makeBaseData`, and delegates to an axis data maker and an array pivot. Neither of those is part of this model. It registers components and subscribes the tooltip's `showDot`/`hideDot` events. Its only local choices are cached versus freshly computed axes and caller-supplied versus computed tick counts.
- Scale and tick computation and the transpose of series values: they live in helper modules that are not part of this model.
