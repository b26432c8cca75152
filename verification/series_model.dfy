/**
  The series model of a line chart: it keeps the raw series values, derives
  the percent-of-scale values once at construction, and derives pixel values
  and end-of-line marker colours on demand.

  Values are two-level sequences: one inner sequence per series, one element
  per category. Numbers are exact `real`s.
 */
module Series {
  import opened Wrappers

  /** Numeric range of the value axis. */
  datatype Scale = Scale(min: real, max: real)

  /** Style of a series' last item; only `color` is ever read. */
  datatype ItemStyle = ItemStyle(color: Option<string>)

  /** The argument of the constructor; every property may be absent. */
  datatype SeriesData = SeriesData(
    values: Option<seq<seq<real>>>,
    scale: Option<Scale>,
    colors: Option<seq<string>>,
    lastItemStyles: Option<seq<ItemStyle>>)

  /** The model's fields. `tickScale` starts as the empty object `{}` (None). */
  datatype SeriesModel = SeriesModel(
    markers: seq<seq<real>>,
    percentValues: seq<seq<real>>,
    tickScale: Option<Scale>,
    colors: seq<string>,
    lastItemStyles: seq<ItemStyle>)

  /** Message of the error thrown on invalid series data. */
  const InvalidSeriesData: string := "Invalid series data."

  /** The model with every field at its initial, empty value. */
  const Empty: SeriesModel := SeriesModel([], [], None, [], [])

  /** Two grids have the same number of rows and equally long rows. */
  predicate SameShape<A, B>(a: seq<seq<A>>, b: seq<seq<B>>) {
    |a| == |b| && forall i :: 0 <= i < |a| ==> |a[i]| == |b[i]|
  }

  /** The generic emptiness test on the `values` property: absent or `[]`. */
  predicate IsEmptyValues(values: Option<seq<seq<real>>>) {
    values.None? || |values.value| == 0
  }

  /** The generic non-emptiness test on the `lastItemStyles` property. */
  predicate IsNotEmptyStyles(styles: Option<seq<ItemStyle>>) {
    styles.Some? && |styles.value| > 0
  }

  /** The validation guard of the constructor: data present, values non-empty, scale present. */
  predicate IsValidData(data: Option<SeriesData>) {
    data.Some? && !IsEmptyValues(data.value.values) && data.value.scale.Some?
  }

  /**
    The percent formula divides by `max`; exact arithmetic needs that divisor
    to be non-zero whenever the division is reached, i.e. on valid data.
   */
  predicate HasUsableScale(data: Option<SeriesData>) {
    IsValidData(data) ==> data.value.scale.value.max != 0.0
  }

  /** JavaScript truthiness of a colour: present and not the empty string. */
  predicate IsTruthyColor(color: Option<string>) {
    color.Some? && color.value != ""
  }

  /** Applies `f` to every element of one series, keeping order. */
  function MapRow(row: seq<real>, f: real -> real): (r: seq<real>)
    ensures |r| == |row|
    ensures forall j :: 0 <= j < |row| ==> r[j] == f(row[j])
  {
    if row == [] then [] else [f(row[0])] + MapRow(row[1..], f)
  }

  /** Applies `f` to every element of a grid, keeping its series x category shape. */
  function ConvertValues(arr2d: seq<seq<real>>, f: real -> real): (r: seq<seq<real>>)
    ensures SameShape(r, arr2d)
    ensures forall i, j :: 0 <= i < |arr2d| && 0 <= j < |arr2d[i]| ==> r[i][j] == f(arr2d[i][j])
  {
    if arr2d == [] then [] else [MapRow(arr2d[0], f)] + ConvertValues(arr2d[1..], f)
  }

  /** The percent of `value` relative to `scale`, with the divisor `max` (not `max - min`). */
  function Percent(value: real, scale: Scale): real
    requires scale.max != 0.0
  {
    (value - scale.min) / scale.max
  }

  /** The raw value whose percent is `p`: the inverse of `Percent`. */
  function Restore(p: real, scale: Scale): real {
    p * scale.max + scale.min
  }

  /** Normalises every raw value against the axis scale. */
  function MakePercentValues(arr2d: seq<seq<real>>, scale: Scale): (r: seq<seq<real>>)
    requires scale.max != 0.0
    ensures SameShape(r, arr2d)
    ensures forall i, j :: 0 <= i < |arr2d| && 0 <= j < |arr2d[i]| ==>
      r[i][j] == (arr2d[i][j] - scale.min) / scale.max
    ensures forall i, j :: 0 <= i < |arr2d| && 0 <= j < |arr2d[i]| ==>
      Restore(r[i][j], scale) == arr2d[i][j]
  {
    ConvertValues(arr2d, v => Percent(v, scale))
  }

  /**
    Stores validated data into `m`: markers and percent values always, the
    last item styles only when non-empty (otherwise `m`'s are kept).
   */
  function SetData(m: SeriesModel, data: Option<SeriesData>): (r: Result<SeriesModel, string>)
    requires HasUsableScale(data)
    ensures r.Err? <==> !IsValidData(data)
    ensures r.Err? ==> r.error == InvalidSeriesData
    ensures r.Ok? ==> r.value.markers == data.value.values.value
    ensures r.Ok? ==> SameShape(r.value.percentValues, r.value.markers)
    ensures r.Ok? ==> forall i, j :: 0 <= i < |r.value.markers| && 0 <= j < |r.value.markers[i]| ==>
      r.value.percentValues[i][j] == Percent(r.value.markers[i][j], data.value.scale.value)
    ensures r.Ok? && IsNotEmptyStyles(data.value.lastItemStyles) ==>
      r.value.lastItemStyles == data.value.lastItemStyles.value
    ensures r.Ok? && !IsNotEmptyStyles(data.value.lastItemStyles) ==>
      r.value.lastItemStyles == m.lastItemStyles
    ensures r.Ok? ==> r.value.tickScale == m.tickScale && r.value.colors == m.colors
  {
    if !IsValidData(data) then Err(InvalidSeriesData)
    else
      var d := data.value;
      Ok(m.(markers := d.values.value,
            percentValues := MakePercentValues(d.values.value, d.scale.value),
            lastItemStyles := if IsNotEmptyStyles(d.lastItemStyles) then d.lastItemStyles.value
                              else m.lastItemStyles))
  }

  /** The constructor: no data gives the empty model, otherwise the data is set. */
  function Init(data: Option<SeriesData>): (r: Result<SeriesModel, string>)
    requires HasUsableScale(data)
    ensures data.None? ==> r == Ok(Empty)
    ensures data.Some? ==> (r.Err? <==> !IsValidData(data))
    ensures r.Ok? ==> r.value.tickScale == None && r.value.colors == []
    ensures r.Ok? ==> SameShape(r.value.percentValues, r.value.markers)
    ensures r.Ok? && data.Some? && !IsNotEmptyStyles(data.value.lastItemStyles) ==>
      r.value.lastItemStyles == []
  {
    if data.None? then Ok(Empty) else SetData(Empty, data)
  }

  /** Scales every stored percent value by `size` pixels. */
  function GetPixelValues(m: SeriesModel, size: real): (r: seq<seq<real>>)
    ensures SameShape(r, m.percentValues)
    ensures forall i, j :: 0 <= i < |m.percentValues| && 0 <= j < |m.percentValues[i]| ==>
      r[i][j] == m.percentValues[i][j] * size
  {
    ConvertValues(m.percentValues, v => v * size)
  }

  /** Projects the `color` property of every style, keeping order. */
  function Pluck(styles: seq<ItemStyle>): (r: seq<Option<string>>)
    ensures |r| == |styles|
    ensures forall k :: 0 <= k < |styles| ==> r[k] == styles[k].color
  {
    if styles == [] then [] else [styles[0].color] + Pluck(styles[1..])
  }

  /** Colours of the series' last items, or none when the first style has no colour. */
  function PickLastColors(m: SeriesModel): (r: seq<Option<string>>)
    ensures |m.lastItemStyles| == 0 || !IsTruthyColor(m.lastItemStyles[0].color) ==> r == []
    ensures |m.lastItemStyles| > 0 && IsTruthyColor(m.lastItemStyles[0].color) ==>
      |r| == |m.lastItemStyles| &&
      forall k :: 0 <= k < |r| ==> r[k] == m.lastItemStyles[k].color
  {
    if |m.lastItemStyles| == 0 || !IsTruthyColor(m.lastItemStyles[0].color) then []
    else Pluck(m.lastItemStyles)
  }
}
