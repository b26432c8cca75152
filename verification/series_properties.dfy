/**
  Laws relating several operations of the series model: the percent
  conversion and its inverse, pixel values against the raw data, resizing,
  and the colour guard's indifference to later styles.
 */
module SeriesProperties {
  import opened Wrappers
  import opened Series

  /** Grids of the same shape that agree everywhere are equal. */
  lemma GridEquality(a: seq<seq<real>>, b: seq<seq<real>>)
    requires SameShape(a, b)
    requires forall i, j :: 0 <= i < |a| && 0 <= j < |a[i]| ==> a[i][j] == b[i][j]
    ensures a == b
  {
    forall i | 0 <= i < |a|
      ensures a[i] == b[i]
    {
      assert forall j :: 0 <= j < |a[i]| ==> a[i][j] == b[i][j];
    }
  }

  /** Converting twice is converting once with the composed function. */
  lemma ConvertFusion(a: seq<seq<real>>, f: real -> real, g: real -> real)
    ensures ConvertValues(ConvertValues(a, f), g) == ConvertValues(a, x => g(f(x)))
  {
    GridEquality(ConvertValues(ConvertValues(a, f), g), ConvertValues(a, x => g(f(x))));
  }

  /** Undoes the percent conversion: `percent * max + min`. */
  function RestoreValues(percents: seq<seq<real>>, scale: Scale): (r: seq<seq<real>>)
    ensures SameShape(r, percents)
  {
    ConvertValues(percents, p => Restore(p, scale))
  }

  /** Restoring the percent values gives back the raw values. */
  lemma PercentRoundTrip(values: seq<seq<real>>, scale: Scale)
    requires scale.max != 0.0
    ensures RestoreValues(MakePercentValues(values, scale), scale) == values
  {
    GridEquality(RestoreValues(MakePercentValues(values, scale), scale), values);
  }

  /** One restored value converts back to its percent. */
  lemma PercentOfRestored(p: real, scale: Scale)
    requires scale.max != 0.0
    ensures Percent(Restore(p, scale), scale) == p
  {
    assert Restore(p, scale) - scale.min == p * scale.max;
  }

  /** One element of the restored-then-converted grid is the original percent. */
  lemma RestoreRoundTripAt(percents: seq<seq<real>>, scale: Scale, i: nat, j: nat)
    requires scale.max != 0.0
    requires i < |percents| && j < |percents[i]|
    ensures MakePercentValues(RestoreValues(percents, scale), scale)[i][j] == percents[i][j]
  {
    var restored := RestoreValues(percents, scale);
    assert restored[i][j] == Restore(percents[i][j], scale);
    assert MakePercentValues(restored, scale)[i][j] == Percent(restored[i][j], scale);
    PercentOfRestored(percents[i][j], scale);
  }

  /** Converting restored values back to percents gives the percents again. */
  lemma RestoreRoundTrip(percents: seq<seq<real>>, scale: Scale)
    requires scale.max != 0.0
    ensures MakePercentValues(RestoreValues(percents, scale), scale) == percents
  {
    var restored := RestoreValues(percents, scale);
    var back := MakePercentValues(restored, scale);
    forall i, j | 0 <= i < |percents| && 0 <= j < |percents[i]|
      ensures back[i][j] == percents[i][j]
    {
      RestoreRoundTripAt(percents, scale, i, j);
    }
    GridEquality(back, percents);
  }

  /** A successful construction keeps the raw values as markers and their percents. */
  lemma InitStoresValues(data: SeriesData)
    requires HasUsableScale(Some(data))
    requires Init(Some(data)).Ok?
    ensures data.values.Some? && data.scale.Some?
    ensures Init(Some(data)).value.markers == data.values.value
    ensures Init(Some(data)).value.percentValues == MakePercentValues(data.values.value, data.scale.value)
  {
    var m := Init(Some(data)).value;
    GridEquality(m.percentValues, MakePercentValues(data.values.value, data.scale.value));
  }

  /** Construction fails exactly when values are absent or empty, or the scale is absent. */
  lemma InitFailsIff(data: SeriesData)
    requires HasUsableScale(Some(data))
    ensures Init(Some(data)).Err? <==>
      data.values.None? || data.values.value == [] || data.scale.None?
    ensures Init(Some(data)).Err? ==> Init(Some(data)).error == InvalidSeriesData
  {
  }

  /** The supplied `colors` never influence the model. */
  lemma InitIgnoresColors(data: SeriesData, colors: Option<seq<string>>)
    requires HasUsableScale(Some(data))
    ensures Init(Some(data.(colors := colors))) == Init(Some(data))
  {
  }

  /** Pixel values of a constructed model, in terms of the raw values. */
  lemma PixelValuesOfData(data: SeriesData, size: real)
    requires HasUsableScale(Some(data))
    requires Init(Some(data)).Ok?
    ensures SameShape(GetPixelValues(Init(Some(data)).value, size), data.values.value)
    ensures forall i, j :: 0 <= i < |data.values.value| && 0 <= j < |data.values.value[i]| ==>
      GetPixelValues(Init(Some(data)).value, size)[i][j]
        == (data.values.value[i][j] - data.scale.value.min) / data.scale.value.max * size
  {
  }

  /** A unit size gives back the percent values themselves. */
  lemma PixelValuesUnitSize(m: SeriesModel)
    ensures GetPixelValues(m, 1.0) == m.percentValues
  {
    GridEquality(GetPixelValues(m, 1.0), m.percentValues);
  }

  /** Resizing by `a * b` equals scaling the size-`a` pixels by `b`. */
  lemma PixelValuesResize(m: SeriesModel, a: real, b: real)
    ensures GetPixelValues(m, a * b) == ConvertValues(GetPixelValues(m, a), x => x * b)
  {
    GridEquality(GetPixelValues(m, a * b), ConvertValues(GetPixelValues(m, a), x => x * b));
  }

  /** Dividing by a non-zero size recovers the percent values. */
  lemma PixelValuesInverse(m: SeriesModel, size: real)
    requires size != 0.0
    ensures ConvertValues(GetPixelValues(m, size), x => x / size) == m.percentValues
  {
    var pixels := GetPixelValues(m, size);
    var back := ConvertValues(pixels, x => x / size);
    forall i, j | 0 <= i < |m.percentValues| && 0 <= j < |m.percentValues[i]|
      ensures back[i][j] == m.percentValues[i][j]
    {
      var p := m.percentValues[i][j];
      assert pixels[i][j] == p * size;
      assert back[i][j] == pixels[i][j] / size;
      ScaledBack(p, size);
    }
    GridEquality(back, m.percentValues);
  }

  /** Scaling by a non-zero size and dividing by it again is the identity. */
  lemma ScaledBack(p: real, size: real)
    requires size != 0.0
    ensures (p * size) / size == p
  {
  }

  /** The model without data has no pixel values and no colours. */
  lemma EmptyModelOutputs(size: real)
    ensures Init(None).Ok?
    ensures GetPixelValues(Init(None).value, size) == []
    ensures PickLastColors(Init(None).value) == []
  {
  }

  /** A first style without a colour yields no colours, whatever follows it. */
  lemma PickLastColorsIgnoresTail(m: SeriesModel, first: ItemStyle, rest: seq<ItemStyle>)
    requires !IsTruthyColor(first.color)
    ensures PickLastColors(m.(lastItemStyles := [first] + rest)) == []
  {
  }

  /** No colours are picked exactly when the guard on the first style fails. */
  lemma PickLastColorsEmptyIff(m: SeriesModel)
    ensures PickLastColors(m) == [] <==>
      (|m.lastItemStyles| == 0 || !IsTruthyColor(m.lastItemStyles[0].color))
  {
  }

  /** Colours picked after construction come from the supplied styles, or are none. */
  lemma PickLastColorsOfData(data: SeriesData)
    requires HasUsableScale(Some(data))
    requires Init(Some(data)).Ok?
    ensures !IsNotEmptyStyles(data.lastItemStyles) ==> PickLastColors(Init(Some(data)).value) == []
    ensures IsNotEmptyStyles(data.lastItemStyles) && IsTruthyColor(data.lastItemStyles.value[0].color) ==>
      PickLastColors(Init(Some(data)).value) == Pluck(data.lastItemStyles.value)
  {
  }

  /** The percents 0, 0.5, 1 at 200 pixels become 0, 100, 200. */
  lemma ExamplePixelValues()
    ensures GetPixelValues(Empty.(percentValues := [[0.0, 0.5, 1.0]]), 200.0) == [[0.0, 100.0, 200.0]]
  {
    var px := GetPixelValues(Empty.(percentValues := [[0.0, 0.5, 1.0]]), 200.0);
    assert |px| == 1 && |px[0]| == 3;
    assert px[0][0] == 0.0 * 200.0 && px[0][1] == 0.5 * 200.0 && px[0][2] == 1.0 * 200.0;
    GridEquality(px, [[0.0, 100.0, 200.0]]);
  }

  /** Styles red, blue give the colours red, blue; no styles give none. */
  lemma ExampleLastColors()
    ensures PickLastColors(Empty.(lastItemStyles := [ItemStyle(Some("red")), ItemStyle(Some("blue"))]))
      == [Some("red"), Some("blue")]
    ensures PickLastColors(Empty) == []
  {
    var m := Empty.(lastItemStyles := [ItemStyle(Some("red")), ItemStyle(Some("blue"))]);
    assert IsTruthyColor(m.lastItemStyles[0].color) by { assert |"red"| == 3; }
    var colors := PickLastColors(m);
    assert |colors| == 2 && colors[0] == Some("red") && colors[1] == Some("blue");
  }

  /** Empty values are rejected even with a valid scale. */
  lemma ExampleEmptyValuesRejected()
    ensures Init(Some(SeriesData(Some([]), Some(Scale(0.0, 1.0)), None, None)))
      == Err(InvalidSeriesData)
  {
  }
}
