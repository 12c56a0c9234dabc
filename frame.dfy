/**
 * Building a weather frame from the observation features of a zone: each
 * quantitative property is aggregated over the features that report it,
 * weighted by the reading's quality-control grade.
 */
module Frame {
  import opened Wrappers
  import opened JsonValues
  import opened Model

  datatype QuantitativeProperty =
    | Temperature | Dewpoint | WindDirection | WindSpeed | WindGust
    | BarometricPressure | SeaLevelPressure | Visibility
    | MaxTemperatureLast24Hours | MinTemperatureLast24Hours
    | PrecipitationLastHour | PrecipitationLast3Hours | PrecipitationLast6Hours
    | RelativeHumidity | WindChill | HeatIndex

  /** Every property, in declaration order (the order the fold visits them). */
  const AllProperties: seq<QuantitativeProperty> := [
    Temperature, Dewpoint, WindDirection, WindSpeed, WindGust,
    BarometricPressure, SeaLevelPressure, Visibility,
    MaxTemperatureLast24Hours, MinTemperatureLast24Hours,
    PrecipitationLastHour, PrecipitationLast3Hours, PrecipitationLast6Hours,
    RelativeHumidity, WindChill, HeatIndex
  ]

  /** The feature property that carries each quantity (camel case). */
  function PropertyName(p: QuantitativeProperty): string
  {
    match p
    case Temperature => "temperature"
    case Dewpoint => "dewpoint"
    case WindDirection => "windDirection"
    case WindSpeed => "windSpeed"
    case WindGust => "windGust"
    case BarometricPressure => "barometricPressure"
    case SeaLevelPressure => "seaLevelPressure"
    case Visibility => "visibility"
    case MaxTemperatureLast24Hours => "maxTemperatureLast24Hours"
    case MinTemperatureLast24Hours => "minTemperatureLast24Hours"
    case PrecipitationLastHour => "precipitationLastHour"
    case PrecipitationLast3Hours => "precipitationLast3Hours"
    case PrecipitationLast6Hours => "precipitationLast6Hours"
    case RelativeHumidity => "relativeHumidity"
    case WindChill => "windChill"
    case HeatIndex => "heatIndex"
  }

  /** Every property is among those the fold visits. */
  lemma AllPropertiesCover(p: QuantitativeProperty)
    ensures p in AllProperties
  {
  }

  /** No property is visited twice: the ones after position `i` differ from the one at `i`. */
  lemma LaterPropertiesDiffer(i: nat)
    requires i < |AllProperties|
    ensures forall k :: i < k < |AllProperties| ==> AllProperties[k] != AllProperties[i]
  {
    AllPropertiesListed(AllProperties[i]);
  }

  lemma AllPropertiesListed(p: QuantitativeProperty)
    ensures p in AllProperties
    ensures forall i, j :: 0 <= i < j < |AllProperties| ==> AllProperties[i] != AllProperties[j]
  {
  }

  /** One reading of a property: value and grade may each be absent. */
  datatype PropertyDetail = PropertyDetail(value: Option<real>, unitCode: string, qualityControl: Option<QualityControl>)

  /** The running aggregate of one property's readings. */
  datatype QuantitativeAggregation = QuantitativeAggregation(
    count: nat,
    valueSum: real,
    maxValue: real,
    minValue: real,
    unitCode: string,
    qualityControl: QualityControl)
  {
    /** At least one reading, and the sum lies between count times the minimum and the maximum. */
    predicate Valid()
    {
      count >= 1 && minValue <= maxValue && minValue * count as real <= valueSum <= maxValue * count as real
    }
  }

  function ValueOrZero(d: PropertyDetail): real
  {
    match d.value
    case Some(v) => v
    case None => 0.0
  }

  /** Starts an aggregate from a first reading; a missing value counts as 0 and a missing grade as X. */
  function NewAggregation(d: PropertyDetail): (a: QuantitativeAggregation)
    ensures a.count == 1
    ensures a.valueSum == a.maxValue == a.minValue == ValueOrZero(d)
    ensures a.unitCode == d.unitCode
    ensures a.qualityControl == (if d.qualityControl.Some? then d.qualityControl.value else X)
    ensures a.Valid()
  {
    var v := ValueOrZero(d);
    QuantitativeAggregation(1, v, v, v, d.unitCode,
      match d.qualityControl case Some(q) => q case None => X)
  }

  /** The mean of the readings aggregated so far. */
  function AverageValue(a: QuantitativeAggregation): (avg: real)
    requires a.count >= 1
    ensures avg * a.count as real == a.valueSum
    ensures a.Valid() ==> a.minValue <= avg <= a.maxValue
  {
    a.valueSum / a.count as real
  }

  /**
   * Folds another reading into an aggregate. A reading without a value or
   * without a grade is ignored. Grades are compared stored-against-incoming:
   * when the stored grade is lower the reading is ignored, when it is higher
   * the aggregate restarts from the reading, and on equal grades the reading is
   * added. The unit of the aggregate is never changed.
   */
  function AddDetail(a: QuantitativeAggregation, d: PropertyDetail): (r: QuantitativeAggregation)
    ensures d.value.None? || d.qualityControl.None? ==> r == a
    ensures r.unitCode == a.unitCode
  {
    match (d.value, d.qualityControl)
    case (Some(v), Some(q)) =>
      (match Cmp(a.qualityControl, q)
       case Less => a
       case Greater => a.(count := 1, valueSum := v, maxValue := v, minValue := v, qualityControl := q)
       case Equal => a.(count := a.count + 1, valueSum := a.valueSum + v,
                        maxValue := if v > a.maxValue then v else a.maxValue,
                        minValue := if v < a.minValue then v else a.minValue))
    case _ => a
  }

  function Max(x: real, y: real): real { if x >= y then x else y }
  function Min(x: real, y: real): real { if x <= y then x else y }

  /**
   * The three outcomes of adding a graded reading with a value: a better grade
   * is ignored, a worse grade restarts the aggregate, an equal grade adds it.
   */
  lemma AddDetailOutcomes(a: QuantitativeAggregation, v: real, q: QualityControl, unit: string)
    ensures Level(a.qualityControl) < Level(q) ==> AddDetail(a, PropertyDetail(Some(v), unit, Some(q))) == a
    ensures Level(a.qualityControl) > Level(q) ==>
      var r := AddDetail(a, PropertyDetail(Some(v), unit, Some(q)));
      r.count == 1 && r.valueSum == v && r.maxValue == v && r.minValue == v && r.qualityControl == q
    ensures a.qualityControl == q ==>
      var r := AddDetail(a, PropertyDetail(Some(v), unit, Some(q)));
      r.count == a.count + 1 && r.valueSum == a.valueSum + v
      && r.maxValue == Max(v, a.maxValue) && r.minValue == Min(v, a.minValue)
      && r.qualityControl == q
  {
    LevelsDistinct(a.qualityControl, q);
  }

  /** The aggregate always keeps the lower of the stored and incoming grades. */
  lemma AddDetailKeepsLowerGrade(a: QuantitativeAggregation, d: PropertyDetail)
    requires d.value.Some? && d.qualityControl.Some?
    ensures Level(AddDetail(a, d).qualityControl) == if Level(a.qualityControl) <= Level(d.qualityControl.value)
      then Level(a.qualityControl) else Level(d.qualityControl.value)
  {
  }

  /** Scaling by a non-negative count keeps the order of two values. */
  lemma ScaleMonotone(x: real, y: real, c: real)
    requires x <= y && c >= 0.0
    ensures x * c <= y * c
  {
    assert y * c - x * c == (y - x) * c;
  }

  /** Adding a value to a sum bounded by count times min and max keeps it bounded by the widened min and max. */
  lemma MergeBounds(min0: real, max0: real, sum0: real, c: real, v: real, min1: real, max1: real)
    requires c >= 0.0 && min0 * c <= sum0 <= max0 * c
    requires min1 <= min0 && min1 <= v && max0 <= max1 && v <= max1
    ensures min1 * (c + 1.0) <= sum0 + v <= max1 * (c + 1.0)
  {
    ScaleMonotone(min1, min0, c);
    ScaleMonotone(max0, max1, c);
    assert min1 * (c + 1.0) == min1 * c + min1;
    assert max1 * (c + 1.0) == max1 * c + max1;
  }

  /** Adding a reading keeps an aggregate valid. */
  lemma AddDetailPreservesValid(a: QuantitativeAggregation, d: PropertyDetail)
    requires a.Valid()
    ensures AddDetail(a, d).Valid()
  {
    var r := AddDetail(a, d);
    if d.value.Some? && d.qualityControl.Some? && Cmp(a.qualityControl, d.qualityControl.value) == Equal {
      var v := d.value.value;
      var c := a.count as real;
      assert r.count as real == c + 1.0 && r.valueSum == a.valueSum + v;
      assert r.minValue <= a.minValue && r.minValue <= v;
      assert r.maxValue >= a.maxValue && r.maxValue >= v;
      MergeBounds(a.minValue, a.maxValue, a.valueSum, c, v, r.minValue, r.maxValue);
    }
  }

  // ---------------------------------------------------------------------------
  // Folding observation features

  /** An observation feature; only its property object matters here. */
  datatype Feature = Feature(properties: Option<map<string, Json>>)

  /** The aggregates gathered so far, with the time the frame is taken. */
  datatype PropertyAggregations = PropertyAggregations(timestamp: int, properties: map<QuantitativeProperty, QuantitativeAggregation>)

  /** An empty accumulator stamped with the time it was created. */
  function DefaultAggregations(now: int): (acc: PropertyAggregations)
    ensures acc.timestamp == now && acc.properties == map[]
  {
    PropertyAggregations(now, map[])
  }

  /**
   * The reading a feature offers for a property: the property must be present
   * and `parse` (the JSON decoding of a reading) must accept it.
   */
  function DetailOf(feature: Feature, p: QuantitativeProperty, parse: Json -> Option<PropertyDetail>): Option<PropertyDetail>
  {
    match feature.properties
    case None => None
    case Some(props) =>
      if PropertyName(p) in props then parse(props[PropertyName(p)]) else None
  }

  /** What folding one feature does to the aggregate of one property. */
  function FoldProperty(properties: map<QuantitativeProperty, QuantitativeAggregation>, p: QuantitativeProperty, detail: Option<PropertyDetail>): map<QuantitativeProperty, QuantitativeAggregation>
  {
    match detail
    case None => properties
    case Some(d) =>
      if p in properties then properties[p := AddDetail(properties[p], d)]
      else properties[p := NewAggregation(d)]
  }

  /**
   * Folds one feature into the accumulator: a feature without properties
   * changes nothing; otherwise every property with a readable detail creates
   * its aggregate or adds to it, and unreadable or absent ones are skipped.
   */
  method FoldFeature(acc: PropertyAggregations, feature: Feature, parse: Json -> Option<PropertyDetail>)
    returns (r: PropertyAggregations)
    ensures feature.properties.None? ==> r == acc
    ensures r.timestamp == acc.timestamp
    ensures forall p :: p in r.properties <==> p in acc.properties || DetailOf(feature, p, parse).Some?
    ensures forall p :: DetailOf(feature, p, parse).None? && p in acc.properties ==> r.properties[p] == acc.properties[p]
    ensures forall p :: DetailOf(feature, p, parse).Some? && p in acc.properties ==>
      r.properties[p] == AddDetail(acc.properties[p], DetailOf(feature, p, parse).value)
    ensures forall p :: DetailOf(feature, p, parse).Some? && p !in acc.properties ==>
      r.properties[p] == NewAggregation(DetailOf(feature, p, parse).value)
  {
    if feature.properties.None? {
      return acc;
    }
    var properties := acc.properties;
    ghost var done: set<QuantitativeProperty> := {};
    var i := 0;
    while i < |AllProperties|
      invariant 0 <= i <= |AllProperties|
      invariant forall k :: 0 <= k < i ==> AllProperties[k] in done
      invariant forall k :: i <= k < |AllProperties| ==> AllProperties[k] !in done
      invariant FoldedOver(acc.properties, properties, done, feature, parse)
    {
      var p := AllProperties[i];
      LaterPropertiesDiffer(i);
      FoldedOverStep(acc.properties, properties, done, feature, parse, p);
      properties := FoldPropertyOf(properties, p, feature, parse);
      done := done + {p};
      i := i + 1;
    }
    forall p ensures p in done {
      AllPropertiesCover(p);
    }
    FoldedOverAll(acc.properties, properties, done, feature, parse);
    r := acc.(properties := properties);
  }

  /**
   * The fold's progress: the properties in `done` have been folded from
   * `acc`, and every other property is as it was in `acc`.
   */
  predicate FoldedOver(
    acc: map<QuantitativeProperty, QuantitativeAggregation>, properties: map<QuantitativeProperty, QuantitativeAggregation>,
    done: set<QuantitativeProperty>, feature: Feature, parse: Json -> Option<PropertyDetail>)
  {
    && (forall p :: p in done ==> (p in properties <==> p in acc || DetailOf(feature, p, parse).Some?))
    && (forall p :: p !in done ==> (p in properties <==> p in acc))
    && (forall p :: p !in done && p in acc ==> properties[p] == acc[p])
    && (forall p :: p in done && p in properties ==> properties[p] == FoldProperty(acc, p, DetailOf(feature, p, parse))[p])
  }

  /** Once every property has been folded, each one is created, added to or left as the feature's reading says. */
  lemma FoldedOverAll(
    acc: map<QuantitativeProperty, QuantitativeAggregation>, properties: map<QuantitativeProperty, QuantitativeAggregation>,
    done: set<QuantitativeProperty>, feature: Feature, parse: Json -> Option<PropertyDetail>)
    requires FoldedOver(acc, properties, done, feature, parse) && forall p :: p in done
    ensures forall p :: p in properties <==> p in acc || DetailOf(feature, p, parse).Some?
    ensures forall p :: DetailOf(feature, p, parse).None? && p in acc ==> properties[p] == acc[p]
    ensures forall p :: DetailOf(feature, p, parse).Some? && p in acc ==>
      properties[p] == AddDetail(acc[p], DetailOf(feature, p, parse).value)
    ensures forall p :: DetailOf(feature, p, parse).Some? && p !in acc ==>
      properties[p] == NewAggregation(DetailOf(feature, p, parse).value)
  {
  }

  /** Folding one more property extends the progress by that property. */
  lemma FoldedOverStep(
    acc: map<QuantitativeProperty, QuantitativeAggregation>, properties: map<QuantitativeProperty, QuantitativeAggregation>,
    done: set<QuantitativeProperty>, feature: Feature, parse: Json -> Option<PropertyDetail>, p: QuantitativeProperty)
    requires FoldedOver(acc, properties, done, feature, parse) && p !in done
    ensures FoldedOver(acc, FoldProperty(properties, p, DetailOf(feature, p, parse)), done + {p}, feature, parse)
  {
    FoldedOverStepKeys(acc, properties, done, feature, parse, p);
    FoldedOverStepValues(acc, properties, done, feature, parse, p);
  }

  /** The key half of `FoldedOverStep`. */
  lemma FoldedOverStepKeys(
    acc: map<QuantitativeProperty, QuantitativeAggregation>, properties: map<QuantitativeProperty, QuantitativeAggregation>,
    done: set<QuantitativeProperty>, feature: Feature, parse: Json -> Option<PropertyDetail>, p: QuantitativeProperty)
    requires FoldedOver(acc, properties, done, feature, parse) && p !in done
    ensures var next := FoldProperty(properties, p, DetailOf(feature, p, parse));
      && (forall q :: q in done + {p} ==> (q in next <==> q in acc || DetailOf(feature, q, parse).Some?))
      && (forall q :: q !in done + {p} ==> (q in next <==> q in acc))
  {
    FoldPropertyFrame(properties, p, DetailOf(feature, p, parse));
  }

  /** The value half of `FoldedOverStep`. */
  lemma FoldedOverStepValues(
    acc: map<QuantitativeProperty, QuantitativeAggregation>, properties: map<QuantitativeProperty, QuantitativeAggregation>,
    done: set<QuantitativeProperty>, feature: Feature, parse: Json -> Option<PropertyDetail>, p: QuantitativeProperty)
    requires FoldedOver(acc, properties, done, feature, parse) && p !in done
    ensures var next := FoldProperty(properties, p, DetailOf(feature, p, parse));
      && (forall q :: q !in done + {p} && q in acc ==> q in next && next[q] == acc[q])
      && (forall q :: q in done + {p} && q in next ==> next[q] == FoldProperty(acc, q, DetailOf(feature, q, parse))[q])
  {
    var d := DetailOf(feature, p, parse);
    FoldPropertyFrame(properties, p, d);
    FoldedOverStepOwn(acc, properties, p, d);
  }

  /** The newly folded property ends up as folding it into `acc` would leave it. */
  lemma FoldedOverStepOwn(
    acc: map<QuantitativeProperty, QuantitativeAggregation>, properties: map<QuantitativeProperty, QuantitativeAggregation>,
    p: QuantitativeProperty, d: Option<PropertyDetail>)
    requires p in properties <==> p in acc
    requires p in acc ==> properties[p] == acc[p]
    ensures p in FoldProperty(properties, p, d) ==> FoldProperty(properties, p, d)[p] == FoldProperty(acc, p, d)[p]
  {
  }

  /** Folding a property changes at most that property, which is present afterwards exactly when it was or a detail came. */
  lemma FoldPropertyFrame(properties: map<QuantitativeProperty, QuantitativeAggregation>, p: QuantitativeProperty, detail: Option<PropertyDetail>)
    ensures var r := FoldProperty(properties, p, detail);
      && (p in r <==> p in properties || detail.Some?)
      && (forall q :: q != p ==> (q in r <==> q in properties))
      && (forall q :: q != p && q in properties ==> r[q] == properties[q])
  {
  }

  /** The loop body of the fold: reads one property of a feature and, if it parses, creates or adds to its aggregate. */
  method FoldPropertyOf(
    properties: map<QuantitativeProperty, QuantitativeAggregation>, p: QuantitativeProperty,
    feature: Feature, parse: Json -> Option<PropertyDetail>)
    returns (r: map<QuantitativeProperty, QuantitativeAggregation>)
    requires feature.properties.Some?
    ensures r == FoldProperty(properties, p, DetailOf(feature, p, parse))
  {
    var props := feature.properties.value;
    var name := PropertyName(p);
    r := properties;
    if name in props {
      match parse(props[name])
      case Some(detail) =>
        if p in r {
          r := r[p := AddDetail(r[p], detail)];
        } else {
          r := r[p := NewAggregation(detail)];
        }
      case None =>
    }
  }

  /** Every aggregate the fold produces stays valid. */
  lemma FoldPropertyPreservesValid(properties: map<QuantitativeProperty, QuantitativeAggregation>, p: QuantitativeProperty, detail: Option<PropertyDetail>)
    requires forall q :: q in properties ==> properties[q].Valid()
    ensures var r := FoldProperty(properties, p, detail);
      forall q :: q in r ==> r[q].Valid()
  {
    if detail.Some? && p in properties {
      AddDetailPreservesValid(properties[p], detail.value);
    }
  }

  // ---------------------------------------------------------------------------
  // Turning the aggregates into a frame

  /** A quantity as reported in a frame: the mean with its extremes. */
  datatype QuantitativeValue = QuantitativeValue(value: real, maxValue: real, minValue: real, unitCode: string, qualityControl: QualityControl)

  /** The value a valid aggregate reports. */
  function ToQuantitativeValue(a: QuantitativeAggregation): (v: QuantitativeValue)
    requires a.count >= 1
    ensures v.value == AverageValue(a) && v.maxValue == a.maxValue && v.minValue == a.minValue
    ensures v.unitCode == a.unitCode && v.qualityControl == a.qualityControl
    ensures a.Valid() ==> v.minValue <= v.value <= v.maxValue
  {
    QuantitativeValue(AverageValue(a), a.maxValue, a.minValue, a.unitCode, a.qualityControl)
  }

  datatype WeatherFrame = WeatherFrame(
    timestamp: int,
    temperature: Option<QuantitativeValue>,
    dewpoint: Option<QuantitativeValue>,
    windDirection: Option<QuantitativeValue>,
    windSpeed: Option<QuantitativeValue>,
    windGust: Option<QuantitativeValue>,
    barometricPressure: Option<QuantitativeValue>,
    seaLevelPressure: Option<QuantitativeValue>,
    visibility: Option<QuantitativeValue>,
    maxTemperatureLast24Hours: Option<QuantitativeValue>,
    minTemperatureLast24Hours: Option<QuantitativeValue>,
    precipitationLastHour: Option<QuantitativeValue>,
    precipitationLast3Hours: Option<QuantitativeValue>,
    precipitationLast6Hours: Option<QuantitativeValue>,
    relativeHumidity: Option<QuantitativeValue>,
    windChill: Option<QuantitativeValue>,
    heatIndex: Option<QuantitativeValue>)
  {
    /** The frame field that reports a property. */
    function Field(p: QuantitativeProperty): Option<QuantitativeValue>
    {
      match p
      case Temperature => temperature
      case Dewpoint => dewpoint
      case WindDirection => windDirection
      case WindSpeed => windSpeed
      case WindGust => windGust
      case BarometricPressure => barometricPressure
      case SeaLevelPressure => seaLevelPressure
      case Visibility => visibility
      case MaxTemperatureLast24Hours => maxTemperatureLast24Hours
      case MinTemperatureLast24Hours => minTemperatureLast24Hours
      case PrecipitationLastHour => precipitationLastHour
      case PrecipitationLast3Hours => precipitationLast3Hours
      case PrecipitationLast6Hours => precipitationLast6Hours
      case RelativeHumidity => relativeHumidity
      case WindChill => windChill
      case HeatIndex => heatIndex
    }
  }

  predicate AllValid(acc: PropertyAggregations)
  {
    forall p :: p in acc.properties ==> acc.properties[p].Valid()
  }

  /** The value an accumulator reports for one property. */
  function PropertyValue(acc: PropertyAggregations, p: QuantitativeProperty): Option<QuantitativeValue>
    requires AllValid(acc)
  {
    if p in acc.properties then Some(ToQuantitativeValue(acc.properties[p])) else None
  }

  /**
   * The frame of an accumulator: it keeps the accumulator's time, and a
   * property's field is present exactly when that property was aggregated.
   */
  function ToWeatherFrame(acc: PropertyAggregations): (f: WeatherFrame)
    requires AllValid(acc)
    ensures f.timestamp == acc.timestamp
  {
    WeatherFrame(
      acc.timestamp,
      PropertyValue(acc, Temperature),
      PropertyValue(acc, Dewpoint),
      PropertyValue(acc, WindDirection),
      PropertyValue(acc, WindSpeed),
      PropertyValue(acc, WindGust),
      PropertyValue(acc, BarometricPressure),
      PropertyValue(acc, SeaLevelPressure),
      PropertyValue(acc, Visibility),
      PropertyValue(acc, MaxTemperatureLast24Hours),
      PropertyValue(acc, MinTemperatureLast24Hours),
      PropertyValue(acc, PrecipitationLastHour),
      PropertyValue(acc, PrecipitationLast3Hours),
      PropertyValue(acc, PrecipitationLast6Hours),
      PropertyValue(acc, RelativeHumidity),
      PropertyValue(acc, WindChill),
      PropertyValue(acc, HeatIndex))
  }

  /** A property's field is present exactly when that property was aggregated. */
  lemma FrameFields(acc: PropertyAggregations, p: QuantitativeProperty)
    requires AllValid(acc)
    ensures ToWeatherFrame(acc).Field(p).Some? <==> p in acc.properties
    ensures p in acc.properties ==> ToWeatherFrame(acc).Field(p) == Some(ToQuantitativeValue(acc.properties[p]))
  {
    var f := ToWeatherFrame(acc);
    assert f.Field(p) == PropertyValue(acc, p) by {
      match p
      case Temperature =>
      case Dewpoint =>
      case WindDirection =>
      case WindSpeed =>
      case WindGust =>
      case BarometricPressure =>
      case SeaLevelPressure =>
      case Visibility =>
      case MaxTemperatureLast24Hours =>
      case MinTemperatureLast24Hours =>
      case PrecipitationLastHour =>
      case PrecipitationLast3Hours =>
      case PrecipitationLast6Hours =>
      case RelativeHumidity =>
      case WindChill =>
      case HeatIndex =>
    }
  }

  /** Folds one optional reading into a property's optional aggregate, as folding a feature does. */
  function FoldStep(a: Option<QuantitativeAggregation>, d: Option<PropertyDetail>): (r: Option<QuantitativeAggregation>)
    ensures d.None? ==> r == a
    ensures d.Some? && a.Some? ==> r == Some(AddDetail(a.value, d.value))
    ensures d.Some? && a.None? ==> r == Some(NewAggregation(d.value))
  {
    match d
    case None => a
    case Some(detail) => if a.Some? then Some(AddDetail(a.value, detail)) else Some(NewAggregation(detail))
  }

  /**
   * The aggregate of one property over a run of features folded in order,
   * absent while no feature has offered a readable detail; it is always valid.
   */
  function PropertyFold(features: seq<Feature>, p: QuantitativeProperty, parse: Json -> Option<PropertyDetail>)
    : (r: Option<QuantitativeAggregation>)
    ensures r.Some? ==> r.value.Valid()
  {
    if |features| == 0 then None
    else
      var prev := PropertyFold(features[..|features| - 1], p, parse);
      var d := DetailOf(features[|features| - 1], p, parse);
      if prev.Some? && d.Some? then AddDetailPreservesValid(prev.value, d.value); FoldStep(prev, d)
      else FoldStep(prev, d)
  }

  /** Folding one more feature extends the per-property fold by that feature's reading. */
  lemma PropertyFoldSnoc(features: seq<Feature>, i: nat, p: QuantitativeProperty, parse: Json -> Option<PropertyDetail>)
    requires i < |features|
    ensures PropertyFold(features[..i + 1], p, parse) == FoldStep(PropertyFold(features[..i], p, parse), DetailOf(features[i], p, parse))
  {
    assert features[..i + 1][..i] == features[..i];
  }

  /** A property has an aggregate exactly when some feature offered a readable detail for it. */
  lemma {:induction false} PropertyFoldPresent(features: seq<Feature>, p: QuantitativeProperty, parse: Json -> Option<PropertyDetail>)
    ensures PropertyFold(features, p, parse).Some? <==> exists k :: 0 <= k < |features| && DetailOf(features[k], p, parse).Some?
  {
    if |features| > 0 {
      var n := |features| - 1;
      PropertyFoldPresent(features[..n], p, parse);
      if PropertyFold(features[..n], p, parse).Some? {
        var k :| 0 <= k < n && DetailOf(features[..n][k], p, parse).Some?;
        assert features[..n][k] == features[k];
      } else if DetailOf(features[n], p, parse).None? {
        forall k | 0 <= k < |features|
          ensures DetailOf(features[k], p, parse).None?
        {
          if k < n {
            assert features[..n][k] == features[k];
          }
        }
      }
    }
  }

  /** The field a frame of the features reports for a property: the value of the property's fold, if any. */
  function FrameValue(features: seq<Feature>, p: QuantitativeProperty, parse: Json -> Option<PropertyDetail>): Option<QuantitativeValue>
  {
    var a := PropertyFold(features, p, parse);
    if a.Some? then Some(ToQuantitativeValue(a.value)) else None
  }

  /**
   * The frame of a feature collection: the features are folded in order from
   * an empty accumulator taken at `now`. Each field of the frame reports the
   * fold of its property over the features, and is present exactly when some
   * feature offered a readable detail for that property.
   */
  method FrameFromFeatures(features: seq<Feature>, now: int, parse: Json -> Option<PropertyDetail>)
    returns (frame: WeatherFrame)
    ensures frame.timestamp == now
    ensures forall p :: frame.Field(p) == FrameValue(features, p, parse)
    ensures forall p :: frame.Field(p).Some? <==> exists k :: 0 <= k < |features| && DetailOf(features[k], p, parse).Some?
  {
    var acc := DefaultAggregations(now);
    var i := 0;
    while i < |features|
      invariant 0 <= i <= |features|
      invariant acc.timestamp == now
      invariant forall p :: Get(acc.properties, p) == PropertyFold(features[..i], p, parse)
    {
      var next := FoldFeature(acc, features[i], parse);
      forall p
        ensures Get(next.properties, p) == PropertyFold(features[..i + 1], p, parse)
      {
        PropertyFoldSnoc(features, i, p, parse);
      }
      acc := next;
      i := i + 1;
    }
    assert features[..i] == features;
    assert AllValid(acc) by {
      forall p | p in acc.properties
        ensures acc.properties[p].Valid()
      {
        assert Get(acc.properties, p) == PropertyFold(features, p, parse);
      }
    }
    frame := ToWeatherFrame(acc);
    forall p
      ensures frame.Field(p) == FrameValue(features, p, parse)
      ensures frame.Field(p).Some? <==> exists k :: 0 <= k < |features| && DetailOf(features[k], p, parse).Some?
    {
      FrameFields(acc, p);
      assert Get(acc.properties, p) == PropertyFold(features, p, parse);
      PropertyFoldPresent(features, p, parse);
    }
  }
}
