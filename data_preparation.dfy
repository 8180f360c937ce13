/**
 * The offline dataset preparation script: the stored advisories flattened
 * into one typed row each, with categories in canonical case, numeric gaps
 * filled by the column mean, the month of the creation timestamp, fixed
 * temperature and humidity buckets and a healthy-crop flag.
 */
module DataPreparation {
  import opened Wrappers
  import opened Text
  import opened Records

  /** Why the script stops. */
  datatype PrepError =
    | KeyError(missing: seq<string>)  // columns the frame lacks
    | TypeError(column: string)       // the mean of a column holding a non-numeric value
    | UnparseableDate                 // a created_at value to_datetime cannot read

  datatype TemperatureBucket = Low | Medium | High
  datatype HumidityBucket = Dry | Normal | Humid

  /** One row of the prepared dataset, in the script's column order. */
  datatype PreparedRow = PreparedRow(
    crop: string,
    soilType: string,
    manualLocation: string,
    temp: Option<real>,
    humidity: Option<real>,
    marketPrice: Option<real>,
    advisoryText: string,
    createdAt: Value,
    month: Option<int>,
    temperatureBucket: Option<TemperatureBucket>,
    humidityBucket: Option<HumidityBucket>,
    healthyCrop: bool)

  /** The columns the script selects, other than the three it flattens. */
  const Selected: seq<string> := ["crop", "soil_type", "manual_location", "advisory_text", "created_at"]

  // ---------------------------------------------------------------------
  // Per-column steps

  /** A cell the column mean can take: a number or a missing value. */
  predicate Averageable(v: Value) {
    v.Num? || v == Null || v == NaN
  }

  /**
   * fillna(mean): a TypeError when some cell is neither a number nor missing;
   * otherwise the gaps take the mean of the numbers, and stay missing when
   * there is no number to average.
   */
  function FillWithMean(name: string, col: seq<Value>): (r: Result<seq<Option<real>>, PrepError>)
    ensures r.Failure? <==> exists i :: 0 <= i < |col| && !Averageable(col[i])
    ensures r.Failure? ==> r.error == TypeError(name)
    ensures r.Success? ==> |r.value| == |col|
  {
    if exists i :: 0 <= i < |col| && !Averageable(col[i]) then Failure(TypeError(name))
    else
      var nums := Coerce(col);
      if |Present(nums)| == 0 then Success(nums)
      else
        var filled := FillMissing(nums, Mean(Present(nums)));
        Success(seq(|col|, i requires 0 <= i < |col| => Some(filled[i])))
  }

  /** The strings to_datetime reads as NaT. */
  predicate IsNatString(s: string) {
    s in {"", "NaT", "nat", "NAT", "nan", "NaN", "NAN"}
  }

  /** A created_at cell strict to_datetime can read: a timestamp, a date string, or a missing value. */
  predicate Datable(v: Value) {
    v.Stamp? || v == Null || v == NaN || (v.Str? && (IsNatString(v.s) || ParseIsoDate(v.s).Some?))
  }

  /** The month of one readable created_at cell; None for NaT. */
  function MonthOfCell(v: Value): Option<int>
    requires Datable(v)
  {
    match v
    case Stamp(d) => Some(d.month)
    case Str(s) => if IsNatString(s) then None else Some(ParseIsoDate(s).value.month)
    case _ => None
  }

  /** pd.to_datetime(created_at).dt.month without coercion: one unreadable cell stops the script. */
  function Months(col: seq<Value>): (r: Result<seq<Option<int>>, PrepError>)
    ensures r.Failure? <==> exists i :: 0 <= i < |col| && !Datable(col[i])
    ensures r.Failure? ==> r.error == UnparseableDate
    ensures r.Success? ==> |r.value| == |col|
  {
    if exists i :: 0 <= i < |col| && !Datable(col[i]) then Failure(UnparseableDate)
    else Success(seq(|col|, i requires 0 <= i < |col| => MonthOfCell(col[i])))
  }

  /** pd.cut(temp, bins=[0, 20, 30, 45], labels=["Low", "Medium", "High"]) on one value. */
  function TemperatureBucketOf(t: Option<real>): (b: Option<TemperatureBucket>)
    ensures b == Some(Low) <==> t.Some? && 0.0 < t.value <= 20.0
    ensures b == Some(Medium) <==> t.Some? && 20.0 < t.value <= 30.0
    ensures b == Some(High) <==> t.Some? && 30.0 < t.value <= 45.0
    ensures b.None? <==> t.None? || t.value <= 0.0 || t.value > 45.0
  {
    match t
    case None => None
    case Some(x) =>
      if 0.0 < x <= 20.0 then Some(Low)
      else if 20.0 < x <= 30.0 then Some(Medium)
      else if 30.0 < x <= 45.0 then Some(High)
      else None
  }

  /** pd.cut(humidity, bins=[0, 40, 70, 100], labels=["Dry", "Normal", "Humid"]) on one value. */
  function HumidityBucketOf(h: Option<real>): (b: Option<HumidityBucket>)
    ensures b == Some(Dry) <==> h.Some? && 0.0 < h.value <= 40.0
    ensures b == Some(Normal) <==> h.Some? && 40.0 < h.value <= 70.0
    ensures b == Some(Humid) <==> h.Some? && 70.0 < h.value <= 100.0
    ensures b.None? <==> h.None? || h.value <= 0.0 || h.value > 100.0
  {
    match h
    case None => None
    case Some(x) =>
      if 0.0 < x <= 40.0 then Some(Dry)
      else if 40.0 < x <= 70.0 then Some(Normal)
      else if 70.0 < x <= 100.0 then Some(Humid)
      else None
  }

  // ---------------------------------------------------------------------
  // The whole script

  /** The columns the script works on, after flattening and before cleaning. */
  datatype Columns = Columns(
    crop: seq<Value>, soilType: seq<Value>, manualLocation: seq<Value>,
    temp: seq<Value>, humidity: seq<Value>, marketPrice: seq<Value>,
    advisoryText: seq<Value>, createdAt: seq<Value>)

  function RawColumns(docs: seq<Document>): (raw: Columns)
    ensures Sized(raw, |docs|)
  {
    Columns(Column(docs, "crop"), Column(docs, "soil_type"), Column(docs, "manual_location"),
            Flatten(Column(docs, "weather_info"), "temp"),
            Flatten(Column(docs, "weather_info"), "humidity"),
            Flatten(Column(docs, "market_info"), "price"),
            Column(docs, "advisory_text"), Column(docs, "created_at"))
  }

  /** Row `i` of the prepared dataset, from the cleaned and derived columns. */
  function Row(raw: Columns, render: Value -> string, temp: seq<Option<real>>, humidity: seq<Option<real>>,
               marketPrice: seq<Option<real>>, month: seq<Option<int>>, i: int): PreparedRow
    requires 0 <= i < |raw.crop| && 0 <= i < |raw.soilType| && 0 <= i < |raw.manualLocation|
    requires 0 <= i < |raw.advisoryText| && 0 <= i < |raw.createdAt|
    requires 0 <= i < |temp| && 0 <= i < |humidity| && 0 <= i < |marketPrice| && 0 <= i < |month|
  {
    var text := PyStr(raw.advisoryText[i], render);
    PreparedRow(
      Canonical(PyStr(raw.crop[i], render)),
      Canonical(PyStr(raw.soilType[i], render)),
      Title(Strip(PyStr(raw.manualLocation[i], render))),
      temp[i], humidity[i], marketPrice[i],
      text,
      raw.createdAt[i],
      month[i],
      TemperatureBucketOf(temp[i]),
      HumidityBucketOf(humidity[i]),
      Contains(text, "Healthy"))
  }

  /** Every column holds `n` cells. */
  predicate Sized(raw: Columns, n: nat) {
    |raw.crop| == n && |raw.soilType| == n && |raw.manualLocation| == n && |raw.temp| == n
    && |raw.humidity| == n && |raw.marketPrice| == n && |raw.advisoryText| == n && |raw.createdAt| == n
  }

  /**
   * The cleaning after the column checks: the three mean fills, then the
   * months, then one row per document; the first step that fails stops it.
   */
  function Clean(raw: Columns, render: Value -> string, n: nat): (r: Result<seq<PreparedRow>, PrepError>)
    requires Sized(raw, n)
    ensures r.Success? ==> |r.value| == n
  {
    match FillWithMean("temp", raw.temp)
    case Failure(e) => Failure(e)
    case Success(temp) =>
      match FillWithMean("humidity", raw.humidity)
      case Failure(e) => Failure(e)
      case Success(humidity) =>
        match FillWithMean("market_price", raw.marketPrice)
        case Failure(e) => Failure(e)
        case Success(marketPrice) =>
          match Months(raw.createdAt)
          case Failure(e) => Failure(e)
          case Success(month) =>
            Success(seq(n, i requires 0 <= i < n => Row(raw, render, temp, humidity, marketPrice, month, i)))
  }

  /**
   * The dataset the script writes, or the error it stops with: a KeyError
   * when no document has weather_info or market_info or when a selected
   * column is absent, a TypeError from the mean of a column holding text,
   * or a date to_datetime cannot read.
   */
  function Prepared(docs: seq<Document>, render: Value -> string): (r: Result<seq<PreparedRow>, PrepError>)
    ensures r.Success? ==> |r.value| == |docs|
  {
    var keys := Keys(docs);
    if "weather_info" !in keys then Failure(KeyError(["weather_info"]))
    else if "market_info" !in keys then Failure(KeyError(["market_info"]))
    else if MissingColumns(keys, Selected) != [] then Failure(KeyError(MissingColumns(keys, Selected)))
    else Clean(RawColumns(docs), render, |docs|)
  }

  /** Once the column checks pass, what the script yields is the cleaning of the raw columns. */
  lemma PreparedAfterChecks(docs: seq<Document>, render: Value -> string)
    requires "weather_info" in Keys(docs) && "market_info" in Keys(docs)
    requires MissingColumns(Keys(docs), Selected) == []
    ensures Prepared(docs, render) == Clean(RawColumns(docs), render, |docs|)
  {
  }

  /**
   * The script, step by step: flatten, select, then clean the columns.
   */
  method PrepareDataset(docs: seq<Document>, render: Value -> string) returns (r: Result<seq<PreparedRow>, PrepError>)
    ensures r == Prepared(docs, render)
  {
    var keys := Keys(docs);
    if "weather_info" !in keys {
      return Failure(KeyError(["weather_info"]));
    }
    var weather := Column(docs, "weather_info");
    var temp := Flatten(weather, "temp");
    var humidity := Flatten(weather, "humidity");
    if "market_info" !in keys {
      return Failure(KeyError(["market_info"]));
    }
    var marketPrice := Flatten(Column(docs, "market_info"), "price");
    var missing := MissingColumns(keys, Selected);
    if missing != [] {
      return Failure(KeyError(missing));
    }
    var raw := Columns(Column(docs, "crop"), Column(docs, "soil_type"), Column(docs, "manual_location"),
                       temp, humidity, marketPrice, Column(docs, "advisory_text"), Column(docs, "created_at"));
    assert raw == RawColumns(docs);
    PreparedAfterChecks(docs, render);
    r := CleanColumns(raw, render, |docs|);
  }

  /**
   * The cleaning steps of the script: fill the numeric gaps with the
   * column means, then derive month, buckets and the healthy flag.
   */
  method CleanColumns(raw: Columns, render: Value -> string, n: nat) returns (r: Result<seq<PreparedRow>, PrepError>)
    requires Sized(raw, n)
    ensures r == Clean(raw, render, n)
  {
    var filledTemp := FillWithMean("temp", raw.temp);
    if filledTemp.Failure? {
      return Failure(filledTemp.error);
    }
    var filledHumidity := FillWithMean("humidity", raw.humidity);
    if filledHumidity.Failure? {
      return Failure(filledHumidity.error);
    }
    var filledPrice := FillWithMean("market_price", raw.marketPrice);
    if filledPrice.Failure? {
      return Failure(filledPrice.error);
    }
    var month := Months(raw.createdAt);
    if month.Failure? {
      return Failure(month.error);
    }
    r := Success(seq(n, i requires 0 <= i < n =>
      Row(raw, render, filledTemp.value, filledHumidity.value, filledPrice.value, month.value, i)));
  }

  // ---------------------------------------------------------------------
  // Properties of the prepared dataset

  /** Without documents the frame has no weather_info column, so the script stops at the first lookup. */
  lemma NoDocumentsKeyError(render: Value -> string)
    ensures Prepared([], render) == Failure(KeyError(["weather_info"]))
  {
  }

  /** The cleaning stops exactly on a numeric cell that is not a number or missing, or on an unreadable date. */
  lemma CleanSucceeds(raw: Columns, render: Value -> string, n: nat)
    requires Sized(raw, n)
    ensures Clean(raw, render, n).Success? <==>
      (forall i :: 0 <= i < n ==> Averageable(raw.temp[i]))
      && (forall i :: 0 <= i < n ==> Averageable(raw.humidity[i]))
      && (forall i :: 0 <= i < n ==> Averageable(raw.marketPrice[i]))
      && (forall i :: 0 <= i < n ==> Datable(raw.createdAt[i]))
  {
  }

  /** The script succeeds exactly when the column checks pass and the cleaning succeeds. */
  lemma PreparedSplit(docs: seq<Document>, render: Value -> string)
    ensures Prepared(docs, render).Success? <==>
      "weather_info" in Keys(docs) && "market_info" in Keys(docs) && MissingColumns(Keys(docs), Selected) == []
      && Clean(RawColumns(docs), render, |docs|).Success?
  {
    if "weather_info" in Keys(docs) && "market_info" in Keys(docs) && MissingColumns(Keys(docs), Selected) == [] {
      PreparedAfterChecks(docs, render);
    }
  }

  /** The script only stops on a missing column, a non-numeric numeric cell or an unreadable date. */
  lemma PreparedSucceeds(docs: seq<Document>, render: Value -> string)
    ensures Prepared(docs, render).Success? <==>
      "weather_info" in Keys(docs) && "market_info" in Keys(docs)
      && (forall c :: c in Selected ==> c in Keys(docs))
      && (forall i :: 0 <= i < |docs| ==> Averageable(RawColumns(docs).temp[i]))
      && (forall i :: 0 <= i < |docs| ==> Averageable(RawColumns(docs).humidity[i]))
      && (forall i :: 0 <= i < |docs| ==> Averageable(RawColumns(docs).marketPrice[i]))
      && (forall i :: 0 <= i < |docs| ==> Datable(Field(docs[i], "created_at")))
  {
    var keys := Keys(docs);
    var raw := RawColumns(docs);
    PreparedSplit(docs, render);
    NoneMissing(keys, Selected);
    CleanSucceeds(raw, render, |docs|);
    DatableCreatedAt(docs);
  }

  lemma DatableCreatedAt(docs: seq<Document>)
    ensures (forall i :: 0 <= i < |docs| ==> Datable(RawColumns(docs).createdAt[i])) <==>
      (forall i :: 0 <= i < |docs| ==> Datable(Field(docs[i], "created_at")))
  {
    assert RawColumns(docs).createdAt == Column(docs, "created_at");
  }

  /**
   * Every row comes from the document at the same position: categories in
   * canonical form, the location title-cased after stripping (which is the
   * same canonical form), the text as str() gives it, the flag true exactly
   * when that text contains "Healthy".
   */
  lemma PreparedRows(docs: seq<Document>, render: Value -> string, i: int)
    requires Prepared(docs, render).Success? && 0 <= i < |docs|
    ensures |Prepared(docs, render).value| == |docs|
    ensures var row := Prepared(docs, render).value[i];
      row.crop == Canonical(PyStr(Field(docs[i], "crop"), render))
      && row.soilType == Canonical(PyStr(Field(docs[i], "soil_type"), render))
      && row.manualLocation == Canonical(PyStr(Field(docs[i], "manual_location"), render))
      && row.advisoryText == PyStr(Field(docs[i], "advisory_text"), render)
      && row.createdAt == Field(docs[i], "created_at")
      && (row.healthyCrop <==> Contains(row.advisoryText, "Healthy"))
      && row.temperatureBucket == TemperatureBucketOf(row.temp)
      && row.humidityBucket == HumidityBucketOf(row.humidity)
  {
    var raw := RawColumns(docs);
    PreparedAfterChecks(docs, render);
    CleanRow(raw, render, |docs|, i);
    TitleOfStripIsCanonical(PyStr(Field(docs[i], "manual_location"), render));
  }

  /** A row of a successful cleaning is built from the raw cells at its position. */
  lemma CleanRow(raw: Columns, render: Value -> string, n: nat, i: int)
    requires Sized(raw, n) && Clean(raw, render, n).Success? && 0 <= i < n
    ensures |Clean(raw, render, n).value| == n
    ensures var row := Clean(raw, render, n).value[i];
      row.crop == Canonical(PyStr(raw.crop[i], render))
      && row.soilType == Canonical(PyStr(raw.soilType[i], render))
      && row.manualLocation == Title(Strip(PyStr(raw.manualLocation[i], render)))
      && row.advisoryText == PyStr(raw.advisoryText[i], render)
      && row.createdAt == raw.createdAt[i]
      && (row.healthyCrop <==> Contains(row.advisoryText, "Healthy"))
      && row.temperatureBucket == TemperatureBucketOf(row.temp)
      && row.humidityBucket == HumidityBucketOf(row.humidity)
  {
  }

  /**
   * The numbers of every row are those the mean fill of their column left
   * at its position, and its month is that of its created_at cell.
   */
  lemma PreparedNumbers(docs: seq<Document>, render: Value -> string, i: int)
    requires Prepared(docs, render).Success? && 0 <= i < |docs|
    ensures var raw := RawColumns(docs);
      FillWithMean("temp", raw.temp).Success? && FillWithMean("humidity", raw.humidity).Success?
      && FillWithMean("market_price", raw.marketPrice).Success? && Months(raw.createdAt).Success?
    ensures var raw := RawColumns(docs);
      var row := Prepared(docs, render).value[i];
      row.temp == FillWithMean("temp", raw.temp).value[i]
      && row.humidity == FillWithMean("humidity", raw.humidity).value[i]
      && row.marketPrice == FillWithMean("market_price", raw.marketPrice).value[i]
      && row.month == Months(raw.createdAt).value[i]
  {
    PreparedAfterChecks(docs, render);
    CleanNumbers(RawColumns(docs), render, |docs|, i);
  }

  /** The numbers and the month of a row of a successful cleaning come from the filled columns. */
  lemma CleanNumbers(raw: Columns, render: Value -> string, n: nat, i: int)
    requires Sized(raw, n) && Clean(raw, render, n).Success? && 0 <= i < n
    ensures FillWithMean("temp", raw.temp).Success? && FillWithMean("humidity", raw.humidity).Success?
      && FillWithMean("market_price", raw.marketPrice).Success? && Months(raw.createdAt).Success?
    ensures |Clean(raw, render, n).value| == n
    ensures var row := Clean(raw, render, n).value[i];
      row.temp == FillWithMean("temp", raw.temp).value[i]
      && row.humidity == FillWithMean("humidity", raw.humidity).value[i]
      && row.marketPrice == FillWithMean("market_price", raw.marketPrice).value[i]
      && row.month == Months(raw.createdAt).value[i]
  {
  }

  /** The numeric fields are read from the nested containers: temp and humidity from weather_info, market_price from "price" in market_info. */
  lemma PreparedSources(docs: seq<Document>, i: int)
    requires 0 <= i < |docs|
    ensures RawColumns(docs).temp[i] == Get(Field(docs[i], "weather_info"), "temp")
    ensures RawColumns(docs).humidity[i] == Get(Field(docs[i], "weather_info"), "humidity")
    ensures RawColumns(docs).marketPrice[i] == Get(Field(docs[i], "market_info"), "price")
  {
  }

  /**
   * Mean filling keeps every number, gives every gap the mean of the numbers,
   * and, unlike the feature frame, leaves an all-missing column missing.
   */
  lemma FillWithMeanValues(name: string, col: seq<Value>)
    requires FillWithMean(name, col).Success?
    ensures var r := FillWithMean(name, col).value;
      (forall i :: 0 <= i < |col| && col[i].Num? ==> r[i] == Some(col[i].x))
      && ((exists i :: 0 <= i < |col| && col[i].Num?) ==>
            forall i :: 0 <= i < |col| && !col[i].Num? ==> r[i] == Some(Mean(Present(Coerce(col)))))
      && ((forall i :: 0 <= i < |col| ==> !col[i].Num?) ==> forall i :: 0 <= i < |col| ==> r[i].None?)
  {
    var nums := Coerce(col);
    if exists i :: 0 <= i < |col| && col[i].Num? {
      var i :| 0 <= i < |col| && col[i].Num?;
      assert nums[i].Some?;
    }
  }

  /** A readable month is the month of the stored date, 1 to 12 for valid dates; NaT gives no month. */
  lemma MonthsValues(col: seq<Value>)
    requires Months(col).Success?
    requires forall i :: 0 <= i < |col| && col[i].Stamp? ==> ValidDate(col[i].date)
    ensures forall i :: 0 <= i < |col| ==>
      (Months(col).value[i].Some? ==> 1 <= Months(col).value[i].value <= 12)
    ensures forall i :: 0 <= i < |col| && (col[i] == Null || col[i] == NaN) ==> Months(col).value[i].None?
    ensures forall i :: 0 <= i < |col| && col[i].Stamp? ==> Months(col).value[i] == Some(col[i].date.month)
  {
  }

  /** A stored ISO timestamp string reads back as its own month. */
  lemma MonthOfIsoString(d: Date, c: Clock)
    requires ValidDate(d) && InTimestampRange(d) && ValidClock(c)
    ensures Datable(Str(IsoFormat(d, c)))
    ensures MonthOfCell(Str(IsoFormat(d, c))) == Some(d.month)
  {
    ParseIsoFormat(d, c);
    var s := IsoFormat(d, c);
    assert |s| >= 11;
    assert !IsNatString(s);
  }
}
