/**
 * The price forecaster: a regression trained on the advisory frame and
 * saved as one artifact, and predictions read from that artifact as a
 * price band. The regression itself is a parameter: the model sees only
 * what it is fitted on and what it predicts.
 */
module PriceForecaster {
  import opened Wrappers
  import opened Text
  import opened Records
  import opened FeatureStore
  import opened PriceBand

  /**
   * Where the artifact is stored: the module's directory, "..", "storage",
   * "models" and the file name, joined and not normalised. The module's
   * directory is written here as it reads from the repository root; at run
   * time it is wherever the backend was installed.
   */
  const ModelPath: string := "backend/models/../storage/models/price_forecaster.joblib"

  /** The feature columns, categories first; the target is market_price. */
  const Features: seq<string> := ["crop", "region", "month", "temp", "humidity"]

  const NoDataReason: string := "No data / market_price missing"
  const NotTrainedReason: string := "model_not_trained"

  /** One query row of the regression. */
  datatype Query = Query(crop: string, region: string, month: int, temp: real, humidity: real)

  /** A fitted pipeline, seen only through its predictions. */
  datatype Regressor = Regressor(predict: Query -> real)

  /** The fitting step: the feature columns and the target column in, a regressor out. */
  type Fit = (map<string, seq<Value>>, seq<Value>) -> Regressor

  /** What a training run reports. */
  datatype TrainOutcome =
    | Trained(samples: nat, modelPath: string)
    | NotTrained(reason: string)
    | Raised(keyError: seq<string>)  // the columns a lookup did not find

  /** What a prediction reports. */
  datatype Prediction = Unavailable(reason: string) | Predicted(forecast: Forecast)

  /** The feature columns of a frame. */
  function Design(f: Frame): (x: map<string, seq<Value>>)
    ensures forall c :: c in x <==> c in Features && c in f.cells
    ensures forall c :: c in x ==> x[c] == f.cells[c]
  {
    map c | c in Features && c in f.cells :: f.cells[c]
  }

  /** The target column of a frame. */
  function Target(f: Frame): seq<Value> {
    if "market_price" in f.cells then f.cells["market_price"] else []
  }

  /**
   * The outcome of training on a frame result: the frame's KeyError, "not
   * trained" for an empty frame or one without market_price, a KeyError for
   * absent feature columns, and otherwise the sample count and the artifact
   * path.
   */
  function TrainingOn(frame: Result<Frame, string>): TrainOutcome {
    match frame
    case Failure(key) => Raised([key])
    case Success(f) =>
      if f.height == 0 || "market_price" !in f.columns then NotTrained(NoDataReason)
      else
        var missing := MissingColumns((set c | c in f.columns), Features);
        if missing != [] then Raised(missing)
        else Trained(f.height, ModelPath)
  }

  /** The outcome of training on the stored documents. */
  function Training(docs: seq<Document>, render: Value -> string): TrainOutcome {
    TrainingOn(Advisories(docs, render))
  }

  /** The regressor a successful run stores. */
  function Fitted(docs: seq<Document>, render: Value -> string, fit: Fit): Regressor
    requires Advisories(docs, render).Success?
  {
    var f := Advisories(docs, render).value;
    fit(Design(f), Target(f))
  }

  /**
   * The query row built from the caller's values: strings title-cased with
   * a missing one read as empty, a missing or zero month read as 1, a
   * missing temperature or humidity read as 0.
   */
  function QueryOf(crop: Option<string>, region: Option<string>, month: Option<int>,
                   temp: Option<real>, humidity: Option<real>): (q: Query)
    ensures q.crop == Title(crop.GetOr("")) && q.region == Title(region.GetOr(""))
    ensures crop.None? ==> q.crop == ""
    ensures region.None? ==> q.region == ""
    ensures Title(q.crop) == q.crop && Title(q.region) == q.region
    ensures q.month != 0
    ensures month.Some? && month.value != 0 ==> q.month == month.value
    ensures month.None? || month.value == 0 ==> q.month == 1
    ensures temp.Some? ==> q.temp == temp.value
    ensures temp.None? ==> q.temp == 0.0
    ensures humidity.Some? ==> q.humidity == humidity.value
    ensures humidity.None? ==> q.humidity == 0.0
  {
    TitleIdempotent(crop.GetOr(""));
    TitleIdempotent(region.GetOr(""));
    Query(Title(crop.GetOr("")), Title(region.GetOr("")),
          if month.None? || month.value == 0 then 1 else month.value,
          temp.GetOr(0.0), humidity.GetOr(0.0))
  }

  /** The artifact store: at most one saved regressor at the model path. */
  class ModelStore {
    var artifact: Option<Regressor>

    /** No model has been trained yet. */
    constructor ()
      ensures artifact.None?
    {
      artifact := None;
    }

    /**
     * train_from_firestore after the documents have been read: build the
     * frame, give up on an empty one, select features and target, fit and
     * save. Only a completed run replaces the artifact.
     */
    method TrainFromFirestore(docs: seq<Document>, render: Value -> string, fit: Fit) returns (outcome: TrainOutcome)
      modifies this
      ensures outcome == Training(docs, render)
      ensures outcome.Trained? ==> artifact == Some(Fitted(docs, render, fit))
      ensures !outcome.Trained? ==> artifact == old(artifact)
    {
      var frame := FetchAdvisoriesFrame(docs, render);
      if frame.Failure? {
        return Raised([frame.error]);
      }
      var f := frame.value;
      if f.height == 0 || "market_price" !in f.columns {
        return NotTrained(NoDataReason);
      }
      var missing := MissingColumns((set c | c in f.columns), Features);
      if missing != [] {
        return Raised(missing);
      }
      var x := Design(f);
      var y := Target(f);
      artifact := Some(fit(x, y));
      outcome := Trained(f.height, ModelPath);
    }

    /**
     * predict_price: "model_not_trained" without an artifact, otherwise the
     * price band around the stored regressor's prediction for the query row.
     */
    function PredictPrice(crop: Option<string>, region: Option<string>, month: Option<int>,
                          temp: Option<real>, humidity: Option<real>): (r: Prediction)
      reads this
      ensures r.Unavailable? <==> artifact.None?
      ensures r.Unavailable? ==> r.reason == NotTrainedReason
      ensures r.Predicted? ==>
        var p := artifact.value.predict(QueryOf(crop, region, month, temp, humidity));
        r.forecast.unit == Unit
        && RoundsTo(p, r.forecast.expected)
        && RoundsTo(0.95 * p, r.forecast.low)
        && RoundsTo(1.08 * p, r.forecast.high)
    {
      match artifact
      case None => Unavailable(NotTrainedReason)
      case Some(model) => Predicted(Band(model.predict(QueryOf(crop, region, month, temp, humidity))))
    }
  }

  // ---------------------------------------------------------------------
  // Properties of training and prediction

  /**
   * The "no data / market_price missing" guard fires exactly when there are
   * no documents: any non-empty frame has rows and a market_price column.
   */
  lemma NotTrainedIffNoDocuments(docs: seq<Document>, render: Value -> string)
    ensures Training(docs, render).NotTrained? <==> docs == []
    ensures docs == [] ==> Training(docs, render) == NotTrained(NoDataReason)
  {
    if docs != [] && Advisories(docs, render).Success? {
      var f := Advisories(docs, render).value;
      FrameFacts(docs, render);
      TrainingOnFrame(f);
    }
  }

  /**
   * Training raises exactly when documents exist but the frame cannot be
   * built (no weather_info or no market_info anywhere) or no document has a
   * crop, the only feature column that is not always created.
   */
  lemma TrainingRaises(docs: seq<Document>, render: Value -> string)
    ensures Training(docs, render).Raised? <==>
      docs != [] && ("weather_info" !in Keys(docs) || "market_info" !in Keys(docs) || "crop" !in Keys(docs))
    ensures Training(docs, render).Raised? && "weather_info" in Keys(docs) && "market_info" in Keys(docs) ==>
      Training(docs, render).keyError == ["crop"]
  {
    AdvisoriesFailure(docs, render);
    if docs != [] && Advisories(docs, render).Success? {
      var f := Advisories(docs, render).value;
      FrameFacts(docs, render);
      TrainingOnFrame(f);
    }
  }

  /** What a non-empty frame always holds, and when it has a crop column. */
  lemma FrameFacts(docs: seq<Document>, render: Value -> string)
    requires docs != [] && Advisories(docs, render).Success?
    ensures var f := Advisories(docs, render).value;
      f.height == |docs| && f.height > 0
      && (forall c :: c in ["market_price", "region", "month", "temp", "humidity"] ==> c in f.columns)
      && ("crop" in f.columns <==> "crop" in Keys(docs))
  {
    var kept := Filter(Keep, Available(docs));
    AdvisoriesFrame(docs, render);
    KeptColumns(docs);
    KeptFacts(kept, Keys(docs));
  }

  /** The kept columns plus month hold the always-created columns, and crop exactly when a document has one. */
  lemma KeptFacts(kept: seq<string>, keys: set<string>)
    requires forall c :: c in kept <==> c in Keep && c in keys + {"temp", "humidity", "market_price", "region"}
    ensures forall c :: c in ["market_price", "region", "month", "temp", "humidity"] ==> c in kept + ["month"]
    ensures "crop" in kept + ["month"] <==> "crop" in keys
  {
    assert "crop" in Keep && "temp" in Keep && "humidity" in Keep && "market_price" in Keep && "region" in Keep by {
      ColumnLists();
    }
  }

  /** Training on a frame with rows and the always-created columns: trained with a crop column, a KeyError for crop without. */
  lemma TrainingOnFrame(f: Frame)
    requires f.height > 0
    requires forall c :: c in ["market_price", "region", "month", "temp", "humidity"] ==> c in f.columns
    ensures TrainingOn(Success(f)) == if "crop" in f.columns then Trained(f.height, ModelPath) else Raised(["crop"])
  {
    var cols := set c | c in f.columns;
    assert "region" in cols && "month" in cols && "temp" in cols && "humidity" in cols;
    assert "market_price" in f.columns;
    FeaturesMissing(cols);
  }

  /** Of the feature columns, only crop can be absent once region, month, temp and humidity exist. */
  lemma FeaturesMissing(cols: set<string>)
    requires "region" in cols && "month" in cols && "temp" in cols && "humidity" in cols
    ensures MissingColumns(cols, Features) == if "crop" in cols then [] else ["crop"]
  {
    assert MissingColumns(cols, []) == [];
    assert MissingColumns(cols, ["humidity"]) == [];
    assert MissingColumns(cols, ["temp", "humidity"]) == [];
    assert MissingColumns(cols, ["month", "temp", "humidity"]) == [];
    assert MissingColumns(cols, ["region", "month", "temp", "humidity"]) == [];
  }

  /** A completed run counts every document as a sample and names the artifact path. */
  lemma TrainedSamples(docs: seq<Document>, render: Value -> string)
    requires Training(docs, render).Trained?
    ensures Training(docs, render) == Trained(|docs|, ModelPath)
  {
    if docs != [] {
      FrameFacts(docs, render);
      TrainingOnFrame(Advisories(docs, render).value);
    }
  }

  /**
   * Training title-cases the stripped, lower-cased crop, prediction only
   * title-cases it: the two agree on any crop without surrounding spaces.
   */
  lemma QueryCropMatchesTraining(crop: string)
    requires IsStripped(crop)
    ensures QueryOf(Some(crop), None, None, None, None).crop == Canonical(crop)
  {
    StripOfStripped(crop);
    TitleOfLower(crop);
  }

  /** A crop with a leading space is queried under a name training never produces. */
  lemma PaddedQueryCropDiffers()
    ensures QueryOf(Some(" wheat"), None, None, None, None).crop != Canonical(" wheat")
  {
    TitleAt(" wheat", 0);
    CanonicalNotPadded(" wheat");
  }

  /** A canonical name never starts with whitespace. */
  lemma CanonicalNotPadded(s: string)
    ensures Canonical(s) == [] || !IsSpace(Canonical(s)[0])
  {
    var t := Strip(s);
    if t != [] {
      TitleAt(Lower(t), 0);
    }
  }

  /** A non-negative prediction gives an ordered band. */
  lemma PredictionOrdered(store: ModelStore, crop: Option<string>, region: Option<string>, month: Option<int>,
                          temp: Option<real>, humidity: Option<real>)
    requires store.artifact.Some?
    requires store.artifact.value.predict(QueryOf(crop, region, month, temp, humidity)) >= 0.0
    ensures store.PredictPrice(crop, region, month, temp, humidity).Predicted?
    ensures var f := store.PredictPrice(crop, region, month, temp, humidity).forecast;
      f.low <= f.expected <= f.high
  {
    BandOrdered(store.artifact.value.predict(QueryOf(crop, region, month, temp, humidity)));
  }

  /** Prediction reads nothing but the artifact: two stores holding the same artifact predict alike. */
  lemma PredictionReadsOnlyArtifact(a: ModelStore, b: ModelStore, crop: Option<string>, region: Option<string>,
                                    month: Option<int>, temp: Option<real>, humidity: Option<real>)
    requires a.artifact == b.artifact
    ensures a.PredictPrice(crop, region, month, temp, humidity) == b.PredictPrice(crop, region, month, temp, humidity)
  {
  }

  /** Training and then predicting uses the regressor fitted on the frame of those documents. */
  lemma PredictAfterTraining(store: ModelStore, docs: seq<Document>, render: Value -> string, fit: Fit,
                             crop: Option<string>, region: Option<string>, month: Option<int>,
                             temp: Option<real>, humidity: Option<real>)
    requires Training(docs, render).Trained?
    requires store.artifact == Some(Fitted(docs, render, fit))
    ensures store.PredictPrice(crop, region, month, temp, humidity)
         == Predicted(Band(Fitted(docs, render, fit).predict(QueryOf(crop, region, month, temp, humidity))))
  {
  }
}
