# Q.Farm backend core, modelled in Dafny

Q.Farm is a farm-planning backend. Farmers file advisories (crop, soil, location, a photo). Each advisory stores a mock image diagnosis, a weather snapshot and a market quote. Growing plans are assembled from rules: a season length per crop, a weekly operations schedule, a weekly fertilizer, irrigation and pest schedule from the optimizer, and a price forecast. The forecast comes from a regression trained on past advisories, or from a static price table when no model is trained.

This project models the deterministic core of that backend and proves properties of it. One module per source file:

- `PlanOptimizer` (`plan_optimizer.dfy`): the weekly schedule generator. `ClassicalOptimize` is the loop that appends to three lists. It is proved equal to the recursive specification `Schedule`, and lemmas about `Schedule` state the per-week rules. `QuantumOptimize` is the delegating stub.
- `FeatureStore` (`feature_store.dfy`): the advisory frame built from the stored documents. A frame is a column list plus a map from column to cells. `FetchAdvisoriesFrame` rebuilds it column by column, with loops over the categorical and numeric name lists. It is proved equal to the specification `Advisories`.
- `DataPreparation` (`data_preparation.dfy`): the offline preparation script. `PrepareDataset` runs it step by step into typed rows and is proved equal to `Prepared`.
- `PriceForecaster` (`price_forecaster.dfy`): the model store is a class whose `artifact` field is the saved model file. `TrainFromFirestore` replaces it only on success. `PredictPrice` reads it.
- `App` (`app.dfy`): the market price table, crop duration and week count, the weekly risk rows, the operations-schedule loop, the mock diagnosis, the advisory text, the soil summary, and the plan's price forecast with its table fallback.
- Shared helpers:
  - `Text`: Python's `strip` (with Python's whitespace set), and `lower`, `title`, `in` and `basename` on ASCII letters.
  - `Records`: stored values, and the pandas conversions the code relies on.
  - `PriceBand`: Python's `round`, and the 95%/108% band shared by both forecast paths.
  - `Wrappers`: Option and Result.

The external parts are parameters:

- The fitted regression is a function `Query -> real`, and fitting is a function from the training columns to such a regressor.
- The text Python prints for a number, timestamp or dict cell is the parameter `render`.
- Stored documents arrive as a sequence of maps.

Where the written design of the system and the code disagree, the model follows the code:

- The design says building the frame never fails. The code raises a KeyError when documents exist but none has `weather_info` or none has `market_info` (`FeatureStore.AdvisoriesFailure`). Training then fails with that error too (`PriceForecaster.TrainingRaises`). Training also raises when no document has a `crop`.
- The design says a missing price makes training report "not trained". In the code the guard can only fire when there are no documents, because a non-empty frame always has a `market_price` column (`PriceForecaster.NotTrainedIffNoDocuments`).
- The design promises `low < expected < high` whenever the prediction is non-zero. That holds from 20 upwards (`PriceBand.BandStrictlyOrdered`) but not below: a prediction of 1 gives low = expected = 1 (`PriceBand.BandNotStrictForSmallPrices`).
- The design says the canonical case form is used for categories everywhere. Prediction only title-cases its input; training also strips and lower-cases. The two agree on input without surrounding whitespace (`PriceForecaster.QueryCropMatchesTraining`) and differ on a padded crop (`PriceForecaster.PaddedQueryCropDiffers`).
- The design says a column without values defaults to zero. That holds in the feature store (`FeatureStore.ImputeWithoutNumbers`). The preparation script has no such fallback: such a column stays missing (`DataPreparation.FillWithMeanValues`). The script also stops on empty input, on an absent selected column, on a text value in a numeric column and on an unreadable date (`DataPreparation.PreparedSucceeds`).

## Model

| member | source | states |
|---|---|---|
| PlanOptimizer.ClassicalOptimize | backend/optimizer/plan_optimizer.py:4-19 | the loop's result is the schedule for `weeks`, whatever the area, budget and water limit |
| PlanOptimizer.QuantumOptimize | backend/optimizer/plan_optimizer.py:22-26 | the stub returns the classical schedule for the keyword `weeks` (20 when absent); positional arguments are ignored |
| PlanOptimizer.FertilizerPlan | backend/optimizer/plan_optimizer.py:9-14 | one entry per week of a non-negative season, entry i for week i + 1 |
| PlanOptimizer.IrrigationPlan | backend/optimizer/plan_optimizer.py:9-15 | one entry per week of a non-negative season, entry i for week i + 1 |
| PlanOptimizer.ScheduleShape | backend/optimizer/plan_optimizer.py:9-19 | both plans have exactly `weeks` entries in ascending week order, and the objective is 0.75 |
| PlanOptimizer.EmptySeason | backend/optimizer/plan_optimizer.py:8-19 | a season of zero or fewer weeks gives three empty lists and objective 0.75 |
| PlanOptimizer.FertilizerPlanAt | backend/optimizer/plan_optimizer.py:9-14 | entry i of the fertilizer plan is the dose of week i + 1 |
| PlanOptimizer.IrrigationPlanAt | backend/optimizer/plan_optimizer.py:9-15 | entry i of the irrigation plan is the water of week i + 1 |
| PlanOptimizer.FertilizerRule | backend/optimizer/plan_optimizer.py:10-12 | N30 P15 K15 exactly in weeks 1, 4, 8 and 12, zero in every other week |
| PlanOptimizer.IrrigationRule | backend/optimizer/plan_optimizer.py:13 | 25 mm in even weeks and 15 mm in odd weeks |
| PlanOptimizer.PestActionsExactly | backend/optimizer/plan_optimizer.py:16-17 | the pest actions are the neem sprays of weeks 6 and 10 that lie within the season, in order |
| PlanOptimizer.SchedulePrefix | backend/optimizer/plan_optimizer.py:9-17 | every list of an n-week schedule is a prefix of the same list for m >= n weeks |
| Text.Lower | backend/services/feature_store.py:30 | str.lower: same length, each character lower-cased |
| Text.Strip | backend/services/feature_store.py:30 | str.strip: the input without leading and trailing whitespace (every character str.isspace accepts), and nothing else removed |
| Text.Basename | backend/app.py:94 | os.path.basename: the longest suffix without '/' |
| Text.TitleAt | backend/services/feature_store.py:30 | str.title upper-cases a character at the start or after a non-letter and lower-cases it otherwise |
| Text.TitleOfLower | backend/services/feature_store.py:30 | lower-casing before title-casing changes nothing |
| Text.TitleIdempotent | backend/services/feature_store.py:30 | title-casing twice is title-casing once |
| Text.StripOfStripped | backend/services/feature_store.py:30 | stripping a string without surrounding whitespace changes nothing |
| Text.CanonicalIdempotent | backend/services/feature_store.py:30 | the canonical form title(lower(strip(s))) of a canonical value is itself |
| Text.TitleOfStripIsCanonical | backend/data_preparation.py:32-34 | title(strip(s)) equals title(lower(strip(s))), so the location and crop rules give the same form |
| Text.CanonicalWheat | backend/services/feature_store.py:30 | "  WHEAT " and "wheat" both become "Wheat" |
| Text.CanonicalOfNone | backend/services/feature_store.py:30 | str(None) = "None" keeps that text under the canonical form |
| Text.CanonicalOfNan | backend/services/feature_store.py:30 | the text of an absent cell, "nan", becomes "Nan" |
| Records.Field | backend/services/feature_store.py:12 | a document's value for a key, or NaN when the document lacks it |
| Records.Column | backend/services/feature_store.py:12 | one cell per document, in document order |
| Records.MissingColumns | backend/data_preparation.py:29 | exactly the requested names that are absent |
| Records.MissingColumnsInOrder | backend/data_preparation.py:29 | the missing names keep the request's order: for a request split in two, they are the first part's missing names followed by the second's |
| Records.NoneMissing | backend/data_preparation.py:29 | nothing is missing exactly when every requested name is present |
| Records.Get | backend/services/feature_store.py:15-16 | a nested record's value for the key; None for a non-record or an absent key |
| Records.Flatten | backend/services/feature_store.py:18-21 | the nested lookup applied to each cell |
| Records.PyStr | backend/services/feature_store.py:30 | text stays, None becomes "None", an absent cell "nan" |
| Records.ToNumeric | backend/services/feature_store.py:35 | a number stays; every other value becomes missing |
| Records.Coerce | backend/services/feature_store.py:35 | to_numeric applied to each cell |
| Records.PresentPlaces | backend/services/feature_store.py:36 | dropna puts the value of each present cell at the position given by the number of present cells before it |
| Records.PresentAppend | backend/services/feature_store.py:36 | dropna of a concatenation is the concatenation of the dropna results, so the column order is kept |
| Records.PresentMembers | backend/services/feature_store.py:36 | a value is in the dropna result exactly when some cell holds it |
| Records.FillMissing | backend/services/feature_store.py:37 | present values kept, every gap replaced by the fill value |
| Records.SumFillMissing | backend/services/feature_store.py:37 | filling adds the fill value once per gap to the sum of the present values |
| Records.MeanOfFilled | backend/services/feature_store.py:37 | adding copies of the mean to a column keeps its mean |
| Records.FillWithMeanKeepsMean | backend/services/feature_store.py:37 | filling the gaps with the mean of the present values keeps that mean |
| Records.ParseIsoDate | backend/services/feature_store.py:43 | a date exactly for "YYYY-MM-DD", alone or followed by 'T' or a space and a well-formed "HH:MM", "HH:MM:SS" or "HH:MM:SS.f" time of day (hour at most 23, minute and second at most 59, one to nine fraction digits), that names a real calendar day inside the pandas Timestamp range; year, month and day are the digits at positions 0-3, 5-6 and 8-9; any other text after the separator reads as none |
| Records.ClockText | backend/app.py:159 | the time of day isoformat writes is a well-formed ISO time: 8 characters, or 15 when the microsecond is not zero |
| Records.ParseIsoFormat | backend/app.py:159 | the created_at string the advisory writer stores (date, 'T', time of day of a valid clock) reads back as the same date |
| Records.ToDatetime | backend/services/feature_store.py:43 | a timestamp gives its own date, a string what ParseIsoDate reads from it, and anything else NaT |
| FeatureStore.RawColumn | backend/services/feature_store.py:18-21 | every raw column has one cell per document |
| FeatureStore.Filter | backend/services/feature_store.py:25 | a name is kept exactly when it is in the keep list and available |
| FeatureStore.RawCells | backend/services/feature_store.py:18-25 | one raw column per kept name and no other |
| FeatureStore.FetchAdvisoriesFrame | backend/services/feature_store.py:9-48 | the column-by-column rebuild gives exactly the specified frame or error |
| FeatureStore.CleanKept | backend/services/feature_store.py:28-46 | the categorical loop, the numeric loop and the date block together give each column's cleaned cells plus month |
| FeatureStore.NormalizeColumns | backend/services/feature_store.py:28-30 | the loop normalizes exactly the listed columns present and leaves the others |
| FeatureStore.ImputeColumns | backend/services/feature_store.py:33-39 | the loop imputes exactly the listed columns present and leaves the others |
| FeatureStore.ColumnLists | backend/services/feature_store.py:23-33 | the name lists are duplicate-free and disjoint, and the keep list is their union with created_at |
| FeatureStore.NoDocumentsEmptyFrame | backend/services/feature_store.py:9-10 | no documents give the empty frame |
| FeatureStore.AdvisoriesFailure | backend/services/feature_store.py:18-21 | the pipeline fails exactly when documents exist but none has weather_info or none has market_info |
| FeatureStore.FilterIsSubsequence | backend/services/feature_store.py:25 | the kept names appear in keep-list order |
| FeatureStore.AdvisoriesShape | backend/services/feature_store.py:23-48 | a frame is well formed, keeps every row, and holds the available kept columns followed by month |
| FeatureStore.CleanColumnKinds | backend/services/feature_store.py:28-43 | for any raw column: a categorical column's cells become the canonical form of their str(), a numeric column is imputed, and created_at cells become the date they read as, or NaT |
| FeatureStore.AdvisoriesCells | backend/services/feature_store.py:28-43 | each kept column holds its raw cells cleaned by its kind's pass: every cell of a categorical column is the canonical form of its str(); a numeric column is the imputed column; created_at holds the date each cell reads as, or NaT |
| FeatureStore.KeptColumns | backend/services/feature_store.py:23-25 | the kept columns are the keep-list names that are available, in keep-list order |
| FeatureStore.CleanCellsShape | backend/services/feature_store.py:28-46 | cleaning keeps every column and its length, and adds month |
| FeatureStore.FrameOfKept | backend/services/feature_store.py:23-48 | distinct kept columns, once cleaned, make a well-formed frame whose last column is month |
| FeatureStore.FlattenedColumnsKept | backend/services/feature_store.py:18-46 | temp, humidity, market_price, region and month are in every non-empty frame |
| FeatureStore.FlattenSources | backend/services/feature_store.py:15-21 | temp and humidity come from weather_info, market_price and region from market_info; a non-record container gives None |
| FeatureStore.NormalizeIdempotent | backend/services/feature_store.py:28-30 | normalizing a normalized column changes nothing |
| FeatureStore.NormalizeMissing | backend/services/feature_store.py:30 | at every position, None becomes "None", an absent cell "Nan", and text its canonical form |
| FeatureStore.ImputeFillsWithMean | backend/services/feature_store.py:35-37 | numbers are kept and every other cell gets the mean of the numbers |
| FeatureStore.ImputeKeepsMean | backend/services/feature_store.py:35-37 | after imputation every cell is a number and the mean is unchanged |
| FeatureStore.ImputeWithoutNumbers | backend/services/feature_store.py:38-39 | a column without a number becomes 0.0 everywhere |
| FeatureStore.MonthColumnInRange | backend/services/feature_store.py:43-44 | each month is 1 to 12: the month of the date read, or 1 when none reads |
| FeatureStore.AdvisoriesMonth | backend/services/feature_store.py:42-46 | month comes from created_at when a document has it, and is 1 in every row otherwise |
| FeatureStore.KeptMonth | backend/services/feature_store.py:42-46 | the month column of the kept columns comes from created_at when a document has it, and is all ones otherwise |
| DataPreparation.FillWithMean | backend/data_preparation.py:37-39 | a TypeError exactly when a cell is neither a number nor missing; otherwise one value per row |
| DataPreparation.Months | backend/data_preparation.py:45 | the script stops exactly when some created_at value cannot be read; otherwise one month per row |
| DataPreparation.TemperatureBucketOf | backend/data_preparation.py:46 | Low on (0,20], Medium on (20,30], High on (30,45], missing elsewhere, both directions |
| DataPreparation.HumidityBucketOf | backend/data_preparation.py:47 | Dry on (0,40], Normal on (40,70], Humid on (70,100], missing elsewhere, both directions |
| DataPreparation.PrepareDataset | backend/data_preparation.py:21-48 | the step-by-step script gives exactly the specified rows or the error it stops with |
| DataPreparation.CleanColumns | backend/data_preparation.py:31-48 | the cleaning steps after the column checks give exactly the specified cleaning of the raw columns: the first failing mean fill or date step, or one row per document |
| DataPreparation.NoDocumentsKeyError | backend/data_preparation.py:21-24 | with no documents the script stops with a KeyError for weather_info |
| DataPreparation.PreparedSucceeds | backend/data_preparation.py:24-45 | the script succeeds exactly when both containers and all selected columns exist, numeric cells are numbers or missing, and every date reads |
| DataPreparation.CleanSucceeds | backend/data_preparation.py:37-45 | the mean fills and the month step fail exactly on a numeric cell that is neither a number nor missing, or on an unreadable date |
| DataPreparation.PreparedRows | backend/data_preparation.py:29-48 | one row per document, with the following fields: crop and soil type in canonical form; the location in that same canonical form; the text as str() gives it; the raw created_at; buckets from the filled values; healthy exactly when the text contains "Healthy" |
| DataPreparation.PreparedNumbers | backend/data_preparation.py:37-45 | each row's temp, humidity and market_price are its column's mean-filled values at that position, and its month is the month read from its created_at |
| DataPreparation.PreparedSources | backend/data_preparation.py:24-26 | temp and humidity come from weather_info, market_price from the "price" key of market_info |
| DataPreparation.FillWithMeanValues | backend/data_preparation.py:37-39 | numbers are kept, gaps get the mean, and a column without numbers stays missing |
| DataPreparation.MonthsValues | backend/data_preparation.py:45 | a month is 1 to 12; a missing date gives no month; a timestamp gives its own month |
| DataPreparation.MonthOfIsoString | backend/data_preparation.py:45 | a stored ISO created_at reads back as its month |
| PriceBand.Round | backend/models/price_forecaster.py:60-61 | a nearest integer to the input, and the even one on a tie |
| PriceBand.RoundsToUnique | backend/models/price_forecaster.py:60-61 | that rule admits exactly one integer, so it determines round |
| PriceBand.RoundMonotone | backend/models/price_forecaster.py:60-62 | rounding preserves order |
| PriceBand.Band | backend/models/price_forecaster.py:60-62 | expected, low and high are Python's round of p, 0.95p and 1.08p, with unit INR/quintal |
| PriceBand.BandOrdered | backend/models/price_forecaster.py:61-62 | for p >= 0, low <= expected <= high |
| PriceBand.BandStrictlyOrdered | backend/models/price_forecaster.py:61-62 | for p >= 20, low < expected < high |
| PriceBand.BandNotStrictForSmallPrices | backend/models/price_forecaster.py:61-62 | for p = 1, low = expected = 1 |
| PriceForecaster.Design | backend/models/price_forecaster.py:23 | the training matrix holds exactly the feature columns the frame has, each with the frame's cells |
| PriceForecaster.QueryOf | backend/models/price_forecaster.py:52-58 | crop and region are the title case of the given text, or "" when missing; a missing or zero month becomes 1 and any other month is kept; a missing temperature or humidity becomes 0.0 and a given one is kept |
| PriceForecaster.ModelStore.constructor | backend/models/price_forecaster.py:48 | a fresh store holds no model |
| PriceForecaster.ModelStore.TrainFromFirestore | backend/models/price_forecaster.py:15-45 | the outcome is the specified one; success stores the regressor fitted on the frame's features and target; any other outcome leaves the artifact unchanged |
| PriceForecaster.ModelStore.PredictPrice | backend/models/price_forecaster.py:47-62 | "model_not_trained" exactly when no artifact exists; otherwise expected, low and high are Python's round of p, 0.95p and 1.08p in INR/quintal, where p is the stored model's prediction for the coerced query |
| PriceForecaster.NotTrainedIffNoDocuments | backend/models/price_forecaster.py:19-20 | the "no data" outcome occurs exactly when there are no documents |
| PriceForecaster.TrainingRaises | backend/models/price_forecaster.py:17-23 | training raises exactly when documents exist but a container is absent everywhere or no document has a crop; in the latter case the error names crop |
| PriceForecaster.FrameFacts | backend/models/price_forecaster.py:19-23 | a non-empty frame has a row per document, the always-created columns, and crop exactly when a document has one |
| PriceForecaster.TrainingOnFrame | backend/models/price_forecaster.py:19-45 | on such a frame training succeeds with a crop column and names crop in its KeyError otherwise |
| PriceForecaster.FeaturesMissing | backend/models/price_forecaster.py:23 | with region, month, temp and humidity present, the only feature column that can be missing is crop |
| PriceForecaster.TrainedSamples | backend/models/price_forecaster.py:45 | a successful run reports one sample per document and the artifact path |
| PriceForecaster.QueryCropMatchesTraining | backend/models/price_forecaster.py:53 | for a crop without surrounding whitespace, the query name equals the canonical name used in training |
| PriceForecaster.PaddedQueryCropDiffers | backend/models/price_forecaster.py:53 | " wheat" is queried under a name that differs from its training name |
| PriceForecaster.PredictionOrdered | backend/models/price_forecaster.py:60-62 | a non-negative prediction gives low <= expected <= high |
| PriceForecaster.PredictionReadsOnlyArtifact | backend/models/price_forecaster.py:48-62 | two stores with the same artifact give the same prediction |
| PriceForecaster.PredictAfterTraining | backend/models/price_forecaster.py:43-62 | after training, prediction is the band around the freshly fitted regressor's output |
| App.PriceTableFacts | backend/app.py:77-82 | every crop of the table has a Chennai price, and every price lies between 1850 and 3300 |
| App.FetchMarketPrice | backend/app.py:76-91 | the quote has these cases: a known crop (compared lower-cased) gets its table price in INR/quintal for the requested region, or for Chennai when that region is not listed; an unknown crop gets no price, "N/A" and the region echoed |
| App.MarketPriceIgnoresCropCase | backend/app.py:83 | the crop's case does not matter |
| App.MarketPriceRegionIsCaseSensitive | backend/app.py:86-89 | for a known crop, each region of the table is quoted as itself, while the same name in lower case is not in the table and gets the Chennai quote |
| App.CropDurationDays | backend/app.py:185-190 | 165 exactly when "rice" occurs in the lower-cased name, else 120 for "wheat", else 110 for "maize", else 150 |
| App.NoCropDefaultDuration | backend/app.py:186-190 | a missing or empty crop gets 150 days |
| App.SeasonWeeks | backend/app.py:219 | the fewest whole weeks covering the days, which is the ceiling of days/7 |
| App.SeasonLengths | backend/app.py:185-219 | seasons are 24, 18, 16 or 22 weeks long |
| App.SeasonCoversSchedule | backend/app.py:219-262 | every crop's season contains all four fertilizer doses and both neem sprays of the optimizer |
| App.FullSchedule | backend/optimizer/plan_optimizer.py:9-17 | a season of 12 weeks or more holds the four doses and the two sprays |
| App.WeeklyWeatherRisk | backend/app.py:192-193 | one row per week, numbered 1..weeks, each with rain risk Med, heat risk Low and humidity risk Med |
| App.Operations | backend/app.py:254-260 | one entry per week of a non-negative season |
| App.OperationsSchedule | backend/app.py:254-260 | the operations loop gives exactly the specified schedule |
| App.OperationsAt | backend/app.py:255-260 | entry i is week i + 1 with its task |
| App.OperationsMatchOptimizer | backend/app.py:254-262 | the schedule agrees with the optimizer: top-dressing falls exactly in the optimizer's dose weeks after week 1; scouting falls exactly in its spray weeks; weeks line up with the fertilizer plan and the risk rows |
| App.TaskMatchesRules | backend/app.py:256-260 | a week's task is top-dress or pest scouting exactly when the optimizer doses or sprays in that week |
| App.MockMl | backend/app.py:93-99 | the file name decides the diagnosis, with these priorities: "aphid" gives (Aphid infestation, 0.92); otherwise "blight" gives (Blight disease, 0.89); otherwise the result is (Healthy crop, 0.80); all three hold in both directions |
| App.BasenameUnderDirectory | backend/app.py:94 | the base name of dir/name is name |
| App.DiagnosisIgnoresDirectory | backend/app.py:93-94 | the directory part of the path never changes the diagnosis |
| App.ComposeAdvisory | backend/app.py:101-106 | the text starts with the base sentence, which begins "For " + crop and contains the crop, the soil and the diagnosis; after it comes exactly one advice (the text's length is the base's plus the advice's): the neem advice when the diagnosis mentions Aphid, otherwise the irrigation advice when it mentions Healthy, otherwise the officer advice |
| App.AdvisoryFollowsDiagnosis | backend/app.py:93-106 | the advice follows the diagnosis: neem spray for aphids; the officer for blight; irrigation for a healthy crop, whose text also contains "Healthy" |
| App.SoilSummaryFromImage | backend/app.py:195-201 | the summary has these cases: "unknown" with "No image" exactly without an image; otherwise "dry" gives low with the compost note; otherwise "wet" gives high with the drainage note; otherwise moderate with the mulch note; all in both directions |
| App.FallbackForecast | backend/app.py:247-248 | the fallback band is the band around the base price (the table price, or 2000) |
| App.PlanPriceForecast | backend/app.py:238-248 | with a trained model, the band around its prediction for the crop, the plan's region (the manual location or Chennai), the harvest month, temperature and humidity; without one, the fallback band for that crop and region |
| App.UntrainedPlanUsesTable | backend/app.py:247-248 | without a model, a table crop is priced at its table price, with an ordered band |
| App.UntrainedUnknownCrop | backend/app.py:247-248 | without a model, an unknown crop gets 2000 / 1900 / 2160 |
| App.WheatFallbackRoundsToEven | backend/app.py:248 | the tie 2042.5 for wheat in Chennai rounds to 2042 |

## Left out

- Firestore, Firebase set-up, the HTTP endpoints, CORS, upload saving and the weather HTTP calls are not modelled. Documents are a parameter. Plans, advisories and CSV output are not written anywhere.
- The clock is not modelled: `parse_date`, `utcnow` and the harvest date computed with relativedelta. The harvest month passed to `App.PlanPriceForecast` is a parameter, and so are the temperature and humidity read from the weather call.
- The regression is a parameter: the one-hot encoder, the linear fit and joblib serialisation. So is the text Python prints for numbers, timestamps and dicts.
- The model file's write is a field assignment. Atomicity and concurrent access are not modelled.
- Text: case conversion and letter classes cover ASCII only. Python's `title` and `lower` on other scripts are not modelled. Whitespace is Python's full set.
- Records.ToNumeric: numeric strings such as "25" are treated as non-numbers. pandas would parse them.
- Records.ToDatetime: reads ISO dates (alone, or with a "HH:MM", "HH:MM:SS" or "HH:MM:SS.f" time) and timestamps only. Other formats pandas accepts are treated as unreadable: a time zone suffix, an hour without minutes, the compact ISO forms, and epoch numbers. The time of day is checked but not kept. A timestamp cell is taken as it is, without checking the Timestamp range. Each cell is read on its own: pandas infers one format from the first cell and applies it to the whole column, and that inference is not modelled.
- Records.InTimestampRange: works on whole days. The range starts at 00:12:43 on 1677-09-21 and ends at 23:47:16 on 2262-04-11, so on those two days a time of day would decide. A bare date stands for midnight.
- App.FetchMarketPrice: the default `region="Chennai"` argument is not modelled, because every caller in the core passes a region.
- PriceForecaster.ModelPath: the module's directory is written as it reads from the repository root. At run time it is the installed location.
- DataPreparation.Months: a number or dict in created_at stops the script here. pandas would read a number as an epoch offset. Inference of one date format across rows is not modelled.
- DataPreparation.FillWithMean: any cell that is not a number or missing raises here. pandas' dtype inference is not modelled, including a column of timestamps, whose mean is defined.
- DataPreparation.PrepareDataset: `fillna(inplace=True)` on a column selection is modelled as the intended mean fill. Whether that fill takes effect depends on the pandas version, and that is not modelled.
- PriceBand.Round: rounds exact reals half to even. The binary floating-point error of `p * 0.95` before rounding is not modelled.
- PlanOptimizer.QuantumOptimize: an explicit `weeks=None` keyword is read as absent, giving 20 weeks. Python would pass None on and fail in `range`.
- `generate_plan`'s `float(latitude or 0)` can raise on a non-numeric latitude. That call is not modelled, and neither are the coordinates in `App.WeeklyWeatherRisk`, which ignores them.
- The frontend form is not part of this model.
