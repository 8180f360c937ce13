/**
 * The rule-based parts of the web backend: the simulated market price
 * table, the mock image diagnosis and the advisory text built from it, the
 * soil summary, and the pieces of plan generation that do not talk to the
 * outside world (crop duration, season length in weeks, weekly risk rows,
 * the price forecast with its table fallback, and the default operations
 * schedule).
 */
module App {
  import opened Wrappers
  import opened Text
  import opened PriceBand
  import opened PlanOptimizer
  import opened PriceForecaster

  // ---------------------------------------------------------------------
  // Simulated market prices

  const DefaultRegion: string := "Chennai"
  const NoCurrency: string := "N/A"

  /** Price per quintal by lower-case crop and region. */
  const PriceTable: map<string, map<string, int>> := map[
    "wheat" := map["Chennai" := 2150, "Coimbatore" := 2200, "Madurai" := 2100],
    "rice" := map["Chennai" := 2000, "Coimbatore" := 2050, "Madurai" := 1980],
    "maize" := map["Chennai" := 1850, "Coimbatore" := 1900, "Madurai" := 1870],
    "sugarcane" := map["Chennai" := 3200, "Coimbatore" := 3300, "Madurai" := 3100]
  ]

  datatype MarketQuote = MarketQuote(region: string, price: Option<int>, currency: string)

  /** Every crop of the table has a price for the default region, and every price is positive. */
  lemma PriceTableFacts()
    ensures forall crop :: crop in PriceTable ==> DefaultRegion in PriceTable[crop]
    ensures forall crop, region :: crop in PriceTable && region in PriceTable[crop] ==>
      1850 <= PriceTable[crop][region] <= 3300
  {
  }

  /**
   * fetch_market_price: the crop is looked up lower-cased; a known crop is
   * quoted for the requested region when the table has it (the region name
   * is matched exactly) and for the default region otherwise; an unknown
   * crop has no price and no currency, and echoes the region.
   */
  function FetchMarketPrice(crop: string, region: string): (q: MarketQuote)
    ensures q.price.Some? <==> Lower(crop) in PriceTable
    ensures q.price.Some? ==>
      q.currency == Unit
      && q.region in PriceTable[Lower(crop)]
      && q.price.value == PriceTable[Lower(crop)][q.region]
      && (q.region == region <==> region in PriceTable[Lower(crop)])
      && (q.region != region ==> q.region == DefaultRegion)
    ensures q.price.None? ==> q.region == region && q.currency == NoCurrency
  {
    PriceTableFacts();
    var c := Lower(crop);
    if c in PriceTable then
      var prices := PriceTable[c];
      if region in prices then MarketQuote(region, Some(prices[region]), Unit)
      else MarketQuote(DefaultRegion, Some(prices[DefaultRegion]), Unit)
    else MarketQuote(region, None, NoCurrency)
  }

  /** Lower-casing twice is lower-casing once. */
  lemma LowerIdempotent(s: string)
    ensures Lower(Lower(s)) == Lower(s)
  {
    LowerOfLowercase(Lower(s));
  }

  /** The crop name is case-insensitive. */
  lemma MarketPriceIgnoresCropCase(crop: string, region: string)
    ensures FetchMarketPrice(crop, region) == FetchMarketPrice(Lower(crop), region)
  {
    LowerIdempotent(crop);
  }

  /**
   * The region name is not: a region of the table is quoted as itself, but
   * the same name in lower case is not in the table and gets the default
   * region's quote.
   */
  lemma MarketPriceRegionIsCaseSensitive(crop: string, region: string)
    requires Lower(crop) in PriceTable && region in PriceTable[Lower(crop)]
    ensures FetchMarketPrice(crop, region).region == region
    ensures Lower(region) != region
    ensures FetchMarketPrice(crop, Lower(region))
         == MarketQuote(DefaultRegion, Some(PriceTable[Lower(crop)][DefaultRegion]), Unit)
  {
    TableRegions();
    LowerLeavesRegions(region);
  }

  const Regions: set<string> := {"Chennai", "Coimbatore", "Madurai"}

  /** Every crop of the table is priced in the same three regions. */
  lemma TableRegions()
    ensures forall crop :: crop in PriceTable ==> PriceTable[crop].Keys == Regions
  {
  }

  /** Every region name starts with a capital letter. */
  lemma RegionsCapitalized()
    ensures forall r :: r in Regions ==> |r| > 0 && IsUpper(r[0])
  {
  }

  /** So lower-casing a region name takes it out of the table. */
  lemma LowerLeavesRegions(region: string)
    requires region in Regions
    ensures Lower(region) != region && Lower(region) !in Regions
  {
    RegionsCapitalized();
    var low := Lower(region);
    assert !IsUpper(low[0]) by {
      assert low[0] == ToLower(region[0]);
    }
  }

  // ---------------------------------------------------------------------
  // Season length

  /**
   * crop_duration_days: the first of rice, wheat, maize found in the
   * lower-cased name decides; 150 days otherwise, and for a missing name.
   */
  function CropDurationDays(crop: Option<string>): (days: nat)
    ensures var c := Lower(crop.GetOr(""));
      (days == 165 <==> Contains(c, "rice"))
      && (days == 120 <==> !Contains(c, "rice") && Contains(c, "wheat"))
      && (days == 110 <==> !Contains(c, "rice") && !Contains(c, "wheat") && Contains(c, "maize"))
      && (days == 150 <==> !Contains(c, "rice") && !Contains(c, "wheat") && !Contains(c, "maize"))
  {
    var c := Lower(crop.GetOr(""));
    if Contains(c, "rice") then 165
    else if Contains(c, "wheat") then 120
    else if Contains(c, "maize") then 110
    else 150
  }

  /** A missing or empty crop name gets the default 150 days. */
  lemma NoCropDefaultDuration()
    ensures CropDurationDays(None) == 150 && CropDurationDays(Some("")) == 150
  {
  }

  /** math.ceil(days / 7): the fewest whole weeks that cover the days. */
  function SeasonWeeks(days: nat): (weeks: nat)
    ensures 7 * weeks - 7 < days <= 7 * weeks
  {
    (days + 6) / 7
  }

  /** Every crop's season is 16 to 24 weeks: 24 for rice, 18 for wheat, 16 for maize, 22 otherwise. */
  lemma SeasonLengths(crop: Option<string>)
    ensures var weeks := SeasonWeeks(CropDurationDays(crop));
      16 <= weeks <= 24
      && (CropDurationDays(crop) == 165 ==> weeks == 24)
      && (CropDurationDays(crop) == 120 ==> weeks == 18)
      && (CropDurationDays(crop) == 110 ==> weeks == 16)
      && (CropDurationDays(crop) == 150 ==> weeks == 22)
  {
  }

  /**
   * Any crop's season is long enough for the whole optimized schedule: the
   * four fertilizer doses and both neem sprays fall inside it.
   */
  lemma SeasonCoversSchedule(crop: Option<string>)
    ensures var weeks := SeasonWeeks(CropDurationDays(crop));
      PestActions(weeks) == [PestAction(6, NeemSpray), PestAction(10, NeemSpray)]
      && |Schedule(weeks).fertilizerPlan| >= 12
      && forall w :: w in {1, 4, 8, 12} ==>
           Schedule(weeks).fertilizerPlan[w - 1] == FertilizerEntry(w, 30, 15, 15)
  {
    SeasonLengths(crop);
    FullSchedule(SeasonWeeks(CropDurationDays(crop)));
  }

  /** A season of at least 12 weeks holds all four doses and both sprays. */
  lemma FullSchedule(weeks: int)
    requires weeks >= 12
    ensures PestActions(weeks) == [PestAction(6, NeemSpray), PestAction(10, NeemSpray)]
    ensures forall w :: w in {1, 4, 8, 12} ==>
      Schedule(weeks).fertilizerPlan[w - 1] == FertilizerEntry(w, 30, 15, 15)
  {
    BothSprays(weeks);
    AllDoses(weeks);
  }

  lemma BothSprays(weeks: int)
    requires weeks >= 12
    ensures PestActions(weeks) == [PestAction(6, NeemSpray), PestAction(10, NeemSpray)]
  {
    PestActionsExactly(weeks);
  }

  lemma AllDoses(weeks: int)
    requires weeks >= 12
    ensures forall w :: w in {1, 4, 8, 12} ==>
      Schedule(weeks).fertilizerPlan[w - 1] == FertilizerEntry(w, 30, 15, 15)
  {
    var plan := Schedule(weeks).fertilizerPlan;
    assert plan == FertilizerPlan(weeks);
    FertilizerPlanAt(weeks, 0);
    FertilizerPlanAt(weeks, 3);
    FertilizerPlanAt(weeks, 7);
    FertilizerPlanAt(weeks, 11);
  }

  // ---------------------------------------------------------------------
  // Weekly weather risk

  datatype WeekRisk = WeekRisk(week: int, rainRisk: string, heatRisk: string, humidityRisk: string)

  /** weekly_weather_risk: a placeholder row per week, the same risks every week; the coordinates are not used. */
  function WeeklyWeatherRisk(lat: real, lon: real, weeks: int): (risk: seq<WeekRisk>)
    ensures |risk| == if weeks <= 0 then 0 else weeks
    ensures forall i :: 0 <= i < |risk| ==> risk[i].week == i + 1
    ensures forall i :: 0 <= i < |risk| ==>
      risk[i].rainRisk == "Med" && risk[i].heatRisk == "Low" && risk[i].humidityRisk == "Med"
  {
    seq(if weeks <= 0 then 0 else weeks, i => WeekRisk(i + 1, "Med", "Low", "Med"))
  }

  // ---------------------------------------------------------------------
  // Default operations schedule

  const LandPrep: string := "Land prep + basal NPK"
  const Sowing: string := "Sowing/Transplant + light irrigation"
  const TopDress: string := "Top-dress Urea + weed control"
  const PestScouting: string := "Pest scouting; neem spray if needed"
  const MoistureIrrigation: string := "Irrigation based on soil moisture"

  datatype Operation = Operation(week: int, task: string)

  /** The task of week `w`. */
  function TaskFor(w: int): string {
    if w == 1 then LandPrep
    else if w == 2 then Sowing
    else if w in [4, 8, 12] then TopDress
    else if w in [6, 10] then PestScouting
    else MoistureIrrigation
  }

  /** The schedule after weeks 1..weeks have been appended. */
  function Operations(weeks: int): (ops: seq<Operation>)
    ensures |ops| == if weeks <= 0 then 0 else weeks
    decreases weeks
  {
    if weeks <= 0 then [] else Operations(weeks - 1) + [Operation(weeks, TaskFor(weeks))]
  }

  /** The operations loop of plan generation: one entry per week, in week order. */
  method OperationsSchedule(weeks: int) returns (ops: seq<Operation>)
    ensures ops == Operations(weeks)
  {
    ops := [];
    var w := 1;
    while w <= weeks
      invariant 1 <= w <= (if weeks <= 0 then 0 else weeks) + 1
      invariant ops == Operations(w - 1)
    {
      ops := ops + [Operation(w, TaskFor(w))];
      w := w + 1;
    }
  }

  /** Entry `i` is week i + 1 and its task. */
  lemma {:induction false} OperationsAt(weeks: int, i: int)
    requires 0 <= i < weeks
    ensures Operations(weeks)[i] == Operation(i + 1, TaskFor(i + 1))
    decreases weeks
  {
    if i < weeks - 1 {
      OperationsAt(weeks - 1, i);
    }
  }

  /**
   * The default schedule agrees with the optimizer: weeks of top-dressing
   * are exactly the optimizer's dose weeks after the basal week, and weeks
   * of pest scouting exactly the weeks with a neem spray.
   */
  lemma OperationsMatchOptimizer(weeks: int, i: int)
    requires 0 <= i < weeks
    ensures Operations(weeks)[i].task == TopDress <==> i > 0 && Schedule(weeks).fertilizerPlan[i].n > 0
    ensures Operations(weeks)[i].task == PestScouting <==> PestFor(i + 1) != []
    ensures Operations(weeks)[i].week == Schedule(weeks).fertilizerPlan[i].week == WeeklyWeatherRisk(0.0, 0.0, weeks)[i].week
  {
    OperationsAt(weeks, i);
    FertilizerPlanAt(weeks, i);
    TaskMatchesRules(i + 1);
  }

  /** Week by week: top-dressing where the optimizer doses after the basal week, scouting where it sprays. */
  lemma TaskMatchesRules(w: int)
    ensures TaskFor(w) == TopDress <==> w > 1 && FertilizerFor(w).n > 0
    ensures TaskFor(w) == PestScouting <==> PestFor(w) != []
  {
  }

  // ---------------------------------------------------------------------
  // Mock diagnosis, advisory text and soil summary

  const AphidLabel: string := "Aphid infestation"
  const BlightLabel: string := "Blight disease"
  const HealthyLabel: string := "Healthy crop"

  datatype Diagnosis = Diagnosis(name: string, confidence: real)

  /** mock_ml: the diagnosis read off the lower-cased file name, aphid before blight, healthy otherwise. */
  function MockMl(imagePath: string): (d: Diagnosis)
    ensures var name := Lower(Basename(imagePath));
      (d == Diagnosis(AphidLabel, 0.92) <==> Contains(name, "aphid"))
      && (d == Diagnosis(BlightLabel, 0.89) <==> !Contains(name, "aphid") && Contains(name, "blight"))
      && (d == Diagnosis(HealthyLabel, 0.80) <==> !Contains(name, "aphid") && !Contains(name, "blight"))
  {
    var name := Lower(Basename(imagePath));
    if Contains(name, "aphid") then Diagnosis(AphidLabel, 0.92)
    else if Contains(name, "blight") then Diagnosis(BlightLabel, 0.89)
    else Diagnosis(HealthyLabel, 0.80)
  }

  /** The base name of a path under a directory is the name itself. */
  lemma {:induction false} BasenameUnderDirectory(dir: string, name: string)
    requires '/' !in name
    ensures Basename(dir + "/" + name) == name
    decreases |name|
  {
    var path := dir + "/" + name;
    if name == [] {
      assert path[|path| - 1] == '/';
    } else {
      var prefix := name[..|name| - 1];
      assert '/' !in prefix by {
        assert forall k :: 0 <= k < |prefix| ==> prefix[k] == name[k];
      }
      assert path[..|path| - 1] == dir + "/" + prefix;
      BasenameUnderDirectory(dir, prefix);
      assert name == prefix + [name[|name| - 1]];
    }
  }

  /** Only the file name is read: a directory called "aphid" does not make a diagnosis. */
  lemma DiagnosisIgnoresDirectory(dir: string, name: string)
    requires '/' !in name
    ensures MockMl(dir + "/" + name) == MockMl(name)
  {
    BasenameUnderDirectory(dir, name);
  }

  const NeemAdvice: string := " Apply neem-based spray."
  const IrrigationAdvice: string := " Maintain regular irrigation."
  const OfficerAdvice: string := " Consult local agri officer."

  /** `s` begins with `t`. */
  predicate StartsWith(s: string, t: string) {
    |t| <= |s| && s[..|t|] == t
  }

  /** `s` ends with `t`. */
  predicate EndsWith(s: string, t: string) {
    |t| <= |s| && s[|s| - |t|..] == t
  }

  /** Each of `x`, `y` and `z` occurs in the text that interleaves them with `p0` to `p3`. */
  lemma Interleaved(p0: string, x: string, p1: string, y: string, p2: string, z: string, p3: string)
    ensures var s := p0 + x + p1 + y + p2 + z + p3;
      |s| >= |p0 + x| && s[..|p0 + x|] == p0 + x
      && Contains(s, x) && Contains(s, y) && Contains(s, z)
  {
    var s := p0 + x + p1 + y + p2 + z + p3;
    var i, j, k := |p0|, |p0 + x + p1|, |p0 + x + p1 + y + p2|;
    assert s[..|p0 + x|] == p0 + x;
    assert s[i..i + |x|] == x && OccursAt(s, x, i);
    assert s[j..j + |y|] == y && OccursAt(s, y, j);
    assert s[k..k + |z|] == z && OccursAt(s, z, k);
  }

  /** What occurs in `s` occurs in `s` followed by anything. */
  lemma ContainsExtended(s: string, t: string, x: string)
    requires Contains(s, x)
    ensures Contains(s + t, x)
  {
    var i :| 0 <= i <= |s| - |x| && OccursAt(s, x, i);
    assert (s + t)[i..i + |x|] == s[i..i + |x|];
    assert OccursAt(s + t, x, i);
  }

  /** The sentence that names crop, soil and diagnosis. */
  function AdvisoryBase(crop: string, soil: string, diagnosis: string): (b: string)
    ensures |b| >= 4 + |crop| && b[..4 + |crop|] == "For " + crop
    ensures Contains(b, crop) && Contains(b, soil) && Contains(b, diagnosis)
  {
    Interleaved("For ", crop, " crop on ", soil, " soil, analysis shows ", diagnosis, ".");
    "For " + crop + " crop on " + soil + " soil, analysis shows " + diagnosis + "."
  }

  /**
   * compose_advisory: the sentence naming the diagnosis, then the advice for
   * it: neem spray when the diagnosis mentions Aphid, regular irrigation when it
   * mentions Healthy, the agriculture officer otherwise.
   */
  function ComposeAdvisory(crop: string, soil: string, diagnosis: string): (text: string)
    ensures StartsWith(text, AdvisoryBase(crop, soil, diagnosis))
    ensures text[..4 + |crop|] == "For " + crop
    ensures Contains(text, crop) && Contains(text, soil) && Contains(text, diagnosis)
    ensures Contains(diagnosis, "Aphid") ==>
      EndsWith(text, NeemAdvice) && |text| == |AdvisoryBase(crop, soil, diagnosis)| + |NeemAdvice|
    ensures !Contains(diagnosis, "Aphid") && Contains(diagnosis, "Healthy") ==>
      EndsWith(text, IrrigationAdvice) && |text| == |AdvisoryBase(crop, soil, diagnosis)| + |IrrigationAdvice|
    ensures !Contains(diagnosis, "Aphid") && !Contains(diagnosis, "Healthy") ==>
      EndsWith(text, OfficerAdvice) && |text| == |AdvisoryBase(crop, soil, diagnosis)| + |OfficerAdvice|
  {
    var base := AdvisoryBase(crop, soil, diagnosis);
    var suggestion :=
      if Contains(diagnosis, "Aphid") then NeemAdvice
      else if Contains(diagnosis, "Healthy") then IrrigationAdvice
      else OfficerAdvice;
    var text := base + suggestion;
    ContainsExtended(base, suggestion, crop);
    ContainsExtended(base, suggestion, soil);
    ContainsExtended(base, suggestion, diagnosis);
    assert text[..|base|] == base;
    text
  }

  /** A string without the first character of `sub` cannot contain `sub`. */
  lemma NotContainsWithoutFirst(s: string, sub: string)
    requires sub != [] && sub[0] !in s
    ensures !Contains(s, sub)
  {
  }

  /** The mock labels and the words the advice looks for. */
  lemma LabelWords()
    ensures Contains(AphidLabel, "Aphid") && Contains(HealthyLabel, "Healthy")
    ensures !Contains(BlightLabel, "Aphid") && !Contains(HealthyLabel, "Aphid") && !Contains(BlightLabel, "Healthy")
  {
    assert OccursAt(AphidLabel, "Aphid", 0);
    assert OccursAt(HealthyLabel, "Healthy", 0);
    NotContainsWithoutFirst(BlightLabel, "Aphid");
    NotContainsWithoutFirst(HealthyLabel, "Aphid");
    NotContainsWithoutFirst(BlightLabel, "Healthy");
  }

  /**
   * For a mock diagnosis the advice follows the image: neem spray for aphids,
   * the officer for blight, irrigation for a healthy crop; and the advisory
   * of a healthy diagnosis always carries the word the dataset's healthy
   * flag looks for.
   */
  lemma AdvisoryFollowsDiagnosis(crop: string, soil: string, imagePath: string)
    ensures var d := MockMl(imagePath);
      var text := ComposeAdvisory(crop, soil, d.name);
      (d.name == AphidLabel ==> EndsWith(text, NeemAdvice))
      && (d.name == BlightLabel ==> EndsWith(text, OfficerAdvice))
      && (d.name == HealthyLabel ==> EndsWith(text, IrrigationAdvice) && Contains(text, "Healthy"))
  {
    LabelWords();
    var text := ComposeAdvisory(crop, soil, HealthyLabel);
    var k := |"For " + crop + " crop on " + soil + " soil, analysis shows "|;
    assert text[k..k + 7] == "Healthy";
    assert OccursAt(text, "Healthy", k);
  }

  datatype SoilSummary = SoilSummary(moisture: string, notes: string)

  /**
   * soil_summary_from_image: "unknown" without an image, otherwise moisture
   * read off the lower-cased file name, dry before wet, moderate otherwise.
   */
  function SoilSummaryFromImage(imagePath: Option<string>): (s: SoilSummary)
    ensures s.moisture == "unknown" <==> imagePath.None? || imagePath.value == ""
    ensures s.moisture == "unknown" ==> s.notes == "No image"
    ensures s.moisture == "low" ==> s.notes == "Add compost/green manure"
    ensures s.moisture == "high" ==> s.notes == "Improve drainage; avoid waterlogging"
    ensures s.moisture == "moderate" ==> s.notes == "Maintain mulch; add organic matter"
    ensures imagePath.Some? && imagePath.value != "" ==>
      var name := Lower(Basename(imagePath.value));
      (s.moisture == "low" <==> Contains(name, "dry"))
      && (s.moisture == "high" <==> !Contains(name, "dry") && Contains(name, "wet"))
      && (s.moisture == "moderate" <==> !Contains(name, "dry") && !Contains(name, "wet"))
  {
    if imagePath.None? || imagePath.value == "" then SoilSummary("unknown", "No image")
    else
      var name := Lower(Basename(imagePath.value));
      if Contains(name, "dry") then SoilSummary("low", "Add compost/green manure")
      else if Contains(name, "wet") then SoilSummary("high", "Improve drainage; avoid waterlogging")
      else SoilSummary("moderate", "Maintain mulch; add organic matter")
  }

  // ---------------------------------------------------------------------
  // The plan's price forecast

  const DefaultPrice: int := 2000

  /** The table price, or 2000 when there is none (or it is zero). */
  function FallbackBase(price: Option<int>): int {
    if price.None? || price.value == 0 then DefaultPrice else price.value
  }

  /** The fallback band: the base itself as the expected price, rounded 95% and 108% around it. */
  function FallbackForecast(price: Option<int>): (f: Forecast)
    ensures f == Band(FallbackBase(price) as real)
  {
    var base := FallbackBase(price);
    RoundWhole(base);
    Forecast(base, Round(base as real * 0.95), Round(base as real * 1.08), Unit)
  }

  /** The region a plan is priced for: the manual location, or the default region when it is empty. */
  function PlanRegion(manualLocation: string): string {
    if manualLocation == "" then DefaultRegion else manualLocation
  }

  /**
   * The plan's price forecast: predict_price for the crop, the plan's region,
   * the harvest month and the current temperature and humidity; the model's
   * band when it predicts, the table fallback when it is not trained.
   */
  function PlanPriceForecast(store: ModelStore, crop: string, manualLocation: string,
                             harvestMonth: int, temp: real, humidity: real): (f: Forecast)
    reads store
    ensures store.artifact.Some? ==>
      f == Band(store.artifact.value.predict(
        QueryOf(Some(crop), Some(PlanRegion(manualLocation)), Some(harvestMonth), Some(temp), Some(humidity))))
    ensures store.artifact.None? ==>
      f == Band(FallbackBase(FetchMarketPrice(crop, PlanRegion(manualLocation)).price) as real)
  {
    var region := PlanRegion(manualLocation);
    match store.PredictPrice(Some(crop), Some(region), Some(harvestMonth), Some(temp), Some(humidity))
    case Predicted(forecast) => forecast
    case Unavailable(_) => FallbackForecast(FetchMarketPrice(crop, region).price)
  }

  /**
   * Without a trained model, a crop of the table is priced at its table
   * price (which is never zero, so the 2000 default only covers unknown
   * crops), and the band is ordered.
   */
  lemma UntrainedPlanUsesTable(store: ModelStore, crop: string, manualLocation: string,
                               harvestMonth: int, temp: real, humidity: real)
    requires store.artifact.None? && Lower(crop) in PriceTable
    ensures var f := PlanPriceForecast(store, crop, manualLocation, harvestMonth, temp, humidity);
      var q := FetchMarketPrice(crop, PlanRegion(manualLocation));
      f.expected == q.price.value && f.low <= f.expected <= f.high
  {
    var q := FetchMarketPrice(crop, PlanRegion(manualLocation));
    PriceTableFacts();
    RoundWhole(q.price.value);
    BandOrdered(q.price.value as real);
  }

  /** An unknown crop falls back to 2000, priced 1900 to 2160. */
  lemma UntrainedUnknownCrop(store: ModelStore, crop: string, manualLocation: string,
                             harvestMonth: int, temp: real, humidity: real)
    requires store.artifact.None? && Lower(crop) !in PriceTable
    ensures PlanPriceForecast(store, crop, manualLocation, harvestMonth, temp, humidity)
         == Forecast(2000, 1900, 2160, Unit)
  {
    RoundWhole(2000);
    RoundWhole(1900);
    RoundWhole(2160);
  }

  /** A tie is rounded to even: wheat in Chennai at 2150 gets a low of 2042, not 2043. */
  lemma WheatFallbackRoundsToEven()
    ensures FallbackForecast(Some(2150)) == Forecast(2150, 2042, 2322, Unit)
  {
    RoundWhole(2150);
    RoundWhole(2322);
    assert 2150.0 * 0.95 == 2042.5;
  }
}
