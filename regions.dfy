/** The static dataset of the dashboard, the income-level product lookup and
    the high-AQI classifier of the state grid (src/App.jsx). */
module Regions {

  /** One region (a state of India) with its air-quality and market figures. */
  datatype Record = Record(
    id: string,
    name: string,
    aqi: int,
    hospitalAdmissions: int,
    incomeLevel: string)

  /** The fifteen regions, in the order the dashboard lists them. */
  const MockData: seq<Record> := [
    Record("MH", "Maharashtra", 150, 50000, "High"),
    Record("DL", "Delhi", 280, 80000, "High"),
    Record("KA", "Karnataka", 120, 30000, "Medium"),
    Record("TN", "Tamil Nadu", 90, 25000, "Medium"),
    Record("UP", "Uttar Pradesh", 220, 70000, "Low"),
    Record("WB", "West Bengal", 180, 45000, "Low"),
    Record("GJ", "Gujarat", 110, 28000, "Medium"),
    Record("RJ", "Rajasthan", 190, 55000, "Low"),
    Record("MP", "Madhya Pradesh", 170, 40000, "Low"),
    Record("PB", "Punjab", 130, 32000, "Medium"),
    Record("HR", "Haryana", 160, 38000, "High"),
    Record("KL", "Kerala", 80, 20000, "High"),
    Record("AP", "Andhra Pradesh", 100, 27000, "Medium"),
    Record("TG", "Telangana", 95, 26000, "High"),
    Record("OD", "Odisha", 200, 60000, "Low")
  ]

  /** No two positions of `s` hold records with the same id. */
  ghost predicate UniqueIds(s: seq<Record>)
  {
    forall i, j :: 0 <= i < |s| && 0 <= j < |s| && s[i].id == s[j].id ==> i == j
  }

  /** A two-letter id read as a number: equal ids give equal keys, and the
      dataset's ASCII ids have distinct keys. Used only to let the prover
      compare the dataset's ids cheaply. */
  function IdKey(id: string): int
  {
    if |id| == 2 then id[0] as int * 256 + id[1] as int else -1
  }

  /** The keys of the dataset's ids, in dataset order. */
  const MockIdKeys: seq<int> := [
    0x4D48, 0x444C, 0x4B41, 0x544E, 0x5550, 0x5742, 0x474A, 0x524A,
    0x4D50, 0x5042, 0x4852, 0x4B4C, 0x4150, 0x5447, 0x4F44]

  lemma MockIdKeysMatch()
    ensures |MockIdKeys| == |MockData|
    ensures forall i :: 0 <= i < |MockData| ==> IdKey(MockData[i].id) == MockIdKeys[i]
  {
  }

  lemma MockIdKeysDistinct()
    ensures forall i, j :: 0 <= i < |MockIdKeys| && 0 <= j < |MockIdKeys| && MockIdKeys[i] == MockIdKeys[j] ==> i == j
  {
  }

  /** The dataset has fifteen records, their ids are unique and none is
      empty (so the empty state filter never names a region). */
  lemma MockDataWellFormed()
    ensures |MockData| == 15
    ensures UniqueIds(MockData)
    ensures forall i :: 0 <= i < |MockData| ==> MockData[i].id != ""
  {
    MockIdKeysMatch();
    MockIdKeysDistinct();
  }

  /** Every AQI of the dataset lies in 80..280 and every admissions count in
      20000..80000. */
  lemma MockDataRanges()
    ensures forall i :: 0 <= i < |MockData| ==>
      80 <= MockData[i].aqi <= 280 && 20000 <= MockData[i].hospitalAdmissions <= 80000
  {
  }

  /** The income levels the suggestion table knows. */
  const IncomeLevels: set<string> := {"High", "Medium", "Low"}

  const PremiumSuggestion: string :=
    "Premium, feature-rich air purifiers (e.g., IoT enabled, advanced filtration, sleek design)"
  const MidRangeSuggestion: string :=
    "Mid-range air purifiers (e.g., good filtration, essential features, balanced pricing)"
  const EconomySuggestion: string :=
    "Economical, basic air purifiers (e.g., essential filtration, affordable, durable)"
  const NoSuggestion: string := "No specific suggestion"

  /** The product type suggested for an income level; total, with a fallback
      for every value outside the three known levels. */
  function ProductSuggestion(incomeLevel: string): (s: string)
    ensures s != ""
    ensures s == NoSuggestion <==> incomeLevel !in IncomeLevels
    ensures incomeLevel == "High" ==> s == PremiumSuggestion
    ensures incomeLevel == "Medium" ==> s == MidRangeSuggestion
    ensures incomeLevel == "Low" ==> s == EconomySuggestion
  {
    if incomeLevel == "High" then PremiumSuggestion
    else if incomeLevel == "Medium" then MidRangeSuggestion
    else if incomeLevel == "Low" then EconomySuggestion
    else NoSuggestion
  }

  /** The three known levels get three different suggestions, so the
      suggestion identifies the level. */
  lemma SuggestionsDistinct(a: string, b: string)
    requires a in IncomeLevels && b in IncomeLevels
    ensures ProductSuggestion(a) == ProductSuggestion(b) <==> a == b
  {
  }

  /** A region is drawn as high-AQI when its index is strictly above 200. */
  predicate IsHighAqi(r: Record)
  {
    r.aqi > 200
  }

  /** In the dataset exactly Delhi and Uttar Pradesh are high-AQI; Odisha,
      at exactly 200, is not. */
  lemma HighAqiRegions()
    ensures forall i :: 0 <= i < |MockData| ==>
      (IsHighAqi(MockData[i]) <==> MockData[i].id == "DL" || MockData[i].id == "UP")
    ensures MockData[14].id == "OD" && MockData[14].aqi == 200 && !IsHighAqi(MockData[14])
  {
  }
}
