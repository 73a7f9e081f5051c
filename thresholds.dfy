/** The threshold provider: a base set of named numeric thresholds and the
    crop/stage adjustment rules that derive the effective set for one request. */
module Thresholds {
  import opened Numeric

  /** A threshold set maps threshold names to numeric limits; other keys may be present too. */
  type ThresholdSet = map<string, real>

  const DroughtRiskDays := "drought_risk_days"
  const DroughtRiskMm := "drought_risk_mm"
  const FloodRiskMmPerDay := "flood_risk_mm_per_day"
  const HeavyRainMmPer3h := "heavy_rain_mm_per_3h"
  const HeatwaveTempC := "heatwave_temp_c"
  const HeatwaveDays := "heatwave_days"
  const FrostRiskTempC := "frost_risk_temp_c"
  const HighWindSpeedMs := "high_wind_speed_ms"
  const HighHumidityPerc := "high_humidity_perc"
  const HighHumidityDurationH := "high_humidity_duration_h"

  /** The base thresholds every request starts from. */
  const DefaultThresholds: ThresholdSet := map[
    DroughtRiskDays := 7.0, DroughtRiskMm := 2.0,
    FloodRiskMmPerDay := 50.0, HeavyRainMmPer3h := 15.0,
    HeatwaveTempC := 38.0, HeatwaveDays := 3.0,
    FrostRiskTempC := 2.0,
    HighWindSpeedMs := 15.0,
    HighHumidityPerc := 85.0, HighHumidityDurationH := 12.0
  ]

  /** The base thresholds hold, under the four keys the rules adjust, the very
      values the rules fall back to when a key is absent. */
  lemma DefaultsAreAdjustFallbacks()
    ensures Lookup(DefaultThresholds, HeatwaveTempC, 0.0) == 38.0
    ensures Lookup(DefaultThresholds, DroughtRiskDays, 0.0) == 7.0
    ensures Lookup(DefaultThresholds, FrostRiskTempC, 0.0) == 2.0
    ensures Lookup(DefaultThresholds, HighWindSpeedMs, 0.0) == 15.0
  {
  }

  /** The value stored under `key`, or `default` when the key is absent. */
  function Lookup(t: ThresholdSet, key: string, default: real): real {
    if key in t then t[key] else default
  }

  /** Rule 1 applies: the reproductive stages are more sensitive to heat and dryness. */
  predicate SensitiveStage(stage: string) {
    stage == "Flowering" || stage == "Fruiting/Maturity"
  }

  /** Rule 2 applies: rice past the seedling stage tolerates longer dry spells. */
  predicate RiceRelaxed(crop: string, stage: string) {
    crop == "Rice" && stage != "Germination/Seedling"
  }

  /** Rule 3 applies: vegetable seedlings are more sensitive to frost. */
  predicate SeedlingFrost(crop: string, stage: string) {
    crop == "Vegetables" && stage == "Germination/Seedling"
  }

  /** Rule 4 applies: mature maize is more sensitive to wind. */
  predicate MatureMaizeWind(crop: string, stage: string) {
    crop == "Maize" && stage == "Fruiting/Maturity"
  }

  /** The keys that the applicable rules write. */
  function RewrittenKeys(crop: string, stage: string): set<string> {
    (if SensitiveStage(stage) then {HeatwaveTempC, DroughtRiskDays} else {})
    + (if RiceRelaxed(crop, stage) then {DroughtRiskDays} else {})
    + (if SeedlingFrost(crop, stage) then {FrostRiskTempC} else {})
    + (if MatureMaizeWind(crop, stage) then {HighWindSpeedMs} else {})
  }

  /** The drought-days value as left by rule 1, which is the value rule 2 starts from. */
  function StageDroughtDays(base: ThresholdSet, stage: string): real {
    var v := Lookup(base, DroughtRiskDays, 7.0);
    if SensitiveStage(stage) then Max(3.0, v - 2.0) else v
  }

  /** Copies `base` and applies the four rules in their fixed order; a later
      rule reads the value an earlier one already wrote. */
  method AdjustThresholds(base: ThresholdSet, crop: string, stage: string) returns (adjusted: ThresholdSet)
    // the result holds the base keys plus the keys the applicable rules write
    ensures adjusted.Keys == base.Keys + RewrittenKeys(crop, stage)
    ensures forall k :: k in base && k !in RewrittenKeys(crop, stage) ==> adjusted[k] == base[k]
    ensures RewrittenKeys(crop, stage) == {} ==> adjusted == base
    // rule 1
    ensures SensitiveStage(stage) ==>
      adjusted[HeatwaveTempC] == Max(32.0, Lookup(base, HeatwaveTempC, 38.0) - 3.0) && adjusted[HeatwaveTempC] >= 32.0
    ensures SensitiveStage(stage) && !RiceRelaxed(crop, stage) ==>
      adjusted[DroughtRiskDays] == StageDroughtDays(base, stage) && adjusted[DroughtRiskDays] >= 3.0
    // rule 2 starts from the value rule 1 left
    ensures RiceRelaxed(crop, stage) ==>
      adjusted[DroughtRiskDays] == Min(10.0, StageDroughtDays(base, stage) + 3.0) && adjusted[DroughtRiskDays] <= 10.0
    ensures crop == "Rice" && stage == "Flowering" ==>
      adjusted == base[HeatwaveTempC := Max(32.0, Lookup(base, HeatwaveTempC, 38.0) - 3.0)]
                      [DroughtRiskDays := Min(10.0, Max(3.0, Lookup(base, DroughtRiskDays, 7.0) - 2.0) + 3.0)]
    // the drought-days limit never drops below 3 when the base one is at least 3
    ensures Lookup(base, DroughtRiskDays, 7.0) >= 3.0 ==> Lookup(adjusted, DroughtRiskDays, 7.0) >= 3.0
    // rule 3
    ensures SeedlingFrost(crop, stage) ==>
      adjusted[FrostRiskTempC] == Max(3.0, Lookup(base, FrostRiskTempC, 2.0) + 1.0) && adjusted[FrostRiskTempC] >= 3.0
    // rule 4
    ensures MatureMaizeWind(crop, stage) ==>
      adjusted[HighWindSpeedMs] == Max(10.0, Lookup(base, HighWindSpeedMs, 15.0) - 3.0) && adjusted[HighWindSpeedMs] >= 10.0
  {
    adjusted := base;
    if stage == "Flowering" || stage == "Fruiting/Maturity" {
      adjusted := adjusted[HeatwaveTempC := Max(32.0, Lookup(adjusted, HeatwaveTempC, 38.0) - 3.0)];
      adjusted := adjusted[DroughtRiskDays := Max(3.0, Lookup(adjusted, DroughtRiskDays, 7.0) - 2.0)];
    }
    if crop == "Rice" && stage != "Germination/Seedling" {
      adjusted := adjusted[DroughtRiskDays := Min(10.0, Lookup(adjusted, DroughtRiskDays, 7.0) + 3.0)];
    }
    if crop == "Vegetables" && stage == "Germination/Seedling" {
      adjusted := adjusted[FrostRiskTempC := Max(3.0, Lookup(adjusted, FrostRiskTempC, 2.0) + 1.0)];
    }
    if crop == "Maize" && stage == "Fruiting/Maturity" {
      adjusted := adjusted[HighWindSpeedMs := Max(10.0, Lookup(adjusted, HighWindSpeedMs, 15.0) - 3.0)];
    }
  }
}
