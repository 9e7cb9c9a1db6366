/**
 * The grid-constraint rules (src/services/textureApi.ts): the mock
 * constraint entries generated for substations and transformers, and the
 * failure-risk estimate. `Math.random()` draws are parameters; factor
 * messages are constructors of a datatype, with their text alongside.
 */
module TextureApi {
  import opened Js
  import opened Types
  import opened Seqs

  /** The metadata strings the rules compare against. */
  const PoleMounted: string := "pole-mounted"
  const Wood: string := "wood"
  const LithiumIon: string := "lithium-ion"

  datatype ConstraintKind = FeederKind | SubstationKind | TransmissionKind

  /** The constraint factors, in the order they are pushed. */
  datatype ConstraintFactor =
    | HighLoadUtilization | EquipmentAge | MaintenanceHistory
    | HighOilTemperature | ExposedToWeather | PredictedLoadGrowth

  function ConstraintFactorText(f: ConstraintFactor): string {
    match f
    case HighLoadUtilization => "High load utilization"
    case EquipmentAge => "Equipment age"
    case MaintenanceHistory => "Maintenance history"
    case HighOilTemperature => "High oil temperature"
    case ExposedToWeather => "Exposed to weather conditions"
    case PredictedLoadGrowth => "Predicted load growth"
  }

  function ConstraintRank(f: ConstraintFactor): nat {
    match f
    case HighLoadUtilization => 0
    case EquipmentAge => 1
    case MaintenanceHistory => 2
    case HighOilTemperature => 3
    case ExposedToWeather => 4
    case PredictedLoadGrowth => 5
  }

  datatype GridConstraintData = GridConstraintData(
    id: string,
    kind: ConstraintKind,
    capacityPercentage: int,
    constraintLevel: ConstraintLevel,
    predictedFailureRisk: real,
    constraintFactors: seq<ConstraintFactor>)

  /** `Math.round`: halves round up. */
  function Round(x: real): int {
    (x + 0.5).Floor
  }

  /** `Math.min(100, Math.round(...))` and friends. */
  function MinInt(a: int, b: int): int {
    if a <= b then a else b
  }

  function MinReal(a: real, b: real): real {
    if a <= b then a else b
  }

  /** The capacity ladder: 90, 75 and 50, each bound inclusive. */
  function CapacityLevel(capacity: int): (l: ConstraintLevel)
    ensures l == Critical <==> capacity >= 90
    ensures l == High <==> 75 <= capacity < 90
    ensures l == Medium <==> 50 <= capacity < 75
    ensures l == Low <==> capacity < 50
  {
    if capacity >= 90 then Critical
    else if capacity >= 75 then High
    else if capacity >= 50 then Medium
    else Low
  }

  /** The capacity percentage: from the risk score when it is truthy, else from 40 plus a draw. */
  function Capacity(a: Asset, draw: real): (c: int)
    ensures !FalsyReal(a.riskScore) ==> c <= 100
  {
    if !FalsyReal(a.riskScore) then MinInt(100, Round(a.riskScore.value * 100.0 + draw * 20.0))
    else Round(40.0 + draw * 60.0)
  }

  /** The age factor of the constraint entry: age over a 50-year lifespan. */
  function ConstraintAge(a: Asset): real {
    ((2023 - a.installYear) as real) / 50.0
  }

  /** The condition under which each constraint factor is pushed for asset `a` with the draw `draw`. */
  predicate ConstraintHolds(a: Asset, draw: real, f: ConstraintFactor) {
    match f
    case HighLoadUtilization => Capacity(a, draw) > 80
    case EquipmentAge => ConstraintAge(a) > 0.6
    case MaintenanceHistory => !FalsyReal(a.riskScore) && a.riskScore.value > 0.5
    case HighOilTemperature => a.assetType == Transformer && MetaAbove(a.metadata, OilTempCelsius, 55.0)
    case ExposedToWeather => a.assetType == Transformer && MetaIs(a.metadata, TypeField, PoleMounted)
    case PredictedLoadGrowth =>
      CapacityLevel(Capacity(a, draw)) == Critical || CapacityLevel(Capacity(a, draw)) == High
  }

  /** The constraint factors in the order they are checked. */
  const ConstraintOrder: seq<ConstraintFactor> :=
    [HighLoadUtilization, EquipmentAge, MaintenanceHistory, HighOilTemperature, ExposedToWeather, PredictedLoadGrowth]

  /** The six conditional pushes, in source order, each factor pushed when `holds` says so. */
  function ConstraintFactors(holds: ConstraintFactor -> bool): seq<ConstraintFactor> {
    Pushed(ConstraintOrder, holds)
  }

  /** The constraint factors come in push order, each at most once. */
  lemma ConstraintFactorsOrdered(holds: ConstraintFactor -> bool)
    ensures OrderedBy(ConstraintFactors(holds), ConstraintRank)
  {
    PushedOrdered(ConstraintOrder, holds, ConstraintRank);
  }

  /** A constraint factor is listed exactly when its condition holds. */
  lemma ConstraintFactorsListed(holds: ConstraintFactor -> bool)
    ensures forall f :: f in ConstraintFactors(holds) <==> holds(f)
  {
    PushedMembers(ConstraintOrder, holds);
    forall f ensures f in ConstraintOrder {
      match f
      case HighLoadUtilization =>
      case EquipmentAge =>
      case MaintenanceHistory =>
      case HighOilTemperature =>
      case ExposedToWeather =>
      case PredictedLoadGrowth =>
    }
  }

  /** The conditions of the entry of `a` with the draw `draw`. */
  function HoldsFor(a: Asset, draw: real): ConstraintFactor -> bool {
    f => ConstraintHolds(a, draw, f)
  }

  /** The entry made for asset `a` (a substation or transformer) with the draw `draw`. */
  function ConstraintEntry(a: Asset, draw: real): GridConstraintData
  {
    var capacity := Capacity(a, draw);
    var level := CapacityLevel(capacity);
    var risk := MinReal(0.95, (capacity as real / 100.0) * 0.7 + ConstraintAge(a) * 0.3);
    GridConstraintData(a.id, if a.assetType == Substation then SubstationKind else FeederKind,
                       capacity, level, risk, ConstraintFactors(HoldsFor(a, draw)))
  }

  /**
   * The entry of an asset: its id and kind, the capacity ladder, the capped
   * failure risk, and each constraint factor exactly when its condition
   * holds, in push order.
   */
  lemma ConstraintEntryFacts(a: Asset, draw: real)
    ensures var e := ConstraintEntry(a, draw);
      && e.id == a.id
      && e.kind == (if a.assetType == Substation then SubstationKind else FeederKind)
      && e.capacityPercentage == Capacity(a, draw)
      && e.constraintLevel == CapacityLevel(Capacity(a, draw))
      && e.predictedFailureRisk <= 0.95
      && OrderedBy(e.constraintFactors, ConstraintRank)
      && forall f :: f in e.constraintFactors <==> ConstraintHolds(a, draw, f)
  {
    ConstraintFactorsOrdered(HoldsFor(a, draw));
    ConstraintFactorsListed(HoldsFor(a, draw));
  }

  /**
   * A map built by `Map.set` over the substations and transformers of
   * `assets`, the value of `assets[i]` being `value(assets[i], i)`: a later
   * asset with the same id overwrites the earlier one.
   */
  function SetByAssetId<V>(assets: seq<Asset>, value: (Asset, nat) -> V): map<string, V>
    decreases |assets|
  {
    if assets == [] then map[]
    else
      var n := |assets| - 1;
      var prev := SetByAssetId(assets[..n], value);
      if IsCapacityType(assets[n].assetType) then prev[assets[n].id := value(assets[n], n)] else prev
  }

  /** The keys are exactly the ids of the substations and transformers. */
  lemma {:induction false} SetByAssetIdKeys<V>(assets: seq<Asset>, value: (Asset, nat) -> V)
    ensures forall k :: k in SetByAssetId(assets, value) <==>
      exists i :: 0 <= i < |assets| && IsCapacityType(assets[i].assetType) && assets[i].id == k
    decreases |assets|
  {
    if assets != [] {
      var n := |assets| - 1;
      var front := assets[..n];
      SetByAssetIdKeys(front, value);
      assert forall i :: 0 <= i < n ==> front[i] == assets[i];
    }
  }

  /** The value under `k` is that of the last substation or transformer with id `k`. */
  lemma {:induction false} SetByAssetIdLastWins<V>(assets: seq<Asset>, value: (Asset, nat) -> V, k: string)
    requires k in SetByAssetId(assets, value)
    ensures exists i ::
      && 0 <= i < |assets| && IsCapacityType(assets[i].assetType) && assets[i].id == k
      && SetByAssetId(assets, value)[k] == value(assets[i], i)
      && forall j :: i < j < |assets| && IsCapacityType(assets[j].assetType) ==> assets[j].id != k
    decreases |assets|
  {
    var n := |assets| - 1;
    var front := assets[..n];
    if !(IsCapacityType(assets[n].assetType) && assets[n].id == k) {
      SetByAssetIdLastWins(front, value, k);
      var i :| && 0 <= i < n && IsCapacityType(front[i].assetType) && front[i].id == k
               && SetByAssetId(front, value)[k] == value(front[i], i)
               && forall j :: i < j < n && IsCapacityType(front[j].assetType) ==> front[j].id != k;
      assert front[i] == assets[i];
      assert forall j :: i < j < n ==> front[j] == assets[j];
    }
  }

  /** The entry of `assets[i]`, made with the `i`-th draw. */
  function EntryWith(draw: nat -> real): (Asset, nat) -> GridConstraintData {
    (a: Asset, i: nat) => ConstraintEntry(a, draw(i))
  }

  /** `fetchGridConstraintData`: `draw(i)` is the `Math.random()` value used for `assets[i]`. */
  method FetchGridConstraintData(assets: seq<Asset>, draw: nat -> real)
    returns (constraintMap: map<string, GridConstraintData>)
    ensures constraintMap == SetByAssetId(assets, EntryWith(draw))
  {
    constraintMap := map[];
    for i := 0 to |assets|
      invariant constraintMap == SetByAssetId(assets[..i], EntryWith(draw))
    {
      assert assets[..i + 1][..i] == assets[..i];
      var asset := assets[i];
      if asset.assetType == Substation || asset.assetType == Transformer {
        constraintMap := constraintMap[asset.id := ConstraintEntry(asset, draw(i))];
      }
    }
    assert assets[..|assets|] == assets;
  }

  /** The failure-risk factors, in the order they are pushed. */
  datatype RiskFactor =
    | EndOfServiceLife | MaintenanceIssues | GeographicStress
    | MaterialDegradation | HighOilTemp | LargeArrayComplexity | HeightChallenges | ThermalManagement

  function RiskFactorText(f: RiskFactor): string {
    match f
    case EndOfServiceLife => "Equipment approaching end of service life"
    case MaintenanceIssues => "Previous maintenance issues detected"
    case GeographicStress => "High-stress geographic location"
    case MaterialDegradation => "Material degradation risk"
    case HighOilTemp => "High oil temperature"
    case LargeArrayComplexity => "Large array maintenance complexity"
    case HeightChallenges => "Height-related maintenance challenges"
    case ThermalManagement => "Thermal management requirements"
  }

  function RiskRank(f: RiskFactor): nat {
    match f
    case EndOfServiceLife => 0
    case MaintenanceIssues => 1
    case GeographicStress => 2
    case MaterialDegradation => 3
    case HighOilTemp => 4
    case LargeArrayComplexity => 5
    case HeightChallenges => 6
    case ThermalManagement => 7
  }

  /** The type-specific factors, each tied to one asset type. */
  predicate TypeSpecific(f: RiskFactor) {
    RiskRank(f) >= 3
  }

  /** The returned factor list: the constraint data's own, or the estimated ones. */
  datatype Factors = FromConstraint(constraintFactors: seq<ConstraintFactor>) | Estimated(riskFactors: seq<RiskFactor>)

  /** The factor messages as the caller receives them. */
  function FactorTexts(fs: Factors): seq<string> {
    match fs
    case FromConstraint(cf) => seq(|cf|, i requires 0 <= i < |cf| => ConstraintFactorText(cf[i]))
    case Estimated(rf) => seq(|rf|, i requires 0 <= i < |rf| => RiskFactorText(rf[i]))
  }

  datatype FailureRisk = FailureRisk(riskScore: real, factors: Factors)

  /** `asset.risk_score || 0.2`. */
  function BaseRisk(a: Asset): real {
    if FalsyReal(a.riskScore) then 0.2 else a.riskScore.value
  }

  /** The age factor of the estimate: age over a 40-year lifespan. */
  function RiskAge(a: Asset): real {
    ((2023 - a.installYear) as real) / 40.0
  }

  /** The score before the type-specific amount. */
  function GeneralScore(a: Asset): real {
    BaseRisk(a) * 0.6 + RiskAge(a) * 0.4
  }

  /** The condition under which each risk factor is pushed for asset `a`. */
  predicate RiskFactorHolds(a: Asset, f: RiskFactor) {
    match f
    case EndOfServiceLife => RiskAge(a) > 0.7
    case MaintenanceIssues => BaseRisk(a) > 0.6
    case GeographicStress => GeneralScore(a) > 0.7
    case MaterialDegradation => a.assetType == Pole && MetaIs(a.metadata, Material, Wood)
    case HighOilTemp => a.assetType == Transformer && MetaAbove(a.metadata, OilTempCelsius, 55.0)
    case LargeArrayComplexity => a.assetType == SolarPanel && MetaAbove(a.metadata, PanelCount, 50.0)
    case HeightChallenges => a.assetType == WindTurbine && MetaAbove(a.metadata, HeightMeters, 80.0)
    case ThermalManagement => a.assetType == Battery && MetaIs(a.metadata, Chemistry, LithiumIon)
  }

  /** The general risk factors, then the type-specific ones, in the order they are checked. */
  const GeneralOrder: seq<RiskFactor> := [EndOfServiceLife, MaintenanceIssues, GeographicStress]
  const TypeOrder: seq<RiskFactor> :=
    [MaterialDegradation, HighOilTemp, LargeArrayComplexity, HeightChallenges, ThermalManagement]
  const RiskOrder: seq<RiskFactor> :=
    [EndOfServiceLife, MaintenanceIssues, GeographicStress,
     MaterialDegradation, HighOilTemp, LargeArrayComplexity, HeightChallenges, ThermalManagement]

  /** What a factor adds to the score: nothing for the general ones. */
  function Weight(f: RiskFactor): real {
    match f
    case MaterialDegradation => 0.1
    case HighOilTemp => 0.15
    case LargeArrayComplexity => 0.05
    case HeightChallenges => 0.08
    case ThermalManagement => 0.07
    case _ => 0.0
  }

  /** The total weight of a list of factors. */
  function Weights(fs: seq<RiskFactor>): real
    decreases |fs|
  {
    if fs == [] then 0.0 else Weights(fs[..|fs| - 1]) + Weight(fs[|fs| - 1])
  }

  /** The conditions of the estimate for `a`. */
  function RiskHoldsFor(a: Asset): RiskFactor -> bool {
    f => RiskFactorHolds(a, f)
  }

  /**
   * The estimate when there is no constraint data: the factors whose
   * condition holds, in push order, and the general score raised by the
   * weight of each and capped at 0.95.
   */
  function EstimatedRisk(a: Asset): FailureRisk {
    var factors := Pushed(RiskOrder, RiskHoldsFor(a));
    FailureRisk(MinReal(0.95, GeneralScore(a) + Weights(factors)), Estimated(factors))
  }

  /** A risk factor is listed exactly when its condition holds. */
  lemma EstimatedRiskListed(a: Asset)
    ensures forall f :: f in EstimatedRisk(a).factors.riskFactors <==> RiskFactorHolds(a, f)
  {
    PushedMembers(RiskOrder, RiskHoldsFor(a));
    forall f ensures f in RiskOrder {
      match f
      case EndOfServiceLife =>
      case MaintenanceIssues =>
      case GeographicStress =>
      case MaterialDegradation =>
      case HighOilTemp =>
      case LargeArrayComplexity =>
      case HeightChallenges =>
      case ThermalManagement =>
    }
  }

  /** The risk factors come in push order, each at most once. */
  lemma EstimatedRiskOrdered(a: Asset)
    ensures OrderedBy(EstimatedRisk(a).factors.riskFactors, RiskRank)
  {
    PushedOrdered(RiskOrder, RiskHoldsFor(a), RiskRank);
  }

  /**
   * The five type-specific checks name five different asset types, so at
   * most one type-specific factor is listed.
   */
  lemma AtMostOneTypeSpecific(a: Asset)
    ensures forall f, g ::
      (f in EstimatedRisk(a).factors.riskFactors && g in EstimatedRisk(a).factors.riskFactors
       && TypeSpecific(f) && TypeSpecific(g)) ==> f == g
  {
    EstimatedRiskListed(a);
  }

  /** Only the type-specific factors have a weight. */
  lemma WeightOnlyTypeSpecific(f: RiskFactor)
    ensures Weight(f) > 0.0 <==> TypeSpecific(f)
    ensures Weight(f) == 0.0 <==> !TypeSpecific(f)
  {
  }

  lemma {:induction false} WeightsOfWeightless(fs: seq<RiskFactor>)
    requires forall g :: g in fs ==> Weight(g) == 0.0
    ensures Weights(fs) == 0.0
    decreases |fs|
  {
    if fs != [] {
      WeightsOfWeightless(fs[..|fs| - 1]);
    }
  }

  lemma {:induction false} WeightsOfOne(fs: seq<RiskFactor>, f: RiskFactor)
    requires OrderedBy(fs, RiskRank) && f in fs
    requires forall g :: g in fs && g != f ==> Weight(g) == 0.0
    ensures Weights(fs) == Weight(f)
    decreases |fs|
  {
    var front := fs[..|fs| - 1];
    var last := fs[|fs| - 1];
    if last == f {
      assert forall g :: g in front ==> RiskRank(g) < RiskRank(last);
      WeightsOfWeightless(front);
    } else {
      assert forall i, j :: 0 <= i < j < |front| ==> front[i] == fs[i] && front[j] == fs[j];
      WeightsOfOne(front, f);
    }
  }

  /**
   * The score is at most 0.95. With no type-specific factor it is the
   * capped general score; with one, the capped general score plus that
   * factor's weight.
   */
  lemma EstimatedRiskScore(a: Asset)
    ensures EstimatedRisk(a).riskScore <= 0.95
    ensures (forall f :: TypeSpecific(f) ==> !RiskFactorHolds(a, f)) ==>
      EstimatedRisk(a).riskScore == MinReal(0.95, GeneralScore(a))
    ensures forall f :: TypeSpecific(f) && RiskFactorHolds(a, f) ==>
      EstimatedRisk(a).riskScore == MinReal(0.95, GeneralScore(a) + Weight(f))
  {
    var fs := EstimatedRisk(a).factors.riskFactors;
    EstimatedRiskListed(a);
    EstimatedRiskOrdered(a);
    AtMostOneTypeSpecific(a);
    forall g | g in fs && !TypeSpecific(g) ensures Weight(g) == 0.0 {
      WeightOnlyTypeSpecific(g);
    }
    if forall f :: TypeSpecific(f) ==> !RiskFactorHolds(a, f) {
      WeightsOfWeightless(fs);
    }
    forall f | TypeSpecific(f) && RiskFactorHolds(a, f)
      ensures EstimatedRisk(a).riskScore == MinReal(0.95, GeneralScore(a) + Weight(f))
    {
      WeightsOfOne(fs, f);
    }
  }

  /** `[f]` when `c` holds, else nothing: one conditional `push` of a risk factor. */
  function PushIf(c: bool, f: RiskFactor): seq<RiskFactor> {
    if c then [f] else []
  }

  lemma WeightsPush(fs: seq<RiskFactor>, f: RiskFactor)
    ensures Weights(fs + [f]) == Weights(fs) + Weight(f)
  {
    assert (fs + [f])[..|fs|] == fs;
  }

  /** The general factors of the estimate, in push order. */
  function GeneralPart(a: Asset): seq<RiskFactor> {
    PushIf(RiskFactorHolds(a, EndOfServiceLife), EndOfServiceLife)
    + PushIf(RiskFactorHolds(a, MaintenanceIssues), MaintenanceIssues)
    + PushIf(RiskFactorHolds(a, GeographicStress), GeographicStress)
  }

  /** The type-specific factor of the estimate, if any: only the check of the asset's own type can pass. */
  function TypePart(a: Asset): seq<RiskFactor> {
    PushIf(RiskFactorHolds(a, OwnTypeFactor(a)), OwnTypeFactor(a))
  }

  /** The three general checks, one after the other. */
  lemma GeneralOrderPushed(a: Asset)
    ensures Pushed(GeneralOrder, RiskHoldsFor(a)) == GeneralPart(a)
  {
    var h := RiskHoldsFor(a);
    assert [] + [EndOfServiceLife] == [EndOfServiceLife];
    PushedSnoc([], EndOfServiceLife, h);
    assert [EndOfServiceLife] + [MaintenanceIssues] == [EndOfServiceLife, MaintenanceIssues];
    PushedSnoc([EndOfServiceLife], MaintenanceIssues, h);
    assert [EndOfServiceLife, MaintenanceIssues] + [GeographicStress] == GeneralOrder;
    PushedSnoc([EndOfServiceLife, MaintenanceIssues], GeographicStress, h);
  }

  /** The type-specific factor tied to the asset's type (for the other types, one that cannot apply). */
  function OwnTypeFactor(a: Asset): RiskFactor {
    match a.assetType
    case Pole => MaterialDegradation
    case Transformer => HighOilTemp
    case SolarPanel => LargeArrayComplexity
    case WindTurbine => HeightChallenges
    case _ => ThermalManagement
  }

  /** Among the five type-specific checks, only the one of the asset's own type can pass. */
  lemma TypeOrderOnlyOwn(a: Asset)
    ensures forall y :: y in Pushed(TypeOrder, RiskHoldsFor(a)) <==> y == OwnTypeFactor(a) && RiskFactorHolds(a, y)
  {
    PushedMembers(TypeOrder, RiskHoldsFor(a));
  }

  /** The type-specific checks push the factor of the asset's own type when it applies, and nothing else. */
  lemma TypeOrderPushed(a: Asset)
    ensures Pushed(TypeOrder, RiskHoldsFor(a)) == TypePart(a)
  {
    var s := Pushed(TypeOrder, RiskHoldsFor(a));
    var own := OwnTypeFactor(a);
    TypeOrderOnlyOwn(a);
    PushedOrdered(TypeOrder, RiskHoldsFor(a), RiskRank);
    OrderedAtMostOne(s, own, RiskRank);
    if RiskFactorHolds(a, own) {
      assert own in s;
    }
  }

  /** The estimate's factors are the general ones followed by the type-specific one. */
  lemma RiskOrderSplit(a: Asset)
    ensures Pushed(RiskOrder, RiskHoldsFor(a)) == GeneralPart(a) + TypePart(a)
  {
    assert RiskOrder == GeneralOrder + TypeOrder;
    PushedConcat(GeneralOrder, TypeOrder, RiskHoldsFor(a));
    GeneralOrderPushed(a);
    TypeOrderPushed(a);
  }

  /** The general part and the type-specific part, with the score they add up to, make the estimate. */
  lemma EstimateFromParts(a: Asset, factors: seq<RiskFactor>, score: real)
    requires factors == GeneralPart(a) + TypePart(a)
    requires score == GeneralScore(a) + Weights(factors)
    ensures FailureRisk(MinReal(0.95, score), Estimated(factors)) == EstimatedRisk(a)
  {
    RiskOrderSplit(a);
  }

  /**
   * `calculateFailureRisk`. Constraint data, when given, is returned as it
   * is; otherwise the factors are pushed and the score raised check by
   * check, as `EstimatedRisk` describes.
   */
  method CalculateFailureRisk(a: Asset, constraintData: Option<GridConstraintData>) returns (r: FailureRisk)
    ensures constraintData.Some? ==>
      r == FailureRisk(constraintData.value.predictedFailureRisk, FromConstraint(constraintData.value.constraintFactors))
    ensures constraintData.None? ==> r == EstimatedRisk(a)
  {
    var baseRiskScore := BaseRisk(a);
    var factors: seq<RiskFactor> := [];
    if constraintData.Some? {
      return FailureRisk(constraintData.value.predictedFailureRisk, FromConstraint(constraintData.value.constraintFactors));
    }
    var ageFactor := ((2023 - a.installYear) as real) / 40.0;
    var riskScore := baseRiskScore * 0.6 + ageFactor * 0.4;
    assert ageFactor == RiskAge(a) && riskScore == GeneralScore(a);
    if ageFactor > 0.7 { factors := factors + [EndOfServiceLife]; }
    if baseRiskScore > 0.6 { factors := factors + [MaintenanceIssues]; }
    if riskScore > 0.7 { factors := factors + [GeographicStress]; }
    assert factors == GeneralPart(a);
    WeightsOfWeightless(factors);
    factors, riskScore := AddTypeSpecificFactor(a, factors, riskScore);
    EstimateFromParts(a, factors, riskScore);
    r := FailureRisk(MinReal(0.95, riskScore), Estimated(factors));
  }

  /**
   * The type-specific checks of `calculateFailureRisk`. They test five
   * different asset types, so they are written as one match on the type.
   */
  method AddTypeSpecificFactor(a: Asset, general: seq<RiskFactor>, score0: real)
    returns (factors: seq<RiskFactor>, riskScore: real)
    ensures factors == general + TypePart(a)
    ensures riskScore == score0 + Weights(factors) - Weights(general)
  {
    factors, riskScore := general, score0;
    match a.assetType {
      case Pole =>
        if MetaIs(a.metadata, Material, Wood) {
          WeightsPush(factors, MaterialDegradation);
          riskScore := riskScore + 0.1;
          factors := factors + [MaterialDegradation];
        }
        assert factors == general + TypePart(a);
      case Transformer =>
        if MetaAbove(a.metadata, OilTempCelsius, 55.0) {
          WeightsPush(factors, HighOilTemp);
          riskScore := riskScore + 0.15;
          factors := factors + [HighOilTemp];
        }
        assert factors == general + TypePart(a);
      case SolarPanel =>
        if MetaAbove(a.metadata, PanelCount, 50.0) {
          WeightsPush(factors, LargeArrayComplexity);
          riskScore := riskScore + 0.05;
          factors := factors + [LargeArrayComplexity];
        }
        assert factors == general + TypePart(a);
      case WindTurbine =>
        if MetaAbove(a.metadata, HeightMeters, 80.0) {
          WeightsPush(factors, HeightChallenges);
          riskScore := riskScore + 0.08;
          factors := factors + [HeightChallenges];
        }
        assert factors == general + TypePart(a);
      case Battery =>
        if MetaIs(a.metadata, Chemistry, LithiumIon) {
          WeightsPush(factors, ThermalManagement);
          riskScore := riskScore + 0.07;
          factors := factors + [ThermalManagement];
        }
        assert factors == general + TypePart(a);
      case House =>
      case Substation =>
    }
    assert factors == general + TypePart(a);
  }
}
