/**
 * Record shapes of the dashboard (assets, filters, houses, substations and
 * house-to-substation connections), reduced to the fields the map core reads.
 */
module Types {
  import opened Js

  datatype AssetType = House | Substation | Pole | Transformer | SolarPanel | WindTurbine | Battery

  /** The `asset_type` string of each category. */
  function TypeName(t: AssetType): string {
    match t
    case House => "house"
    case Substation => "substation"
    case Pole => "pole"
    case Transformer => "transformer"
    case SolarPanel => "solarPanel"
    case WindTurbine => "windTurbine"
    case Battery => "battery"
  }

  datatype ConstraintLevel = Low | Medium | High | Critical

  function LevelName(l: ConstraintLevel): string {
    match l
    case Low => "low"
    case Medium => "medium"
    case High => "high"
    case Critical => "critical"
  }

  /**
   * The score ladder shared by the marker classes, the capacity ring, the
   * risk colour and the transformer messages: 0.8, 0.6 and 0.3, each bound
   * inclusive.
   */
  function RiskBand(score: real): (l: ConstraintLevel)
    ensures l == Critical <==> score >= 0.8
    ensures l == High <==> 0.6 <= score < 0.8
    ensures l == Medium <==> 0.3 <= score < 0.6
    ensures l == Low <==> score < 0.3
  {
    if score >= 0.8 then Critical
    else if score >= 0.6 then High
    else if score >= 0.3 then Medium
    else Low
  }

  /** Substations and transformers carry a capacity indicator and get grid-constraint data. */
  predicate IsCapacityType(t: AssetType) {
    t == Substation || t == Transformer
  }

  /** A value of the free-form `metadata` record. */
  datatype MetaValue = MNum(n: real) | MStr(s: string) | MOther

  /** The `metadata` fields the core reads; the record may hold others, which nothing reads. */
  datatype MetaKey =
    | OilTempCelsius | TypeField | Material | PanelCount | HeightMeters | Chemistry
    | ShadePercentage | AvgWindSpeedMph | CycleCount | TemperatureCelsius

  /** The field name of each key. */
  function KeyName(k: MetaKey): string {
    match k
    case OilTempCelsius => "oil_temp_celsius"
    case TypeField => "type"
    case Material => "material"
    case PanelCount => "panel_count"
    case HeightMeters => "height_meters"
    case Chemistry => "chemistry"
    case ShadePercentage => "shade_percentage"
    case AvgWindSpeedMph => "avg_wind_speed_mph"
    case CycleCount => "cycle_count"
    case TemperatureCelsius => "temperature_celsius"
  }

  type Metadata = map<MetaKey, MetaValue>

  /** `asset.metadata?.[key] > bound`: false when the field or the record is missing. */
  predicate MetaAbove(md: Option<Metadata>, key: MetaKey, bound: real) {
    md.Some? && key in md.value && md.value[key].MNum? && md.value[key].n > bound
  }

  /** `asset.metadata?.[key] < bound`. */
  predicate MetaBelow(md: Option<Metadata>, key: MetaKey, bound: real) {
    md.Some? && key in md.value && md.value[key].MNum? && md.value[key].n < bound
  }

  /** `asset.metadata?.[key] === s`. */
  predicate MetaIs(md: Option<Metadata>, key: MetaKey, s: string) {
    md.Some? && key in md.value && md.value[key] == MStr(s)
  }

  datatype GridCapacity = GridCapacity(capacityPercentage: int, constraintLevel: ConstraintLevel)

  datatype Asset = Asset(
    id: string,
    assetType: AssetType,
    latitude: Num,
    longitude: Num,
    installYear: int,
    metadata: Option<Metadata>,
    gridCapacity: Option<GridCapacity>,
    riskScore: Option<real>)

  datatype RiskRange = RiskRange(min: real, max: real)
  datatype YearRange = YearRange(min: int, max: int)

  datatype AssetFilters = AssetFilters(assetTypes: seq<AssetType>, riskLevel: RiskRange, yearRange: YearRange)

  datatype PalmettoHouse = PalmettoHouse(id: string, palmettoSystemId: string, latitude: Num, longitude: Num)

  /** A row of the `substations` table (used by the house assignment). */
  datatype SubstationRow = SubstationRow(id: string, name: string, latitude: Num, longitude: Num)

  datatype HouseConnection = HouseConnection(id: string, houseId: string, substationId: string, distanceMiles: real)

  /** A PG&E substation after its Web Mercator coordinates were converted. */
  datatype PgeSubstation = PgeSubstation(objectid: nat, substationName: Option<string>, longitude: Num, latitude: Num)
}
