/**
 * The risk read-outs of one asset (src/hooks/useRiskAssessment.ts): the
 * colour class of a score, the transformer message drawn from the score's
 * band, and the list of risk notes. The `Math.random()` draw is the
 * parameter `random`.
 */
module RiskAssessment {
  import opened Js
  import opened Types
  import opened Seqs

  /** The colour class of each band of the score ladder. */
  function BandColor(l: ConstraintLevel): string {
    match l
    case Critical => "bg-risk-critical text-white"
    case High => "bg-risk-high text-white"
    case Medium => "bg-risk-medium"
    case Low => "bg-risk-low"
  }

  /** `getRiskColor`. */
  function RiskColor(score: Option<real>): string {
    if score.None? then "bg-gray-500"
    else if score.value >= 0.8 then "bg-risk-critical text-white"
    else if score.value >= 0.6 then "bg-risk-high text-white"
    else if score.value >= 0.3 then "bg-risk-medium"
    else "bg-risk-low"
  }

  /** An undefined score is grey; a defined one gets the colour of its band on the 0.8/0.6/0.3 ladder. */
  lemma RiskColorFollowsBand(score: Option<real>)
    ensures score.None? ==> RiskColor(score) == "bg-gray-500"
    ensures score.Some? ==> RiskColor(score) == BandColor(RiskBand(score.value))
  {
    if score.Some? {
      var l := RiskBand(score.value);
      assert l == Critical <==> score.value >= 0.8;
    }
  }

  /** The canned transformer messages, each named by its transformer's age and load. */
  datatype TransformerMessage =
    | Peak95Since1970 | Spikes102Since1977 | Load88Since1990 | LoadFactorSince1997
    | Load70Since2005 | Spikes75Since2003

  function MessageText(m: TransformerMessage): string {
    match m
    case Peak95Since1970 =>
      "Transformer installed in 1970 (55 years old) is sustaining 95% of its rated capacity during afternoon peaks—risk of accelerated thermal fatigue and insulation wear."
    case Spikes102Since1977 =>
      "48-year-old transformer (installed 1977) has seen demand spikes up to 102% of nameplate capacity for the past 3 hours—urgent load relief required."
    case Load88Since1990 =>
      "Transformer from 1990 (35 years old) hit 88% loading during last evening peak—consider shifting some feeders or deploying demand response."
    case LoadFactorSince1997 =>
      "28-year-old transformer (installed 1997) shows a daily load factor creeping above 0.9—monitor aging stress and plan maintenance."
    case Load70Since2005 =>
      "20-year-old transformer (installed 2005) is operating at 70% of capacity during peak hours—within normal limits but track trend."
    case Spikes75Since2003 =>
      "Transformer installed in 2003 (22 years old) experienced occasional load spikes to 75%—no immediate action needed."
  }

  /** The critical band's two messages. */
  const CriticalMessages: seq<TransformerMessage> := [Peak95Since1970, Spikes102Since1977]

  /** The high band's two messages: the same two as the critical band's. */
  const HighMessages: seq<TransformerMessage> := [Peak95Since1970, Spikes102Since1977]

  const MediumMessages: seq<TransformerMessage> := [Load88Since1990, LoadFactorSince1997]

  const LowMessages: seq<TransformerMessage> := [Load70Since2005, Spikes75Since2003]

  /** The message list of each band. */
  function BandMessages(l: ConstraintLevel): seq<TransformerMessage> {
    match l
    case Critical => CriticalMessages
    case High => HighMessages
    case Medium => MediumMessages
    case Low => LowMessages
  }

  /**
   * `getTransformerRiskMessage`, with `random` the value of `Math.random()`:
   * no message (the empty string) for an undefined score, else the message
   * at index `floor(random * length)` of the list picked by the score ladder.
   */
  function TransformerRiskMessage(score: Option<real>, random: real): (m: Option<TransformerMessage>)
    requires 0.0 <= random < 1.0
    ensures m.None? <==> score.None?
    ensures score.Some? ==> m.value in BandMessages(RiskBand(score.value))
    ensures score.Some? && score.value >= 0.6 ==> m.value in CriticalMessages && m.value in HighMessages
  {
    if score.None? then None
    else
      var messages := if score.value >= 0.8 then CriticalMessages
                      else if score.value >= 0.6 then HighMessages
                      else if score.value >= 0.3 then MediumMessages
                      else LowMessages;
      var i := (random * |messages| as real).Floor;
      Some(messages[i])
  }

  /** The notes `getRiskFactors` can push; a transformer's note carries its drawn message. */
  datatype RiskNote =
    | TransformerNote(message: TransformerMessage)
    | AgeOver30 | LargeArray | Shading | HeightMaintenance | LowWind | HighCycleCount | HotBattery

  function NoteText(n: RiskNote): string {
    match n
    case TransformerNote(message) => MessageText(message)
    case AgeOver30 => "Equipment age exceeds 30 years"
    case LargeArray => "Large array size increases maintenance complexity"
    case Shading => "Significant shading affects performance"
    case HeightMaintenance => "Height-related maintenance challenges"
    case LowWind => "Suboptimal wind conditions"
    case HighCycleCount => "High cycle count impacts battery life"
    case HotBattery => "Elevated operating temperature"
  }

  /** The push order of the notes. */
  function NoteRank(n: RiskNote): nat {
    match n
    case TransformerNote(_) => 0
    case AgeOver30 => 0
    case LargeArray => 1
    case Shading => 2
    case HeightMaintenance => 3
    case LowWind => 4
    case HighCycleCount => 5
    case HotBattery => 6
  }

  /** The age factor: age over a 50-year lifespan. */
  function NoteAge(a: Asset): real {
    ((2023 - a.installYear) as real) / 50.0
  }

  /** The condition under which each fixed note is pushed for an asset that is not a transformer. */
  predicate NoteHolds(a: Asset, n: RiskNote) {
    match n
    case TransformerNote(_) => false
    case AgeOver30 => NoteAge(a) > 0.6
    case LargeArray => a.assetType == SolarPanel && MetaAbove(a.metadata, PanelCount, 50.0)
    case Shading => a.assetType == SolarPanel && MetaAbove(a.metadata, ShadePercentage, 20.0)
    case HeightMaintenance => a.assetType == WindTurbine && MetaAbove(a.metadata, HeightMeters, 80.0)
    case LowWind => a.assetType == WindTurbine && MetaBelow(a.metadata, AvgWindSpeedMph, 10.0)
    case HighCycleCount => a.assetType == Battery && MetaAbove(a.metadata, CycleCount, 1000.0)
    case HotBattery => a.assetType == Battery && MetaAbove(a.metadata, TemperatureCelsius, 35.0)
  }

  function NoteHoldsFor(a: Asset): RiskNote -> bool {
    n => NoteHolds(a, n)
  }

  /** The two notes the `switch` checks for each asset type, in order; none for the other types. */
  function TypeNotes(t: AssetType): seq<RiskNote> {
    match t
    case SolarPanel => [LargeArray, Shading]
    case WindTurbine => [HeightMaintenance, LowWind]
    case Battery => [HighCycleCount, HotBattery]
    case _ => []
  }

  /**
   * What `getRiskFactors` returns. A transformer gets its drawn message
   * when its score is defined and nothing else; any other asset gets the
   * age note when it applies, then the notes of its type's `switch` case
   * whose checks pass.
   */
  function RiskNotes(a: Asset, random: real): seq<RiskNote>
    requires 0.0 <= random < 1.0
  {
    if a.assetType == Transformer then
      if a.riskScore.Some? then [TransformerNote(TransformerRiskMessage(a.riskScore, random).value)] else []
    else
      PushIf(NoteAge(a) > 0.6, AgeOver30) + Pushed(TypeNotes(a.assetType), NoteHoldsFor(a))
  }

  /**
   * A transformer has exactly one note iff its score is defined, and that
   * note's message comes from the score's band.
   */
  lemma TransformerNotes(a: Asset, random: real)
    requires 0.0 <= random < 1.0
    requires a.assetType == Transformer
    ensures |RiskNotes(a, random)| == (if a.riskScore.Some? then 1 else 0)
    ensures a.riskScore.Some? ==>
      RiskNotes(a, random)[0].TransformerNote?
      && RiskNotes(a, random)[0].message in BandMessages(RiskBand(a.riskScore.value))
  {
  }

  /** The pushes of one `switch` case list each of its notes exactly when that note's check passes. */
  lemma {:induction false} TypeNotesListed(a: Asset)
    ensures forall n :: n in Pushed(TypeNotes(a.assetType), NoteHoldsFor(a)) <==> n != AgeOver30 && NoteHolds(a, n)
  {
    PushedMembers(TypeNotes(a.assetType), NoteHoldsFor(a));
  }

  /**
   * For any other asset, a note is listed exactly when its check passes;
   * so the type-specific notes appear only for solar panels, wind turbines
   * and batteries.
   */
  lemma OtherNotesListed(a: Asset, random: real)
    requires 0.0 <= random < 1.0
    requires a.assetType != Transformer
    ensures forall n :: n in RiskNotes(a, random) <==> NoteHolds(a, n)
    ensures forall n :: n in RiskNotes(a, random) && n != AgeOver30 ==>
      a.assetType == SolarPanel || a.assetType == WindTurbine || a.assetType == Battery
  {
    TypeNotesListed(a);
  }

  /** For any other asset the notes come in push order, so the age note, when present, is first. */
  lemma OtherNotesOrdered(a: Asset, random: real)
    requires 0.0 <= random < 1.0
    requires a.assetType != Transformer
    ensures OrderedBy(RiskNotes(a, random), NoteRank)
    ensures NoteAge(a) > 0.6 <==> |RiskNotes(a, random)| > 0 && RiskNotes(a, random)[0] == AgeOver30
  {
    var age := PushIf(NoteAge(a) > 0.6, AgeOver30);
    var rest := Pushed(TypeNotes(a.assetType), NoteHoldsFor(a));
    assert RiskNotes(a, random) == age + rest;
    TypeNotesRanked(a.assetType);
    PushedOrdered(TypeNotes(a.assetType), NoteHoldsFor(a), NoteRank);
    ConcatOrdered(age, rest, NoteRank);
    if |rest| > 0 {
      assert rest[0] in rest;
    }
  }

  /** The notes of each `switch` case are in push order and all come after the age note. */
  lemma TypeNotesRanked(t: AssetType)
    ensures OrderedBy(TypeNotes(t), NoteRank)
    ensures forall n :: n in TypeNotes(t) ==> NoteRank(n) > 0
  {
  }

  /** A note pushed when its check passes. */
  function PushIf(c: bool, n: RiskNote): seq<RiskNote> {
    if c then [n] else []
  }

  /** The pushes of each `switch` case, check by check. */
  lemma TypeNotesByCase(a: Asset)
    ensures a.assetType == SolarPanel ==>
      (Pushed(TypeNotes(a.assetType), NoteHoldsFor(a))
       == PushIf(MetaAbove(a.metadata, PanelCount, 50.0), LargeArray)
          + PushIf(MetaAbove(a.metadata, ShadePercentage, 20.0), Shading))
    ensures a.assetType == WindTurbine ==>
      (Pushed(TypeNotes(a.assetType), NoteHoldsFor(a))
       == PushIf(MetaAbove(a.metadata, HeightMeters, 80.0), HeightMaintenance)
          + PushIf(MetaBelow(a.metadata, AvgWindSpeedMph, 10.0), LowWind))
    ensures a.assetType == Battery ==>
      (Pushed(TypeNotes(a.assetType), NoteHoldsFor(a))
       == PushIf(MetaAbove(a.metadata, CycleCount, 1000.0), HighCycleCount)
          + PushIf(MetaAbove(a.metadata, TemperatureCelsius, 35.0), HotBattery))
    ensures !(a.assetType == SolarPanel || a.assetType == WindTurbine || a.assetType == Battery) ==>
      Pushed(TypeNotes(a.assetType), NoteHoldsFor(a)) == []
  {
    var ns := TypeNotes(a.assetType);
    if |ns| == 2 {
      assert [] + [ns[0]] == [ns[0]];
      PushedSnoc([], ns[0], NoteHoldsFor(a));
      assert [ns[0]] + [ns[1]] == ns;
      PushedSnoc([ns[0]], ns[1], NoteHoldsFor(a));
    }
  }

  /**
   * `getRiskFactors`, with `random` the draw used for a transformer's
   * message.
   */
  method GetRiskFactors(a: Asset, random: real) returns (factors: seq<RiskNote>)
    requires 0.0 <= random < 1.0
    ensures factors == RiskNotes(a, random)
  {
    factors := [];
    var ageFactor := ((2023 - a.installYear) as real) / 50.0;
    if a.assetType == Transformer {
      if a.riskScore.Some? {
        factors := factors + [TransformerNote(TransformerRiskMessage(a.riskScore, random).value)];
      }
    } else {
      if ageFactor > 0.6 {
        factors := factors + [AgeOver30];
      }
      ghost var age := factors;
      TypeNotesByCase(a);
      match a.assetType {
        case SolarPanel =>
          if MetaAbove(a.metadata, PanelCount, 50.0) {
            factors := factors + [LargeArray];
          }
          ghost var first := factors;
          if MetaAbove(a.metadata, ShadePercentage, 20.0) {
            factors := factors + [Shading];
          }
          assert factors == first + PushIf(MetaAbove(a.metadata, ShadePercentage, 20.0), Shading);
        case WindTurbine =>
          if MetaAbove(a.metadata, HeightMeters, 80.0) {
            factors := factors + [HeightMaintenance];
          }
          ghost var first := factors;
          if MetaBelow(a.metadata, AvgWindSpeedMph, 10.0) {
            factors := factors + [LowWind];
          }
          assert factors == first + PushIf(MetaBelow(a.metadata, AvgWindSpeedMph, 10.0), LowWind);
        case Battery =>
          if MetaAbove(a.metadata, CycleCount, 1000.0) {
            factors := factors + [HighCycleCount];
          }
          ghost var first := factors;
          if MetaAbove(a.metadata, TemperatureCelsius, 35.0) {
            factors := factors + [HotBattery];
          }
          assert factors == first + PushIf(MetaAbove(a.metadata, TemperatureCelsius, 35.0), HotBattery);
        case _ =>
      }
    }
  }
}
