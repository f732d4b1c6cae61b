/** The 18 constant score tables of mappings_fixed.py. Each table maps the
    raw values of one scenario attribute to a signed integer score; a value
    that is not a key has no score (a Python KeyError), never a default. The
    tables are written as functions that match on the key, one case per
    dictionary entry, in the source's order. */
module Mappings {
  import opened Wrappers
  import PyText

  /** The scenario attributes, one per table, in the order model_logic.py
      scores them. */
  datatype Attribute =
    | TargetCategory
    | TargetVulnerability
    | TerrainType
    | CivilianPresence
    | DamageAssessment
    | TimeSensitivity
    | Weaponeering
    | FriendlyFire
    | PoliticallySensitive
    | LegalAdvice
    | EthicalConcerns
    | CollateralDamagePotential
    | AiDistinction
    | AiProportionality
    | AiMilitaryNecessity
    | HumanDistinction
    | HumanProportionality
    | HumanMilitaryNecessity

  /** The attribute's key in a raw scenario (and, with `_Score` appended, in
      the scored one). */
  function Name(a: Attribute): string {
    match a
    case TargetCategory => "Target_Category"
    case TargetVulnerability => "Target_Vulnerability"
    case TerrainType => "Terrain_Type"
    case CivilianPresence => "Civilian_Presence"
    case DamageAssessment => "Damage_Assessment"
    case TimeSensitivity => "Time_Sensitivity"
    case Weaponeering => "Weaponeering"
    case FriendlyFire => "Friendly_Fire"
    case PoliticallySensitive => "Politically_Sensitive"
    case LegalAdvice => "Legal_Advice"
    case EthicalConcerns => "Ethical_Concerns"
    case CollateralDamagePotential => "Collateral_Damage_Potential"
    case AiDistinction => "AI_Distinction (%)"
    case AiProportionality => "AI_Proportionality (%)"
    case AiMilitaryNecessity => "AI_Military_Necessity"
    case HumanDistinction => "Human_Distinction (%)"
    case HumanProportionality => "Human_Proportionality (%)"
    case HumanMilitaryNecessity => "Human_Military_Necessity"
  }

  /** Target_Category_Map. */
  function TargetCategoryMap(v: string): Option<int> {
    match v
    case "Air Base" => Some(3)
    case "Airborne Unit" => Some(3)
    case "Airfield" => Some(2)
    case "Ammo Stockpile" => Some(2)
    case "Ammunition Depot" => Some(2)
    case "Armor Unit" => Some(3)
    case "Artillery Unit" => Some(3)
    case "Barracks" => Some(1)
    case "Battalion HQ" => Some(4)
    case "Battlegroup HQ" => Some(4)
    case "Bridging Unit" => Some(3)
    case "Brigade HQ" => Some(3)
    case "Cargo Aircraft" => Some(3)
    case "Chapel" => Some(-1)
    case "Checkpoint" => Some(1)
    case "Command Post" => Some(4)
    case "Division HQ" => Some(4)
    case "Dummy Target" => Some(1)
    case "Electronic Warfare Installation" => Some(3)
    case "Enemy Personnel" => Some(1)
    case "Engineering Unit" => Some(2)
    case "Fighter Aircraft" => Some(4)
    case "Frigate" => Some(4)
    case "Fuel Depot" => Some(2)
    case "High-Value Target" => Some(5)
    case "Infantry Platoon" => Some(2)
    case "Infantry Squad" => Some(1)
    case "Inflatable Military Decoy" => Some(1)
    case "Logistics Unit" => Some(2)
    case "Mast Antennas" => Some(3)
    case "Medical Installation" => Some(-5)
    case "Medical Vehicle" => Some(-5)
    case "Military Equipment" => Some(1)
    case "Military Equipment CL I" => Some(1)
    case "Military Equipment CL II" => Some(1)
    case "Military Equipment CL IV" => Some(1)
    case "Military Installation" => Some(1)
    case "Mobile Command Vehicle" => Some(4)
    case "Motorized Unit" => Some(2)
    case "Naval Base" => Some(3)
    case "Observation Post" => Some(1)
    case "Radar Installation" => Some(4)
    case "Reconnaissance Unit" => Some(2)
    case "Ship Maintenance Facility" => Some(1)
    case "Signal Tower" => Some(4)
    case "Sniper Team" => Some(2)
    case "Training Centre" => Some(1)
    case "Unmanned Aerial Vehicle" => Some(2)
    case "Unmanned Ground Vehicle" => Some(1)
    case "Unmanned Maritime Systems" => Some(1)
    case _ => None
  }

  /** Target_Vulnerability_Map. */
  function TargetVulnerabilityMap(v: string): Option<int> {
    match v
    case "High" => Some(4)
    case "Low" => Some(2)
    case "Medium" => Some(3)
    case "Very_High" => Some(5)
    case "Very_Low" => Some(1)
    case _ => None
  }

  /** Terrain_Type_Map. */
  function TerrainTypeMap(v: string): Option<int> {
    match v
    case "Agricultural Land" => Some(4)
    case "Border Region" => Some(1)
    case "Communication Infrastructure" => Some(2)
    case "Critical Infrastructure Area" => Some(2)
    case "Dam and Reservoir" => Some(-5)
    case "Electric Power Grid Network" => Some(1)
    case "Forested Terrain" => Some(5)
    case "Hilly Terrain" => Some(5)
    case "Historical Site" => Some(1)
    case "Industrial Zone" => Some(2)
    case "Medical Facility" => Some(-5)
    case "Public Area" => Some(-4)
    case "Railway Infrastructure" => Some(2)
    case "Residential Area" => Some(-4)
    case "Suburban Area" => Some(-2)
    case "Transportation Hub" => Some(1)
    case "Tunnel and Cave" => Some(1)
    case "Urban Center" => Some(-4)
    case "Village" => Some(-3)
    case _ => None
  }

  /** Civilian_Presence_Map. */
  function CivilianPresenceMap(v: string): Option<int> {
    match v
    case "1-10" => Some(-1)
    case "11-29" => Some(-2)
    case "0" => Some(0)
    case "100-200" => Some(-5)
    case "30-49" => Some(-3)
    case "50-99" => Some(-4)
    case _ => None
  }

  /** Damage_Assessment_Map. */
  function DamageAssessmentMap(v: string): Option<int> {
    match v
    case "High" => Some(2)
    case "Low" => Some(1)
    case "Medium" => Some(2)
    case "Very_High" => Some(3)
    case "Very_Low" => Some(-1)
    case _ => None
  }

  /** Time_Sensitivity_Map. */
  function TimeSensitivityMap(v: string): Option<int> {
    match v
    case "High" => Some(3)
    case "Immediate" => Some(5)
    case "Normal" => Some(1)
    case _ => None
  }

  /** Weaponeering_Map. */
  function WeaponeeringMap(v: string): Option<int> {
    match v
    case "120mm Mortar" => Some(3)
    case "155mm Artillery" => Some(4)
    case "Air-to-Surface Missile" => Some(5)
    case "Anti-Personnel Mine" => Some(1)
    case "Cluster Munition" => Some(2)
    case "Cyber Weapon" => Some(5)
    case "Incendiary Weapon" => Some(1)
    case "Killer Drone" => Some(1)
    case "Laser-Guided Rocket" => Some(5)
    case "Lethal Autonomous Weapons System" => Some(1)
    case "Precision Strike Missile" => Some(5)
    case "SOF Unit" => Some(5)
    case "Sniper" => Some(5)
    case "Surface-to-Air Missile" => Some(5)
    case "Thermobaric Munition" => Some(1)
    case "Torpedo" => Some(4)
    case "Unguided Bomb" => Some(1)
    case "White Phosphorus Bomb" => Some(1)
    case _ => None
  }

  /** Friendly_Fire_Map. */
  function FriendlyFireMap(v: string): Option<int> {
    match v
    case "High" => Some(-1)
    case "Medium" => Some(1)
    case "Low" => Some(2)
    case "Very_High" => Some(-2)
    case "Very_Low" => Some(3)
    case _ => None
  }

  /** Politically_Sensitive_Map. */
  function PoliticallySensitiveMap(v: string): Option<int> {
    match v
    case "High" => Some(1)
    case "Medium" => Some(1)
    case "Low" => Some(1)
    case "Very_High" => Some(-1)
    case "Very_Low" => Some(2)
    case _ => None
  }

  /** Legal_Advice_Map. */
  function LegalAdviceMap(v: string): Option<int> {
    match v
    case "It depends" => Some(1)
    case "Lawful" => Some(3)
    case "Legitimate" => Some(2)
    case "Neutral" => Some(2)
    case "Questionable" => Some(1)
    case _ => None
  }

  /** Ethical_Concerns_Map. */
  function EthicalConcernsMap(v: string): Option<int> {
    match v
    case "Hypothetical" => Some(1)
    case "Immoral" => Some(-2)
    case "It depends" => Some(1)
    case "No" => Some(3)
    case "Plausible" => Some(1)
    case "Potential" => Some(1)
    case "Realizable" => Some(1)
    case "Theoretical" => Some(1)
    case "Unlikely" => Some(2)
    case "Yes" => Some(-2)
    case _ => None
  }

  /** Collateral_Damage_Potential_Map. */
  function CollateralDamagePotentialMap(v: string): Option<int> {
    match v
    case "High" => Some(-2)
    case "Medium" => Some(1)
    case "Low" => Some(1)
    case "Very_High" => Some(-3)
    case "Very_Low" => Some(2)
    case _ => None
  }

  /** AI_Distinction_Map. */
  function AiDistinctionMap(v: string): Option<int> {
    match v
    case "1" => Some(-5)
    case "2" => Some(-5)
    case "3" => Some(-5)
    case "4" => Some(-5)
    case "5" => Some(-5)
    case "6" => Some(-5)
    case "7" => Some(-5)
    case "8" => Some(-5)
    case "9" => Some(-5)
    case "10" => Some(-5)
    case "11" => Some(-4)
    case "12" => Some(-4)
    case "13" => Some(-4)
    case "14" => Some(-4)
    case "15" => Some(-4)
    case "16" => Some(-4)
    case "17" => Some(-4)
    case "18" => Some(-4)
    case "19" => Some(-4)
    case "20" => Some(-4)
    case "21" => Some(-3)
    case "22" => Some(-3)
    case "23" => Some(-3)
    case "24" => Some(-3)
    case "25" => Some(-3)
    case "26" => Some(-3)
    case "27" => Some(-3)
    case "28" => Some(-3)
    case "29" => Some(-3)
    case "30" => Some(-3)
    case "31" => Some(-2)
    case "32" => Some(-2)
    case "33" => Some(-2)
    case "34" => Some(-2)
    case "35" => Some(-2)
    case "36" => Some(-2)
    case "37" => Some(-2)
    case "38" => Some(-2)
    case "39" => Some(-2)
    case "40" => Some(-2)
    case "41" => Some(-1)
    case "42" => Some(-1)
    case "43" => Some(-1)
    case "44" => Some(-1)
    case "45" => Some(-1)
    case "46" => Some(-1)
    case "47" => Some(-1)
    case "48" => Some(-1)
    case "49" => Some(-1)
    case "50" => Some(-1)
    case "51" => Some(1)
    case "52" => Some(1)
    case "53" => Some(1)
    case "54" => Some(1)
    case "55" => Some(1)
    case "56" => Some(1)
    case "57" => Some(1)
    case "58" => Some(1)
    case "59" => Some(1)
    case "60" => Some(1)
    case "61" => Some(2)
    case "62" => Some(2)
    case "63" => Some(2)
    case "64" => Some(2)
    case "65" => Some(2)
    case "66" => Some(2)
    case "67" => Some(2)
    case "68" => Some(2)
    case "69" => Some(2)
    case "70" => Some(2)
    case "71" => Some(3)
    case "72" => Some(3)
    case "73" => Some(3)
    case "74" => Some(3)
    case "75" => Some(3)
    case "76" => Some(3)
    case "77" => Some(3)
    case "78" => Some(3)
    case "79" => Some(3)
    case "80" => Some(3)
    case "81" => Some(4)
    case "82" => Some(4)
    case "83" => Some(4)
    case "84" => Some(4)
    case "85" => Some(4)
    case "86" => Some(4)
    case "87" => Some(4)
    case "88" => Some(4)
    case "89" => Some(4)
    case "90" => Some(4)
    case "91" => Some(5)
    case "92" => Some(5)
    case "93" => Some(5)
    case "94" => Some(5)
    case "95" => Some(5)
    case "96" => Some(5)
    case "97" => Some(5)
    case "98" => Some(5)
    case "99" => Some(5)
    case "100" => Some(5)
    case _ => None
  }

  /** AI_Proportionality_Map. */
  function AiProportionalityMap(v: string): Option<int> {
    match v
    case "1" => Some(-5)
    case "2" => Some(-5)
    case "3" => Some(-5)
    case "4" => Some(-5)
    case "5" => Some(-5)
    case "6" => Some(-5)
    case "7" => Some(-5)
    case "8" => Some(-5)
    case "9" => Some(-5)
    case "10" => Some(-5)
    case "11" => Some(-4)
    case "12" => Some(-4)
    case "13" => Some(-4)
    case "14" => Some(-4)
    case "15" => Some(-4)
    case "16" => Some(-4)
    case "17" => Some(-4)
    case "18" => Some(-4)
    case "19" => Some(-4)
    case "20" => Some(-4)
    case "21" => Some(-3)
    case "22" => Some(-3)
    case "23" => Some(-3)
    case "24" => Some(-3)
    case "25" => Some(-3)
    case "26" => Some(-3)
    case "27" => Some(-3)
    case "28" => Some(-3)
    case "29" => Some(-3)
    case "30" => Some(-3)
    case "31" => Some(-2)
    case "32" => Some(-2)
    case "33" => Some(-2)
    case "34" => Some(-2)
    case "35" => Some(-2)
    case "36" => Some(-2)
    case "37" => Some(-2)
    case "38" => Some(-2)
    case "39" => Some(-2)
    case "40" => Some(-2)
    case "41" => Some(-1)
    case "42" => Some(-1)
    case "43" => Some(-1)
    case "44" => Some(-1)
    case "45" => Some(-1)
    case "46" => Some(-1)
    case "47" => Some(-1)
    case "48" => Some(-1)
    case "49" => Some(-1)
    case "50" => Some(-1)
    case "51" => Some(1)
    case "52" => Some(1)
    case "53" => Some(1)
    case "54" => Some(1)
    case "55" => Some(1)
    case "56" => Some(1)
    case "57" => Some(1)
    case "58" => Some(1)
    case "59" => Some(1)
    case "60" => Some(1)
    case "61" => Some(2)
    case "62" => Some(2)
    case "63" => Some(2)
    case "64" => Some(2)
    case "65" => Some(2)
    case "66" => Some(2)
    case "67" => Some(2)
    case "68" => Some(2)
    case "69" => Some(2)
    case "70" => Some(2)
    case "71" => Some(3)
    case "72" => Some(3)
    case "73" => Some(3)
    case "74" => Some(3)
    case "75" => Some(3)
    case "76" => Some(3)
    case "77" => Some(3)
    case "78" => Some(3)
    case "79" => Some(3)
    case "80" => Some(3)
    case "81" => Some(4)
    case "82" => Some(4)
    case "83" => Some(4)
    case "84" => Some(4)
    case "85" => Some(4)
    case "86" => Some(4)
    case "87" => Some(4)
    case "88" => Some(4)
    case "89" => Some(4)
    case "90" => Some(4)
    case "91" => Some(5)
    case "92" => Some(5)
    case "93" => Some(5)
    case "94" => Some(5)
    case "95" => Some(5)
    case "96" => Some(5)
    case "97" => Some(5)
    case "98" => Some(5)
    case "99" => Some(5)
    case "100" => Some(5)
    case _ => None
  }

  /** AI_Military_Necessity_Map. */
  function AiMilitaryNecessityMap(v: string): Option<int> {
    match v
    case "Open to Debate" => Some(1)
    case "Yes" => Some(2)
    case _ => None
  }

  /** Human_Distinction_Map. */
  function HumanDistinctionMap(v: string): Option<int> {
    match v
    case "30" => Some(-5)
    case "50" => Some(-4)
    case "65" => Some(-3)
    case "70" => Some(1)
    case "75" => Some(2)
    case "80" => Some(3)
    case "90" => Some(4)
    case "100" => Some(5)
    case _ => None
  }

  /** Human_Proportionality_Map. */
  function HumanProportionalityMap(v: string): Option<int> {
    match v
    case "30" => Some(-5)
    case "50" => Some(-4)
    case "65" => Some(-3)
    case "70" => Some(1)
    case "75" => Some(2)
    case "80" => Some(3)
    case "90" => Some(4)
    case "100" => Some(5)
    case _ => None
  }

  /** Human_Military_Necessity_Map. */
  function HumanMilitaryNecessityMap(v: string): Option<int> {
    match v
    case "Open to Debate" => Some(2)
    case "Yes" => Some(3)
    case _ => None
  }

  /** The table of an attribute. */
  function Table(a: Attribute, v: string): Option<int> {
    match a
    case TargetCategory => TargetCategoryMap(v)
    case TargetVulnerability => TargetVulnerabilityMap(v)
    case TerrainType => TerrainTypeMap(v)
    case CivilianPresence => CivilianPresenceMap(v)
    case DamageAssessment => DamageAssessmentMap(v)
    case TimeSensitivity => TimeSensitivityMap(v)
    case Weaponeering => WeaponeeringMap(v)
    case FriendlyFire => FriendlyFireMap(v)
    case PoliticallySensitive => PoliticallySensitiveMap(v)
    case LegalAdvice => LegalAdviceMap(v)
    case EthicalConcerns => EthicalConcernsMap(v)
    case CollateralDamagePotential => CollateralDamagePotentialMap(v)
    case AiDistinction => AiDistinctionMap(v)
    case AiProportionality => AiProportionalityMap(v)
    case AiMilitaryNecessity => AiMilitaryNecessityMap(v)
    case HumanDistinction => HumanDistinctionMap(v)
    case HumanProportionality => HumanProportionalityMap(v)
    case HumanMilitaryNecessity => HumanMilitaryNecessityMap(v)
  }

  /** The smallest score in the attribute's table. */
  function MinScore(a: Attribute): int {
    match a
    case TargetCategory => -5
    case TargetVulnerability => 1
    case TerrainType => -5
    case CivilianPresence => -5
    case DamageAssessment => -1
    case TimeSensitivity => 1
    case Weaponeering => 1
    case FriendlyFire => -2
    case PoliticallySensitive => -1
    case LegalAdvice => 1
    case EthicalConcerns => -2
    case CollateralDamagePotential => -3
    case AiDistinction => -5
    case AiProportionality => -5
    case AiMilitaryNecessity => 1
    case HumanDistinction => -5
    case HumanProportionality => -5
    case HumanMilitaryNecessity => 2
  }

  /** The largest score in the attribute's table. */
  function MaxScore(a: Attribute): int {
    match a
    case TargetCategory => 5
    case TargetVulnerability => 5
    case TerrainType => 5
    case CivilianPresence => 0
    case DamageAssessment => 3
    case TimeSensitivity => 5
    case Weaponeering => 5
    case FriendlyFire => 3
    case PoliticallySensitive => 2
    case LegalAdvice => 3
    case EthicalConcerns => 3
    case CollateralDamagePotential => 2
    case AiDistinction => 5
    case AiProportionality => 5
    case AiMilitaryNecessity => 2
    case HumanDistinction => 5
    case HumanProportionality => 5
    case HumanMilitaryNecessity => 3
  }

  /** A raw value at which the table takes its smallest score. */
  function MinWitness(a: Attribute): (v: string)
    ensures Table(a, v) == Some(MinScore(a))
  {
    match a
    case TargetCategory => "Medical Installation"
    case TargetVulnerability => "Very_Low"
    case TerrainType => "Dam and Reservoir"
    case CivilianPresence => "100-200"
    case DamageAssessment => "Very_Low"
    case TimeSensitivity => "Normal"
    case Weaponeering => "Anti-Personnel Mine"
    case FriendlyFire => "Very_High"
    case PoliticallySensitive => "Very_High"
    case LegalAdvice => "It depends"
    case EthicalConcerns => "Immoral"
    case CollateralDamagePotential => "Very_High"
    case AiDistinction => "1"
    case AiProportionality => "1"
    case AiMilitaryNecessity => "Open to Debate"
    case HumanDistinction => "30"
    case HumanProportionality => "30"
    case HumanMilitaryNecessity => "Open to Debate"
  }

  /** A raw value at which the table takes its largest score. */
  function MaxWitness(a: Attribute): (v: string)
    ensures Table(a, v) == Some(MaxScore(a))
  {
    match a
    case TargetCategory => "High-Value Target"
    case TargetVulnerability => "Very_High"
    case TerrainType => "Forested Terrain"
    case CivilianPresence => "0"
    case DamageAssessment => "Very_High"
    case TimeSensitivity => "Immediate"
    case Weaponeering => "Air-to-Surface Missile"
    case FriendlyFire => "Very_Low"
    case PoliticallySensitive => "Very_Low"
    case LegalAdvice => "Lawful"
    case EthicalConcerns => "No"
    case CollateralDamagePotential => "Very_Low"
    case AiDistinction => "91"
    case AiProportionality => "91"
    case AiMilitaryNecessity => "Yes"
    case HumanDistinction => "100"
    case HumanProportionality => "100"
    case HumanMilitaryNecessity => "Yes"
  }

  // ---------------------------------------------------------------------
  // Properties of the tables
  // ---------------------------------------------------------------------

  /** Every score of a table lies between the table's extremes. */
  lemma TableBounds(a: Attribute, v: string)
    ensures Table(a, v).Some? ==> MinScore(a) <= Table(a, v).value <= MaxScore(a)
  {
    match a
    case TargetCategory => TargetCategoryBounds(v);
    case TerrainType => TerrainTypeBounds(v);
    case Weaponeering => WeaponeeringBounds(v);
    case _ =>
  }

  lemma TargetCategoryBounds(v: string)
    ensures Table(TargetCategory, v).Some? ==> -5 <= Table(TargetCategory, v).value <= 5
  {
  }

  lemma TerrainTypeBounds(v: string)
    ensures Table(TerrainType, v).Some? ==> -5 <= Table(TerrainType, v).value <= 5
  {
  }

  lemma WeaponeeringBounds(v: string)
    ensures Table(Weaponeering, v).Some? ==> 1 <= Table(Weaponeering, v).value <= 5
  {
  }

  /** Every score in every table lies in [-5, 5]. */
  lemma ScoresWithinFive(a: Attribute, v: string)
    ensures Table(a, v).Some? ==> -5 <= Table(a, v).value <= 5
  {
    TableBounds(a, v);
  }

  /** The protected target categories all score negatively. */
  lemma ProtectedCategoriesScoreNegatively(c: string)
    requires c in ["Chapel", "Medical Installation", "Medical Vehicle"]
    ensures TargetCategoryMap(c).Some? && TargetCategoryMap(c).value < 0
  {
  }

  // --- AI percentage tables ----------------------------------------------

  /** The score band of an AI percentage n in 1..100: -5 for 1-10, -4 for
      11-20, ..., -1 for 41-50, then 1 for 51-60, ..., 5 for 91-100. */
  function AiBand(n: int): (b: int)
    requires 1 <= n <= 100
    ensures -5 <= b <= 5 && b != 0
    ensures b < 0 <==> n <= 50
  {
    if n <= 50 then (n - 1) / 10 - 5 else (n - 1) / 10 - 4
  }

  /** A higher percentage never falls in a lower band. */
  lemma AiBandMonotone(n: int, m: int)
    requires 1 <= n <= m <= 100
    ensures AiBand(n) <= AiBand(m)
  {
  }

  /** `str(n)` for n in 1..100, spelled out digit by digit. */
  function PercentKey(n: int): string
    requires 1 <= n <= 100
  {
    if n < 10 then [PyText.DigitChar(n)]
    else if n < 100 then [PyText.DigitChar(n / 10), PyText.DigitChar(n % 10)]
    else "100"
  }

  /** The shape of `str(n)` for n in 1..100, character by character. */
  predicate IsPercentKey(k: string) {
    || (|k| == 1 && '1' <= k[0] <= '9')
    || (|k| == 2 && '1' <= k[0] <= '9' && PyText.IsDigit(k[1]))
    || k == "100"
  }

  /** The number a percentage key denotes. */
  function PercentValue(k: string): int
    requires IsPercentKey(k)
  {
    if |k| == 1 then PyText.DigitValue(k[0])
    else if |k| == 2 then 10 * PyText.DigitValue(k[0]) + PyText.DigitValue(k[1])
    else 100
  }

  lemma PercentKeyIsDecimal(n: int)
    requires 1 <= n <= 100
    ensures PercentKey(n) == PyText.NatToString(n)
  {
    if 10 <= n < 100 {
      assert PyText.NatToString(n / 10) == [PyText.DigitChar(n / 10)];
    } else if n == 100 {
      assert PyText.NatToString(10) == "10";
    }
  }

  lemma PercentValueIsDecimal(k: string)
    requires IsPercentKey(k)
    ensures PyText.IsCanonical(k) && PyText.DecimalValue(k) == PercentValue(k)
    ensures 1 <= PercentValue(k) <= 100 && PercentKey(PercentValue(k)) == k
  {
    if |k| == 2 {
      assert k[..1] == [k[0]];
    } else if |k| == 3 {
      assert k[..2] == "10" && k[..1] == "1";
    }
  }

  /** A canonical decimal string for 1..100 has the shape of a percentage key. */
  lemma CanonicalPercentIsPercentKey(k: string)
    requires PyText.IsCanonical(k) && 1 <= PyText.DecimalValue(k) <= 100
    ensures IsPercentKey(k)
  {
    var n := PyText.DecimalValue(k);
    PyText.NatToStringOfDecimalValue(k);
    PercentKeyIsDecimal(n);
    assert k == PercentKey(n);
  }

  // --- Civilian presence -------------------------------------------------

  /** The number a civilian-presence value stands for, as both copies of
      the override rules compute it: `int(v.split('-')[0])` when `v`
      contains '-', else `int(v)`; None when `int` raises ValueError. */
  function RangeLowerBound(v: string): Option<int> {
    if '-' in v then PyText.ParseInt(PyText.BeforeFirst(v, '-'))
    else PyText.ParseInt(v)
  }

  /** The six keys of Civilian_Presence_Map, in the source's order. */
  const CivilianPresenceKeys: seq<string> := ["1-10", "11-29", "0", "100-200", "30-49", "50-99"]

  lemma CivilianPresenceDomain(v: string)
    ensures CivilianPresenceMap(v).Some? <==> v in CivilianPresenceKeys
    ensures |CivilianPresenceKeys| == 6
    ensures forall i, j :: 0 <= i < j < 6 ==> CivilianPresenceKeys[i] != CivilianPresenceKeys[j]
  {
  }

  /** The lower bound of a range "p-q" whose first part is a percentage key. */
  lemma RangeLowerBoundOfRange(p: string, q: string)
    requires IsPercentKey(p)
    ensures RangeLowerBound(p + "-" + q) == Some(PercentValue(p))
  {
    PercentValueIsDecimal(p);
    assert '-' !in p;
    PyText.BeforeFirstOfSplit(p, '-', q);
    assert p + "-" + q == p + ['-'] + q;
    PyText.ParseIntOfDigits(p);
  }

  // One lemma per range key: each computes `int(key.split('-')[0])` on its
  // own, which keeps the string reasoning for the keys apart.
  lemma LowerBoundOf0()
    ensures RangeLowerBound("0") == Some(0)
  {
    assert '-' !in "0";
    PyText.ParseIntOfDigits("0");
  }

  lemma LowerBoundOf1To10()
    ensures RangeLowerBound("1-10") == Some(1)
  {
    RangeLowerBoundOfRange("1", "10");
    assert "1" + "-" + "10" == "1-10";
  }

  lemma LowerBoundOf11To29()
    ensures RangeLowerBound("11-29") == Some(11)
  {
    RangeLowerBoundOfRange("11", "29");
    assert "11" + "-" + "29" == "11-29";
  }

  lemma LowerBoundOf30To49()
    ensures RangeLowerBound("30-49") == Some(30)
  {
    RangeLowerBoundOfRange("30", "49");
    assert "30" + "-" + "49" == "30-49";
  }

  lemma LowerBoundOf50To99()
    ensures RangeLowerBound("50-99") == Some(50)
  {
    RangeLowerBoundOfRange("50", "99");
    assert "50" + "-" + "99" == "50-99";
  }

  lemma LowerBoundOf100To200()
    ensures RangeLowerBound("100-200") == Some(100)
  {
    RangeLowerBoundOfRange("100", "200");
    assert "100" + "-" + "200" == "100-200";
  }

  /** The lower bound of the range that Civilian_Presence_Map scores as
      `score`, for the six scores the table uses. */
  function CivilianLowerBoundForScore(score: int): (lo: nat)
    requires -5 <= score <= 0
    ensures score == 0 <==> lo == 0
  {
    if score == 0 then 0
    else if score == -1 then 1
    else if score == -2 then 11
    else if score == -3 then 30
    else if score == -4 then 50
    else 100
  }

  /** Every Civilian_Presence_Map key is a range whose lower bound
      determines its score: 0, 1, 11, 30, 50 and 100 score 0 down to -5. */
  lemma CivilianPresenceByLowerBound(u: string)
    requires CivilianPresenceMap(u).Some?
    ensures -5 <= CivilianPresenceMap(u).value <= 0
    ensures RangeLowerBound(u) == Some(CivilianLowerBoundForScore(CivilianPresenceMap(u).value))
  {
    if u == "0" || u == "1-10" || u == "11-29" {
      CivilianPresenceLowRanges(u);
    } else if u == "30-49" || u == "50-99" {
      CivilianPresenceMiddleRanges(u);
    } else {
      assert u == "100-200";
      CivilianPresenceTopRange(u);
    }
  }

  lemma CivilianPresenceLowRanges(u: string)
    requires u == "0" || u == "1-10" || u == "11-29"
    ensures CivilianPresenceMap(u).Some? && -5 <= CivilianPresenceMap(u).value <= 0
    ensures RangeLowerBound(u) == Some(CivilianLowerBoundForScore(CivilianPresenceMap(u).value))
  {
    if u == "0" { LowerBoundOf0(); }
    else if u == "1-10" { LowerBoundOf1To10(); }
    else { LowerBoundOf11To29(); }
  }

  lemma CivilianPresenceMiddleRanges(u: string)
    requires u == "30-49" || u == "50-99"
    ensures CivilianPresenceMap(u).Some? && -5 <= CivilianPresenceMap(u).value <= 0
    ensures RangeLowerBound(u) == Some(CivilianLowerBoundForScore(CivilianPresenceMap(u).value))
  {
    if u == "30-49" { LowerBoundOf30To49(); }
    else { LowerBoundOf50To99(); }
  }

  lemma CivilianPresenceTopRange(u: string)
    requires u == "100-200"
    ensures CivilianPresenceMap(u) == Some(-5)
    ensures RangeLowerBound(u) == Some(CivilianLowerBoundForScore(-5))
  {
    LowerBoundOf100To200();
  }

  /** Civilian_Presence_Map's score strictly decreases as the lower bound of
      the range grows. */
  lemma CivilianPresenceDecreasing(u: string, v: string)
    requires CivilianPresenceMap(u).Some? && CivilianPresenceMap(v).Some?
    ensures RangeLowerBound(u).Some? && RangeLowerBound(v).Some?
    ensures RangeLowerBound(u).value < RangeLowerBound(v).value
            <==> CivilianPresenceMap(u).value > CivilianPresenceMap(v).value
  {
    CivilianPresenceByLowerBound(u);
    CivilianPresenceByLowerBound(v);
  }

  // --- Human percentage tables -------------------------------------------

  /** The eight keys of Human_Distinction_Map, in the source's order. */
  const HumanPercentKeys: seq<string> := ["30", "50", "65", "70", "75", "80", "90", "100"]

  /** Human_Proportionality_Map equals Human_Distinction_Map entry by entry,
      and both are defined exactly on the eight sampled percentages. */
  lemma HumanMapsIdentical(v: string)
    ensures HumanProportionalityMap(v) == HumanDistinctionMap(v)
    ensures HumanDistinctionMap(v).Some? <==> v in HumanPercentKeys
  {
  }

  /** `int(k)` of a percentage key is the percentage. */
  lemma ParsePercentKey(k: string)
    requires IsPercentKey(k)
    ensures PyText.ParseInt(k) == Some(PercentValue(k))
  {
    PercentValueIsDecimal(k);
    PyText.ParseIntOfDigits(k);
  }

  lemma HumanPercentKeyValues()
    ensures PyText.ParseInt("30") == Some(30) && PyText.ParseInt("50") == Some(50)
    ensures PyText.ParseInt("65") == Some(65) && PyText.ParseInt("70") == Some(70)
    ensures PyText.ParseInt("75") == Some(75) && PyText.ParseInt("80") == Some(80)
    ensures PyText.ParseInt("90") == Some(90) && PyText.ParseInt("100") == Some(100)
  {
    ParsePercentKey("30");
    ParsePercentKey("50");
    ParsePercentKey("65");
    ParsePercentKey("70");
    ParsePercentKey("75");
    ParsePercentKey("80");
    ParsePercentKey("90");
    ParsePercentKey("100");
  }

  /** Human_Distinction_Map's score strictly increases with the percentage. */
  lemma HumanDistinctionIncreasing(u: string, v: string)
    requires HumanDistinctionMap(u).Some? && HumanDistinctionMap(v).Some?
    ensures PyText.ParseInt(u).Some? && PyText.ParseInt(v).Some?
    ensures PyText.ParseInt(u).value < PyText.ParseInt(v).value
            <==> HumanDistinctionMap(u).value < HumanDistinctionMap(v).value
  {
    HumanPercentKeyValues();
  }

  lemma AiDistinctionBand0(n: int)
    requires 1 <= n <= 10
    ensures AiDistinctionMap(PercentKey(n)) == Some(AiBand(n))
  {
  }

  lemma AiDistinctionBand1(n: int)
    requires 11 <= n <= 20
    ensures AiDistinctionMap(PercentKey(n)) == Some(AiBand(n))
  {
  }

  lemma AiDistinctionBand2(n: int)
    requires 21 <= n <= 30
    ensures AiDistinctionMap(PercentKey(n)) == Some(AiBand(n))
  {
  }

  lemma AiDistinctionBand3(n: int)
    requires 31 <= n <= 40
    ensures AiDistinctionMap(PercentKey(n)) == Some(AiBand(n))
  {
  }

  lemma AiDistinctionBand4(n: int)
    requires 41 <= n <= 50
    ensures AiDistinctionMap(PercentKey(n)) == Some(AiBand(n))
  {
  }

  lemma AiDistinctionBand5(n: int)
    requires 51 <= n <= 60
    ensures AiDistinctionMap(PercentKey(n)) == Some(AiBand(n))
  {
  }

  lemma AiDistinctionBand6(n: int)
    requires 61 <= n <= 70
    ensures AiDistinctionMap(PercentKey(n)) == Some(AiBand(n))
  {
  }

  lemma AiDistinctionBand7(n: int)
    requires 71 <= n <= 80
    ensures AiDistinctionMap(PercentKey(n)) == Some(AiBand(n))
  {
  }

  lemma AiDistinctionBand8(n: int)
    requires 81 <= n <= 90
    ensures AiDistinctionMap(PercentKey(n)) == Some(AiBand(n))
  {
  }

  lemma AiDistinctionBand9(n: int)
    requires 91 <= n <= 100
    ensures AiDistinctionMap(PercentKey(n)) == Some(AiBand(n))
  {
  }

  /** AI_Distinction_Map gives `AiBand(n)` at the key `str(n)`, for every n in 1..100. */
  lemma AiDistinctionAt(n: int)
    requires 1 <= n <= 100
    ensures AiDistinctionMap(PyText.NatToString(n)) == Some(AiBand(n))
  {
    PercentKeyIsDecimal(n);
    if n <= 10 { AiDistinctionBand0(n); }
    else if n <= 20 { AiDistinctionBand1(n); }
    else if n <= 30 { AiDistinctionBand2(n); }
    else if n <= 40 { AiDistinctionBand3(n); }
    else if n <= 50 { AiDistinctionBand4(n); }
    else if n <= 60 { AiDistinctionBand5(n); }
    else if n <= 70 { AiDistinctionBand6(n); }
    else if n <= 80 { AiDistinctionBand7(n); }
    else if n <= 90 { AiDistinctionBand8(n); }
    else if n <= 100 { AiDistinctionBand9(n); }
  }

  lemma AiDistinctionKeysArePercentKeys(v: string)
    ensures AiDistinctionMap(v).Some? ==> IsPercentKey(v)
  {
  }

  lemma AiDistinctionValuesAreBands(v: string)
    requires IsPercentKey(v)
    ensures AiDistinctionMap(v).Some? ==> AiDistinctionMap(v).value == AiBand(PercentValue(v))
  {
  }

  /** AI_Distinction_Map is defined exactly on the decimal strings "1".."100"
      and maps each to its band; in particular it never gives 0. */
  lemma AiDistinctionDomain(v: string)
    ensures AiDistinctionMap(v) ==
      if PyText.IsCanonical(v) && 1 <= PyText.DecimalValue(v) <= 100
      then Some(AiBand(PyText.DecimalValue(v))) else None
  {
    AiDistinctionKeysArePercentKeys(v);
    if IsPercentKey(v) {
      PercentValueIsDecimal(v);
      AiDistinctionValuesAreBands(v);
      AiDistinctionAt(PercentValue(v));
      PercentKeyIsDecimal(PercentValue(v));
    } else if PyText.IsCanonical(v) && 1 <= PyText.DecimalValue(v) <= 100 {
      CanonicalPercentIsPercentKey(v);
    }
  }

  /** AI_Proportionality_Map equals AI_Distinction_Map entry by entry. */
  lemma AiProportionalityEqualsDistinction(v: string)
    ensures AiProportionalityMap(v) == AiDistinctionMap(v)
  {
  }
}
