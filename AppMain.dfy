/** app_main.py: the study application's decision logic. Civilian-presence
    normalisation, the score percentages, the threshold decision, the
    classifier's label table, the if-chain copy of the override rules and
    get_final_prediction, which arbitrates between them. */
module AppMain {
  import opened Wrappers
  import opened PyText
  import opened PyDict
  import opened Decisions
  import opened Mappings
  import ModelLogic

  // ---------------------------------------------------------------------
  // convert_civilian_presence
  // ---------------------------------------------------------------------

  /** A range such as "50-99" is kept as it is; any other value is printed
      back as the integer it parses to, or "0" when it does not parse. */
  function ConvertCivilianPresence(value: string): string {
    if '-' in value then value
    else match ParseInt(value)
      case Some(n) => IntToString(n)
      case None => "0"
  }

  /** Without a '-', int() can only read a non-negative number. */
  lemma ParseIntWithoutMinus(s: string)
    requires '-' !in s && ParseInt(s).Some?
    ensures ParseInt(s).value >= 0
  {
    if |s| > 0 {
      assert s[0] in s;
    }
  }

  /** The three cases of convert_civilian_presence, stated by what the
      result means: a range is returned unchanged, a number is returned as
      its canonical decimal string (no sign, no leading zero), anything else
      becomes "0". */
  lemma ConvertCivilianPresenceCases(value: string)
    ensures '-' in value ==> ConvertCivilianPresence(value) == value
    ensures '-' !in value && ParseInt(value).Some? ==>
              '-' !in ConvertCivilianPresence(value)
              && ParseInt(ConvertCivilianPresence(value)) == ParseInt(value)
              && IsCanonical(ConvertCivilianPresence(value))
              && DecimalValue(ConvertCivilianPresence(value)) == ParseInt(value).value
    ensures '-' !in value && ParseInt(value).None? ==> ConvertCivilianPresence(value) == "0"
  {
    if '-' !in value && ParseInt(value).Some? {
      var n := ParseInt(value).value;
      ParseIntWithoutMinus(value);
      ParseIntOfIntToString(n);
      DecimalValueOfNatToString(n);
      assert '-' !in NatToString(n) by {
        forall i | 0 <= i < |NatToString(n)| ensures NatToString(n)[i] != '-' {
          assert IsDigit(NatToString(n)[i]);
        }
      }
    }
  }

  /** Normalising twice is normalising once. */
  lemma ConvertCivilianPresenceIdempotent(value: string)
    ensures ConvertCivilianPresence(ConvertCivilianPresence(value)) == ConvertCivilianPresence(value)
  {
    ConvertCivilianPresenceCases(value);
    if '-' !in value && ParseInt(value).None? {
      ParseIntOfDigits("0");
      assert ParseInt("0") == Some(0);
      assert IntToString(0) == "0";
    }
  }

  /** Every key of Civilian_Presence_Map is left unchanged. */
  lemma ConvertCivilianPresenceKeepsTableKeys(value: string)
    requires CivilianPresenceMap(value).Some?
    ensures ConvertCivilianPresence(value) == value
  {
    CivilianPresenceDomain(value);
    if value == "0" {
      ParseIntOfDigits("0");
      assert IntToString(0) == "0";
    } else {
      if value == "1-10" { assert value[1] == '-'; }
      else if value == "100-200" { assert value[3] == '-'; }
      else { assert value[2] == '-'; }
    }
  }

  // ---------------------------------------------------------------------
  // calculate_percentages
  // ---------------------------------------------------------------------

  /** The entries of a score dictionary other than Total_Score, in order. */
  function WithoutTotal(scores: Dict<int>): (f: Dict<int>)
    ensures forall e :: e in f <==> e in scores && e.0 != ModelLogic.TotalKey
    ensures ModelLogic.TotalKey !in Keys(scores) ==> f == scores
  {
    if scores == [] then []
    else
      var rest := WithoutTotal(scores[1..]);
      assert forall e :: e in scores <==> e == scores[0] || e in scores[1..];
      assert ModelLogic.TotalKey !in Keys(scores) ==> ModelLogic.TotalKey !in Keys(scores[1..]) by {
        if ModelLogic.TotalKey in Keys(scores[1..]) {
          var i :| 0 <= i < |scores[1..]| && Keys(scores[1..])[i] == ModelLogic.TotalKey;
          assert Keys(scores)[i + 1] == ModelLogic.TotalKey;
        }
      }
      assert ModelLogic.TotalKey !in Keys(scores) ==> scores[0].0 != ModelLogic.TotalKey by {
        if ModelLogic.TotalKey !in Keys(scores) {
          assert Keys(scores)[0] == scores[0].0;
        }
      }
      if scores[0].0 == ModelLogic.TotalKey then rest
      else
        assert ModelLogic.TotalKey !in Keys(scores) ==> [scores[0]] + scores[1..] == scores;
        [scores[0]] + rest
  }

  function Abs(v: int): nat {
    if v < 0 then -v else v
  }

  /** `sum(abs(v) for ...)` over the entries. */
  function AbsSum(d: Dict<int>): nat {
    if d == [] then 0 else Abs(d[0].1) + AbsSum(d[1..])
  }

  /** One percentage: the share of |v| in the absolute total, with the sign
      of v (the rounding to two decimals is not modelled). */
  function Percent(v: int, totalAbs: nat): real
    requires totalAbs > 0
  {
    (Abs(v) as real / totalAbs as real) * 100.0 * (if v >= 0 then 1.0 else -1.0)
  }

  /** The percentage of each entry of d against totalAbs, zero throughout
      when totalAbs is 0. */
  function PercentEntries(d: Dict<int>, totalAbs: nat): (p: Dict<real>)
    ensures |p| == |d|
    ensures forall i :: 0 <= i < |d| ==> p[i].0 == d[i].0
    ensures totalAbs == 0 ==> forall i :: 0 <= i < |d| ==> p[i].1 == 0.0
    ensures totalAbs > 0 ==> forall i :: 0 <= i < |d| ==> p[i].1 == Percent(d[i].1, totalAbs)
  {
    if d == [] then []
    else
      [(d[0].0, if totalAbs == 0 then 0.0 else Percent(d[0].1, totalAbs))]
      + PercentEntries(d[1..], totalAbs)
  }

  /** calculate_percentages: every key but Total_Score, in order, with its
      share of the absolute total as a signed percentage. */
  function CalculatePercentages(scores: Dict<int>): Dict<real> {
    var f := WithoutTotal(scores);
    PercentEntries(f, AbsSum(f))
  }

  /** The keys of the percentages are the score keys other than
      Total_Score, and all percentages are 0 when every score is 0. */
  lemma CalculatePercentagesKeys(scores: Dict<int>)
    ensures forall k :: k in Keys(CalculatePercentages(scores)) <==>
              k in Keys(scores) && k != ModelLogic.TotalKey
    ensures AbsSum(WithoutTotal(scores)) == 0 ==>
              forall e :: e in CalculatePercentages(scores) ==> e.1 == 0.0
  {
    forall k ensures k in Keys(CalculatePercentages(scores)) <==> k in Keys(scores) && k != ModelLogic.TotalKey {
      PercentageKey(scores, k);
    }
  }

  lemma PercentageKey(scores: Dict<int>, k: string)
    ensures k in Keys(CalculatePercentages(scores)) <==> k in Keys(scores) && k != ModelLogic.TotalKey
  {
    var f := WithoutTotal(scores);
    var p := CalculatePercentages(scores);
    if k in Keys(p) {
      var i :| 0 <= i < |p| && Keys(p)[i] == k;
      assert f[i] in f;
      var j :| 0 <= j < |scores| && scores[j] == f[i];
      assert Keys(scores)[j] == k;
    }
    if k in Keys(scores) && k != ModelLogic.TotalKey {
      var j :| 0 <= j < |scores| && Keys(scores)[j] == k;
      assert scores[j] in scores;
      var i :| 0 <= i < |f| && f[i] == scores[j];
      assert Keys(p)[i] == k;
    }
  }

  /** Each percentage has the sign of its score. */
  lemma PercentSign(v: int, totalAbs: nat)
    requires totalAbs > 0
    ensures Percent(v, totalAbs) > 0.0 <==> v > 0
    ensures Percent(v, totalAbs) < 0.0 <==> v < 0
    ensures Percent(v, totalAbs) == 0.0 <==> v == 0
  {
    var share := Abs(v) as real / totalAbs as real;
    assert v != 0 ==> share > 0.0;
    assert v == 0 ==> share == 0.0;
  }

  /** The sum of the absolute percentages. */
  function AbsPercentSum(p: Dict<real>): real {
    if p == [] then 0.0
    else (if p[0].1 < 0.0 then -p[0].1 else p[0].1) + AbsPercentSum(p[1..])
  }

  lemma {:induction false} AbsPercentSumOfEntries(d: Dict<int>, totalAbs: nat)
    requires totalAbs > 0
    ensures AbsPercentSum(PercentEntries(d, totalAbs)) == AbsSum(d) as real * 100.0 / totalAbs as real
  {
    if d != [] {
      var p := PercentEntries(d, totalAbs);
      assert p[1..] == PercentEntries(d[1..], totalAbs);
      AbsPercentSumOfEntries(d[1..], totalAbs);
      AbsPercent(d[0].1, totalAbs);
      SharesAdd(Abs(d[0].1), AbsSum(d[1..]), totalAbs as real);
    }
  }

  /** The absolute value of a percentage is the unsigned share. */
  lemma AbsPercent(v: int, totalAbs: nat)
    requires totalAbs > 0
    ensures (if Percent(v, totalAbs) < 0.0 then -Percent(v, totalAbs) else Percent(v, totalAbs))
            == Abs(v) as real * 100.0 / totalAbs as real
  {
    PercentSign(v, totalAbs);
    var share := Abs(v) as real / totalAbs as real;
    assert share * 100.0 == Abs(v) as real * 100.0 / totalAbs as real;
  }

  lemma SharesAdd(a: nat, b: nat, t: real)
    requires t > 0.0
    ensures a as real * 100.0 / t + b as real * 100.0 / t == (a + b) as real * 100.0 / t
  {
    assert (a + b) as real * 100.0 == a as real * 100.0 + b as real * 100.0;
  }

  /** Unless every score is 0, the absolute percentages add up to 100. */
  lemma CalculatePercentagesSumTo100(scores: Dict<int>)
    requires AbsSum(WithoutTotal(scores)) > 0
    ensures AbsPercentSum(CalculatePercentages(scores)) == 100.0
  {
    var f := WithoutTotal(scores);
    AbsPercentSumOfEntries(f, AbsSum(f));
    WholeIsHundredPercent(AbsSum(f) as real);
  }

  lemma WholeIsHundredPercent(t: real)
    requires t > 0.0
    ensures t * 100.0 / t == 100.0
  {
    assert t / t == 1.0;
    assert t * 100.0 / t == (t / t) * 100.0;
  }

  // ---------------------------------------------------------------------
  // assign_final_decision
  // ---------------------------------------------------------------------

  /** The threshold decision on an integer Total_Score; 22.5 is compared
      as 2 * total >= 45. */
  function AssignFinalDecision(total: int): (d: Decision)
    ensures d == Engage <==> total >= 30
    ensures d == AskAuthorization <==> 23 <= total < 30
    ensures d == DoNotKnow <==> 15 <= total < 23
    ensures d == DoNotEngage <==> total < 15
  {
    if total >= 30 then Engage
    else if 2 * total >= 45 then AskAuthorization
    else if total >= 15 then DoNotKnow
    else DoNotEngage
  }

  /** A higher total never gives a more cautious decision. */
  lemma AssignFinalDecisionMonotone(t1: int, t2: int)
    requires t1 <= t2
    ensures Rank(AssignFinalDecision(t1)) <= Rank(AssignFinalDecision(t2))
  {
  }

  // ---------------------------------------------------------------------
  // label_mapping
  // ---------------------------------------------------------------------

  const UnknownLabel: string := "Unknown"

  /** `label_mapping.get(code, "Unknown")`. */
  function LabelMapping(code: int): string {
    if code == 0 then "Do Not Engage"
    else if code == 1 then "Ask Authorization"
    else if code == 2 then "Do Not Know"
    else if code == 3 then "Engage"
    else UnknownLabel
  }

  /** label_mapping lists the same decisions under the same codes as
      predict_scenario's table, and "Unknown" is no decision's label. */
  lemma LabelMappingAgrees(code: int)
    ensures ModelLogic.PredictionDecision(code).Some? ==>
              LabelMapping(code) == Label(ModelLogic.PredictionDecision(code).value)
    ensures ModelLogic.PredictionDecision(code).None? ==> LabelMapping(code) == UnknownLabel
    ensures forall d :: Label(d) != UnknownLabel
  {
  }

  // ---------------------------------------------------------------------
  // apply_override_rules, the if-chain
  // ---------------------------------------------------------------------

  /** The category columns the override rules read. */
  const TargetCategoryKey: string := Name(TargetCategory)
  const TerrainTypeKey: string := Name(TerrainType)
  const EthicalConcernsKey: string := Name(EthicalConcerns)
  const CivilianPresenceKey: string := Name(CivilianPresence)
  const CollateralDamageKey: string := Name(CollateralDamagePotential)
  const FriendlyFireKey: string := Name(FriendlyFire)
  const WeaponeeringKey: string := Name(Weaponeering)
  const LegalAdviceKey: string := Name(LegalAdvice)
  const PoliticallySensitiveKey: string := Name(PoliticallySensitive)

  /** The value lists both copies of the override rules test against. */
  const ProtectedTargets: seq<string> := ["Chapel", "Medical Installation", "Medical Vehicle"]
  const PopulatedTerrains: seq<string> := ["Urban Center", "Residential Area"]
  const PriorityTargets: seq<string> :=
    ["High-Value Target", "Battalion HQ", "Battlegroup HQ", "Brigade HQ", "Division HQ"]
  const SpecialWeapons: seq<string> := ["Incendiary Weapon", "Thermobaric Munition", "White Phosphorus Bomb"]
  const LegalConcerns: seq<string> := ["It depends", "Questionable"]
  const MineUnsuitableTargets: seq<string> := ["Fighter Aircraft", "Frigate", "Ship Maintenance Facility", "Naval Base"]
  const NavalTargets: seq<string> := ["Ship Maintenance Facility", "Naval Base", "Frigate"]

  /** One row of the scenario frame: the category columns, the
      `<Attr>_Score` columns, and Total_Score (None when the column is
      absent or NaN). */
  datatype Row = Row(categories: map<string, string>, scores: Dict<int>, total: Option<int>)

  /** Why the if-chain stopped without a decision. */
  datatype Raised =
    | MissingColumn(key: string)   // KeyError
    | StrComparedWithInt           // TypeError from `cp_value > 50` on an unparsed string

  /** What the if-chain does: a rule fires, no rule fires, or an exception
      propagates to the outer handler. */
  datatype Outcome = Fired(decision: Decision, reason: string) | NoRule | Failed(raised: Raised)

  /** The Total_Score the rules read: the column, or when it is missing the
      sum of the score columns. */
  function RowTotal(row: Row): (t: int)
    ensures row.total.Some? ==> t == row.total.value
    ensures row.total.None? ==> t == Sum(Values(row.scores))
  {
    match row.total
    case Some(t) => t
    case None => Sum(Values(row.scores))
  }

  /** Rules 10 and 11 (Anti-Personnel Mine against aircraft or naval
      targets, Torpedo against a non-naval target), once Weaponeering is
      read. */
  function WeaponRules(tc: string, w: string): (o: Outcome)
    ensures o.Fired? ==> o.decision == DoNotKnow
  {
    if w == "Anti-Personnel Mine" && tc in MineUnsuitableTargets then
      Fired(DoNotKnow, "Inappropriate weapon for target type")
    else if w == "Torpedo" && tc !in NavalTargets then
      Fired(DoNotKnow, "Torpedo inappropriate for non-naval target")
    else NoRule
  }

  /** Rules 8 to 11, from the legal/ethical rule on. cp is the parsed
      civilian presence, None when it did not parse (cp_value is then still
      the string and `cp_value > 50` raises TypeError). */
  function LaterRules(c: map<string, string>, tc: string, tt: string, ec: string, cp: Option<int>): (o: Outcome)
    ensures o.Fired? ==> o.decision != Engage && o.decision != DoNotEngage
    ensures o.Failed? && o.raised.MissingColumn? ==> o.raised.key !in c
  {
    if LegalAdviceKey !in c then Failed(MissingColumn(LegalAdviceKey))
    else if c[LegalAdviceKey] !in LegalConcerns && ec == "Immoral" && cp.None? then
      Failed(StrComparedWithInt)
    else if c[LegalAdviceKey] in LegalConcerns || (ec == "Immoral" && cp.value > 50) then
      Fired(AskAuthorization, "Legal/ethical concerns require authorization")
    else if PoliticallySensitiveKey !in c then Failed(MissingColumn(PoliticallySensitiveKey))
    else if c[PoliticallySensitiveKey] == "High" && tt == "Critical Infrastructure Area" then
      Fired(AskAuthorization, "Sensitive infrastructure engagement")
    else if WeaponeeringKey !in c then Failed(MissingColumn(WeaponeeringKey))
    else WeaponRules(tc, c[WeaponeeringKey])
  }

  /** Rules 7 to 11, from the special-weapons rule on; Weaponeering is read
      here only when civilian presence parsed to more than 30. */
  function SpecialWeaponRules(c: map<string, string>, tc: string, tt: string, ec: string, cp: Option<int>): (o: Outcome)
    ensures o.Fired? ==> o.decision != Engage && o.decision != DoNotEngage
    ensures o.Failed? && o.raised.MissingColumn? ==> o.raised.key !in c
  {
    if cp.Some? && cp.value > 30 && WeaponeeringKey !in c then Failed(MissingColumn(WeaponeeringKey))
    else if cp.Some? && cp.value > 30 && c[WeaponeeringKey] in SpecialWeapons then
      Fired(AskAuthorization, "Special weapons with civilian presence > 30")
    else LaterRules(c, tc, tt, ec, cp)
  }

  /** Rules 4 to 11, from the civilian-presence threshold on. */
  function CivilianRules(c: map<string, string>, tc: string, tt: string, ec: string): (o: Outcome)
    ensures o.Fired? ==> o.decision != Engage
    ensures o.Failed? && o.raised.MissingColumn? ==> o.raised.key !in c
  {
    if CivilianPresenceKey !in c then Failed(MissingColumn(CivilianPresenceKey))
    else
      var cpText := c[CivilianPresenceKey];
      var cp := RangeLowerBound(cpText);
      if cp.Some? && cp.value >= 100 then
        Fired(DoNotEngage, "High civilian presence: " + cpText)
      else if CollateralDamageKey !in c then Failed(MissingColumn(CollateralDamageKey))
      else if c[CollateralDamageKey] == "Very_High" && (StartsWith(cpText, "50") || StartsWith(cpText, "100")) then
        Fired(DoNotEngage, "High collateral damage risk with significant civilian presence")
      else if FriendlyFireKey !in c then Failed(MissingColumn(FriendlyFireKey))
      else if c[FriendlyFireKey] == "Very_High" && c[CollateralDamageKey] == "Very_High" then
        Fired(DoNotEngage, "Multiple high-risk factors present")
      else SpecialWeaponRules(c, tc, tt, ec, cp)
  }

  /** The if-chain of apply_override_rules, up to the exception handlers. */
  function OverrideChain(row: Row): (o: Outcome)
    ensures o.Fired? ==> o.decision != Engage
    ensures o.Failed? && o.raised.MissingColumn? ==> o.raised.key !in row.categories
  {
    var c := row.categories;
    if TargetCategoryKey !in c then Failed(MissingColumn(TargetCategoryKey))
    else
      var tc := c[TargetCategoryKey];
      if tc in ProtectedTargets then
        Fired(DoNotEngage, "Protected Target_Category '" + tc + "'")
      else if TerrainTypeKey !in c then Failed(MissingColumn(TerrainTypeKey))
      else
        var tt := c[TerrainTypeKey];
        if tt in PopulatedTerrains && tc !in PriorityTargets then
          Fired(DoNotEngage, "Non-priority target in " + tt)
        else if EthicalConcernsKey !in c then Failed(MissingColumn(EthicalConcernsKey))
        else
          var ec := c[EthicalConcernsKey];
          if ec == "Immoral" && RowTotal(row) >= 30 then
            Fired(DoNotEngage, "Ethical concerns override high score")
          else CivilianRules(c, tc, tt, ec)
  }

  const NoOverrideReason: string := "No override rules applied"

  /** apply_override_rules: the decision and reason of the first rule that
      fires; no decision, and the same reason, whether no rule fires or a
      column is missing or the comparison raises. */
  function ApplyOverrideRules(row: Row): (r: (Option<Decision>, string))
    ensures r.0.Some? <==> OverrideChain(row).Fired?
    ensures r.0.Some? ==> r == (Some(OverrideChain(row).decision), OverrideChain(row).reason)
    ensures r.0.None? ==> r.1 == NoOverrideReason
    ensures r.0 != Some(Engage)
  {
    match OverrideChain(row)
    case Fired(d, reason) => (Some(d), reason)
    case NoRule => (None, NoOverrideReason)
    case Failed(_) => (None, NoOverrideReason)
  }

  /** A protected target category is never engaged: Do Not Engage, with a
      reason naming the category, whatever the other columns hold. */
  lemma ProtectedTargetNotEngaged(row: Row)
    requires TargetCategoryKey in row.categories
    requires row.categories[TargetCategoryKey] in ProtectedTargets
    ensures ApplyOverrideRules(row) ==
            (Some(DoNotEngage), "Protected Target_Category '" + row.categories[TargetCategoryKey] + "'")
  {
  }

  /** An unparsable civilian presence only skips the rules that compare it
      with a number: a rule before them, or a later rule that needs no
      number, still fires. */
  lemma UnparsableCivilianPresenceSkipsThresholds(row: Row)
    requires CivilianPresenceKey in row.categories
    requires RangeLowerBound(row.categories[CivilianPresenceKey]).None?
    requires forall k :: (k in [TargetCategoryKey, TerrainTypeKey, EthicalConcernsKey, CollateralDamageKey,
                                FriendlyFireKey, LegalAdviceKey]) ==> k in row.categories
    requires row.categories[LegalAdviceKey] in LegalConcerns
    ensures ApplyOverrideRules(row).0.Some?
  {
    var c := row.categories;
    assert TargetCategoryKey in c && TerrainTypeKey in c && EthicalConcernsKey in c;
    assert CollateralDamageKey in c && FriendlyFireKey in c && LegalAdviceKey in c;
  }

  /** With an unparsable civilian presence and no earlier rule firing,
      the legal rule is the one that fires: its first operand needs no
      number. */
  lemma UnparsableCivilianPresenceLegalRuleFires(row: Row)
    requires forall k :: (k in [TargetCategoryKey, TerrainTypeKey, EthicalConcernsKey, CivilianPresenceKey,
                                CollateralDamageKey, FriendlyFireKey, LegalAdviceKey]) ==> k in row.categories
    requires row.categories[TargetCategoryKey] !in ProtectedTargets
    requires row.categories[TerrainTypeKey] !in PopulatedTerrains
    requires row.categories[EthicalConcernsKey] != "Immoral"
    requires RangeLowerBound(row.categories[CivilianPresenceKey]).None?
    requires row.categories[CollateralDamageKey] != "Very_High"
    requires row.categories[LegalAdviceKey] in LegalConcerns
    ensures ApplyOverrideRules(row) == (Some(AskAuthorization), "Legal/ethical concerns require authorization")
  {
    var c := row.categories;
    assert TargetCategoryKey in c && TerrainTypeKey in c && EthicalConcernsKey in c && CivilianPresenceKey in c;
    assert CollateralDamageKey in c && FriendlyFireKey in c && LegalAdviceKey in c;
  }

  /** A KeyError stops the chain: the column it names is missing, and the
      result is no decision with "No override rules applied". */
  lemma MissingColumnGivesNoDecision(row: Row)
    ensures OverrideChain(row).Failed? && OverrideChain(row).raised.MissingColumn? ==>
              OverrideChain(row).raised.key !in row.categories
              && ApplyOverrideRules(row) == (None, NoOverrideReason)
  {
  }

  /** With no Target_Category at all, the first column read, the result is
      always "No override rules applied". */
  lemma MissingTargetCategory(row: Row)
    requires TargetCategoryKey !in row.categories
    ensures OverrideChain(row) == Failed(MissingColumn(TargetCategoryKey))
    ensures ApplyOverrideRules(row) == (None, NoOverrideReason)
  {
  }

  /** As written, an unparsable civilian presence with Immoral ethical
      concerns and legal advice outside the list raises TypeError at the
      `> 50` comparison. That suppresses every later rule: the row gets no
      override even when, say, its weapon is a Torpedo against a non-naval
      target. */
  lemma UnparsableCivilianPresenceSuppressesLaterRules(row: Row)
    requires forall k :: (k in [TargetCategoryKey, TerrainTypeKey, EthicalConcernsKey, CivilianPresenceKey,
                                CollateralDamageKey, FriendlyFireKey, LegalAdviceKey]) ==> k in row.categories
    requires row.categories[TargetCategoryKey] !in ProtectedTargets
    requires row.categories[TerrainTypeKey] !in PopulatedTerrains
    requires row.categories[EthicalConcernsKey] == "Immoral" && RowTotal(row) < 30
    requires RangeLowerBound(row.categories[CivilianPresenceKey]).None?
    requires row.categories[CollateralDamageKey] != "Very_High"
    requires row.categories[LegalAdviceKey] !in LegalConcerns
    ensures OverrideChain(row) == Failed(StrComparedWithInt)
    ensures ApplyOverrideRules(row) == (None, NoOverrideReason)
  {
    var c := row.categories;
    assert TargetCategoryKey in c && TerrainTypeKey in c && EthicalConcernsKey in c && CivilianPresenceKey in c;
    assert CollateralDamageKey in c && FriendlyFireKey in c && LegalAdviceKey in c;
  }

  // ---------------------------------------------------------------------
  // get_final_prediction
  // ---------------------------------------------------------------------

  /** The 18 score columns, in the order of columns_to_shuffle. */
  function ScoreColumns(): (cols: seq<string>)
    ensures |cols| == 18
    ensures forall i :: 0 <= i < 18 ==> cols[i] == ModelLogic.ScoreKey(ModelLogic.Attributes[i])
  {
    ModelLogic.AttributesComplete(TargetCategory);
    seq(18, i requires 0 <= i < 18 => ModelLogic.ScoreKey(ModelLogic.Attributes[i]))
  }

  /** The value of one score column, 0 when it is missing. */
  function ColumnValue(scores: Dict<int>, k: string): int {
    match Get(scores, k)
    case None => 0
    case Some(v) => v
  }

  /** The values of the named columns, in order. */
  function ColumnValues(scores: Dict<int>, cols: seq<string>): seq<int> {
    seq(|cols|, i requires 0 <= i < |cols| => ColumnValue(scores, cols[i]))
  }

  /** `scenario_df[score_columns].sum(axis=1)`: the sum of the named
      columns, None when one of them is missing (KeyError). */
  function SumColumns(scores: Dict<int>, cols: seq<string>): (r: Option<int>)
    ensures r.Some? <==> forall i :: 0 <= i < |cols| ==> cols[i] in Keys(scores)
    ensures r.Some? ==> r.value == Sum(ColumnValues(scores, cols))
  {
    if cols == [] then Some(0)
    else match Get(scores, cols[0])
      case None => None
      case Some(v) =>
        var rest := SumColumns(scores, cols[1..]);
        assert forall i :: 1 <= i < |cols| ==> cols[1..][i - 1] == cols[i];
        assert ColumnValues(scores, cols)[1..] == ColumnValues(scores, cols[1..]);
        if rest.None? then None else Some(v + rest.value)
  }

  /** The classifier's auxiliary label: None when model.predict raises,
      otherwise its code looked up in label_mapping ("Unknown" outside the
      table). */
  function ModelLabel(frame: Row, predict: Row -> Option<int>): (l: Option<string>)
    ensures l.None? <==> predict(frame).None?
    ensures predict(frame).Some? ==> l == Some(LabelMapping(predict(frame).value))
    ensures predict(frame).Some? && !(0 <= predict(frame).value <= 3) ==> l == Some(UnknownLabel)
  {
    match predict(frame)
    case None => None
    case Some(code) => Some(LabelMapping(code))
  }

  datatype FinalPrediction = FinalPrediction(decision: Option<Decision>, reason: string, modelLabel: Option<string>)

  const ErrorInPrediction: string := "Error in prediction: "
  const OverrideApplied: string := "OVERRIDE APPLIED: "

  /** The Total_Score the rules see: the frame's own, or else the sum of the
      18 score columns (None when one of them is missing). */
  function FrameTotal(row: Row): Option<int> {
    if row.total.Some? then row.total else SumColumns(row.scores, ScoreColumns())
  }

  /** get_final_prediction on a one-row frame, with model.predict as the
      parameter predict (None where it raises). A missing Total_Score is
      computed from the 18 score columns and written into the frame that
      the rules and the classifier then see; if one of those columns is
      missing the call fails with no decision and no label (pandas' KeyError
      text after the prefix is not modelled). */
  function GetFinalPrediction(row: Row, predict: Row -> Option<int>): FinalPrediction {
    var total := FrameTotal(row);
    if total.None? then FinalPrediction(None, ErrorInPrediction, None)
    else
      var frame := row.(total := total);
      var over := ApplyOverrideRules(frame);
      var aux := ModelLabel(frame, predict);
      if over.0.Some? then FinalPrediction(over.0, OverrideApplied + over.1, aux)
      else FinalPrediction(Some(AssignFinalDecision(total.value)), "", aux)
  }

  /** Arbitration: with a Total_Score at hand (given, or summed from the 18
      score columns), an override on the completed frame wins with its
      reason prefixed, otherwise the threshold decision on that total with
      an empty reason; the classifier only supplies the label, None when it
      fails and label_mapping of its code otherwise. */
  lemma GetFinalPredictionArbitration(row: Row, predict: Row -> Option<int>)
    ensures row.total.Some? ==> FrameTotal(row) == row.total
    ensures row.total.None? && FrameTotal(row).Some? ==>
              FrameTotal(row).value == Sum(ColumnValues(row.scores, ScoreColumns()))
    ensures FrameTotal(row).Some? ==>
            var t := FrameTotal(row).value;
            var frame := row.(total := Some(t));
            var p := GetFinalPrediction(row, predict);
            var over := ApplyOverrideRules(frame);
            && (over.0.Some? ==> p.decision == over.0 && p.reason == OverrideApplied + over.1)
            && (over.0.None? ==> p.decision == Some(AssignFinalDecision(t)) && p.reason == "")
            && (p.decision == Some(Engage) ==> t >= 30)
            && (p.modelLabel.None? <==> predict(frame).None?)
            && (forall k :: predict(frame) == Some(k) ==> p.modelLabel == Some(LabelMapping(k)))
  {
  }

  /** The decision and reason do not depend on the classifier. */
  lemma GetFinalPredictionIgnoresClassifier(row: Row, p1: Row -> Option<int>, p2: Row -> Option<int>)
    ensures GetFinalPrediction(row, p1).decision == GetFinalPrediction(row, p2).decision
    ensures GetFinalPrediction(row, p1).reason == GetFinalPrediction(row, p2).reason
  {
  }

  /** Engage is only ever the threshold decision: it needs no override and
      a Total_Score (given or summed) of at least 30. */
  lemma GetFinalPredictionEngage(row: Row, predict: Row -> Option<int>)
    ensures var p := GetFinalPrediction(row, predict);
            p.decision == Some(Engage) ==>
              p.reason == "" && FrameTotal(row).Some? && FrameTotal(row).value >= 30
  {
  }

  /** A frame without Total_Score and with a score column missing yields no
      decision and no label. */
  lemma GetFinalPredictionMissingColumn(row: Row, predict: Row -> Option<int>, i: nat)
    requires row.total.None? && i < 18
    requires ScoreColumns()[i] !in Keys(row.scores)
    ensures GetFinalPrediction(row, predict) == FinalPrediction(None, ErrorInPrediction, None)
  {
  }
}
