/** app.py: the rule-list copy of the override rules and the final decision
    of the Predict button. Python builds the whole list of (condition,
    decision, reason) triples before searching it, so every column a
    condition or reason reads is read, in list order, before any rule can
    fire. */
module App {
  import opened Wrappers
  import opened PyText
  import opened PyDict
  import opened Decisions
  import opened Mappings
  import ModelLogic
  import opened AppMain

  /** One (condition, decision, reason) triple. */
  datatype Rule = Rule(holds: bool, decision: Decision, reason: string)

  /** The position of the first rule that holds, |rules| when none does. */
  function FirstHolding(rules: seq<Rule>): (i: nat)
    ensures i <= |rules|
    ensures forall j :: 0 <= j < i ==> !rules[j].holds
    ensures i < |rules| ==> rules[i].holds
  {
    if rules == [] then 0
    else if rules[0].holds then 0
    else
      assert forall j :: 1 <= j < |rules| ==> rules[1..][j - 1] == rules[j];
      1 + FirstHolding(rules[1..])
  }

  /** `for condition, decision, reason in rules: if condition: return`. */
  function FirstMatch(rules: seq<Rule>): (r: Option<(Decision, string)>)
    decreases |rules|
  {
    if rules == [] then None
    else if rules[0].holds then Some((rules[0].decision, rules[0].reason))
    else FirstMatch(rules[1..])
  }

  /** The search returns the decision and reason of the first rule that
      holds, and nothing exactly when no rule holds. */
  lemma {:induction false} FirstMatchIsFirstHolding(rules: seq<Rule>)
    ensures FirstMatch(rules).Some? <==> FirstHolding(rules) < |rules|
    ensures FirstMatch(rules).Some? ==>
              FirstMatch(rules).value == (rules[FirstHolding(rules)].decision, rules[FirstHolding(rules)].reason)
  {
    if rules != [] && !rules[0].holds {
      FirstMatchIsFirstHolding(rules[1..]);
      if FirstHolding(rules[1..]) < |rules[1..]| {
        assert rules[1..][FirstHolding(rules[1..])] == rules[1 + FirstHolding(rules[1..])];
      }
    }
  }

  /** `numeric_data.get('Total_Score', sum(numeric_data.values()))`. */
  function OverrideTotal(numericData: Dict<int>): (t: int)
    ensures ModelLogic.TotalKey in Keys(numericData) ==> Get(numericData, ModelLogic.TotalKey) == Some(t)
    ensures ModelLogic.TotalKey !in Keys(numericData) ==> t == Sum(Values(numericData))
  {
    match Get(numericData, ModelLogic.TotalKey)
    case Some(t) => t
    case None => Sum(Values(numericData))
  }

  /** The columns the rule list reads after Civilian_Presence, in order:
      Weaponeering is read by rule 7 only when the civilian number exceeds
      30, and by rules 10 and 11 in any case. */
  function RuleKeys(cp: int): (ks: seq<string>)
    ensures forall k :: k in ks <==>
              k in [TargetCategoryKey, TerrainTypeKey, EthicalConcernsKey, CollateralDamageKey,
                    FriendlyFireKey, WeaponeeringKey, LegalAdviceKey, PoliticallySensitiveKey]
    ensures |ks| == (if cp > 30 then 9 else 8)
    ensures ks[..5] == [TargetCategoryKey, TerrainTypeKey, EthicalConcernsKey, CollateralDamageKey, FriendlyFireKey]
    ensures cp > 30 ==> ks[5] == WeaponeeringKey
    ensures ks[|ks| - 3..] == [LegalAdviceKey, PoliticallySensitiveKey, WeaponeeringKey]
  {
    [TargetCategoryKey, TerrainTypeKey, EthicalConcernsKey, CollateralDamageKey, FriendlyFireKey]
    + (if cp > 30 then [WeaponeeringKey] else [])
    + [LegalAdviceKey, PoliticallySensitiveKey, WeaponeeringKey]
  }

  /** The first of keys missing from the categories, if any. */
  function FirstMissing(c: map<string, string>, keys: seq<string>): (r: Option<string>)
    ensures r.None? <==> forall k :: k in keys ==> k in c
    ensures r.Some? ==> r.value in keys && r.value !in c
    ensures r.Some? ==> exists i :: 0 <= i < |keys| && keys[i] == r.value && forall j :: 0 <= j < i ==> keys[j] in c
  {
    if keys == [] then None
    else if keys[0] !in c then Some(keys[0])
    else FirstMissing(c, keys[1..])
  }

  lemma RuleKeysPresent(c: map<string, string>, cp: int)
    requires forall k :: k in RuleKeys(cp) ==> k in c
    ensures HasRuleColumns(c)
  {
    var ks := RuleKeys(cp);
    assert ks[0] == TargetCategoryKey && ks[1] == TerrainTypeKey && ks[2] == EthicalConcernsKey;
    assert ks[3] == CollateralDamageKey && ks[4] == FriendlyFireKey;
    assert ks[|ks| - 3] == LegalAdviceKey && ks[|ks| - 2] == PoliticallySensitiveKey && ks[|ks| - 1] == WeaponeeringKey;
  }

  /** Every column the rule list reads is present. */
  predicate HasRuleColumns(c: map<string, string>) {
    && TargetCategoryKey in c && TerrainTypeKey in c && EthicalConcernsKey in c
    && CollateralDamageKey in c && FriendlyFireKey in c && WeaponeeringKey in c
    && LegalAdviceKey in c && PoliticallySensitiveKey in c
  }

  /** Rules 1 to 6, the Do Not Engage rules. */
  function EngagementRules(c: map<string, string>, total: int, cpText: string, cp: int): (rules: seq<Rule>)
    requires HasRuleColumns(c)
    ensures |rules| == 6
    ensures forall i :: 0 <= i < 6 ==> rules[i].decision == DoNotEngage
  {
    var tc, tt, cdp := c[TargetCategoryKey], c[TerrainTypeKey], c[CollateralDamageKey];
    [ Rule(tc in ProtectedTargets, DoNotEngage, "Protected Target_Category '" + tc + "'"),
      Rule(tt in PopulatedTerrains && tc !in PriorityTargets, DoNotEngage, "Non-priority target in " + tt),
      Rule(c[EthicalConcernsKey] == "Immoral" && total >= 30, DoNotEngage, "Ethical concerns override high score"),
      Rule(cp >= 100, DoNotEngage, "High civilian presence: " + cpText),
      Rule(cdp == "Very_High" && cp >= 50, DoNotEngage,
           "High collateral damage risk with significant civilian presence"),
      Rule(c[FriendlyFireKey] == "Very_High" && cdp == "Very_High", DoNotEngage, "Multiple high-risk factors present")
    ]
  }

  /** Rules 7 to 11: three Ask Authorization rules, then the two weapon
      rules, Torpedo last, both Do Not Know. */
  function AuthorizationRules(c: map<string, string>, cp: int): (rules: seq<Rule>)
    requires HasRuleColumns(c)
    ensures |rules| == 5
    ensures forall i :: 0 <= i < 3 ==> rules[i].decision == AskAuthorization
    ensures rules[3].decision == DoNotKnow && rules[4].decision == DoNotKnow
  {
    var tc, w := c[TargetCategoryKey], c[WeaponeeringKey];
    [ Rule(cp > 30 && w in SpecialWeapons, AskAuthorization, "Special weapons with civilian presence > 30"),
      Rule(c[LegalAdviceKey] in LegalConcerns || (c[EthicalConcernsKey] == "Immoral" && cp > 50), AskAuthorization,
           "Legal/ethical concerns require authorization"),
      Rule(c[PoliticallySensitiveKey] == "High" && c[TerrainTypeKey] == "Critical Infrastructure Area", AskAuthorization,
           "Sensitive infrastructure engagement"),
      Rule(w == "Anti-Personnel Mine" && tc in MineUnsuitableTargets, DoNotKnow,
           "Inappropriate weapon for target type"),
      Rule(w == "Torpedo" && tc !in NavalTargets, DoNotKnow, "Torpedo inappropriate for non-naval target")
    ]
  }

  /** The eleven triples of the rule list, in order; cpText is the
      Civilian_Presence column and cp its number. No rule decides Engage. */
  function Rules(c: map<string, string>, total: int, cpText: string, cp: int): (rules: seq<Rule>)
    requires HasRuleColumns(c)
    ensures |rules| == 11
    ensures forall i :: 0 <= i < 11 ==> rules[i].decision != Engage
  {
    EngagementRules(c, total, cpText, cp) + AuthorizationRules(c, cp)
  }

  const ErrorApplying: string := "Error applying override rules: "
  const NoRuleApplied: string := "No override rules applied."

  /** Python's repr of a string, for one without quotes or escapes. */
  function Quoted(s: string): string {
    "'" + s + "'"
  }

  /** The text `int()` raises for a string it cannot read. */
  function ValueErrorText(s: string): string {
    "invalid literal for int() with base 10: " + Quoted(s)
  }

  /** The part of Civilian_Presence that int() is given. */
  function CivilianDigits(v: string): (d: string)
    ensures RangeLowerBound(v) == ParseInt(d)
  {
    if '-' in v then BeforeFirst(v, '-') else v
  }

  /** apply_override_rules of app.py. A missing column or an unparsable
      civilian presence ends in (None, "Error applying override rules: "
      followed by the exception's text); otherwise the first rule that holds
      decides, and no rule gives (None, "No override rules applied."). */
  function ApplyOverrideRules(categories: map<string, string>, numericData: Dict<int>): (r: (Option<Decision>, string))
    ensures r.0 != Some(Engage)
  {
    var total := OverrideTotal(numericData);
    if CivilianPresenceKey !in categories then (None, ErrorApplying + Quoted(CivilianPresenceKey))
    else
      var cpText := categories[CivilianPresenceKey];
      match ParseInt(CivilianDigits(cpText))
      case None => (None, ErrorApplying + ValueErrorText(CivilianDigits(cpText)))
      case Some(cp) =>
        match FirstMissing(categories, RuleKeys(cp))
        case Some(k) => (None, ErrorApplying + Quoted(k))
        case None =>
          RuleKeysPresent(categories, cp);
          var rules := Rules(categories, total, cpText, cp);
          match FirstMatch(rules)
          case Some(m) =>
            FirstMatchIsFirstHolding(rules);
            (Some(m.0), m.1)
          case None => (None, NoRuleApplied)
  }

  /** When the columns are present and civilian presence parses, the result
      is the first rule that holds, or "No override rules applied." when
      none does. */
  lemma ApplyOverrideRulesFirstMatch(categories: map<string, string>, numericData: Dict<int>)
    requires HasRuleColumns(categories) && CivilianPresenceKey in categories
    requires RangeLowerBound(categories[CivilianPresenceKey]).Some?
    ensures var cpText := categories[CivilianPresenceKey];
            var rules := Rules(categories, OverrideTotal(numericData), cpText, RangeLowerBound(cpText).value);
            var i := FirstHolding(rules);
            var r := ApplyOverrideRules(categories, numericData);
            && (i < 11 ==> r == (Some(rules[i].decision), rules[i].reason))
            && (i == 11 ==> r == (None, NoRuleApplied))
  {
    var cpText := categories[CivilianPresenceKey];
    var cp := RangeLowerBound(cpText).value;
    assert ParseInt(CivilianDigits(cpText)) == Some(cp);
    assert FirstMissing(categories, RuleKeys(cp)).None?;
    FirstMatchIsFirstHolding(Rules(categories, OverrideTotal(numericData), cpText, cp));
  }

  /** Once one of rules 1 to 6 holds, the decision is Do Not Engage. */
  lemma EngagementRuleDecides(categories: map<string, string>, numericData: Dict<int>, k: nat)
    requires HasRuleColumns(categories) && CivilianPresenceKey in categories
    requires RangeLowerBound(categories[CivilianPresenceKey]).Some?
    requires k < 6
    requires var cpText := categories[CivilianPresenceKey];
             EngagementRules(categories, OverrideTotal(numericData), cpText, RangeLowerBound(cpText).value)[k].holds
    ensures ApplyOverrideRules(categories, numericData).0 == Some(DoNotEngage)
  {
    var cpText := categories[CivilianPresenceKey];
    var e := EngagementRules(categories, OverrideTotal(numericData), cpText, RangeLowerBound(cpText).value);
    var rules := Rules(categories, OverrideTotal(numericData), cpText, RangeLowerBound(cpText).value);
    assert rules[k] == e[k];
    ApplyOverrideRulesFirstMatch(categories, numericData);
    assert FirstHolding(rules) <= k;
    assert rules[FirstHolding(rules)] == e[FirstHolding(rules)];
  }

  /** A protected target category is not engaged: Do Not Engage, with a
      reason naming it, once the columns are present and civilian presence
      parses. */
  lemma ProtectedTargetNotEngaged(categories: map<string, string>, numericData: Dict<int>)
    requires HasRuleColumns(categories) && CivilianPresenceKey in categories
    requires RangeLowerBound(categories[CivilianPresenceKey]).Some?
    requires categories[TargetCategoryKey] in ProtectedTargets
    ensures ApplyOverrideRules(categories, numericData) ==
            (Some(DoNotEngage), "Protected Target_Category '" + categories[TargetCategoryKey] + "'")
  {
    ApplyOverrideRulesFirstMatch(categories, numericData);
  }

  /** Civilian presence is parsed before the rule list is built, so an
      unparsable value is an error even for a protected target. */
  lemma UnparsableCivilianPresenceIsError(categories: map<string, string>, numericData: Dict<int>)
    requires CivilianPresenceKey in categories
    requires RangeLowerBound(categories[CivilianPresenceKey]).None?
    ensures ApplyOverrideRules(categories, numericData) ==
            (None, ErrorApplying + ValueErrorText(CivilianDigits(categories[CivilianPresenceKey])))
  {
  }

  /** A missing Civilian_Presence is reported by its key. */
  lemma MissingCivilianPresenceIsError(categories: map<string, string>, numericData: Dict<int>)
    requires CivilianPresenceKey !in categories
    ensures ApplyOverrideRules(categories, numericData) == (None, ErrorApplying + "'Civilian_Presence'")
  {
    assert Quoted(CivilianPresenceKey) == "'Civilian_Presence'";
  }

  /** A rule column missing while the list is built is reported by the
      first such column in reading order, before any rule is evaluated. */
  lemma MissingRuleColumnIsError(categories: map<string, string>, numericData: Dict<int>, k: string)
    requires CivilianPresenceKey in categories
    requires RangeLowerBound(categories[CivilianPresenceKey]).Some?
    requires FirstMissing(categories, RuleKeys(RangeLowerBound(categories[CivilianPresenceKey]).value)) == Some(k)
    ensures ApplyOverrideRules(categories, numericData) == (None, ErrorApplying + Quoted(k))
    ensures k !in categories && !HasRuleColumns(categories)
  {
    var cp := RangeLowerBound(categories[CivilianPresenceKey]).value;
    assert ParseInt(CivilianDigits(categories[CivilianPresenceKey])) == Some(cp);
    assert k in RuleKeys(cp);
  }

  /** "30-49" counts as 30 civilians, so the special-weapons rule (> 30)
      does not hold for it whatever the weapon; "50-99" counts as 50 and
      it does for a special weapon. */
  lemma SpecialWeaponsThreshold(categories: map<string, string>, total: int)
    requires HasRuleColumns(categories)
    ensures RangeLowerBound("30-49") == Some(30) && RangeLowerBound("50-99") == Some(50)
    ensures !Rules(categories, total, "30-49", 30)[6].holds
    ensures categories[WeaponeeringKey] in SpecialWeapons ==> Rules(categories, total, "50-99", 50)[6].holds
  {
    LowerBoundOf30To49();
    LowerBoundOf50To99();
  }

  /** Without Total_Score the rules read the sum of the values. */
  lemma OverrideTotalDefault(numericData: Dict<int>)
    requires forall i :: 0 <= i < |numericData| ==> numericData[i].0 != ModelLogic.TotalKey
    ensures OverrideTotal(numericData) == Sum(Values(numericData))
  {
  }

  /** Line 98: the override if any, otherwise the threshold decision. */
  function FinalDecision(override: Option<Decision>, total: int): (d: Decision)
    ensures override.Some? ==> d == override.value
    ensures override.None? ==> d == AssignFinalDecision(total)
  {
    if override.Some? then override.value else AssignFinalDecision(total)
  }

  /** The Predict button engages exactly when no override rule applies and
      the total is at least 30. */
  lemma PredictEngages(categories: map<string, string>, numericData: Dict<int>, total: int)
    ensures FinalDecision(ApplyOverrideRules(categories, numericData).0, total) == Engage
            <==> ApplyOverrideRules(categories, numericData).0.None? && total >= 30
  {
  }

  // --- the rule literals are keys of their tables ------------------------

  lemma TargetLiteralsAreTableKeys()
    ensures forall s :: s in ProtectedTargets ==> TargetCategoryMap(s).Some?
    ensures forall s :: s in PriorityTargets ==> TargetCategoryMap(s).Some?
    ensures forall s :: s in MineUnsuitableTargets ==> TargetCategoryMap(s).Some?
    ensures forall s :: s in NavalTargets ==> TargetCategoryMap(s).Some?
  {
  }

  lemma OtherLiteralsAreTableKeys()
    ensures forall s :: s in PopulatedTerrains ==> TerrainTypeMap(s).Some?
    ensures TerrainTypeMap("Critical Infrastructure Area").Some?
    ensures forall s :: s in SpecialWeapons ==> WeaponeeringMap(s).Some?
    ensures WeaponeeringMap("Anti-Personnel Mine").Some? && WeaponeeringMap("Torpedo").Some?
    ensures forall s :: s in LegalConcerns ==> LegalAdviceMap(s).Some?
    ensures EthicalConcernsMap("Immoral").Some?
    ensures CollateralDamagePotentialMap("Very_High").Some?
    ensures FriendlyFireMap("Very_High").Some?
    ensures PoliticallySensitiveMap("High").Some?
  {
  }
}
