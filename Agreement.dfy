/** The two copies of the override rules, app.py's rule list and
    app_main.py's if-chain, side by side: where they agree and the inputs on
    which they do not. */
module Agreement {
  import opened Wrappers
  import opened PyText
  import opened PyDict
  import opened Decisions
  import opened Mappings
  import ModelLogic
  import AppMain
  import App

  /** The if-chain tests `startswith('50')` or `startswith('100')` where the
      rule list tests a lower bound of at least 50. */
  predicate StartsWithAgrees(u: string)
    requires RangeLowerBound(u).Some?
  {
    (StartsWith(u, "50") || StartsWith(u, "100")) <==> RangeLowerBound(u).value >= 50
  }

  /** On every key of Civilian_Presence_Map the two tests agree, and the
      value parses. */
  lemma CivilianKeysStartsWithAgrees(u: string)
    requires CivilianPresenceMap(u).Some?
    ensures RangeLowerBound(u).Some? && StartsWithAgrees(u)
  {
    if u == "0" { LowerBoundOf0(); }
    else if u == "1-10" { LowerBoundOf1To10(); }
    else if u == "11-29" { LowerBoundOf11To29(); }
    else if u == "30-49" { LowerBoundOf30To49(); }
    else if u == "50-99" { LowerBoundOf50To99(); assert "50" <= u; }
    else { assert u == "100-200"; LowerBoundOf100To200(); assert "100" <= u; }
  }

  lemma {:induction false} FirstMatchAppend(r1: seq<App.Rule>, r2: seq<App.Rule>)
    ensures App.FirstMatch(r1 + r2) == if App.FirstMatch(r1).Some? then App.FirstMatch(r1) else App.FirstMatch(r2)
  {
    if r1 == [] {
      assert r1 + r2 == r2;
    } else {
      assert (r1 + r2)[1..] == r1[1..] + r2;
      FirstMatchAppend(r1[1..], r2);
    }
  }

  /** The rule list puts the six Do Not Engage rules first: the search
      over all eleven is the search over them, and only when none of them
      holds the search over rules 7 to 11. */
  lemma EngagementRulesTakePriority(c: map<string, string>, total: int, cpText: string, cp: int)
    requires App.HasRuleColumns(c)
    ensures var e := App.EngagementRules(c, total, cpText, cp);
            App.FirstMatch(App.Rules(c, total, cpText, cp))
              == if App.FirstMatch(e).Some? then App.FirstMatch(e) else App.FirstMatch(App.AuthorizationRules(c, cp))
  {
    FirstMatchAppend(App.EngagementRules(c, total, cpText, cp), App.AuthorizationRules(c, cp));
  }

  /** The if-chain's row for a scenario: the categories, the score columns
      and the total the rule list reads. */
  function ChainRow(c: map<string, string>, numericData: Dict<int>): AppMain.Row {
    AppMain.Row(c, numericData, Some(App.OverrideTotal(numericData)))
  }

  /** What the if-chain would return for a rule list: the first rule that
      holds fires, otherwise no rule applies. */
  function FirstFired(rules: seq<App.Rule>): AppMain.Outcome {
    var i := App.FirstHolding(rules);
    if i < |rules| then AppMain.Fired(rules[i].decision, rules[i].reason) else AppMain.NoRule
  }

  lemma {:induction false} FirstHoldingAppend(r1: seq<App.Rule>, r2: seq<App.Rule>)
    ensures App.FirstHolding(r1 + r2) ==
            if App.FirstHolding(r1) < |r1| then App.FirstHolding(r1) else |r1| + App.FirstHolding(r2)
  {
    if r1 == [] {
      assert r1 + r2 == r2;
    } else {
      assert (r1 + r2)[1..] == r1[1..] + r2;
      FirstHoldingAppend(r1[1..], r2);
    }
  }

  /** Rules 7 to 11 of the two copies agree. */
  lemma AuthorizationRulesAgree(c: map<string, string>, cp: int)
    requires App.HasRuleColumns(c)
    ensures AppMain.SpecialWeaponRules(c, c[AppMain.TargetCategoryKey], c[AppMain.TerrainTypeKey],
                                       c[AppMain.EthicalConcernsKey], Some(cp))
            == FirstFired(App.AuthorizationRules(c, cp))
  {
    var late := App.AuthorizationRules(c, cp);
    var i := App.FirstHolding(late);
    if i == 0 {
    } else if i == 1 {
      assert !late[0].holds;
    } else if i == 2 {
      assert !late[0].holds && !late[1].holds;
    } else {
      assert !late[0].holds && !late[1].holds && !late[2].holds;
    }
  }

  /** Rules 1 to 6 of the two copies agree; when none of them holds, the
      if-chain goes on to rule 7. */
  lemma EngagementRulesAgree(c: map<string, string>, numericData: Dict<int>)
    requires App.HasRuleColumns(c) && AppMain.CivilianPresenceKey in c
    requires RangeLowerBound(c[AppMain.CivilianPresenceKey]).Some?
    requires StartsWithAgrees(c[AppMain.CivilianPresenceKey])
    ensures var cpText := c[AppMain.CivilianPresenceKey];
            var cp := RangeLowerBound(cpText).value;
            var early := App.EngagementRules(c, App.OverrideTotal(numericData), cpText, cp);
            AppMain.OverrideChain(ChainRow(c, numericData)) ==
              if App.FirstHolding(early) < 6 then FirstFired(early)
              else AppMain.SpecialWeaponRules(c, c[AppMain.TargetCategoryKey], c[AppMain.TerrainTypeKey],
                                              c[AppMain.EthicalConcernsKey], Some(cp))
  {
    var cpText := c[AppMain.CivilianPresenceKey];
    var cp := RangeLowerBound(cpText).value;
    var early := App.EngagementRules(c, App.OverrideTotal(numericData), cpText, cp);
    var i := App.FirstHolding(early);
    assert AppMain.RowTotal(ChainRow(c, numericData)) == App.OverrideTotal(numericData);
    if i == 0 {
    } else if i == 1 {
      assert !early[0].holds;
    } else if i == 2 {
      assert !early[0].holds && !early[1].holds;
    } else {
      assert !early[0].holds && !early[1].holds && !early[2].holds;
      var tc, tt, ec := c[AppMain.TargetCategoryKey], c[AppMain.TerrainTypeKey], c[AppMain.EthicalConcernsKey];
      assert AppMain.OverrideChain(ChainRow(c, numericData)) == AppMain.CivilianRules(c, tc, tt, ec);
      if i == 3 {
      } else if i == 4 {
        assert !early[3].holds;
      } else if i == 5 {
        assert !early[3].holds && !early[4].holds;
      } else {
        assert !early[3].holds && !early[4].holds && !early[5].holds;
      }
    }
  }

  /** Whenever every column is present, civilian presence parses and the
      two civilian tests agree, both copies return the same decision, and
      the same reason when a rule fires. */
  lemma CopiesAgree(c: map<string, string>, numericData: Dict<int>)
    requires App.HasRuleColumns(c) && AppMain.CivilianPresenceKey in c
    requires RangeLowerBound(c[AppMain.CivilianPresenceKey]).Some?
    requires StartsWithAgrees(c[AppMain.CivilianPresenceKey])
    ensures var a := App.ApplyOverrideRules(c, numericData);
            var m := AppMain.ApplyOverrideRules(ChainRow(c, numericData));
            a.0 == m.0 && (a.0.Some? ==> a.1 == m.1)
  {
    var cpText := c[AppMain.CivilianPresenceKey];
    var cp := RangeLowerBound(cpText).value;
    var total := App.OverrideTotal(numericData);
    App.ApplyOverrideRulesFirstMatch(c, numericData);
    var early := App.EngagementRules(c, total, cpText, cp);
    var late := App.AuthorizationRules(c, cp);
    FirstHoldingAppend(early, late);
    EngagementRulesAgree(c, numericData);
    AuthorizationRulesAgree(c, cp);
    var rules := early + late;
    assert App.Rules(c, total, cpText, cp) == rules;
    if App.FirstHolding(early) < 6 {
      assert rules[App.FirstHolding(early)] == early[App.FirstHolding(early)];
    } else if App.FirstHolding(late) < 5 {
      assert rules[6 + App.FirstHolding(late)] == late[App.FirstHolding(late)];
    }
  }

  /** A scenario drawn from the tables has every column and a parsable
      civilian presence on which the two tests agree. */
  lemma TableDrawnScenario(raw: map<string, string>)
    requires ModelLogic.ConvertRawToScores(raw).Success?
    ensures App.HasRuleColumns(raw) && AppMain.CivilianPresenceKey in raw
    ensures RangeLowerBound(raw[AppMain.CivilianPresenceKey]).Some?
    ensures StartsWithAgrees(raw[AppMain.CivilianPresenceKey])
  {
    ModelLogic.ScoreWithSuccess(raw, Table);
    TableDrawnColumns(raw);
    assert ModelLogic.Scorable(raw, CivilianPresence, Table);
    CivilianKeysStartsWithAgrees(raw[AppMain.CivilianPresenceKey]);
  }

  lemma TableDrawnColumns(raw: map<string, string>)
    requires forall a :: ModelLogic.Scorable(raw, a, Table)
    ensures App.HasRuleColumns(raw)
  {
    ColumnPresent(raw, TargetCategory);
    ColumnPresent(raw, TerrainType);
    ColumnPresent(raw, EthicalConcerns);
    ColumnPresent(raw, CollateralDamagePotential);
    ColumnPresent(raw, FriendlyFire);
    ColumnPresent(raw, Weaponeering);
    ColumnPresent(raw, LegalAdvice);
    ColumnPresent(raw, PoliticallySensitive);
  }

  lemma ColumnPresent(raw: map<string, string>, a: Attribute)
    requires ModelLogic.Scorable(raw, a, Table)
    ensures Name(a) in raw
  {
  }

  /** For every scenario whose 18 values come from the tables, the two
      copies of the rules decide alike, with the same reason when one
      fires. */
  lemma TableDrawnCopiesAgree(raw: map<string, string>)
    requires ModelLogic.ConvertRawToScores(raw).Success?
    ensures var numericData := ModelLogic.ConvertRawToScores(raw).value;
            var a := App.ApplyOverrideRules(raw, numericData);
            var m := AppMain.ApplyOverrideRules(ChainRow(raw, numericData));
            a.0 == m.0 && (a.0.Some? ==> a.1 == m.1)
  {
    TableDrawnScenario(raw);
    CopiesAgree(raw, ModelLogic.ConvertRawToScores(raw).value);
  }

  // --- where the copies part ----------------------------------------------

  /** "60-70" is not a table key: its lower bound 60 is at least 50 but it
      starts with neither "50" nor "100". With very high collateral damage
      and nothing else to trigger, the rule list refuses engagement while
      the if-chain applies no rule. */
  lemma CopiesDifferOnUnlistedRange(c: map<string, string>, numericData: Dict<int>)
    requires App.HasRuleColumns(c) && AppMain.CivilianPresenceKey in c
    requires c[AppMain.CivilianPresenceKey] == "60-70"
    requires c[AppMain.TargetCategoryKey] !in AppMain.ProtectedTargets
    requires c[AppMain.TerrainTypeKey] !in AppMain.PopulatedTerrains
    requires c[AppMain.EthicalConcernsKey] != "Immoral"
    requires c[AppMain.CollateralDamageKey] == "Very_High" && c[AppMain.FriendlyFireKey] != "Very_High"
    requires c[AppMain.WeaponeeringKey] !in AppMain.SpecialWeapons
    requires c[AppMain.LegalAdviceKey] !in AppMain.LegalConcerns
    requires c[AppMain.PoliticallySensitiveKey] != "High"
    requires c[AppMain.WeaponeeringKey] != "Anti-Personnel Mine" && c[AppMain.WeaponeeringKey] != "Torpedo"
    ensures RangeLowerBound("60-70") == Some(60)
    ensures App.ApplyOverrideRules(c, numericData).0 == Some(DoNotEngage)
    ensures AppMain.ApplyOverrideRules(ChainRow(c, numericData)).0 == None
  {
    UnlistedRangeLowerBound();
    RuleListOnUnlistedRange(c, numericData);
    ChainOnUnlistedRange(c, numericData);
  }

  lemma UnlistedRangeLowerBound()
    ensures RangeLowerBound("60-70") == Some(60)
  {
    RangeLowerBoundOfRange("60", "70");
    assert "60" + "-" + "70" == "60-70";
  }

  /** The rule list's collateral-damage rule compares the lower bound 60. */
  lemma RuleListOnUnlistedRange(c: map<string, string>, numericData: Dict<int>)
    requires App.HasRuleColumns(c) && AppMain.CivilianPresenceKey in c
    requires c[AppMain.CivilianPresenceKey] == "60-70"
    requires c[AppMain.TargetCategoryKey] !in AppMain.ProtectedTargets
    requires c[AppMain.TerrainTypeKey] !in AppMain.PopulatedTerrains
    requires c[AppMain.EthicalConcernsKey] != "Immoral"
    requires c[AppMain.CollateralDamageKey] == "Very_High"
    ensures App.ApplyOverrideRules(c, numericData).0 == Some(DoNotEngage)
  {
    UnlistedRangeLowerBound();
    App.EngagementRuleDecides(c, numericData, 4);
  }

  /** The if-chain's collateral-damage rule tests the prefix, which "60-70"
      does not have, and no later rule fires. */
  lemma ChainOnUnlistedRange(c: map<string, string>, numericData: Dict<int>)
    requires App.HasRuleColumns(c) && AppMain.CivilianPresenceKey in c
    requires c[AppMain.CivilianPresenceKey] == "60-70"
    requires c[AppMain.TargetCategoryKey] !in AppMain.ProtectedTargets
    requires c[AppMain.TerrainTypeKey] !in AppMain.PopulatedTerrains
    requires c[AppMain.EthicalConcernsKey] != "Immoral"
    requires c[AppMain.CollateralDamageKey] == "Very_High" && c[AppMain.FriendlyFireKey] != "Very_High"
    requires c[AppMain.WeaponeeringKey] !in AppMain.SpecialWeapons
    requires c[AppMain.LegalAdviceKey] !in AppMain.LegalConcerns
    requires c[AppMain.PoliticallySensitiveKey] != "High"
    requires c[AppMain.WeaponeeringKey] != "Anti-Personnel Mine" && c[AppMain.WeaponeeringKey] != "Torpedo"
    ensures AppMain.ApplyOverrideRules(ChainRow(c, numericData)).0 == None
  {
    UnlistedRangeLowerBound();
    assert !StartsWith("60-70", "50") && !StartsWith("60-70", "100");
    var tc, tt, ec := c[AppMain.TargetCategoryKey], c[AppMain.TerrainTypeKey], c[AppMain.EthicalConcernsKey];
    assert AppMain.LaterRules(c, tc, tt, ec, Some(60)) == AppMain.NoRule;
    assert AppMain.SpecialWeaponRules(c, tc, tt, ec, Some(60)) == AppMain.NoRule;
    assert AppMain.CivilianRules(c, tc, tt, ec) == AppMain.NoRule;
  }

  /** An unparsable civilian presence: the rule list reports an error even
      for a chapel, the if-chain still refuses engagement. */
  lemma CopiesDifferOnUnparsableCivilianPresence(c: map<string, string>, numericData: Dict<int>)
    requires AppMain.TargetCategoryKey in c && c[AppMain.TargetCategoryKey] == "Chapel"
    requires AppMain.CivilianPresenceKey in c
    requires RangeLowerBound(c[AppMain.CivilianPresenceKey]).None?
    ensures App.ApplyOverrideRules(c, numericData).0 == None
    ensures AppMain.ApplyOverrideRules(ChainRow(c, numericData)).0 == Some(DoNotEngage)
  {
    App.UnparsableCivilianPresenceIsError(c, numericData);
    AppMain.ProtectedTargetNotEngaged(ChainRow(c, numericData));
  }

  /** When no rule applies the two reasons differ by the final period. */
  lemma NoRuleReasonsDiffer()
    ensures App.NoRuleApplied == AppMain.NoOverrideReason + "."
  {
  }
}
