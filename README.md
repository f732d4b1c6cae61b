# Decision engine and study navigation, in Dafny

This project models the decision core of a study application on targeting
decisions. A participant sees a scenario described by 18 categorical
attributes (target category, terrain, civilian presence, weaponeering,
legal advice, AI and human assessments, ...). The engine does three things:

- it scores each attribute with a constant table and sums the scores into
  `Total_Score`;
- it runs an ordered list of override rules, each of which can force
  Do Not Engage, Ask Authorization or Do Not Know;
- when no rule fires, it falls back to a threshold decision on the total.

Around the engine is the session navigation. Each scenario walks through
steps 1..9. Scenarios 1 to 5 use the original order. Scenarios 6 to 10 use
the reordered flow `[2, 5, 6, 3, 4, 7, 8, 9]`. The study stops after the
tenth scenario.

Modules:

- `Wrappers`: `Option` and `Result`.
- `Decisions`: the four decisions and their labels.
- `PyText`: `int()`, `str()`, `split('-')[0]` and `startswith` on ASCII strings.
- `PyDict`: insertion-ordered dictionaries as sequences of pairs, with `get` and `sum`.
- `Mappings`: the 18 score tables, one matching function per table, and their properties.
- `ModelLogic`: `convert_raw_to_scores`, and the label table of `predict_scenario`.
- `AppMain`: the pure functions of `app_main.py`, including the if-chain copy of the override rules.
- `App`: the rule-list copy of the override rules in `app.py`, and the final decision of its Predict button.
- `Agreement`: where the two copies agree and where they do not.
- `Session`: navigation. `Nav` values carry the navigation fields, and
  `NextNav`, `PrevNav` and `StartNewNav` specify the moves. The class
  `Session` holds the session-state fields the app updates in place.

The classifier (`model.predict`) is a function parameter returning an
optional code, so its failure is part of the model.

Three facts about the code that the model keeps:

- The Torpedo rule is the last rule in both copies, and it yields Do Not
  Know (app.py:42, app_main.py:258-260).
- Civilian presence is read as the number before the `-` of a range
  (app.py:29). So "30-49" counts as 30 and does not pass the `> 30`
  special-weapons test (app.py:38).
- `assign_final_decision` compares with 22.5 (app_main.py:170-178). Totals
  are integers, so the model uses the equivalent bound 23.

The two copies of the override rules differ in ways the model states:

- The rule list (`app.py`) parses civilian presence before any rule is
  evaluated. An unparsable value is therefore an error there, even for a
  chapel.
- The if-chain (`app_main.py`) tests the collateral-damage rule with
  `startswith('50')`/`startswith('100')` instead of the number. So "60-70"
  is refused by one copy and not by the other.
- In the if-chain, an unparsable civilian presence leaves the string in
  `cp_value`. `cp_value > 50` then raises TypeError whenever the legal rule
  reaches its second operand. That suppresses every later rule.
- The two "no rule" reasons differ by a final period.

On every scenario drawn from the tables, the two copies return the same
decision (`Agreement.TableDrawnCopiesAgree`).

## Model

| member | source | states |
|---|---|---|
| Mappings.TargetCategoryMap | mappings_fixed.py:3-54 | no contract of its own; the table transcribed key by key; specified by Mappings.ScoresWithinFive and Mappings.TableBounds |
| Mappings.TargetVulnerabilityMap | mappings_fixed.py:56-62 | no contract of its own; the table transcribed key by key; specified by Mappings.ScoresWithinFive and Mappings.TableBounds |
| Mappings.TerrainTypeMap | mappings_fixed.py:64-84 | no contract of its own; the table transcribed key by key; specified by Mappings.ScoresWithinFive and Mappings.TableBounds |
| Mappings.CivilianPresenceMap | mappings_fixed.py:86-93 | no contract of its own; the table transcribed key by key; specified by Mappings.ScoresWithinFive and Mappings.TableBounds |
| Mappings.DamageAssessmentMap | mappings_fixed.py:95-101 | no contract of its own; the table transcribed key by key; specified by Mappings.ScoresWithinFive and Mappings.TableBounds |
| Mappings.TimeSensitivityMap | mappings_fixed.py:103-107 | no contract of its own; the table transcribed key by key; specified by Mappings.ScoresWithinFive and Mappings.TableBounds |
| Mappings.WeaponeeringMap | mappings_fixed.py:109-128 | no contract of its own; the table transcribed key by key; specified by Mappings.ScoresWithinFive and Mappings.TableBounds |
| Mappings.FriendlyFireMap | mappings_fixed.py:130-136 | no contract of its own; the table transcribed key by key; specified by Mappings.ScoresWithinFive and Mappings.TableBounds |
| Mappings.PoliticallySensitiveMap | mappings_fixed.py:138-144 | no contract of its own; the table transcribed key by key; specified by Mappings.ScoresWithinFive and Mappings.TableBounds |
| Mappings.LegalAdviceMap | mappings_fixed.py:146-152 | no contract of its own; the table transcribed key by key; specified by Mappings.ScoresWithinFive and Mappings.TableBounds |
| Mappings.EthicalConcernsMap | mappings_fixed.py:154-165 | no contract of its own; the table transcribed key by key; specified by Mappings.ScoresWithinFive and Mappings.TableBounds |
| Mappings.CollateralDamagePotentialMap | mappings_fixed.py:167-173 | no contract of its own; the table transcribed key by key; specified by Mappings.ScoresWithinFive and Mappings.TableBounds |
| Mappings.AiDistinctionMap | mappings_fixed.py:175-196 | no contract of its own; the table transcribed key by key; specified by Mappings.ScoresWithinFive and Mappings.TableBounds |
| Mappings.AiProportionalityMap | mappings_fixed.py:198-219 | no contract of its own; the table transcribed key by key; specified by Mappings.ScoresWithinFive and Mappings.TableBounds |
| Mappings.AiMilitaryNecessityMap | mappings_fixed.py:221-224 | no contract of its own; the table transcribed key by key; specified by Mappings.ScoresWithinFive and Mappings.TableBounds |
| Mappings.HumanDistinctionMap | mappings_fixed.py:226-235 | no contract of its own; the table transcribed key by key; specified by Mappings.ScoresWithinFive and Mappings.TableBounds |
| Mappings.HumanProportionalityMap | mappings_fixed.py:237-246 | no contract of its own; the table transcribed key by key; specified by Mappings.ScoresWithinFive and Mappings.TableBounds |
| Mappings.HumanMilitaryNecessityMap | mappings_fixed.py:248-251 | no contract of its own; the table transcribed key by key; specified by Mappings.ScoresWithinFive and Mappings.TableBounds |
| Mappings.ScoresWithinFive | mappings_fixed.py:3-251 | every score of every table lies in [-5, 5] |
| Mappings.TableBounds | mappings_fixed.py:3-251 | each table's scores lie between its own smallest and largest score |
| Mappings.MinWitness | mappings_fixed.py:3-251 | each table's smallest score is attained at a key of that table |
| Mappings.MaxWitness | mappings_fixed.py:3-251 | each table's largest score is attained at a key of that table |
| Mappings.ProtectedCategoriesScoreNegatively | mappings_fixed.py:17-35 | Chapel, Medical Installation and Medical Vehicle are keys with negative scores |
| Mappings.AiBand | mappings_fixed.py:175-196 | the band of a percentage 1..100 is never 0, lies in [-5, 5], and is negative exactly up to 50 |
| Mappings.AiBandMonotone | mappings_fixed.py:175-196 | a higher percentage never falls in a lower band |
| Mappings.AiDistinctionDomain | mappings_fixed.py:175-196 | AI_Distinction_Map is defined exactly on the decimal strings "1".."100" and maps each to its band (-5 for 1-10 up to 5 for 91-100) |
| Mappings.AiDistinctionAt | mappings_fixed.py:175-196 | at the key `str(n)`, for n in 1..100, the table gives the band of n |
| Mappings.AiProportionalityEqualsDistinction | mappings_fixed.py:175-219 | AI_Proportionality_Map equals AI_Distinction_Map entry by entry |
| Mappings.HumanMapsIdentical | mappings_fixed.py:226-246 | the two human percentage tables are equal and defined exactly on the eight keys 30, 50, 65, 70, 75, 80, 90, 100 |
| Mappings.HumanDistinctionIncreasing | mappings_fixed.py:226-235 | the human distinction score strictly increases with the parsed percentage, in both directions |
| Mappings.CivilianPresenceDomain | mappings_fixed.py:86-93 | Civilian_Presence_Map has exactly six distinct keys |
| Mappings.CivilianPresenceByLowerBound | mappings_fixed.py:86-93 | each key's range lower bound is 0, 1, 11, 30, 50 or 100, and determines its score 0 down to -5 |
| Mappings.CivilianPresenceDecreasing | mappings_fixed.py:86-93 | a larger lower bound gives a strictly smaller score, and conversely |
| Mappings.RangeLowerBoundOfRange | app.py:29 | `int(v.split('-')[0])` of "p-q" is the number p |
| PyText.ParseInt | app.py:29 | no contract of its own; `int()` on a string; specified by PyText.ParseIntOfIntToString |
| PyText.ParseIntOfIntToString | app_main.py:84 | `int(str(n)) == n` for every integer |
| PyText.BeforeFirstOfSplit | app.py:29 | `split('-')[0]` of "p-q" is p when p has no '-' |
| PyDict.Get | app.py:27 | `get` finds a value exactly when the key is present, and the value is stored under that key |
| ModelLogic.ConvertRawToScores | model_logic.py:20-42 | no contract of its own; specified by ModelLogic.ScoreWithSuccess, ModelLogic.ConvertRawToScoresKeys, ModelLogic.ScoreWithScore and ModelLogic.ScoreWithTotal |
| ModelLogic.ScoreOf | model_logic.py:22-39 | one entry succeeds exactly when the column is present and its value is a key of the table; a failure names the missing key or value |
| ModelLogic.ScoreEntries | model_logic.py:21-40 | the 18 entries succeed exactly when every attribute scores; otherwise the failure is the first unscorable attribute's, with no partial result |
| ModelLogic.ScoreWithSuccess | model_logic.py:21-40 | scoring succeeds exactly when every attribute scores |
| ModelLogic.ConvertRawToScoresKeys | model_logic.py:21-41 | the result has 19 distinct keys: the 18 `<Attr>_Score` keys in order, then Total_Score |
| ModelLogic.ScoreWithScore | model_logic.py:22-39 | each `<Attr>_Score` is the table lookup of the raw value |
| ModelLogic.ScoreWithTotal | model_logic.py:41 | Total_Score is the sum of the 18 scores, computed before it is inserted |
| ModelLogic.ScoreEntriesSum | model_logic.py:41 | the sum of the entries' values is the attribute-by-attribute score sum |
| ModelLogic.ScoreSumBounds | model_logic.py:41 | a sum of scores lies between the sums of the tables' extremes |
| ModelLogic.ExtremeSums | mappings_fixed.py:3-251 | the smallest scores add up to -37 and the largest to 66 |
| ModelLogic.TotalScoreBounds | model_logic.py:41 | Total_Score always lies in [-37, 66] |
| ModelLogic.AttributesDistinct | model_logic.py:21-40 | the 18 attributes are scored once each |
| ModelLogic.ScoreKeyIsNotTotal | model_logic.py:41 | no score key collides with Total_Score |
| ModelLogic.PredictionDecision | model_logic.py:47-51 | the label table is defined exactly on the codes 0..3 |
| ModelLogic.PredictionCodeRoundTrip | model_logic.py:47 | codes and decisions correspond one to one |
| ModelLogic.FeatureRow | model_logic.py:45 | the feature frame holds, for each trained column, the numeric value under that name or nothing |
| ModelLogic.PredictScenario | model_logic.py:44-51 | no contract of its own; specified by ModelLogic.PredictScenarioLabels |
| ModelLogic.PredictScenarioLabels | model_logic.py:44-51 | predict_scenario returns the classifier's code with its label, and fails on any other code |
| AppMain.ConvertCivilianPresence | app_main.py:80-86 | no contract of its own; specified by AppMain.ConvertCivilianPresenceCases |
| AppMain.ConvertCivilianPresenceCases | app_main.py:80-86 | a value with '-' is returned unchanged, an int-parsable value as its canonical decimal string, anything else as "0" |
| AppMain.ConvertCivilianPresenceIdempotent | app_main.py:80-86 | normalising twice is normalising once |
| AppMain.ConvertCivilianPresenceKeepsTableKeys | app_main.py:80-86 | every key of Civilian_Presence_Map is left unchanged |
| AppMain.WithoutTotal | app_main.py:151-156 | exactly the entries other than Total_Score are kept, and nothing changes when there is no Total_Score |
| AppMain.PercentEntries | app_main.py:152-157 | keys are kept in order; all values are 0 when the absolute total is 0, and otherwise each is the signed share of its score |
| AppMain.CalculatePercentages | app_main.py:150-158 | no contract of its own; specified by AppMain.CalculatePercentagesKeys and AppMain.CalculatePercentagesSumTo100 |
| AppMain.CalculatePercentagesKeys | app_main.py:150-158 | the keys are the input keys minus Total_Score, and all values are 0 when the absolute sum is 0 |
| AppMain.PercentSign | app_main.py:155 | each percentage has the sign of its score, and 0 maps to 0 |
| AppMain.CalculatePercentagesSumTo100 | app_main.py:150-158 | unless every score is 0, the absolute percentages add up to 100 |
| AppMain.AssignFinalDecision | app_main.py:170-178 | Engage iff total ≥ 30, Ask Authorization iff 22.5 ≤ total < 30, Do Not Know iff 15 ≤ total < 22.5, Do Not Engage otherwise |
| AppMain.AssignFinalDecisionMonotone | app_main.py:170-178 | a higher total never gives a more cautious decision |
| AppMain.LabelMapping | app_main.py:112-117 | no contract of its own; specified by AppMain.LabelMappingAgrees |
| AppMain.LabelMappingAgrees | app_main.py:112-117 | label_mapping lists the same decisions under the same codes as predict_scenario, and any other code gives "Unknown", which is no decision's label |
| AppMain.RowTotal | app_main.py:215-216 | the rules read Total_Score when present, otherwise the sum of the score columns |
| AppMain.WeaponRules | app_main.py:255-260 | the two weapon rules can only yield Do Not Know |
| AppMain.SpecialWeaponRules | app_main.py:240-260 | rules 7 to 11 yield neither Engage nor Do Not Engage |
| AppMain.CivilianRules | app_main.py:225-260 | rules 4 to 11 never yield Engage |
| AppMain.OverrideChain | app_main.py:218-260 | no rule of the chain yields Engage |
| AppMain.ApplyOverrideRules | app_main.py:212-267 | a decision is returned exactly when a rule fires, with that rule's reason; otherwise "No override rules applied"; never Engage |
| AppMain.ProtectedTargetNotEngaged | app_main.py:218-219 | a protected target gives Do Not Engage with a reason naming it, whatever the other columns hold |
| AppMain.UnparsableCivilianPresenceSkipsThresholds | app_main.py:225-252 | an unparsable civilian presence skips only the threshold rules; the legal rule still fires |
| AppMain.MissingTargetCategory | app_main.py:262-264 | a missing Target_Category raises KeyError on the first rule, and the result is no decision and "No override rules applied" |
| AppMain.UnparsableCivilianPresenceLegalRuleFires | app_main.py:225-252 | with no earlier rule firing and legal advice "It depends" or "Questionable", an unparsable civilian presence still gives Ask Authorization with "Legal/ethical concerns require authorization" |
| AppMain.MissingColumnGivesNoDecision | app_main.py:262-264 | a KeyError names a column missing from the row, and the result is no decision and "No override rules applied" |
| AppMain.UnparsableCivilianPresenceSuppressesLaterRules | app_main.py:240-267 | with Immoral ethics and no legal concern, an unparsable civilian presence raises in `cp_value > 50` and no override is returned |
| AppMain.ScoreColumns | app_main.py:91-111 | the score columns are the 18 `<Attr>_Score` keys in scoring order |
| AppMain.SumColumns | app_main.py:192 | the row sum exists exactly when every named column is present, and is then the sum of those columns' values |
| AppMain.ModelLabel | app_main.py:195-200 | the auxiliary label is missing exactly when the classifier fails, and is otherwise label_mapping of its code ("Unknown" outside 0..3) |
| AppMain.GetFinalPrediction | app_main.py:189-208 | no contract of its own; specified by AppMain.GetFinalPredictionArbitration, AppMain.GetFinalPredictionEngage and AppMain.GetFinalPredictionMissingColumn |
| AppMain.GetFinalPredictionArbitration | app_main.py:189-205 | the total is Total_Score, or the sum of the 18 score columns when it is absent; with that total in the frame, an override wins with "OVERRIDE APPLIED: " before its reason, otherwise the threshold decision on the total with an empty reason; Engage needs a total of at least 30; the label is label_mapping of the classifier's code on that frame, None when it fails |
| AppMain.GetFinalPredictionIgnoresClassifier | app_main.py:195-205 | the decision and reason do not depend on the classifier |
| AppMain.GetFinalPredictionEngage | app_main.py:189-205 | Engage is returned only as the threshold decision, for a total (given or summed) of at least 30 |
| AppMain.GetFinalPredictionMissingColumn | app_main.py:189-208 | without Total_Score, a missing score column gives no decision, "Error in prediction: " and no label |
| App.FirstMatch | app.py:45-48 | no contract of its own; specified by App.FirstMatchIsFirstHolding |
| App.FirstHolding | app.py:45-47 | the index of the first rule whose condition holds |
| App.FirstMatchIsFirstHolding | app.py:45-48 | the search returns the decision and reason of the first true condition in list order, and nothing when none holds |
| App.OverrideTotal | app.py:27 | Total_Score when present, otherwise the sum of the numeric values |
| App.OverrideTotalDefault | app.py:27 | without Total_Score the total is the sum of the values |
| App.RuleKeys | app.py:31-42 | the columns the rule list reads while it is built, in order: Target_Category, Terrain_Type, Ethical_Concerns, Collateral_Damage_Potential, Friendly_Fire, then Weaponeering only when civilian presence exceeds 30, then Legal_Advice, Politically_Sensitive, Weaponeering |
| App.FirstMissing | app.py:31-42 | the first column the rule list reads that is missing, if any: every column before it is present |
| App.MissingRuleColumnIsError | app.py:31-51 | with civilian presence parsed, a missing rule column gives (None, "Error applying override rules: " followed by the quoted name of the first missing column in reading order) |
| App.EngagementRules | app.py:32-37 | the first six rules are the Do Not Engage rules |
| App.AuthorizationRules | app.py:38-42 | three Ask Authorization rules, then the Mine and Torpedo rules, both Do Not Know |
| App.Rules | app.py:31-43 | eleven rules, none of them Engage |
| App.CivilianDigits | app.py:29 | the string `int()` is given is the part before the first '-' |
| App.ApplyOverrideRules | app.py:25-51 | the decision is never Engage |
| App.ApplyOverrideRulesFirstMatch | app.py:28-48 | with every column present and civilian presence parsed, the result is the first true rule's decision and reason, or (None, "No override rules applied.") |
| App.EngagementRuleDecides | app.py:31-48 | once any of rules 1 to 6 holds, the result is Do Not Engage, whichever of them is first |
| App.ProtectedTargetNotEngaged | app.py:32 | a protected target category gives Do Not Engage with a reason naming it |
| App.UnparsableCivilianPresenceIsError | app.py:28-51 | an unparsable civilian presence gives (None, "Error applying override rules: ..."), even for a protected target |
| App.MissingCivilianPresenceIsError | app.py:28-51 | a missing Civilian_Presence gives the error naming that key |
| App.SpecialWeaponsThreshold | app.py:29-38 | "30-49" counts as 30 and does not pass the > 30 special-weapons test; "50-99" counts as 50 and does |
| App.FinalDecision | app.py:98 | the override decision if any, otherwise `assign_final_decision(total)` |
| App.PredictEngages | app.py:98 | the Predict button engages only when no rule applies and the total is at least 30 |
| App.TargetLiteralsAreTableKeys | app.py:32-42 | every target category the rules compare with is a key of Target_Category_Map |
| App.OtherLiteralsAreTableKeys | app.py:33-42 | every terrain, weapon, legal, ethical, collateral, friendly-fire and political literal of the rules is a key of its table |
| Agreement.CivilianKeysStartsWithAgrees | app_main.py:235-236 | on every Civilian_Presence_Map key, the prefix test equals "lower bound ≥ 50" |
| Agreement.EngagementRulesTakePriority | app.py:31-48 | the first true rule of the list is the first true Do Not Engage rule when there is one, otherwise the first true rule among rules 7 to 11 |
| Agreement.AuthorizationRulesAgree | app_main.py:240-260 | rules 7 to 11 of the two copies give the same outcome |
| Agreement.EngagementRulesAgree | app_main.py:218-239 | rules 1 to 6 of the two copies give the same outcome |
| Agreement.CopiesAgree | app_main.py:212-267 | with every column present, a parsable civilian presence and agreeing prefix tests, both copies return the same decision and reason up to the no-rule text |
| Agreement.TableDrawnScenario | model_logic.py:21-40 | a scenario that scores has every rule column and a parsable civilian presence |
| Agreement.TableDrawnCopiesAgree | app.py:25-51 | for every scenario drawn from the tables, both copies return the same decision |
| Agreement.CopiesDifferOnUnlistedRange | app_main.py:235-236 | "60-70" with very high collateral damage is refused by the rule list but passes the if-chain |
| Agreement.CopiesDifferOnUnparsableCivilianPresence | app.py:28-29 | with an unparsable civilian presence, a chapel gets no decision from the rule list and Do Not Engage from the if-chain |
| Agreement.NoRuleReasonsDiffer | app.py:48 | the two "no rule" reasons differ by a final period |
| Session.FlowFor | app_main.py:39-43 | scenarios up to 5 run the original flow, later ones the reordered flow |
| Session.ReorderFlowIsPermutation | app_main.py:359 | the reordered flow has eight distinct entries, exactly the steps 2..9, and runs from 2 to 9 |
| Session.InitialNavValid | app_main.py:29-46 | a session starts valid, at step 1 of scenario 1 in the original flow |
| Session.NextNav | app_main.py:340-374 | a stop is always a completion, and the count grows by one exactly on completion |
| Session.NextNavValid | app_main.py:340-374 | next_step keeps step in 1..9, the index in 0..7, the flow matching the count, and the step equal to the reordered flow's entry at the index |
| Session.NextNavCompletesAtLastStep | app_main.py:345-374 | a scenario completes exactly at step 9; the count then grows by one, the study stops exactly past ten, and otherwise the next scenario starts at step 2 in the flow its number calls for |
| Session.NextNavWithinScenario | app_main.py:340-363 | within a scenario the original flow moves to the next step number and the reordered flow to the next entry |
| Session.PrevNav | app_main.py:376-388 | prev_step never changes the flow or the count |
| Session.PrevNavValid | app_main.py:376-388 | prev_step keeps the navigation invariant |
| Session.PrevUndoesNext | app_main.py:340-388 | prev_step undoes a next_step that stayed within the scenario |
| Session.NextUndoesPrev | app_main.py:340-388 | next_step undoes a prev_step that moved |
| Session.StartNewNav | app_main.py:888-901 | the button completes the scenario, adds one to the count, stops exactly past ten, and otherwise starts step 2 in the flow the count calls for |
| Session.StartNewNavValid | app_main.py:888-901 | the button keeps the navigation invariant |
| Session.StartNewAgreesWithNext | app_main.py:888-901 | at step 9 the button and next_step move the same way |
| Session.ExpiryNavAsWritten | app_main.py:752 | the countdown's expiry moves to the step numbered one higher and leaves flow, count and index alone |
| Session.ExpiryAsWrittenBreaksReorderedFlow | app_main.py:752 | in the reordered flow at step 4 the expiry leads to an invalid state, where next_step would lead to step 7 |
| Session.ExpiryFollowsFlow | app_main.py:742-753 | an expiry that moves by next_step stays valid, goes to step 5 or 7, and equals the written expiry in the original flow |
| Session.Session.constructor | app_main.py:29-53 | a new session is valid, at step 1 of scenario 1, in the original flow, with a full countdown |
| Session.Session.ResetScenarioStates | app_main.py:390-407 | the per-scenario fields and the countdown are cleared, and the navigation fields are unchanged |
| Session.Session.NextStep | app_main.py:340-374 | the fields move as NextNav says; a completion that does not stop clears the scenario; a stop changes only the count |
| Session.Session.PrevStep | app_main.py:376-388 | the fields move as PrevNav says; the countdown resets only on a move back in the original flow |
| Session.Session.StartNewScenario | app_main.py:888-901 | the fields move as StartNewNav says, and the scenario is cleared unless the study stops |
| Session.Session.EnterDecisionStep | app_main.py:702-705 | an idle countdown is armed with 300 seconds and the current time; a running one is left alone; nothing else changes |
| Session.Session.SubmitDecision | app_main.py:729-738 | the choice is recorded, with 300 minus the elapsed time since the start (or 300 and a new start when none is known), the decision is marked submitted and the countdown stops; navigation is unchanged |
| Session.Session.TickDecisionTimer | app_main.py:742-753 | one second of the countdown, leaving the answers and the running countdown alone until it reaches zero; at zero an unanswered decision is recorded as expired and the countdown stops, a submitted one is left as it is, and the session moves on along its flow; the start time never changes |

## Left out

- Streamlit rendering, HTML and CSS building, the score display and the step bodies' UI are left out.
- The Google Sheets persistence and the feedback handlers that write to it are left out. These are network I/O.
- Loading the classifier and the data set (joblib, pandas) is left out. `model.predict` is a function parameter.
- `shuffle_dataset`, `get_random_scenario` and `verify_scenario_data` are left out. They rely on randomness and pandas type checks.
- The wall clock (`time.time`, `time.sleep`) is left out. The timer is modelled one tick at a time, and the start time is a parameter.
- AppMain.PercentEntries: `round(..., 2)` is not modelled. Percentages are exact reals, so the sum-to-100 property holds without rounding error.
- The progress ratio shown on screen is left out.
- PyText.ParseInt: `int()` accepts only an optional sign and ASCII digits. Surrounding whitespace, underscores and non-ASCII digits are not modelled.
- App.ApplyOverrideRules: the error text quotes a key or value as Python's repr does only for strings without quotes or backslashes.
- AppMain.ApplyOverrideRules: the exceptions are not distinguished by their log message. Logging is left out.
- Non-string cells (NaN, numbers) in the category columns are left out. Every category value is a string.
- AppMain.GetFinalPrediction: on a missing score column the reason is the prefix "Error in prediction: " alone. pandas' KeyError text after it is not modelled.
- AppMain.GetFinalPredictionMissingColumn: states the reason as the bare prefix "Error in prediction: ", for the same reason.
- Session.Session.TickDecisionTimer: at zero the session moves by `next_step` instead of `step += 1` (app_main.py:752). That is the corrected behaviour of the finding below; the as-written move is Session.ExpiryNavAsWritten.
- Session.Session.SubmitDecision: the radio button's choice is a parameter. The button is offered only while time remains, which the method requires.
- AppMain.ApplyOverrideRules and AppMain.GetFinalPrediction: writing a computed Total_Score back into the row or frame is left out. The computed total is used directly, and the caller's frame is not modelled.
- Session.Session.constructor: variables the source initialises to None are modelled as False or None per field. The initial flags start as False.
- The handling of `handle_timeout_decision`'s returned record is left out. Saving it is network I/O.
- create_mappings.py is not part of this model. It is a pandas `groupby`/`mode` over a CSV.
- api.py is not part of this model. It is a web endpoint wrapping model_logic.
- dockerfile.py is not part of this model. It is a container description.

## Findings

| source | as written | input that shows it | evidently intended | confidence | as-written member | corrected member |
|---|---|---|---|---|---|---|
| app_main.py:752 | when the decision countdown reaches zero, `step += 1` moves to the next step number in either flow | the reordered flow at step 4 (index 4, scenario 6): the step becomes 5 with the index still 4, so the step and index disagree and the following Next shows step 7 after repeating step 5 | move on as `next_step` does: step 7 in the reordered flow, step 5 in the original flow | not executed; medium | Session.ExpiryAsWrittenBreaksReorderedFlow | Session.ExpiryFollowsFlow |
