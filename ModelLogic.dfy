/** model_logic.py: scoring a raw scenario with the 18 tables, and the label
    table that turns a classifier code into a decision. */
module ModelLogic {
  import opened Wrappers
  import opened Mappings
  import opened Decisions
  import opened PyDict

  /** The i-th attribute in the order convert_raw_to_scores builds its
      result. */
  function AttributeAt(i: nat): Attribute {
    if i == 0 then TargetCategory
    else if i == 1 then TargetVulnerability
    else if i == 2 then TerrainType
    else if i == 3 then CivilianPresence
    else if i == 4 then DamageAssessment
    else if i == 5 then TimeSensitivity
    else if i == 6 then Weaponeering
    else if i == 7 then FriendlyFire
    else if i == 8 then PoliticallySensitive
    else if i == 9 then LegalAdvice
    else if i == 10 then EthicalConcerns
    else if i == 11 then CollateralDamagePotential
    else if i == 12 then AiDistinction
    else if i == 13 then AiProportionality
    else if i == 14 then AiMilitaryNecessity
    else if i == 15 then HumanDistinction
    else if i == 16 then HumanProportionality
    else HumanMilitaryNecessity  // i == 17
  }

  /** The attributes from position k on. */
  function AttributesFrom(k: nat): (s: seq<Attribute>)
    ensures |s| == if k < 18 then 18 - k else 0
    ensures forall i :: 0 <= i < |s| ==> s[i] == AttributeAt(k + i)
    decreases 18 - k
  {
    if k >= 18 then [] else [AttributeAt(k)] + AttributesFrom(k + 1)
  }

  const Attributes: seq<Attribute> := AttributesFrom(0)

  const TotalKey: string := "Total_Score"

  /** The key of an attribute's score in a scored scenario. */
  function ScoreKey(a: Attribute): string {
    Name(a) + "_Score"
  }

  /** Every attribute appears once in Attributes. */
  lemma AttributesComplete(a: Attribute)
    ensures a in Attributes
    ensures |Attributes| == 18
  {
    assert Attributes[AttributeIndex(a)] == a;
  }

  lemma NameInjective(a: Attribute, b: Attribute)
    requires Name(a) == Name(b)
    ensures a == b
  {
  }

  lemma ScoreKeyInjective(a: Attribute, b: Attribute)
    requires ScoreKey(a) == ScoreKey(b)
    ensures a == b
  {
    assert |Name(a)| == |Name(b)|;
    assert Name(a) == ScoreKey(a)[..|Name(a)|];
    NameInjective(a, b);
  }

  /** No attribute's score key is the total's key. */
  lemma ScoreKeyIsNotTotal(a: Attribute)
    ensures ScoreKey(a) != TotalKey
  {
  }

  lemma AttributeIndexAt(i: nat)
    requires i < 18
    ensures AttributeIndex(AttributeAt(i)) == i
  {
  }

  lemma AttributesDistinct()
    ensures forall i, j :: 0 <= i < j < |Attributes| ==> Attributes[i] != Attributes[j]
  {
    forall i, j | 0 <= i < j < |Attributes| ensures Attributes[i] != Attributes[j] {
      AttributeIndexAt(i);
      AttributeIndexAt(j);
    }
  }

  // ---------------------------------------------------------------------
  // convert_raw_to_scores
  // ---------------------------------------------------------------------

  /** A family of score tables: `tables(a, v)` is the score of raw value v
      in attribute a's table, None when v is not a key. */
  type Tables = (Attribute, string) -> Option<int>

  /** An attribute scores when the raw scenario has it and its value is a
      key of the attribute's table. */
  predicate Scorable(raw: map<string, string>, a: Attribute, tables: Tables) {
    Name(a) in raw && tables(a, raw[Name(a)]).Some?
  }

  /** One entry of the result dictionary: `<Map>[raw_input["<Attr>"]]`. A
      missing raw key fails with that key, a value outside the table with
      the value. */
  function ScoreOf(raw: map<string, string>, a: Attribute, tables: Tables): (r: Result<int, string>)
    ensures r.Success? <==> Scorable(raw, a, tables)
    ensures r.Success? ==> r.value == tables(a, raw[Name(a)]).value
    ensures r.Failure? ==> r.error == if Name(a) in raw then raw[Name(a)] else Name(a)
  {
    if Name(a) !in raw then Failure(Name(a))
    else match tables(a, raw[Name(a)])
      case None => Failure(raw[Name(a)])
      case Some(s) => Success(s)
  }

  /** The index of the first attribute of attrs that does not score. */
  function FirstUnscorable(raw: map<string, string>, attrs: seq<Attribute>, tables: Tables): (i: nat)
    requires exists j :: 0 <= j < |attrs| && !Scorable(raw, attrs[j], tables)
    ensures i < |attrs| && !Scorable(raw, attrs[i], tables)
    ensures forall j :: 0 <= j < i ==> Scorable(raw, attrs[j], tables)
  {
    if !Scorable(raw, attrs[0], tables) then 0
    else
      assert exists j :: 0 <= j < |attrs[1..]| && !Scorable(raw, attrs[1..][j], tables) by {
        var j :| 0 <= j < |attrs| && !Scorable(raw, attrs[j], tables);
        assert attrs[1..][j - 1] == attrs[j];
      }
      1 + FirstUnscorable(raw, attrs[1..], tables)
  }

  /** The score entries of attrs, in order, failing at the first attribute
      that does not score. */
  function ScoreEntries(raw: map<string, string>, attrs: seq<Attribute>, tables: Tables): (r: Result<Dict<int>, string>)
    ensures r.Success? <==> forall j :: 0 <= j < |attrs| ==> Scorable(raw, attrs[j], tables)
    ensures r.Success? ==> |r.value| == |attrs|
    ensures r.Success? ==> forall j :: 0 <= j < |attrs| ==>
              r.value[j] == (ScoreKey(attrs[j]), tables(attrs[j], raw[Name(attrs[j])]).value)
    ensures r.Failure? ==> r.error == ScoreOf(raw, attrs[FirstUnscorable(raw, attrs, tables)], tables).error
  {
    if attrs == [] then Success([])
    else match ScoreOf(raw, attrs[0], tables)
      case Failure(k) => Failure(k)
      case Success(s) =>
        var rest := ScoreEntries(raw, attrs[1..], tables);
        assert forall j :: 1 <= j < |attrs| ==> attrs[1..][j - 1] == attrs[j];
        match rest
        case Failure(k) =>
          assert FirstUnscorable(raw, attrs, tables) == 1 + FirstUnscorable(raw, attrs[1..], tables);
          Failure(k)
        case Success(entries) => Success([(ScoreKey(attrs[0]), s)] + entries)
  }

  /** convert_raw_to_scores over any tables: the 18 scores in order, then
      Total_Score, the sum of the 18 computed before the total is added. */
  function ScoreWith(raw: map<string, string>, tables: Tables): (r: Result<Dict<int>, string>)
    ensures r.Success? ==> |r.value| == 19 && r.value[18].0 == TotalKey
  {
    var entries := ScoreEntries(raw, Attributes, tables);
    if entries.Failure? then Failure(entries.error)
    else Success(entries.value + [(TotalKey, Sum(Values(entries.value)))])
  }

  /** convert_raw_to_scores with the 18 tables of mappings_fixed.py. A raw
      scenario whose attribute is missing or outside its table yields no
      dictionary, only the KeyError's key. */
  function ConvertRawToScores(raw: map<string, string>): Result<Dict<int>, string> {
    ScoreWith(raw, Table)
  }

  /** The position of each attribute in Attributes. */
  function AttributeIndex(a: Attribute): (i: nat)
    ensures i < 18 && AttributeAt(i) == a
  {
    match a
    case TargetCategory => 0
    case TargetVulnerability => 1
    case TerrainType => 2
    case CivilianPresence => 3
    case DamageAssessment => 4
    case TimeSensitivity => 5
    case Weaponeering => 6
    case FriendlyFire => 7
    case PoliticallySensitive => 8
    case LegalAdvice => 9
    case EthicalConcerns => 10
    case CollateralDamagePotential => 11
    case AiDistinction => 12
    case AiProportionality => 13
    case AiMilitaryNecessity => 14
    case HumanDistinction => 15
    case HumanProportionality => 16
    case HumanMilitaryNecessity => 17
  }

  /** The sum of the scores of attrs, attribute by attribute: the reference
      for Total_Score. */
  function ScoreSum(raw: map<string, string>, attrs: seq<Attribute>, tables: Tables): int
    requires forall j :: 0 <= j < |attrs| ==> Scorable(raw, attrs[j], tables)
  {
    if attrs == [] then 0
    else
      assert Scorable(raw, attrs[0], tables);
      assert forall j :: 1 <= j < |attrs| ==> attrs[1..][j - 1] == attrs[j];
      tables(attrs[0], raw[Name(attrs[0])]).value + ScoreSum(raw, attrs[1..], tables)
  }

  lemma {:induction false} ScoreEntriesSum(raw: map<string, string>, attrs: seq<Attribute>, tables: Tables)
    requires ScoreEntries(raw, attrs, tables).Success?
    ensures Sum(Values(ScoreEntries(raw, attrs, tables).value)) == ScoreSum(raw, attrs, tables)
  {
    if attrs != [] {
      assert forall j :: 1 <= j < |attrs| ==> attrs[1..][j - 1] == attrs[j];
      ScoreEntriesSum(raw, attrs[1..], tables);
      var d := ScoreEntries(raw, attrs, tables).value;
      assert Values(d) == [d[0].1] + Values(d[1..]);
      assert d[1..] == ScoreEntries(raw, attrs[1..], tables).value;
    }
  }

  lemma {:induction false} ScoreWithKeys(raw: map<string, string>, tables: Tables)
    requires ScoreWith(raw, tables).Success?
    ensures forall i :: 0 <= i < 18 ==> ScoreWith(raw, tables).value[i].0 == ScoreKey(Attributes[i])
    ensures DistinctKeys(ScoreWith(raw, tables).value)
  {
    var d := ScoreWith(raw, tables).value;
    AttributesDistinct();
    forall i, j | 0 <= i < j < |d| ensures d[i].0 != d[j].0 {
      if j == 18 {
        ScoreKeyIsNotTotal(Attributes[i]);
      } else if ScoreKey(Attributes[i]) == ScoreKey(Attributes[j]) {
        ScoreKeyInjective(Attributes[i], Attributes[j]);
      }
    }
  }

  /** The scored dictionary's `<Attr>_Score` entry is the lookup of the raw
      value in the attribute's table. */
  lemma ScoreWithScore(raw: map<string, string>, tables: Tables, a: Attribute)
    requires ScoreWith(raw, tables).Success?
    ensures Scorable(raw, a, tables)
    ensures Get(ScoreWith(raw, tables).value, ScoreKey(a)) == tables(a, raw[Name(a)])
  {
    ScoreWithKeys(raw, tables);
    GetAt(ScoreWith(raw, tables).value, AttributeIndex(a));
  }

  /** The scored dictionary's Total_Score is the sum of the 18 scores. */
  lemma ScoreWithTotal(raw: map<string, string>, tables: Tables)
    requires ScoreWith(raw, tables).Success?
    ensures forall j :: 0 <= j < |Attributes| ==> Scorable(raw, Attributes[j], tables)
    ensures Get(ScoreWith(raw, tables).value, TotalKey) == Some(ScoreSum(raw, Attributes, tables))
  {
    var d := ScoreWith(raw, tables).value;
    ScoreWithKeys(raw, tables);
    GetAt(d, 18);
    ScoreEntriesSum(raw, Attributes, tables);
    assert d[..18] == ScoreEntries(raw, Attributes, tables).value;
  }

  lemma ScoreWithSuccess(raw: map<string, string>, tables: Tables)
    ensures ScoreWith(raw, tables).Success? <==> forall a :: Scorable(raw, a, tables)
    ensures ScoreWith(raw, tables).Failure? ==>
              var a := Attributes[FirstUnscorable(raw, Attributes, tables)];
              && (forall j :: 0 <= j < FirstUnscorable(raw, Attributes, tables) ==> Scorable(raw, Attributes[j], tables))
              && ScoreWith(raw, tables).error == (if Name(a) in raw then raw[Name(a)] else Name(a))
  {
    if forall j :: 0 <= j < |Attributes| ==> Scorable(raw, Attributes[j], tables) {
      forall a ensures Scorable(raw, a, tables) {
        assert Attributes[AttributeIndex(a)] == a;
      }
    }
  }

  /** Sums of the table extremes of attrs. */
  function MinSum(attrs: seq<Attribute>): int {
    if attrs == [] then 0 else MinScore(attrs[0]) + MinSum(attrs[1..])
  }

  function MaxSum(attrs: seq<Attribute>): int {
    if attrs == [] then 0 else MaxScore(attrs[0]) + MaxSum(attrs[1..])
  }

  /** The extremes summed from the k-th attribute on, for evaluation. */
  function ExtremeSumsFrom(k: nat): (int, int)
    requires k <= 18
    decreases 18 - k
  {
    if k == 18 then (0, 0)
    else
      var rest := ExtremeSumsFrom(k + 1);
      (MinScore(AttributeAt(k)) + rest.0, MaxScore(AttributeAt(k)) + rest.1)
  }

  lemma {:induction false} MinSumSuffix(k: nat)
    requires k <= 18
    decreases 18 - k
    ensures MinSum(AttributesFrom(k)) == ExtremeSumsFrom(k).0
  {
    if k < 18 {
      MinSumCons(AttributeAt(k), AttributesFrom(k + 1));
      MinSumSuffix(k + 1);
    }
  }

  lemma {:induction false} MaxSumSuffix(k: nat)
    requires k <= 18
    decreases 18 - k
    ensures MaxSum(AttributesFrom(k)) == ExtremeSumsFrom(k).1
  {
    if k < 18 {
      MaxSumCons(AttributeAt(k), AttributesFrom(k + 1));
      MaxSumSuffix(k + 1);
    }
  }

  lemma MinSumCons(a: Attribute, attrs: seq<Attribute>)
    ensures MinSum([a] + attrs) == MinScore(a) + MinSum(attrs)
  {
    assert ([a] + attrs)[1..] == attrs;
  }

  lemma MaxSumCons(a: Attribute, attrs: seq<Attribute>)
    ensures MaxSum([a] + attrs) == MaxScore(a) + MaxSum(attrs)
  {
    assert ([a] + attrs)[1..] == attrs;
  }

  /** Tables whose every score lies between the attribute's extremes. */
  ghost predicate WithinExtremes(tables: Tables) {
    forall a, v :: tables(a, v).Some? ==> MinScore(a) <= tables(a, v).value <= MaxScore(a)
  }

  lemma {:induction false} ScoreSumBounds(raw: map<string, string>, attrs: seq<Attribute>, tables: Tables)
    requires WithinExtremes(tables)
    requires forall j :: 0 <= j < |attrs| ==> Scorable(raw, attrs[j], tables)
    ensures MinSum(attrs) <= ScoreSum(raw, attrs, tables) <= MaxSum(attrs)
  {
    if attrs != [] {
      assert Scorable(raw, attrs[0], tables);
      assert forall j :: 1 <= j < |attrs| ==> attrs[1..][j - 1] == attrs[j];
      ScoreSumBounds(raw, attrs[1..], tables);
    }
  }

  lemma TablesWithinExtremes()
    ensures WithinExtremes(Table)
  {
    forall a, v ensures Table(a, v).Some? ==> MinScore(a) <= Table(a, v).value <= MaxScore(a) {
      TableBounds(a, v);
    }
  }

  /** The sums of the table extremes over all 18 attributes. */
  lemma ExtremeSumsFrom15()
    ensures ExtremeSumsFrom(15) == (-8, 13)
  {
    assert ExtremeSumsFrom(17) == (2, 3);
    assert ExtremeSumsFrom(16) == (-3, 8);
  }

  lemma ExtremeSumsFrom12()
    ensures ExtremeSumsFrom(12) == (-17, 25)
  {
    ExtremeSumsFrom15();
    assert ExtremeSumsFrom(14) == (-7, 15);
    assert ExtremeSumsFrom(13) == (-12, 20);
  }

  lemma ExtremeSumsFrom9()
    ensures ExtremeSumsFrom(9) == (-21, 33)
  {
    ExtremeSumsFrom12();
    assert ExtremeSumsFrom(11) == (-20, 27);
    assert ExtremeSumsFrom(10) == (-22, 30);
  }

  lemma ExtremeSumsFrom6()
    ensures ExtremeSumsFrom(6) == (-23, 43)
  {
    ExtremeSumsFrom9();
    assert ExtremeSumsFrom(8) == (-22, 35);
    assert ExtremeSumsFrom(7) == (-24, 38);
  }

  lemma ExtremeSumsFrom4()
    ensures ExtremeSumsFrom(4) == (-23, 51)
  {
    ExtremeSumsFrom6();
    assert AttributeAt(5) == TimeSensitivity;
    assert ExtremeSumsFrom(5) == (-22, 48);
    assert AttributeAt(4) == DamageAssessment;
  }

  lemma ExtremeSumsFrom3()
    ensures ExtremeSumsFrom(3) == (-28, 51)
  {
    ExtremeSumsFrom4();
  }

  /** The sums of the table extremes over all 18 attributes. */
  lemma ExtremeSums()
    ensures MinSum(Attributes) == -37 && MaxSum(Attributes) == 66
  {
    ExtremeSumsFrom3();
    assert ExtremeSumsFrom(2) == (-33, 56);
    assert ExtremeSumsFrom(1) == (-32, 61);
    assert ExtremeSumsFrom(0) == (-37, 66);
    MinSumSuffix(0);
    MaxSumSuffix(0);
  }

  // --- convert_raw_to_scores with the tables of mappings_fixed.py --------

  /** The result has exactly the 18 score keys, in order, then Total_Score,
      and no key twice. */
  lemma ConvertRawToScoresKeys(raw: map<string, string>)
    requires ConvertRawToScores(raw).Success?
    ensures |ConvertRawToScores(raw).value| == 19
    ensures forall i :: 0 <= i < 18 ==> ConvertRawToScores(raw).value[i].0 == ScoreKey(Attributes[i])
    ensures ConvertRawToScores(raw).value[18].0 == TotalKey
    ensures DistinctKeys(ConvertRawToScores(raw).value)
  {
    ScoreWithKeys(raw, Table);
  }

  /** Total_Score always lies in [-37, 66]. */
  lemma TotalScoreBounds(raw: map<string, string>)
    requires ConvertRawToScores(raw).Success?
    ensures Get(ConvertRawToScores(raw).value, TotalKey).Some?
    ensures -37 <= Get(ConvertRawToScores(raw).value, TotalKey).value <= 66
  {
    ScoreWithTotal(raw, Table);
    TablesWithinExtremes();
    ScoreSumBounds(raw, Attributes, Table);
    ExtremeSums();
  }

  // ---------------------------------------------------------------------
  // predict_scenario
  // ---------------------------------------------------------------------

  /** The label table of predict_scenario: codes 0..3, nothing else. */
  function PredictionDecision(code: int): (r: Option<Decision>)
    ensures r.Some? <==> 0 <= code <= 3
  {
    if code == 0 then Some(DoNotEngage)
    else if code == 1 then Some(AskAuthorization)
    else if code == 2 then Some(DoNotKnow)
    else if code == 3 then Some(Engage)
    else None
  }

  /** The code under which the label table lists a decision. */
  function PredictionCode(d: Decision): (code: int)
    ensures 0 <= code <= 3
  {
    match d
    case DoNotEngage => 0
    case AskAuthorization => 1
    case DoNotKnow => 2
    case Engage => 3
  }

  /** The label table is a bijection between the codes 0..3 and the four
      decisions. */
  lemma PredictionCodeRoundTrip(code: int, d: Decision)
    ensures PredictionDecision(PredictionCode(d)) == Some(d)
    ensures PredictionDecision(code) == Some(d) ==> PredictionCode(d) == code
  {
  }

  datatype Prediction = Prediction(code: int, predictionLabel: string)

  datatype PredictError =
    | ClassifierFailed            // model.predict raised
    | UnknownCode(code: int)      // KeyError from the label table

  /** The one-row feature frame: for each trained feature column, the
      scenario's value, or a missing cell when the scenario lacks it. */
  function FeatureRow(numeric: Dict<int>, columns: seq<string>): (row: seq<Option<int>>)
    ensures |row| == |columns|
    ensures forall i :: 0 <= i < |columns| ==> row[i] == Get(numeric, columns[i])
  {
    seq(|columns|, i requires 0 <= i < |columns| => Get(numeric, columns[i]))
  }

  /** predict_scenario, with the trained classifier `classify` and its
      feature columns as parameters; `classify` gives None where the model
      raises. */
  function PredictScenario(numeric: Dict<int>, columns: seq<string>,
                           classify: seq<Option<int>> -> Option<int>): (r: Result<Prediction, PredictError>)
  {
    match classify(FeatureRow(numeric, columns))
    case None => Failure(ClassifierFailed)
    case Some(code) =>
      match PredictionDecision(code)
      case None => Failure(UnknownCode(code))
      case Some(d) => Success(Prediction(code, Label(d)))
  }

  /** predict_scenario returns the classifier's code with its label exactly
      when the code is 0..3, and the label names the decision listed under
      that code. */
  lemma PredictScenarioLabels(numeric: Dict<int>, columns: seq<string>,
                              classify: seq<Option<int>> -> Option<int>)
    ensures var c := classify(FeatureRow(numeric, columns));
            var r := PredictScenario(numeric, columns, classify);
            && (c.None? ==> r == Failure(ClassifierFailed))
            && (c.Some? && !(0 <= c.value <= 3) ==> r == Failure(UnknownCode(c.value)))
            && (c.Some? && 0 <= c.value <= 3 ==>
                  r.Success? && r.value.code == c.value
                  && exists d :: PredictionCode(d) == c.value && r.value.predictionLabel == Label(d))
  {
    var c := classify(FeatureRow(numeric, columns));
    if c.Some? && 0 <= c.value <= 3 {
      var d := PredictionDecision(c.value).value;
      PredictionCodeRoundTrip(c.value, d);
    }
  }
}
