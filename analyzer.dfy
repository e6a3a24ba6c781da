/**
 * The FIXO analyser (src/aiAnalyzer.js): a provider chosen once from the
 * environment, a dispatch to that provider, a one-shot fallback to the
 * simulation when the OpenAI call fails, the simulation's random choice from
 * the repair catalogue, the three-tier safety warnings and the normalisation
 * of a model answer into the shared result shape.
 *
 * The OpenAI HTTP exchange is its outcome only (`Answered(answer)` or
 * `Failed`); every `Math.random()` draw is an injected real in [0, 1); the
 * clock and the random tail of an analysis id are injected as well.
 */
module Analyzer {
  import opened Wrappers
  import opened Js
  import opened Catalog

  datatype Provider = OpenAI | Google | Simulation

  /** The environment variables the provider choice reads. */
  datatype Environment = Environment(
    openAiApiKey: Option<string>,
    googleCloudProject: Option<string>,
    googleApplicationCredentials: Option<string>)

  /** The one-time provider choice, in priority order. */
  function DetectProvider(env: Environment): (p: Provider)
    ensures p == OpenAI <==>
      StrTruthy(env.openAiApiKey) && StartsWith(env.openAiApiKey.value, "sk-")
    ensures p == Google <==>
      p != OpenAI && StrTruthy(env.googleCloudProject) && StrTruthy(env.googleApplicationCredentials)
    ensures p == Simulation <==> p != OpenAI && p != Google
  {
    if StrTruthy(env.openAiApiKey) && StartsWith(env.openAiApiKey.value, "sk-") then OpenAI
    else if StrTruthy(env.googleCloudProject) && StrTruthy(env.googleApplicationCredentials) then Google
    else Simulation
  }

  /** The parsed `repairs.json`, or `None` when it cannot be read or parsed. */
  datatype RepairsFile = RepairsFile(repairs: Option<RepairMap>)

  /** `data.repairs || {}`, and `{}` when reading or parsing fails. */
  function LoadRepairDatabase(file: Option<RepairsFile>): (db: RepairMap)
    ensures file.None? || file.value.repairs.None? ==> db == []
    ensures file.Some? && file.value.repairs.Some? ==> db == file.value.repairs.value
  {
    if file.Some? && file.value.repairs.Some? then file.value.repairs.value else []
  }

  // ---------------------------------------------------------------------------
  // Slugs: `name.toLowerCase().replace(/ /g, '-')`

  /** Upper-case letters of Basic Latin, Latin-1 and Latin Extended-A with a one-letter lower case. */
  predicate IsUpper(c: char) {
    || ('A' <= c <= 'Z')
    || ('À' <= c <= 'Þ' && c != '×')
    || ('Ā' <= c <= 'ķ' && (c as int) % 2 == 0 && c != 'İ')
    || ('Ĺ' <= c <= 'ň' && (c as int) % 2 == 1)
    || ('Ŋ' <= c <= 'ŷ' && (c as int) % 2 == 0)
    || c == 'Ÿ'
    || ('Ź' <= c <= 'ž' && (c as int) % 2 == 1)
  }

  /**
   * `toUpperCase` on the lower-case letters that are the images of `IsUpper`
   * letters; every other character is left alone. It is the reference the
   * lower-casing is checked against.
   */
  function UpperOf(l: char): char {
    if 'a' <= l <= 'z' || ('à' <= l <= 'þ' && l != '÷') then (l as int - 32) as char
    else if l == 'ÿ' then 'Ÿ'
    else if ('ā' <= l <= 'ķ' && (l as int) % 2 == 1 && l != 'ı')
         || ('ĺ' <= l <= 'ň' && (l as int) % 2 == 0)
         || ('ŋ' <= l <= 'ŷ' && (l as int) % 2 == 1)
         || ('ź' <= l <= 'ž' && (l as int) % 2 == 0)
    then (l as int - 1) as char
    else l
  }

  /** `toLowerCase` on one character: a capital becomes its own lower-case letter. */
  function LowerChar(c: char): (l: char)
    ensures !IsUpper(l)
    ensures !IsUpper(c) ==> l == c
    ensures IsUpper(c) ==> l != c && UpperOf(l) == c
  {
    if 'A' <= c <= 'Z' || ('À' <= c <= 'Þ' && c != '×') then (c as int + 32) as char
    else if c == 'Ÿ' then 'ÿ'
    else if IsUpper(c) then (c as int + 1) as char
    else c
  }

  /** The pairing pins the lower case down: a capital has exactly one lower-case letter. */
  lemma LowerCaseIsUnique(c: char, l: char)
    requires IsUpper(c) && l != c && UpperOf(l) == c
    ensures l == LowerChar(c)
  {
  }

  /** The identifier derived from a display name. */
  function Slug(name: string): (id: string)
    ensures |id| == |name|
    ensures forall i :: 0 <= i < |id| ==> id[i] != ' ' && !IsUpper(id[i])
    ensures forall i :: 0 <= i < |id| ==> (name[i] == ' ' ==> id[i] == '-')
    ensures forall i :: 0 <= i < |id| ==> (name[i] != ' ' && !IsUpper(name[i]) ==> id[i] == name[i])
    ensures forall i :: 0 <= i < |id| ==> (IsUpper(name[i]) ==> id[i] == LowerChar(name[i]) && UpperOf(id[i]) == name[i])
  {
    seq(|name|, i requires 0 <= i < |name| => if name[i] == ' ' then '-' else LowerChar(name[i]))
  }

  /** A slug is its own slug. */
  lemma SlugIdempotent(name: string)
    ensures Slug(Slug(name)) == Slug(name)
  {
  }

  // ---------------------------------------------------------------------------
  // Result shape

  datatype DetectedObject = DetectedObject(
    id: string, name: string, category: Option<string>, confidence: real)

  datatype DetectedIssue = DetectedIssue(
    id: string, name: string, description: Option<string>, confidence: real, riskScore: Option<int>)

  /** The `recommendations` record; a field the producer omitted is `None`. */
  datatype Recommendations = Recommendations(
    difficulty: Option<string>,
    timeEstimate: Option<string>,
    requiredTools: Option<seq<string>>,
    steps: Option<seq<StepRecord>>,
    safetyWarnings: Option<seq<string>>)

  /** The empty object `{}`. */
  const NoRecommendations := Recommendations(None, None, None, None, None)

  datatype AnalysisResult = AnalysisResult(
    analysisId: string,
    timestamp: string,
    provider: Provider,
    detectedObject: DetectedObject,
    detectedIssue: DetectedIssue,
    recommendations: Recommendations)

  datatype AnalyzeError =
    | NoRepairData   // "No repair data available"
    | TypeError      // a chosen repair without a usable issues list

  /** The clock and the random tail that `_generateId` and `toISOString` read. */
  datatype Ambient = Ambient(nowMillis: nat, isoTime: string, idTail: string)

  predicate ValidAmbient(a: Ambient) {
    |a.isoTime| > 0
  }

  /** `analysis-${Date.now()}-${tail}`. */
  function AnalysisId(a: Ambient): (id: string)
    ensures |id| > 0
  {
    "analysis-" + Decimal(a.nowMillis) + "-" + a.idTail
  }

  // ---------------------------------------------------------------------------
  // Safety warnings

  const HighRiskWarning := "⚠️ VYSOKÉ RIZIKO! Doporučujeme konzultaci s odborníkem."
  const ShutOffWarning := "Před prací vypněte hlavní přívod (elektřina/voda/plyn)."
  const CautionWarning := "⚠️ Buďte opatrní a dodržujte bezpečnostní pokyny."
  const ConsultWarning := "Pokud si nejste jisti, konzultujte s odborníkem."
  const BasicWarning := "Dodržujte základní bezpečnostní pravidla."

  /** The three tiers; an absent score compares false with both thresholds. */
  function SafetyWarnings(riskScore: Option<int>): (w: seq<string>)
    ensures riskScore.Some? && riskScore.value >= 8 ==> w == [HighRiskWarning, ShutOffWarning]
    ensures riskScore.Some? && 5 <= riskScore.value < 8 ==> w == [CautionWarning, ConsultWarning]
    ensures riskScore.None? || riskScore.value < 5 ==> w == [BasicWarning]
    ensures |w| > 0
  {
    if riskScore.Some? && riskScore.value >= 8 then [HighRiskWarning, ShutOffWarning]
    else if riskScore.Some? && riskScore.value >= 5 then [CautionWarning, ConsultWarning]
    else [BasicWarning]
  }

  /** Each tier is told apart by its first line, so a higher score never yields a milder list. */
  lemma TiersAreDistinct(a: int, b: int)
    requires a < 5 <= b
    ensures SafetyWarnings(Some(a))[0] != SafetyWarnings(Some(b))[0]
  {
  }

  /** `_generateSafetyWarnings`, pushing onto a local list. */
  method GenerateSafetyWarnings(riskScore: Option<int>) returns (warnings: seq<string>)
    ensures warnings == SafetyWarnings(riskScore)
  {
    warnings := [];
    if riskScore.Some? && riskScore.value >= 8 {
      warnings := warnings + [HighRiskWarning];
      warnings := warnings + [ShutOffWarning];
    } else if riskScore.Some? && riskScore.value >= 5 {
      warnings := warnings + [CautionWarning];
      warnings := warnings + [ConsultWarning];
    } else {
      warnings := warnings + [BasicWarning];
    }
  }

  // ---------------------------------------------------------------------------
  // Simulation

  /** The `Math.random()` values the simulation draws, in order. */
  datatype Draws = Draws(objectPick: real, issuePick: real, objectConfidence: real, issueConfidence: real)

  predicate Unit(r: real) {
    0.0 <= r < 1.0
  }

  predicate ValidDraws(d: Draws) {
    Unit(d.objectPick) && Unit(d.issuePick) && Unit(d.objectConfidence) && Unit(d.issueConfidence)
  }

  /** `Math.floor(r * n)`: a uniform index into a list of length `n`. */
  function PickIndex(r: real, n: nat): (i: nat)
    requires Unit(r)
    ensures n > 0 ==> i < n
    ensures n == 0 ==> i == 0
  {
    var x := r * n as real;
    assert 0.0 <= x by {
      assert 0.0 <= r && 0.0 <= n as real;
    }
    assert n > 0 ==> x < n as real by {
      if n > 0 {
        assert r * n as real < 1.0 * n as real;
      }
    }
    x.Floor
  }

  /** `_randomConfidence(lo, hi)`: `r * (hi - lo) + lo`, exact arithmetic. */
  function RandomConfidence(r: real, lo: real, hi: real): (c: real)
    requires Unit(r) && lo < hi
    ensures lo <= c < hi
  {
    Scaled(r, hi - lo) + lo
  }

  /** `r * w`, for a draw `r` and a positive width `w`. */
  function Scaled(r: real, w: real): (c: real)
    requires Unit(r) && 0.0 < w
    ensures 0.0 <= c
    ensures c < w
  {
    assert 0.0 < (1.0 - r) * w;
    r * w
  }

  /** The simulation's result for a catalogue and a set of draws. */
  function Simulated(db: RepairMap, d: Draws, a: Ambient): (r: Result<AnalysisResult, AnalyzeError>)
    requires ValidDraws(d)
    ensures |db| == 0 ==> r == Err(NoRepairData)
    ensures r.Ok? ==> r.value.provider == Simulation && r.value.analysisId == AnalysisId(a) && r.value.timestamp == a.isoTime
    ensures r.Ok? ==> r.value.recommendations.safetyWarnings == Some(SafetyWarnings(r.value.detectedIssue.riskScore))
  {
    var objects := Values(db);
    if |objects| == 0 then Err(NoRepairData)
    else
      var chosen := objects[PickIndex(d.objectPick, |objects|)];
      if chosen.issues.None? || |chosen.issues.value| == 0 then Err(TypeError)
      else
        var issues := chosen.issues.value;
        var issue := issues[PickIndex(d.issuePick, |issues|)];
        Ok(AnalysisResult(
          AnalysisId(a),
          a.isoTime,
          Simulation,
          DetectedObject(Slug(chosen.name), chosen.name, chosen.category,
                         RandomConfidence(d.objectConfidence, 0.75, 0.95)),
          DetectedIssue(issue.id, issue.name, issue.description,
                        RandomConfidence(d.issueConfidence, 0.80, 0.98), issue.riskScore),
          Recommendations(issue.difficulty, issue.timeEstimate,
                          Some(ObjOr(issue.tools, [])), Some(ObjOr(issue.steps, [])),
                          Some(SafetyWarnings(issue.riskScore)))))
  }

  /** The result describes `repair` and `issue`, as the simulation assembles it. */
  ghost predicate SimulatedFrom(res: AnalysisResult, repair: Repair, issue: IssueRecord) {
    && res.provider == Simulation
    && res.detectedObject.id == Slug(repair.name)
    && res.detectedObject.name == repair.name
    && res.detectedObject.category == repair.category
    && 0.75 <= res.detectedObject.confidence < 0.95
    && res.detectedIssue.id == issue.id
    && res.detectedIssue.name == issue.name
    && res.detectedIssue.description == issue.description
    && 0.80 <= res.detectedIssue.confidence < 0.98
    && res.detectedIssue.riskScore == issue.riskScore
    && res.recommendations.difficulty == issue.difficulty
    && res.recommendations.timeEstimate == issue.timeEstimate
    && res.recommendations.requiredTools == Some(if issue.tools.Some? then issue.tools.value else [])
    && res.recommendations.steps == Some(if issue.steps.Some? then issue.steps.value else [])
    && res.recommendations.safetyWarnings == Some(SafetyWarnings(issue.riskScore))
  }

  /** An empty catalogue is the one fatal error of the simulation that does not depend on the draws. */
  lemma SimulationEmptyCatalogue(d: Draws, a: Ambient)
    requires ValidDraws(d)
    ensures Simulated([], d, a) == Err(NoRepairData)
  {
  }

  /**
   * A successful simulation describes a repair of the catalogue and one of
   * that repair's issues, is tagged `simulation` and carries an id and a
   * timestamp.
   */
  lemma SimulationDrawsFromCatalogue(db: RepairMap, d: Draws, a: Ambient)
    requires ValidDraws(d) && ValidAmbient(a)
    requires Simulated(db, d, a).Ok?
    ensures exists i, j ::
      && 0 <= i < |db| && db[i].1.issues.Some? && 0 <= j < |db[i].1.issues.value|
      && SimulatedFrom(Simulated(db, d, a).value, db[i].1, db[i].1.issues.value[j])
    ensures |Simulated(db, d, a).value.analysisId| > 0 && |Simulated(db, d, a).value.timestamp| > 0
  {
    var i := PickIndex(d.objectPick, |db|);
    var issues := db[i].1.issues.value;
    var j := PickIndex(d.issuePick, |issues|);
    assert SimulatedFrom(Simulated(db, d, a).value, db[i].1, issues[j]);
  }

  /** A simulation fails exactly when the catalogue is empty or the drawn repair has no issue. */
  lemma SimulationFailure(db: RepairMap, d: Draws, a: Ambient)
    requires ValidDraws(d)
    ensures Simulated(db, d, a).Err? <==>
      |db| == 0 || (var c := db[PickIndex(d.objectPick, |db|)].1; c.issues.None? || |c.issues.value| == 0)
    ensures Simulated(db, d, a) == Err(NoRepairData) <==> |db| == 0
  {
  }

  /** A one-repair, one-issue catalogue is answered with that repair and issue, whatever the draws. */
  lemma SimulationSingleEntry(key: string, repair: Repair, issue: IssueRecord, d: Draws, a: Ambient)
    requires ValidDraws(d)
    requires repair.issues == Some([issue])
    ensures Simulated([(key, repair)], d, a).Ok?
    ensures SimulatedFrom(Simulated([(key, repair)], d, a).value, repair, issue)
  {
    assert Values([(key, repair)]) == [repair];
  }

  /** The faucet catalogue: one low-risk issue, so the only warning is the basic reminder. */
  lemma FaucetScenario(d: Draws, a: Ambient)
    requires ValidDraws(d)
    ensures
      var leak := IssueRecord("leak", "Leaking", Some("..."), Some(2), Some("Low"), Some("15 min"),
                              Some(["wrench"]), Some([StepRecord(1, "Shut water", Some("1 min"), Some("🚰"), None)]), None);
      var r := Simulated([("faucet", Repair("Faucet", Some("water"), None, Some([leak])))], d, a);
      && r.Ok?
      && r.value.detectedObject.name == "Faucet"
      && r.value.detectedObject.id == "faucet"
      && r.value.detectedIssue.riskScore == Some(2)
      && r.value.recommendations.safetyWarnings == Some([BasicWarning])
  {
    var leak := IssueRecord("leak", "Leaking", Some("..."), Some(2), Some("Low"), Some("15 min"),
                            Some(["wrench"]), Some([StepRecord(1, "Shut water", Some("1 min"), Some("🚰"), None)]), None);
    var repair := Repair("Faucet", Some("water"), None, Some([leak]));
    SimulationSingleEntry("faucet", repair, leak, d, a);
    assert Slug("Faucet") == "faucet";
  }

  // ---------------------------------------------------------------------------
  // Normalisation of an OpenAI answer

  datatype AiObject = AiObject(name: Option<string>, category: Option<string>, confidence: Option<real>)
  datatype AiIssue = AiIssue(name: Option<string>, description: Option<string>, confidence: Option<real>, riskScore: Option<int>)
  /** The JSON the model answered with; any part of it may be missing. */
  datatype AiAnswer = AiAnswer(obj: Option<AiObject>, issue: Option<AiIssue>, recommendations: Option<Recommendations>)

  /** What the HTTP exchange with OpenAI came to: a parsed answer, or any failure on the way. */
  datatype OpenAiOutcome = Answered(answer: AiAnswer) | Failed

  /** `answer.object.name.toLowerCase()` and `answer.issue.name.toLowerCase()` do not throw. */
  predicate Normalisable(answer: AiAnswer) {
    answer.obj.Some? && answer.obj.value.name.Some? && answer.issue.Some? && answer.issue.value.name.Some?
  }

  /** `_formatAnalysisResult`; `None` when it throws on a missing object, issue or name. */
  function FormatAnalysisResult(answer: AiAnswer, provider: Provider, a: Ambient): (r: Option<AnalysisResult>)
    ensures r.Some? <==> Normalisable(answer)
    ensures r.Some? ==>
      var o, i, res := answer.obj.value, answer.issue.value, r.value;
      && res.provider == provider
      && res.analysisId == AnalysisId(a) && res.timestamp == a.isoTime
      && res.detectedObject.id == Slug(o.name.value) && res.detectedObject.name == o.name.value
      && res.detectedIssue.id == Slug(i.name.value) && res.detectedIssue.name == i.name.value
      && res.detectedIssue.description == i.description
      // defaults replace falsy values only
      && res.detectedObject.category == Some(if StrTruthy(o.category) then o.category.value else "ostatní")
      && res.detectedObject.confidence == (if o.confidence.Some? && o.confidence.value != 0.0 then o.confidence.value else 0.5)
      && res.detectedIssue.confidence == (if i.confidence.Some? && i.confidence.value != 0.0 then i.confidence.value else 0.5)
      && res.detectedIssue.riskScore == Some(if i.riskScore.Some? && i.riskScore.value != 0 then i.riskScore.value else 5)
      // recommendations pass through untouched: no safety-warning tiers here
      && res.recommendations == (if answer.recommendations.Some? then answer.recommendations.value else NoRecommendations)
  {
    if !Normalisable(answer) then None
    else
      var o, i := answer.obj.value, answer.issue.value;
      Some(AnalysisResult(
        AnalysisId(a),
        a.isoTime,
        provider,
        DetectedObject(Slug(o.name.value), o.name.value, Some(StrOr(o.category, "ostatní")), RealOr(o.confidence, 0.5)),
        DetectedIssue(Slug(i.name.value), i.name.value, i.description, RealOr(i.confidence, 0.5), Some(IntOr(i.riskScore, 5))),
        ObjOr(answer.recommendations, NoRecommendations)))
  }

  /** A normalised answer never carries a falsy category or risk score. */
  lemma FormatDefaultsAreTruthy(answer: AiAnswer, provider: Provider, a: Ambient)
    requires Normalisable(answer)
    ensures StrTruthy(FormatAnalysisResult(answer, provider, a).value.detectedObject.category)
    ensures FormatAnalysisResult(answer, provider, a).value.detectedIssue.riskScore.value != 0
  {
  }

  /** A risk score of 0 is falsy and becomes 5. */
  lemma FormatZeroRiskBecomesFive(o: AiObject, i: AiIssue, recs: Option<Recommendations>, provider: Provider, a: Ambient)
    requires o.name.Some? && i.name.Some? && i.riskScore == Some(0)
    ensures FormatAnalysisResult(AiAnswer(Some(o), Some(i), recs), provider, a).value.detectedIssue.riskScore == Some(5)
  {
  }

  // ---------------------------------------------------------------------------
  // The analyser object

  /** The OpenAI path as a value: the normalised answer, or the simulation on any failure. */
  function OpenAiPath(db: RepairMap, outcome: OpenAiOutcome, d: Draws, a: Ambient): (r: Result<AnalysisResult, AnalyzeError>)
    requires ValidDraws(d)
    ensures outcome.Answered? && Normalisable(outcome.answer) ==>
      r.Ok? && r.value.provider == OpenAI && Some(r.value) == FormatAnalysisResult(outcome.answer, OpenAI, a)
    ensures !(outcome.Answered? && Normalisable(outcome.answer)) ==> r == Simulated(db, d, a)
  {
    if outcome.Answered? && Normalisable(outcome.answer) then Ok(FormatAnalysisResult(outcome.answer, OpenAI, a).value)
    else Simulated(db, d, a)
  }

  /**
   * The Google path as a value: the simulation, and, when that throws, the
   * simulation once more with fresh draws, a fresh clock and a fresh id; a
   * second failure reaches the caller.
   */
  function GooglePath(db: RepairMap, d: Draws, a: Ambient, retry: Draws, retryAmbient: Ambient): (r: Result<AnalysisResult, AnalyzeError>)
    requires ValidDraws(d) && ValidDraws(retry)
    ensures Simulated(db, d, a).Ok? ==> r == Simulated(db, d, a)
    ensures Simulated(db, d, a).Err? ==> r == Simulated(db, retry, retryAmbient)
  {
    var first := Simulated(db, d, a);
    if first.Ok? then first else Simulated(db, retry, retryAmbient)
  }

  /**
   * The Google path fails only when both attempts fail; only an empty
   * catalogue fails whatever the draws, and it fails with "No repair data
   * available".
   */
  lemma GooglePathFailure(db: RepairMap, d: Draws, a: Ambient, retry: Draws, retryAmbient: Ambient)
    requires ValidDraws(d) && ValidDraws(retry)
    ensures GooglePath(db, d, a, retry, retryAmbient).Err? <==>
      Simulated(db, d, a).Err? && Simulated(db, retry, retryAmbient).Err?
    ensures GooglePath(db, d, a, retry, retryAmbient).Ok? ==>
      GooglePath(db, d, a, retry, retryAmbient).value.provider == Simulation
    ensures GooglePath(db, d, a, retry, retryAmbient) == Err(NoRepairData) <==> |db| == 0
  {
    SimulationFailure(db, d, a);
    SimulationFailure(db, retry, retryAmbient);
  }

  /**
   * A draw that lands on a repair without issues is retried: when the second
   * draw lands on a repair with issues, the caller gets an answer.
   */
  lemma GoogleRetryRecovers(a: Ambient, retryAmbient: Ambient)
    ensures
      var bare := Repair("A", None, None, Some([]));
      var leak := IssueRecord("leak", "Leaking", None, Some(2), None, None, None, None, None);
      var db := [("a", bare), ("b", Repair("B", None, None, Some([leak])))];
      var first, retry := Draws(0.1, 0.0, 0.0, 0.0), Draws(0.9, 0.0, 0.0, 0.0);
      && Simulated(db, first, a) == Err(TypeError)
      && GooglePath(db, first, a, retry, retryAmbient).Ok?
      && GooglePath(db, first, a, retry, retryAmbient).value.detectedObject.name == "B"
  {
    var bare := Repair("A", None, None, Some([]));
    var leak := IssueRecord("leak", "Leaking", None, Some(2), None, None, None, None, None);
    var db := [("a", bare), ("b", Repair("B", None, None, Some([leak])))];
    assert Values(db) == [bare, db[1].1];
    assert PickIndex(0.1, 2) == 0;
    assert PickIndex(0.9, 2) == 1;
  }

  /** A failed call is never seen by the caller: it gets exactly the simulation's answer. */
  lemma OpenAiFailureFallsBack(db: RepairMap, d: Draws, a: Ambient)
    requires ValidDraws(d)
    ensures OpenAiPath(db, Failed, d, a) == Simulated(db, d, a)
  {
  }

  /** Every result of the OpenAI path is tagged `openai` or `simulation`, and only the simulation can fail. */
  lemma OpenAiPathTags(db: RepairMap, outcome: OpenAiOutcome, d: Draws, a: Ambient)
    requires ValidDraws(d)
    ensures OpenAiPath(db, outcome, d, a).Ok? ==>
      (OpenAiPath(db, outcome, d, a).value.provider == OpenAI <==> outcome.Answered? && Normalisable(outcome.answer))
    ensures OpenAiPath(db, outcome, d, a).Err? ==> Simulated(db, d, a).Err?
  {
    var r := OpenAiPath(db, outcome, d, a);
    if r.Ok? && !(outcome.Answered? && Normalisable(outcome.answer)) {
      var i := PickIndex(d.objectPick, |db|);
      assert r.value.provider == Simulation;
    }
  }

  class AIAnalyzer {
    const provider: Provider
    const repairDatabase: RepairMap

    /** The provider and the catalogue are fixed once, at construction. */
    constructor (env: Environment, file: Option<RepairsFile>)
      ensures provider == DetectProvider(env)
      ensures repairDatabase == LoadRepairDatabase(file)
    {
      provider := DetectProvider(env);
      repairDatabase := LoadRepairDatabase(file);
    }

    /** `_analyzeWithSimulation`. */
    method AnalyzeWithSimulation(d: Draws, a: Ambient) returns (r: Result<AnalysisResult, AnalyzeError>)
      requires ValidDraws(d)
      ensures r == Simulated(repairDatabase, d, a)
    {
      var objects := Values(repairDatabase);
      if |objects| == 0 {
        return Err(NoRepairData);
      }
      var chosen := objects[PickIndex(d.objectPick, |objects|)];
      if chosen.issues.None? {
        return Err(TypeError);
      }
      var issues := chosen.issues.value;
      var k := PickIndex(d.issuePick, |issues|);
      if k >= |issues| {
        // `issues[0]` of an empty list is `undefined`, and reading its `id` throws
        return Err(TypeError);
      }
      var issue := issues[k];
      var warnings := GenerateSafetyWarnings(issue.riskScore);
      var tools := if issue.tools.Some? then issue.tools.value else [];
      var steps := if issue.steps.Some? then issue.steps.value else [];
      r := Ok(AnalysisResult(
        AnalysisId(a),
        a.isoTime,
        Simulation,
        DetectedObject(Slug(chosen.name), chosen.name, chosen.category,
                       RandomConfidence(d.objectConfidence, 0.75, 0.95)),
        DetectedIssue(issue.id, issue.name, issue.description,
                      RandomConfidence(d.issueConfidence, 0.80, 0.98), issue.riskScore),
        Recommendations(issue.difficulty, issue.timeEstimate, Some(tools), Some(steps), Some(warnings))));
    }

    /**
     * `_analyzeWithGoogle`: not implemented upstream, it answers with the
     * simulation; because the simulation is awaited inside the `try`, a
     * simulation that throws is run a second time by the `catch`.
     */
    method AnalyzeWithGoogle(d: Draws, a: Ambient, retry: Draws, retryAmbient: Ambient) returns (r: Result<AnalysisResult, AnalyzeError>)
      requires ValidDraws(d) && ValidDraws(retry)
      ensures r == GooglePath(repairDatabase, d, a, retry, retryAmbient)
    {
      r := AnalyzeWithSimulation(d, a);
      if r.Err? {
        r := AnalyzeWithSimulation(retry, retryAmbient);
      }
    }

    /** `_analyzeWithOpenAI`: the normalised answer, or the simulation when the call or the normalisation throws. */
    method AnalyzeWithOpenAI(outcome: OpenAiOutcome, d: Draws, a: Ambient) returns (r: Result<AnalysisResult, AnalyzeError>)
      requires ValidDraws(d)
      ensures outcome.Answered? && Normalisable(outcome.answer) ==>
        r == Ok(FormatAnalysisResult(outcome.answer, provider, a).value)
      ensures !(outcome.Answered? && Normalisable(outcome.answer)) ==> r == Simulated(repairDatabase, d, a)
    {
      if outcome.Answered? {
        var formatted := FormatAnalysisResult(outcome.answer, provider, a);
        if formatted.Some? {
          return Ok(formatted.value);
        }
      }
      r := AnalyzeWithSimulation(d, a);
    }

    /**
     * `analyze`: dispatch on the provider chosen at construction. `retry` and
     * `retryAmbient` are what the Google path's second simulation draws.
     */
    method Analyze(outcome: OpenAiOutcome, d: Draws, a: Ambient, retry: Draws, retryAmbient: Ambient)
      returns (r: Result<AnalysisResult, AnalyzeError>)
      requires ValidDraws(d) && ValidAmbient(a) && ValidDraws(retry) && ValidAmbient(retryAmbient)
      ensures provider == OpenAI ==> r == OpenAiPath(repairDatabase, outcome, d, a)
      ensures provider == Google ==> r == GooglePath(repairDatabase, d, a, retry, retryAmbient)
      ensures provider == Simulation ==> r == Simulated(repairDatabase, d, a)
      ensures r.Ok? ==> r.value.provider == provider || r.value.provider == Simulation
      ensures r.Ok? ==> |r.value.analysisId| > 0 && |r.value.timestamp| > 0
      ensures r.Err? ==> Simulated(repairDatabase, d, a).Err?
    {
      match provider {
        case OpenAI =>
          r := AnalyzeWithOpenAI(outcome, d, a);
          OpenAiPathTags(repairDatabase, outcome, d, a);
        case Google =>
          r := AnalyzeWithGoogle(d, a, retry, retryAmbient);
        case Simulation =>
          r := AnalyzeWithSimulation(d, a);
      }
      if r.Ok? && r.value.provider == Simulation {
        if Simulated(repairDatabase, d, a).Ok? {
          SimulationDrawsFromCatalogue(repairDatabase, d, a);
        } else {
          SimulationDrawsFromCatalogue(repairDatabase, retry, retryAmbient);
        }
      }
    }
  }
}
