/** The benchmark harness: every agent is run on every test case; each case yields one score
    record (Metric A, Metric B from the judge, their combination), and each agent gets a
    summary of means over its records. */
module Benchmark {
  import opened Wrappers
  import opened Json
  import opened Schemas
  import opened Metric
  import Judge

  /** One benchmark snapshot: the observation, the true roles, and whatever else the ground
      truth record holds (passed to the judge as it is). */
  datatype TestCase = TestCase(
    id: string, scenario: string, observation: string,
    groundTruthRoles: map<string, string>, groundTruthRest: map<string, Json>)

  /** The whole `ground_truth` record, `roles` included. */
  function GroundTruth(tc: TestCase): Json {
    JObject(tc.groundTruthRest["roles" := RolesToJson(tc.groundTruthRoles)])
  }

  /** An agent under test: its name and, for the case at each position, what its `evaluate`
      returned or raised. The agent keeps memory between cases, so the outcome depends on
      the position in the run and not only on the case. */
  datatype AgentRun = AgentRun(name: string, outcomes: nat -> Result<EvaluationResponse>)

  datatype ScoreRecord = ScoreRecord(
    caseId: string, scenario: string, agent: string,
    metricA: real, metricBRaw: real, metricBNormalized: real, finalScore: real,
    predictedRoles: map<string, string>, groundTruthRoles: map<string, string>,
    agentReasoning: string, judgeExplanation: string)

  predicate ScoresInRange(rec: ScoreRecord) {
    && 0.0 <= rec.metricA <= 1.0
    && 0.0 <= rec.metricBRaw <= 5.0
    && 0.0 <= rec.metricBNormalized <= 1.0
    && 0.0 <= rec.finalScore <= 1.0
  }

  /** The record of one case. An agent that raised is scored as an empty prediction with
      empty reasoning; the judge still grades it. */
  function CaseRecord(judge: Judge.JudgeAgent, codec: Codec, agent: string, tc: TestCase, outcome: Result<EvaluationResponse>): (r: ScoreRecord)
    ensures ScoresInRange(r)
    ensures r.caseId == tc.id && r.scenario == tc.scenario && r.agent == agent
    ensures r.groundTruthRoles == tc.groundTruthRoles
    ensures outcome.Ok? ==> r.predictedRoles == outcome.value.roles && r.agentReasoning == outcome.value.explanation
    ensures outcome.Err? ==> r.predictedRoles == map[] && r.agentReasoning == "" && r.metricA == 0.0
    ensures r.metricA == MetricA(r.predictedRoles, tc.groundTruthRoles)
    ensures var judged := Judge.Evaluate(judge, codec, tc.observation, r.agentReasoning, GroundTruth(tc));
            r.metricBRaw == judged.score && r.judgeExplanation == judged.explanation
    ensures r.metricBNormalized * 5.0 == r.metricBRaw
    ensures r.finalScore == FinalScore(r.metricA, r.metricBNormalized)
  {
    var predicted := if outcome.Ok? then outcome.value.roles else map[];
    var reasoning := if outcome.Ok? then outcome.value.explanation else "";
    var a := MetricA(predicted, tc.groundTruthRoles);
    var judged := Judge.Evaluate(judge, codec, tc.observation, reasoning, GroundTruth(tc));
    var b := NormalizedB(judged.score);
    ScoreRecord(tc.id, tc.scenario, agent, a, judged.score, b, FinalScore(a, b),
                predicted, tc.groundTruthRoles, reasoning, judged.explanation)
  }

  /** A case on which the agent raised and the judge failed as well is scored 0 on every
      metric, and the judge's failure is recorded as "Error: " and its message. */
  lemma FailedCaseScoresZero(judge: Judge.JudgeAgent, codec: Codec, agent: string, tc: TestCase, outcome: Result<EvaluationResponse>)
    requires outcome.Err?
    requires Judge.Grade(judge, codec, tc.observation, "", GroundTruth(tc)).Err?
    ensures var r := CaseRecord(judge, codec, agent, tc, outcome);
            && r.metricA == 0.0 && r.metricBRaw == 0.0 && r.metricBNormalized == 0.0 && r.finalScore == 0.0
            && r.judgeExplanation == "Error: " + Judge.Grade(judge, codec, tc.observation, "", GroundTruth(tc)).message
  {
  }

  /** One iteration of the per-case loop: run the agent (its outcome is given), fall back to
      an empty prediction when it raised, compute Metric A, ask the judge, combine. */
  method ScoreCase(judge: Judge.JudgeAgent, codec: Codec, agent: string, tc: TestCase, outcome: Result<EvaluationResponse>)
    returns (rec: ScoreRecord)
    ensures rec == CaseRecord(judge, codec, agent, tc, outcome)
  {
    var predicted: map<string, string>;
    var reasoning: string;
    match outcome {
      case Ok(response) =>
        predicted := response.roles;
        reasoning := response.explanation;
      case Err(_) =>
        predicted := map[];
        reasoning := "";
    }
    var metricA := CalculateMetricA(predicted, tc.groundTruthRoles);
    var judged := Judge.Evaluate(judge, codec, tc.observation, reasoning, GroundTruth(tc));
    var metricBRaw := judged.score;
    var metricBNormalized := metricBRaw / 5.0;
    var finalScore := (0.5 * metricA) + (0.5 * metricBNormalized);
    assert metricBNormalized == NormalizedB(metricBRaw);
    rec := ScoreRecord(tc.id, tc.scenario, agent, metricA, metricBRaw, metricBNormalized, finalScore,
                       predicted, tc.groundTruthRoles, reasoning, judged.explanation);
  }

  /** The per-case loop for one agent: exactly one record per case, in case order. */
  method RunAgent(judge: Judge.JudgeAgent, codec: Codec, run: AgentRun, cases: seq<TestCase>) returns (records: seq<ScoreRecord>)
    ensures |records| == |cases|
    ensures forall i :: 0 <= i < |cases| ==> records[i] == CaseRecord(judge, codec, run.name, cases[i], run.outcomes(i))
  {
    records := [];
    for i := 0 to |cases|
      invariant |records| == i
      invariant RecordsFor(judge, codec, run, cases, records)
    {
      var rec := ScoreCase(judge, codec, run.name, cases[i], run.outcomes(i));
      RecordsForExtend(judge, codec, run, cases, records, rec);
      records := records + [rec];
    }
  }

  /** `records` holds the records of the first `|records|` cases. */
  predicate RecordsFor(judge: Judge.JudgeAgent, codec: Codec, run: AgentRun, cases: seq<TestCase>, records: seq<ScoreRecord>) {
    && |records| <= |cases|
    && forall j :: 0 <= j < |records| ==> records[j] == CaseRecord(judge, codec, run.name, cases[j], run.outcomes(j))
  }

  lemma RecordsForExtend(judge: Judge.JudgeAgent, codec: Codec, run: AgentRun, cases: seq<TestCase>, records: seq<ScoreRecord>, rec: ScoreRecord)
    requires RecordsFor(judge, codec, run, cases, records) && |records| < |cases|
    requires rec == CaseRecord(judge, codec, run.name, cases[|records|], run.outcomes(|records|))
    ensures RecordsFor(judge, codec, run, cases, records + [rec])
  {
    var i := |records|;
    forall j | 0 <= j < i + 1
      ensures (records + [rec])[j] == CaseRecord(judge, codec, run.name, cases[j], run.outcomes(j))
    {
      if j < i {
        assert (records + [rec])[j] == records[j];
      }
    }
  }

  /** Left-to-right sum, as `sum(...)` and `+=` compute it. */
  function Sum(xs: seq<real>): real {
    if xs == [] then 0.0 else Sum(xs[..|xs| - 1]) + xs[|xs| - 1]
  }

  lemma {:induction false} SumBounds(xs: seq<real>)
    requires forall i :: 0 <= i < |xs| ==> 0.0 <= xs[i] <= 1.0
    ensures 0.0 <= Sum(xs) <= |xs| as real
  {
    if xs != [] {
      SumBounds(xs[..|xs| - 1]);
    }
  }

  /** Arithmetic mean, 0 for no values. */
  function Mean(xs: seq<real>): (r: real)
    ensures (forall i :: 0 <= i < |xs| ==> 0.0 <= xs[i] <= 1.0) ==> 0.0 <= r <= 1.0
    ensures xs == [] ==> r == 0.0
  {
    if xs == [] then 0.0
    else
      SumBoundsIfInRange(xs);
      Sum(xs) / |xs| as real
  }

  lemma SumBoundsIfInRange(xs: seq<real>)
    ensures (forall i :: 0 <= i < |xs| ==> 0.0 <= xs[i] <= 1.0) ==> 0.0 <= Sum(xs) <= |xs| as real
  {
    if forall i :: 0 <= i < |xs| ==> 0.0 <= xs[i] <= 1.0 {
      SumBounds(xs);
    }
  }

  function MetricAs(records: seq<ScoreRecord>): (r: seq<real>)
    ensures |r| == |records| && forall i :: 0 <= i < |records| ==> r[i] == records[i].metricA
  {
    seq(|records|, i requires 0 <= i < |records| => records[i].metricA)
  }

  function MetricBs(records: seq<ScoreRecord>): (r: seq<real>)
    ensures |r| == |records| && forall i :: 0 <= i < |records| ==> r[i] == records[i].metricBNormalized
  {
    seq(|records|, i requires 0 <= i < |records| => records[i].metricBNormalized)
  }

  function FinalScores(records: seq<ScoreRecord>): (r: seq<real>)
    ensures |r| == |records| && forall i :: 0 <= i < |records| ==> r[i] == records[i].finalScore
  {
    seq(|records|, i requires 0 <= i < |records| => records[i].finalScore)
  }

  datatype AgentSummary = AgentSummary(totalCases: nat, avgMetricA: real, avgMetricBNormalized: real, avgFinalScore: real)

  /** The per-agent summary: the number of records and the mean of each score; when every
      record's scores are in range, so are the means. */
  method Summarize(records: seq<ScoreRecord>) returns (s: AgentSummary)
    ensures s.totalCases == |records|
    ensures s.avgMetricA == Mean(MetricAs(records))
    ensures s.avgMetricBNormalized == Mean(MetricBs(records))
    ensures s.avgFinalScore == Mean(FinalScores(records))
    ensures (forall i :: 0 <= i < |records| ==> ScoresInRange(records[i])) ==>
      && 0.0 <= s.avgMetricA <= 1.0
      && 0.0 <= s.avgMetricBNormalized <= 1.0
      && 0.0 <= s.avgFinalScore <= 1.0
  {
    var avgFinal := 0.0;
    for i := 0 to |records|
      invariant avgFinal == Sum(FinalScores(records)[..i])
    {
      assert FinalScores(records)[..i + 1][..i] == FinalScores(records)[..i];
      avgFinal := avgFinal + records[i].finalScore;
    }
    assert FinalScores(records)[..|records|] == FinalScores(records);
    if |records| > 0 {
      avgFinal := avgFinal / |records| as real;
    }
    var avgMetricA := if |records| > 0 then Sum(MetricAs(records)) / |records| as real else 0.0;
    var avgMetricB := if |records| > 0 then Sum(MetricBs(records)) / |records| as real else 0.0;
    s := AgentSummary(|records|, avgMetricA, avgMetricB, avgFinal);
  }

  datatype AgentResult = AgentResult(name: string, summary: AgentSummary, records: seq<ScoreRecord>)

  /** What the run produces for one agent: its name, one record per case in case order,
      and a summary holding the means of those very records, each in [0, 1]. */
  predicate ResultFor(judge: Judge.JudgeAgent, codec: Codec, run: AgentRun, cases: seq<TestCase>, res: AgentResult) {
    && res.name == run.name
    && |res.records| == |cases|
    && (forall i :: 0 <= i < |cases| ==> res.records[i] == CaseRecord(judge, codec, run.name, cases[i], run.outcomes(i)))
    && res.summary.totalCases == |cases|
    && res.summary.avgMetricA == Mean(MetricAs(res.records))
    && res.summary.avgMetricBNormalized == Mean(MetricBs(res.records))
    && res.summary.avgFinalScore == Mean(FinalScores(res.records))
    && 0.0 <= res.summary.avgMetricA <= 1.0
    && 0.0 <= res.summary.avgMetricBNormalized <= 1.0
    && 0.0 <= res.summary.avgFinalScore <= 1.0
  }

  /** `run_benchmark`: every agent on every case, in order; every agent gets one record per
      case whatever its failures, and a summary of the means of its records, within [0, 1]. */
  method RunBenchmark(judge: Judge.JudgeAgent, codec: Codec, runs: seq<AgentRun>, cases: seq<TestCase>) returns (results: seq<AgentResult>)
    ensures |results| == |runs|
    ensures forall k :: 0 <= k < |runs| ==> ResultFor(judge, codec, runs[k], cases, results[k])
  {
    results := [];
    for k := 0 to |runs|
      invariant |results| == k
      invariant forall m :: 0 <= m < k ==> ResultFor(judge, codec, runs[m], cases, results[m])
    {
      var records := RunAgent(judge, codec, runs[k], cases);
      forall i | 0 <= i < |records| ensures ScoresInRange(records[i]) {
        assert records[i] == CaseRecord(judge, codec, runs[k].name, cases[i], runs[k].outcomes(i));
      }
      var summary := Summarize(records);
      var res := AgentResult(runs[k].name, summary, records);
      assert ResultFor(judge, codec, runs[k], cases, res);
      results := results + [res];
    }
  }
}
