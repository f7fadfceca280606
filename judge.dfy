/** The benchmark judge: asks a model to grade an agent's reasoning from 0 to 5 and never
    lets a failure escape. */
module Judge {
  import opened Wrappers
  import opened Json
  import opened Llm

  /** A grade and its justification; a validated one has 0 <= score <= 5. */
  datatype JudgeResponse = JudgeResponse(score: real, explanation: string)

  predicate ScoreInRange(score: real) {
    0.0 <= score <= 5.0
  }

  /** The judge: its model, and its fixed system instructions. */
  datatype JudgeAgent = JudgeAgent(model: Prompt -> Result<string>, systemPrompt: string)

  /** Builds a `JudgeResponse` from parsed JSON: `score` must be a number in [0, 5] and
      `explanation` a string. */
  function ValidateJudgeResponse(j: Json): (r: Result<JudgeResponse>)
    ensures r.Ok? <==>
      && j.JObject?
      && "score" in j.fields && j.fields["score"].JNumber? && ScoreInRange(j.fields["score"].n)
      && StringField(j, "explanation").Ok?
    ensures r.Ok? ==> ScoreInRange(r.value.score)
    ensures r.Ok? ==> r.value.score == j.fields["score"].n && JString(r.value.explanation) == j.fields["explanation"]
  {
    if !j.JObject? then Err("input should be a valid dictionary")
    else if "score" !in j.fields then Err("score: field required")
    else if !j.fields["score"].JNumber? then Err("score: input should be a valid number")
    else if j.fields["score"].n < 0.0 then Err("score: input should be greater than or equal to 0")
    else if j.fields["score"].n > 5.0 then Err("score: input should be less than or equal to 5")
    else
      var explanation :- StringField(j, "explanation");
      Ok(JudgeResponse(j.fields["score"].n, explanation))
  }

  const TranscriptHeading := "---\nGame Transcript:\n"
  const ReasoningHeading := "\n\nAgent's Reasoning:\n"
  const GroundTruthHeading := "\n\nGround Truth:\n"

  /** The user message: the transcript, then the agent's reasoning, then the dumped ground
      truth, each under its heading. */
  function UserContent(transcript: string, reasoning: string, groundTruth: string): (r: string)
    ensures var t := |TranscriptHeading|;
            var a := t + |transcript| + |ReasoningHeading|;
            var g := a + |reasoning| + |GroundTruthHeading|;
            && t <= a <= g && g + |groundTruth| < |r|
            && r[t..t + |transcript|] == transcript
            && r[a..a + |reasoning|] == reasoning
            && r[g..g + |groundTruth|] == groundTruth
  {
    TranscriptHeading + transcript + ReasoningHeading + reasoning + GroundTruthHeading + groundTruth + "\n"
  }

  /** The judge prompt: the judge's instructions as the system message; the user message
      carries the transcript, the reasoning and the dumped ground truth, each right after its
      heading. */
  function JudgePrompt(judge: JudgeAgent, codec: Codec, transcript: string, reasoning: string, groundTruth: Json): (r: Prompt)
    ensures r.system == judge.systemPrompt
    ensures var d := codec.dumps(groundTruth);
            var t := |TranscriptHeading|;
            var a := t + |transcript| + |ReasoningHeading|;
            var g := a + |reasoning| + |GroundTruthHeading|;
            && g + |d| < |r.user|
            && r.user[t..t + |transcript|] == transcript
            && r.user[a..a + |reasoning|] == reasoning
            && r.user[g..g + |d|] == d
  {
    Prompt(judge.systemPrompt, UserContent(transcript, reasoning, codec.dumps(groundTruth)))
  }

  /** The judged grade, or the first failure on the way to it: the model call raises, the
      reply is not JSON, or the JSON is not a valid `JudgeResponse`. */
  function Grade(judge: JudgeAgent, codec: Codec, transcript: string, reasoning: string, groundTruth: Json): (r: Result<JudgeResponse>)
    ensures var reply := judge.model(JudgePrompt(judge, codec, transcript, reasoning, groundTruth));
            && (reply.Err? ==> r == Err(reply.message))
            && (reply.Ok? && codec.loads(reply.value).Err? ==> r == Err(codec.loads(reply.value).message))
            && (reply.Ok? && codec.loads(reply.value).Ok? ==> r == ValidateJudgeResponse(codec.loads(reply.value).value))
    ensures r.Ok? ==> ScoreInRange(r.value.score)
  {
    var content :- judge.model(JudgePrompt(judge, codec, transcript, reasoning, groundTruth));
    var json :- codec.loads(content);
    ValidateJudgeResponse(json)
  }

  /** `BenchmarkJudgeAgent.evaluate`: total. Any failure gives score 0 and "Error: " followed
      by the message; otherwise the validated reply is returned as it is. Either way the score
      is in [0, 5]. */
  function Evaluate(judge: JudgeAgent, codec: Codec, transcript: string, reasoning: string, groundTruth: Json): (r: JudgeResponse)
    ensures ScoreInRange(r.score)
    ensures var g := Grade(judge, codec, transcript, reasoning, groundTruth);
            && (g.Ok? ==> r == g.value)
            && (g.Err? ==> r == JudgeResponse(0.0, "Error: " + g.message))
  {
    match Grade(judge, codec, transcript, reasoning, groundTruth)
    case Ok(response) => response
    case Err(message) => JudgeResponse(0.0, "Error: " + message)
  }
}
