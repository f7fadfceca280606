# Mafia agents: reasoning pipeline and benchmark scoring

A Dafny model of the deterministic core of a set of agents that play the hidden-role game
Mafia, and of the benchmark that scores them. The model has two parts.

- The memory-keeping agents, Revac 2.1 and Revac 8. On each turn an agent runs these stages:
  1. It asks a model to regenerate its memory (player profiles plus a social alignment
     graph).
  2. It commits the new memory only when the reply is JSON that validates. Otherwise it keeps
     the old memory.
  3. It asks a reviewer model for a situational review, with the memory rendered as text.
  4. In gameplay mode it asks an action model for the move. Revac 8 first asks a tone model
     for a style directive and splices that directive into the action instructions.
  5. In benchmark mode it asks a parse model to turn the review into an `EvaluationResponse`
     (player → role, plus an explanation). A reply that does not validate is raised.
- The benchmark engine:
  - Metric A: role accuracy. A role is compared after `lower().strip()`.
  - Metric B: a judge model's grade from 0 to 5. The judge wrapper turns any failure into
    score 0 and "Error: …".
  - The final score weights A and B/5 equally.
  - Each case produces one record, even when the agent raises.
  - Each agent gets a summary of the means over its records.

Every model call is an oracle. `Llm.Models` maps a stage and a prompt to the reply or to the
error it raised. `json.loads` and `json.dumps` are supplied as a `Json.Codec`. Because of this,
every property below holds for every possible model behaviour. The agents are classes whose
`memory` field is updated in place. Each agent method also returns the trace of model calls it
made, so that the order of the stages and the content of each prompt can be stated.

Modules: `Wrappers` (Result), `Json`, `Text` (lower, strip, replace), `Llm`, `Schemas`,
`Judge`, `Pipeline` (the stages the two agents share), `Revac2`, `Revac8`, `Metric`,
`Benchmark`.

Four facts about the code shape the model:

- A failing model call in `update_memory` propagates: `model_memory.invoke` sits outside the
  `try` (src/agents/revac2_1.py:65, src/agents/revac8.py:67). Only a reply that fails to parse
  or validate leaves the memory as it was.
- When an agent raises on a benchmark case, the record's reasoning is the empty string and the
  error text goes only to `raw_response` (benchmark/test.py:108-111).
- The schema fields are plain `str` and `Dict[str, str]` (src/agents/schemas.py:6-37), so
  validation does not check the closed vocabularies named in the field descriptions:
  Villager/Mafia, accuses/defends/claims_role, and "Player N".
- The tone stage returns the tone model's reply stripped of whitespace and does no
  classification of its own (src/agents/revac8.py:103).

## Model

| member | source | states |
|---|---|---|
| Text.Lower | benchmark/test.py:43 | `lower()` keeps the length and lowers each character independently (ASCII letters) |
| Text.TrimStart | benchmark/test.py:43 | the result is a suffix; everything dropped is whitespace; it does not start with whitespace |
| Text.TrimEnd | benchmark/test.py:43 | the result is a prefix; everything dropped is whitespace; it does not end with whitespace |
| Text.Strip | src/agents/revac8.py:103 | `strip()` never lengthens and leaves no whitespace at either end |
| Text.Normalize | benchmark/test.py:43 | the comparison key `lower().strip()` is trimmed and holds no upper-case letter |
| Text.StripPadded | benchmark/test.py:43 | padding a trimmed string with whitespace on both sides and stripping gives it back |
| Text.StripIdempotent | src/agents/revac8.py:103 | stripping twice is stripping once |
| Text.StripSplits | benchmark/test.py:43 | every string is whitespace + its stripped core + whitespace |
| Text.StripIgnoresPadding | benchmark/test.py:43 | surrounding whitespace never changes the result of `strip()` |
| Text.NormalizeIgnoresCaseAndPadding | benchmark/test.py:43 | two roles equal up to ASCII case and surrounding whitespace have the same key |
| Text.Replace | src/agents/revac8.py:138-141 | `replace` keeps the length when the replacement is as long as the pattern, and replacing a pattern by itself changes nothing |
| Text.ReplaceAbsent | src/agents/revac8.py:138-141 | `replace` leaves text without the pattern unchanged |
| Text.ReplaceSkips | src/agents/revac8.py:138-141 | text before the first occurrence is copied through unchanged |
| Text.ReplaceOnce | src/agents/revac8.py:138-141 | with exactly one occurrence, `replace` splices the replacement in there and changes nothing else |
| Json.StringField | src/agents/schemas.py:19-30 | a required `str` field is accepted iff present and a string, and its value is that string |
| Schemas.StringMap | src/agents/schemas.py:6-9 | a `Dict[str, str]` is accepted iff it is an object of strings; same keys, same values |
| Schemas.ValidateEvaluationResponse | src/agents/schemas.py:5-13 | accepted iff `roles` is a string map and `explanation` a string; both are carried over unchanged |
| Schemas.ValidateSocialRelation | src/agents/schemas.py:17-30 | accepted iff `player`, `relation` and `target` are strings (any strings); the values are carried over |
| Schemas.ValidateRelations | src/agents/schemas.py:38-41 | a list is accepted iff every element validates; the result has the same length and order |
| Schemas.ValidateMemory | src/agents/schemas.py:32-41 | accepted iff the profiles field is a string and the graph is a list of valid relations |
| Schemas.RelationsToJson | src/agents/revac2_1.py:52-55 | the snapshot has one entry per relation, and entry i is the dict of relation i |
| Schemas.RelationRoundTrip | src/agents/schemas.py:17-30 | validating the dict built from a relation gives that relation back |
| Schemas.RelationsRoundTrip | src/agents/revac2_1.py:52-55 | validating the snapshot of a relation list gives the list back, in order |
| Schemas.MemoryRoundTrip | src/agents/revac2_1.py:50-56 | the memory snapshot (`MemoryToJson`) sent to the model validates back to the memory itself |
| Schemas.RolesRoundTrip | src/agents/schemas.py:6-9 | any string-to-string role map is accepted as `roles` unchanged |
| Schemas.EvaluationResponseNeedsBothFields | src/agents/schemas.py:5-13 | a response missing `roles` or `explanation` is rejected |
| Schemas.MemoryNeedsProfileString | src/agents/schemas.py:34-37 | a memory whose `player_profiles` is missing or not a string is rejected |
| Judge.ValidateJudgeResponse | src/agents/judge_agent.py:9-20 | accepted iff `score` is a number in [0, 5] and `explanation` a string; the validated score is in range |
| Judge.UserContent | src/agents/judge_agent.py:71-80 | the judge's user message holds the transcript, then the reasoning, then the dumped ground truth, each whole and in that order |
| Judge.JudgePrompt | src/agents/judge_agent.py:82-84 | the judge's system prompt is the system message; the user message holds the transcript, the reasoning and the dumped ground truth, each right after its heading |
| Judge.Grade | src/agents/judge_agent.py:86-90 | the first failure among model call, `json.loads` and validation is the outcome; a grade is always in [0, 5] |
| Judge.Evaluate | src/agents/judge_agent.py:59-93 | total: a valid grade is returned as it is; any failure gives score 0 and "Error: " + message; the score is always in [0, 5] |
| Pipeline.MemoryPromptLayout | src/agents/revac2_1.py:58-62 | `MemoryPrompt`: the system message is the memory instructions plus the JSON-output reminder; the user message holds the dumped memory snapshot right after its heading and ends with the observation |
| Pipeline.ParseMemory | src/agents/revac2_1.py:69-70 | a reply is a memory iff it is JSON and validates as `RevacMemory`, and the memory is the validated value |
| Pipeline.CommitOrKeep | src/agents/revac2_1.py:68-77 | a parsed memory replaces the current one wholesale; a failed parse keeps the current one exactly |
| Pipeline.UpdatedMemory | src/agents/revac2_1.py:34-77 | the memory step fails iff the model call raises; otherwise it is commit-or-keep of the parsed reply |
| Pipeline.ProfilesText | src/agents/revac2_1.py:96 | the profiles section is the profile text, or "No profiles yet" when it is empty; never empty |
| Pipeline.GraphText | src/agents/revac2_1.py:99-100 | the graph section is the dumped relation list, or "No relations recorded yet" when there is none |
| Pipeline.RenderMemoryLayout | src/agents/revac2_1.py:93-101 | `RenderMemory`: the profiles section follows its heading, the graph section follows the profiles section and its heading, and a line break ends the text |
| Pipeline.ReviewPromptLayout | src/agents/revac2_1.py:103-106 | `ReviewPrompt`: the reviewer prompt is the system message; the user message starts with the rendered memory and ends with the observation |
| Pipeline.ActionPromptLayout | src/agents/revac2_1.py:112-116 | `ActionPrompt`: the action prompt is the system message; the user message holds the observation right after its heading and ends with the review |
| Pipeline.ParseEvaluation | src/agents/revac2_1.py:169-177 | a parse reply is a result iff it is JSON and validates as `EvaluationResponse`, and the result is the validated value |
| Revac2.Revac2Agent.constructor | src/agents/revac2_1.py:28-32 | a new agent has empty profiles and an empty graph |
| Revac2.Revac2Agent.UpdateMemory | src/agents/revac2_1.py:34-77 | one memory-stage call with the snapshot of the old memory; raises iff the call raises (memory unchanged); otherwise commit-or-keep, and returns the new memory |
| Revac2.Revac2Agent.Act | src/agents/revac2_1.py:79-120 | the stages run memory, review, action, in that order, and stop at the first call that raises; the review sees the updated memory, and the action sees the observation and the review; the move is the action reply |
| Revac2.Revac2Agent.Evaluate | src/agents/revac2_1.py:122-177 | the stages run memory, review, parse; the parse model receives the review verbatim; a parse reply that does not validate is an error; a valid one is the result |
| Revac8.TonePromptLayout | src/agents/revac8.py:95-98 | `TonePrompt`: the tone selector prompt is the system message; the user message holds the review right after its heading and ends with the observation |
| Revac8.SelectTone | src/agents/revac8.py:79-103 | the tone is the tone model's reply with surrounding whitespace stripped; a failing call propagates |
| Revac8.ToneSplicedOnce | src/agents/revac8.py:138-141 | `ActionSystemPrompt`: a template holding the placeholder once becomes the template with the tone in its place |
| Revac8.NoPlaceholderNoChange | src/agents/revac8.py:138-141 | `ActionSystemPrompt`: a template without the placeholder is sent unchanged |
| Revac8.Revac8Agent.constructor | src/agents/revac8.py:31-34 | a new agent has empty profiles and an empty graph |
| Revac8.Revac8Agent.UpdateMemory | src/agents/revac8.py:36-77 | as in Revac 2.1: raises iff the model call raises; otherwise commit-or-keep |
| Revac8.Revac8Agent.Act | src/agents/revac8.py:105-151 | the stages run memory, review, tone, action, stopping at the first failure; the action system message is the template with the stripped tone spliced in |
| Revac8.Revac8Agent.Evaluate | src/agents/revac8.py:153-207 | the stages run memory, review, parse, and the tone stage never runs; an invalid parse reply is an error |
| Metric.CorrectPlayers | benchmark/test.py:41-44 | a player is correct iff they are in the ground truth, predicted, with a non-empty role equal under `lower().strip()`; only ground-truth players |
| Metric.MetricA | benchmark/test.py:30-46 | Metric A lies in [0, 1]; it is 0 for an empty prediction and for an empty ground truth |
| Metric.Ratio | benchmark/test.py:46 | `count / total` (0 when total is 0) lies in [0, 1] and is 1 iff all are counted |
| Metric.CalculateMetricA | benchmark/test.py:30-46 | the counting loop over the ground-truth players computes exactly Metric A |
| Metric.ExtraPredictionsIgnored | benchmark/test.py:41-44 | predictions for players outside the ground truth never change Metric A |
| Metric.PerfectIffAllCorrect | benchmark/test.py:30-46 | Metric A is 1 iff the ground truth is non-empty and every ground-truth player is correct |
| Metric.CaseAndPaddingIgnored | benchmark/test.py:43 | a prediction equal to the true role up to case and padding (e.g. "villager " for "Villager") counts as correct |
| Metric.HalfCorrect | benchmark/test.py:30-46 | two of four distinct ground-truth players predicted with exactly their non-empty role, and two not predicted, give Metric A 0.5 |
| Metric.TwoOfFour | benchmark/test.py:30-46 | the four-player case with only "Player 0" and "Player 1" predicted correctly scores 0.5 |
| Metric.NormalizedB | benchmark/test.py:118 | the normalised judge score is the raw score over 5, in [0, 1] when the raw score is in [0, 5] |
| Metric.FinalScore | benchmark/test.py:121 | the final score is in [0, 1], and it is 1 iff both components are 1 |
| Metric.CombinedExample | benchmark/test.py:118-121 | a grade of 4 normalises to 0.8, and with Metric A 0.5 the final score is 0.65 |
| Benchmark.CaseRecord | benchmark/test.py:101-158 | one case's record: all scores in range; an agent that raised counts as an empty prediction with empty reasoning and Metric A 0; B is the judge's grade; the final score combines A and B/5 |
| Benchmark.FailedCaseScoresZero | benchmark/test.py:106-121 | an agent that raised plus a failing judge give 0 on every metric, and the explanation is "Error: " + the judge's message |
| Benchmark.ScoreCase | benchmark/test.py:93-158 | one iteration of the per-case loop builds exactly that case's record |
| Benchmark.RunAgent | benchmark/test.py:92-160 | exactly one record per case, in case order, whatever the agent raised |
| Benchmark.SumBounds | benchmark/test.py:186-187 | a sum of n values in [0, 1] lies in [0, n] |
| Benchmark.Mean | benchmark/test.py:180-187 | a mean of values in [0, 1] lies in [0, 1]; with no records it is 0 |
| Benchmark.Summarize | benchmark/test.py:169-198 | the summary holds the case count and the means of Metric A, normalised B and the final score; the `+=` loop computes the same mean; every mean is in [0, 1] |
| Benchmark.RunBenchmark | benchmark/test.py:78-198 | every agent is run on every case; each gets one record per case, and its summary holds the means of Metric A, normalised B and the final score over exactly those records, each in [0, 1] |

## Left out

- Model calls, `get_model`, the `ChatOpenAI` clients and their model names are not modelled. They are oracles passed in as parameters (`Llm.Models`, `Judge.JudgeAgent.model`).
- The oracles are functions, so the same prompt at the same stage always gets the same reply. The trace of calls still records every call in order.
- `json.loads` and `json.dumps` are an external codec. There is no JSON grammar, no `indent=2` formatting and no check that `dumps` then `loads` round-trips.
- pydantic's lax coercions are not modelled: an integer score counts as a number, but a string or bool is never turned into a number or string. Field aliases and NaN are out as well.
- Text.Lower: folds the ASCII letters only, not the whole of Unicode as `str.lower()` does.
- Text.Strip: treats only the ASCII characters for which `str.isspace()` holds as whitespace. Unicode spaces such as U+00A0 are not covered.
- Text.Replace: is defined only for a non-empty pattern. The one call in the core passes the non-empty tone placeholder.
- Scores are reals. Python's float rounding is not modelled.
- Benchmark.Summarize: does not model `round(..., 4)` on the three means. The means are stated before rounding.
- `raw_response` is not modelled: neither the record's raw text nor the formatted roles string.
- Console output, progress bars, tables, the results file, timestamps and `overall_summary` are not modelled. Loading the benchmark file is not modelled either; test cases are given as values.
- Case ids are strings.
- Each agent's behaviour on the benchmark is a function from case position to outcome. The agents keep memory from case to case, so the position matters and not only the case. The benchmark module does not build the agents itself.
- The Revac (no memory) agent is not part of this model.
- The instruction texts (memory module, reviewer, tone selector, action template, parse, judge system prompt) are configuration and are passed in. Revac 8 happens to import the Revac reviewer and parse prompts; the model does not depend on which texts are used.
- Schemas.ValidateMemory, Schemas.ValidateEvaluationResponse, Judge.ValidateJudgeResponse: the error texts are short descriptions of the failed check. They stand in for pydantic's `str(ValidationError)` and for the `TypeError` that `**` raises on a non-mapping; the exact wording is not modelled. Such a text reaches `Judge.Evaluate` as "Error: " + message and from there the judge explanation in `Benchmark.CaseRecord`.
- The prompt builders (`Pipeline.MemoryPrompt`, `Pipeline.RenderMemory`, `Pipeline.ReviewPrompt`, `Pipeline.ActionPrompt`, `Revac8.TonePrompt`, `Revac8.ActionSystemPrompt`) carry their properties in the lemmas named in the table rather than in their own contracts. Repeating these slice facts at every call would make the agent methods far costlier to verify.
