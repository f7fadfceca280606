/** The pieces the two memory-keeping agents share: the memory-update step (ask a model to
    regenerate the whole memory, commit it if it validates, keep the old one otherwise), the
    rendering of memory for the reviewer, and the prompts of the review, action and parse
    stages. */
module Pipeline {
  import opened Wrappers
  import opened Json
  import opened Llm
  import opened Schemas

  const MemoryOutputInstruction :=
    "\n\nIMPORTANT: Output your response as a JSON object with 'player_profiles' and 'social_alignment_graph' fields."

  const MemoryStateHeading := "# Current Memory State:\n"
  const NewObservationHeading := "\n\n# New Observation State:\n"

  /** The memory-stage prompt: the current memory, dumped from its snapshot, then the new
      observation. */
  function MemoryPrompt(memoryModulePrompt: string, codec: Codec, current: RevacMemory, observation: string): Prompt {
    Prompt(memoryModulePrompt + MemoryOutputInstruction,
           MemoryStateHeading + codec.dumps(MemoryToJson(current)) + NewObservationHeading + observation)
  }

  /** The system message is the memory module's instructions followed by the output-format
      reminder; the user message holds the dumped snapshot of the current memory right after
      its heading, and ends with the new observation. */
  lemma MemoryPromptLayout(memoryModulePrompt: string, codec: Codec, current: RevacMemory, observation: string)
    ensures var r := MemoryPrompt(memoryModulePrompt, codec, current, observation);
            && |memoryModulePrompt| <= |r.system|
            && r.system[..|memoryModulePrompt|] == memoryModulePrompt
            && r.system[|memoryModulePrompt|..] == MemoryOutputInstruction
    ensures var r := MemoryPrompt(memoryModulePrompt, codec, current, observation);
            var d := codec.dumps(MemoryToJson(current));
            && |MemoryStateHeading| + |d| <= |r.user|
            && r.user[|MemoryStateHeading|..|MemoryStateHeading| + |d|] == d
    ensures var r := MemoryPrompt(memoryModulePrompt, codec, current, observation);
            |observation| <= |r.user| && r.user[|r.user| - |observation|..] == observation
  {
    var d := codec.dumps(MemoryToJson(current));
    var head := MemoryStateHeading + d + NewObservationHeading;
    assert (head + observation)[|head|..] == observation;
    assert (head + observation)[|MemoryStateHeading|..|MemoryStateHeading| + |d|] == d;
  }

  /** `json.loads` then `RevacMemory(**json_data)`. */
  function ParseMemory(codec: Codec, reply: string): (r: Result<RevacMemory>)
    ensures r.Ok? <==> codec.loads(reply).Ok? && ValidateMemory(codec.loads(reply).value).Ok?
    ensures r.Ok? ==> Ok(r.value) == ValidateMemory(codec.loads(reply).value)
  {
    var json :- codec.loads(reply);
    ValidateMemory(json)
  }

  /** Commit or keep: a parsed memory replaces the current one wholesale (nothing of the old
      memory survives unless the reply repeats it); a failed parse leaves it exactly as it was. */
  function CommitOrKeep(current: RevacMemory, parsed: Result<RevacMemory>): (r: RevacMemory)
    ensures parsed.Ok? ==> r.playerProfiles == parsed.value.playerProfiles
    ensures parsed.Ok? ==> r.socialAlignmentGraph == parsed.value.socialAlignmentGraph
    ensures parsed.Err? ==> r == current
  {
    if parsed.Ok? then parsed.value else current
  }

  /** The outcome of `update_memory` for a given current memory: the model call raises (the
      call is outside the `try`, so the error propagates), or the memory after commit-or-keep. */
  function UpdatedMemory(models: Models, memoryModulePrompt: string, codec: Codec, current: RevacMemory, observation: string): (r: Result<RevacMemory>)
    ensures models(MemoryStage, MemoryPrompt(memoryModulePrompt, codec, current, observation)).Err? <==> r.Err?
    ensures var reply := models(MemoryStage, MemoryPrompt(memoryModulePrompt, codec, current, observation));
            reply.Ok? ==> r.value == CommitOrKeep(current, ParseMemory(codec, reply.value))
  {
    var reply :- models(MemoryStage, MemoryPrompt(memoryModulePrompt, codec, current, observation));
    Ok(CommitOrKeep(current, ParseMemory(codec, reply)))
  }

  const NoProfiles := "No profiles yet"
  const NoRelations := "No relations recorded yet"

  /** The profile section: the profile text, or a placeholder when it is empty. */
  function ProfilesText(m: RevacMemory): (r: string)
    ensures r != ""
    ensures m.playerProfiles == "" ==> r == NoProfiles
    ensures m.playerProfiles != "" ==> r == m.playerProfiles
  {
    if m.playerProfiles != "" then m.playerProfiles else NoProfiles
  }

  /** The relation section: the dumped relation list, or a placeholder when it is empty. */
  function GraphText(codec: Codec, m: RevacMemory): (r: string)
    ensures m.socialAlignmentGraph == [] ==> r == NoRelations
    ensures m.socialAlignmentGraph != [] ==> r == codec.dumps(JArray(RelationsToJson(m.socialAlignmentGraph)))
  {
    if m.socialAlignmentGraph != [] then codec.dumps(JArray(RelationsToJson(m.socialAlignmentGraph))) else NoRelations
  }

  const MemoryHeading := "# Agent Memory:\n\n## Player Profiles:\n"
  const GraphHeading := "\n\n## Social Alignment Graph:\n"

  /** `memory_str`: the memory as the reviewer sees it. */
  function RenderMemory(codec: Codec, m: RevacMemory): string {
    MemoryHeading + ProfilesText(m) + GraphHeading + GraphText(codec, m) + "\n"
  }

  /** The profile section follows its heading, the graph section follows the profile section
      and its own heading, and a line break closes the text. */
  lemma RenderMemoryLayout(codec: Codec, m: RevacMemory)
    ensures var r := RenderMemory(codec, m);
            var profiles, graph := ProfilesText(m), GraphText(codec, m);
            var p := |MemoryHeading|;
            var g := p + |profiles| + |GraphHeading|;
            && g + |graph| + 1 == |r|
            && r[p..p + |profiles|] == profiles
            && r[g..g + |graph|] == graph
            && r[|r| - 1] == '\n'
  {
    var profiles, graph := ProfilesText(m), GraphText(codec, m);
    var r := MemoryHeading + profiles + GraphHeading + graph + "\n";
    var p := |MemoryHeading|;
    var g := p + |profiles| + |GraphHeading|;
    assert r[p..p + |profiles|] == profiles;
    assert r[g..g + |graph|] == graph;
  }

  const CurrentObservationHeading := "\n\n# Current Observation State:\n"

  /** The review-stage prompt: the rendered memory, then the observation. */
  function ReviewPrompt(reviewerPrompt: string, codec: Codec, m: RevacMemory, observation: string): Prompt {
    Prompt(reviewerPrompt, RenderMemory(codec, m) + CurrentObservationHeading + observation)
  }

  /** The reviewer's instructions are the system message; the user message starts with the
      rendered memory and ends with the observation. */
  lemma ReviewPromptLayout(reviewerPrompt: string, codec: Codec, m: RevacMemory, observation: string)
    ensures ReviewPrompt(reviewerPrompt, codec, m, observation).system == reviewerPrompt
    ensures var r := ReviewPrompt(reviewerPrompt, codec, m, observation);
            var mem := RenderMemory(codec, m);
            && |mem| + |observation| <= |r.user|
            && r.user[..|mem|] == mem
            && r.user[|r.user| - |observation|..] == observation
  {
    var mem := RenderMemory(codec, m);
    var head := mem + CurrentObservationHeading;
    assert (head + observation)[|head|..] == observation;
    assert (head + observation)[..|mem|] == mem;
  }

  const ObservationStateHeading := "# Here is the observation state:\n\n"
  const DetailedReviewHeading := "\n\n# Following is the detailed review:\n\n"

  /** The action-stage prompt: the observation, then the review. */
  function ActionPrompt(actionPrompt: string, observation: string, review: string): Prompt {
    Prompt(actionPrompt, ObservationStateHeading + observation + DetailedReviewHeading + review)
  }

  /** The action instructions are the system message; the user message holds the
      observation right after its heading and ends with the review. */
  lemma ActionPromptLayout(actionPrompt: string, observation: string, review: string)
    ensures ActionPrompt(actionPrompt, observation, review).system == actionPrompt
    ensures var r := ActionPrompt(actionPrompt, observation, review);
            var h := |ObservationStateHeading|;
            && h + |observation| + |review| <= |r.user|
            && r.user[h..h + |observation|] == observation
            && r.user[|r.user| - |review|..] == review
  {
    var head := ObservationStateHeading + observation + DetailedReviewHeading;
    assert (head + review)[|head|..] == review;
    assert (head + review)[|ObservationStateHeading|..|ObservationStateHeading| + |observation|] == observation;
  }

  /** The parse-stage prompt: the review, verbatim. */
  function ParsePrompt(parsePrompt: string, review: string): Prompt {
    Prompt(parsePrompt, review)
  }

  /** `json.loads` then `EvaluationResponse(**json_data)`; in evaluate mode a failure is raised. */
  function ParseEvaluation(codec: Codec, reply: string): (r: Result<EvaluationResponse>)
    ensures r.Ok? <==> codec.loads(reply).Ok? && ValidateEvaluationResponse(codec.loads(reply).value).Ok?
    ensures r.Ok? ==> ValidateEvaluationResponse(codec.loads(reply).value) == r
  {
    var json :- codec.loads(reply);
    ValidateEvaluationResponse(json)
  }
}
