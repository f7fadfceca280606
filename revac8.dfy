/** Revac 8: Revac 2.1 plus a tone stage on the gameplay path. Between review and action a
    tone model picks a one-sentence style directive, which is spliced into the action
    instructions in place of a placeholder. The benchmark path has no tone stage. */
module Revac8 {
  import opened Wrappers
  import opened Json
  import opened Llm
  import opened Text
  import opened Schemas
  import opened Pipeline

  /** The instruction texts the agent sends as system messages; `actionTemplate` holds the
      tone placeholder. */
  datatype Revac8Prompts = Revac8Prompts(
    memoryModule: string, reviewer: string, toneSelector: string, actionTemplate: string, parse: string)

  const TonePlaceholder := "{dynamic_tone_and_style_instructions}"

  const ReviewHeading := "# Detailed Review:\n"

  /** The tone-stage prompt: the review, then the observation. */
  function TonePrompt(toneSelector: string, observation: string, review: string): Prompt {
    Prompt(toneSelector, ReviewHeading + review + CurrentObservationHeading + observation)
  }

  /** The tone selector's instructions are the system message; the user message holds the
      review right after its heading and ends with the observation. */
  lemma TonePromptLayout(toneSelector: string, observation: string, review: string)
    ensures TonePrompt(toneSelector, observation, review).system == toneSelector
    ensures var r := TonePrompt(toneSelector, observation, review);
            var h := |ReviewHeading|;
            && h + |review| + |observation| <= |r.user|
            && r.user[h..h + |review|] == review
            && r.user[|r.user| - |observation|..] == observation
  {
    var head := ReviewHeading + review + CurrentObservationHeading;
    assert (head + observation)[|head|..] == observation;
    assert (head + observation)[|ReviewHeading|..|ReviewHeading| + |review|] == review;
  }

  /** `select_tone`: the tone model's reply with surrounding whitespace stripped; a model call
      that raises propagates. */
  function SelectTone(models: Models, toneSelector: string, observation: string, review: string): (r: Result<string>)
    ensures var reply := models(ToneStage, TonePrompt(toneSelector, observation, review));
            && (reply.Err? <==> r.Err?)
            && (reply.Err? ==> r.message == reply.message)
            && (reply.Ok? ==> r.value == Strip(reply.value))
    ensures r.Ok? ==> Trimmed(r.value)
  {
    var reply :- models(ToneStage, TonePrompt(toneSelector, observation, review));
    Ok(Strip(reply))
  }

  /** The action system message: the template with every placeholder replaced by the tone. */
  function ActionSystemPrompt(template: string, tone: string): string {
    Replace(template, TonePlaceholder, tone)
  }

  /** The template holds the placeholder exactly once, so the tone lands exactly there and
      the rest of the template is untouched. */
  lemma ToneSplicedOnce(before: string, after: string, tone: string)
    requires forall i: nat :: i != |before| ==> !OccursAt(before + TonePlaceholder + after, TonePlaceholder, i)
    ensures ActionSystemPrompt(before + TonePlaceholder + after, tone) == before + tone + after
  {
    var s := before + TonePlaceholder + after;
    assert s[|before|..|before| + |TonePlaceholder|] == TonePlaceholder;
    ReplaceOnce(s, TonePlaceholder, tone, |before|);
    assert s[..|before|] == before;
    assert s[|before| + |TonePlaceholder|..] == after;
  }

  /** A template without the placeholder is sent as it is. */
  lemma NoPlaceholderNoChange(template: string, tone: string)
    requires forall i: nat :: !OccursAt(template, TonePlaceholder, i)
    ensures ActionSystemPrompt(template, tone) == template
  {
    ReplaceAbsent(template, TonePlaceholder, tone);
  }

  class Revac8Agent {
    const prompts: Revac8Prompts
    const models: Models
    const codec: Codec
    var memory: RevacMemory

    /** A new agent starts with no profiles and no relations. */
    constructor (prompts: Revac8Prompts, models: Models, codec: Codec)
      ensures this.prompts == prompts && this.models == models && this.codec == codec
      ensures memory == EmptyMemory
    {
      this.prompts := prompts;
      this.models := models;
      this.codec := codec;
      memory := EmptyMemory;
    }

    /** `update_memory`: commit a reply that parses and validates, otherwise keep the memory;
        return the memory either way. A model call that raises propagates. */
    method UpdateMemory(observation: string) returns (r: Result<RevacMemory>, call: Call)
      modifies this
      ensures call == Call(MemoryStage, MemoryPrompt(prompts.memoryModule, codec, old(memory), observation))
      ensures r.Err? <==> models(call.stage, call.prompt).Err?
      ensures r.Err? ==> r.message == models(call.stage, call.prompt).message && memory == old(memory)
      ensures r.Ok? ==> r.value == memory
      ensures r.Ok? ==> memory == CommitOrKeep(old(memory), ParseMemory(codec, models(call.stage, call.prompt).value))
    {
      call := Call(MemoryStage, MemoryPrompt(prompts.memoryModule, codec, memory, observation));
      var reply := models(call.stage, call.prompt);
      if reply.Err? {
        r := Err(reply.message);
        return;
      }
      var parsed := ParseMemory(codec, reply.value);
      if parsed.Ok? {
        memory := parsed.value;
      }
      r := Ok(memory);
    }

    /** `__call__`: memory, review, tone, action. The action model gets the template with the
        stripped tone spliced in; its reply is the move. The first model call that raises ends
        the turn with its error. */
    method Act(observation: string) returns (r: Result<string>, calls: seq<Call>)
      modifies this
      ensures var u := UpdatedMemory(models, prompts.memoryModule, codec, old(memory), observation);
              memory == if u.Ok? then u.value else old(memory)
      ensures 1 <= |calls| <= 4 && StagesOf(calls) == [MemoryStage, ReviewStage, ToneStage, ActionStage][..|calls|]
      ensures forall i :: 0 <= i < |calls| - 1 ==> models(calls[i].stage, calls[i].prompt).Ok?
      ensures calls[0].prompt == MemoryPrompt(prompts.memoryModule, codec, old(memory), observation)
      ensures |calls| >= 2 ==> calls[1].prompt == ReviewPrompt(prompts.reviewer, codec, memory, observation)
      ensures |calls| >= 3 ==>
        calls[2].prompt == TonePrompt(prompts.toneSelector, observation, models(ReviewStage, calls[1].prompt).value)
      ensures |calls| == 4 ==>
        calls[3].prompt == ActionPrompt(
          ActionSystemPrompt(prompts.actionTemplate, Strip(models(ToneStage, calls[2].prompt).value)),
          observation, models(ReviewStage, calls[1].prompt).value)
      ensures r == models(calls[|calls| - 1].stage, calls[|calls| - 1].prompt)
      ensures r.Ok? ==> |calls| == 4
    {
      var updated, memoryCall := UpdateMemory(observation);
      if updated.Err? {
        calls := [memoryCall];
        r := Err(updated.message);
        return;
      }
      var reviewCall := Call(ReviewStage, ReviewPrompt(prompts.reviewer, codec, updated.value, observation));
      var review := models(reviewCall.stage, reviewCall.prompt);
      if review.Err? {
        calls := [memoryCall, reviewCall];
        r := review;
        return;
      }
      var toneCall := Call(ToneStage, TonePrompt(prompts.toneSelector, observation, review.value));
      var tone := SelectTone(models, prompts.toneSelector, observation, review.value);
      if tone.Err? {
        calls := [memoryCall, reviewCall, toneCall];
        r := Err(tone.message);
        return;
      }
      var actionCall := Call(ActionStage, ActionPrompt(ActionSystemPrompt(prompts.actionTemplate, tone.value), observation, review.value));
      calls := [memoryCall, reviewCall, toneCall, actionCall];
      r := models(actionCall.stage, actionCall.prompt);
    }

    /** `evaluate`: memory, review, parse; the tone stage is never run. A parse reply that is
        not a valid `EvaluationResponse` is raised. */
    method Evaluate(observation: string) returns (r: Result<EvaluationResponse>, calls: seq<Call>)
      modifies this
      ensures var u := UpdatedMemory(models, prompts.memoryModule, codec, old(memory), observation);
              memory == if u.Ok? then u.value else old(memory)
      ensures 1 <= |calls| <= 3 && StagesOf(calls) == [MemoryStage, ReviewStage, ParseStage][..|calls|]
      ensures ToneStage !in StagesOf(calls)
      ensures forall i :: 0 <= i < |calls| - 1 ==> models(calls[i].stage, calls[i].prompt).Ok?
      ensures calls[0].prompt == MemoryPrompt(prompts.memoryModule, codec, old(memory), observation)
      ensures |calls| >= 2 ==> calls[1].prompt == ReviewPrompt(prompts.reviewer, codec, memory, observation)
      ensures |calls| == 3 ==> calls[2].prompt == ParsePrompt(prompts.parse, models(ReviewStage, calls[1].prompt).value)
      ensures var last := models(calls[|calls| - 1].stage, calls[|calls| - 1].prompt);
              && (last.Err? ==> r == Err(last.message))
              && (last.Ok? ==> |calls| == 3 && r == ParseEvaluation(codec, last.value))
    {
      var updated, memoryCall := UpdateMemory(observation);
      if updated.Err? {
        calls := [memoryCall];
        r := Err(updated.message);
        return;
      }
      var reviewCall := Call(ReviewStage, ReviewPrompt(prompts.reviewer, codec, updated.value, observation));
      var review := models(reviewCall.stage, reviewCall.prompt);
      if review.Err? {
        calls := [memoryCall, reviewCall];
        r := Err(review.message);
        return;
      }
      var parseCall := Call(ParseStage, ParsePrompt(prompts.parse, review.value));
      calls := [memoryCall, reviewCall, parseCall];
      var reply := models(parseCall.stage, parseCall.prompt);
      if reply.Err? {
        r := Err(reply.message);
        return;
      }
      r := ParseEvaluation(codec, reply.value);
    }
  }
}
