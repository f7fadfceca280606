/** Revac 2.1: an agent with persistent memory. Each turn it regenerates its memory from the
    new observation, asks a reviewer model for an analysis of the game given memory and
    observation, and then either asks an action model for the move (gameplay) or asks a parse
    model to extract its role deductions (benchmark). */
module Revac2 {
  import opened Wrappers
  import opened Json
  import opened Llm
  import opened Schemas
  import opened Pipeline

  /** The instruction texts the agent sends as system messages. */
  datatype Revac2Prompts = Revac2Prompts(memoryModule: string, reviewer: string, finalAction: string, parse: string)

  class Revac2Agent {
    const prompts: Revac2Prompts
    const models: Models
    const codec: Codec
    var memory: RevacMemory

    /** A new agent starts with no profiles and no relations. */
    constructor (prompts: Revac2Prompts, models: Models, codec: Codec)
      ensures this.prompts == prompts && this.models == models && this.codec == codec
      ensures memory == EmptyMemory
    {
      this.prompts := prompts;
      this.models := models;
      this.codec := codec;
      memory := EmptyMemory;
    }

    /** `update_memory`: one memory-stage call. A reply that parses and validates becomes the
        memory; otherwise the memory is kept. Either way the memory is returned. A model
        call that raises propagates, and the memory is unchanged. */
    method UpdateMemory(observation: string) returns (r: Result<RevacMemory>, call: Call)
      modifies this
      ensures call == Call(MemoryStage, MemoryPrompt(prompts.memoryModule, codec, old(memory), observation))
      ensures r.Err? <==> models(call.stage, call.prompt).Err?
      ensures r.Err? ==> r.message == models(call.stage, call.prompt).message && memory == old(memory)
      ensures r.Ok? ==> r.value == memory
      ensures r.Ok? ==> memory == CommitOrKeep(old(memory), ParseMemory(codec, models(call.stage, call.prompt).value))
    {
      call := Call(MemoryStage, MemoryPrompt(prompts.memoryModule, codec, memory, observation));
      var reply := models(call.stage, call.prompt);
      if reply.Err? {
        r := Err(reply.message);
        return;
      }
      var parsed := ParseMemory(codec, reply.value);
      if parsed.Ok? {
        memory := parsed.value;
      }
      r := Ok(memory);
    }

    /** `__call__`: memory, then review, then action; the reply of the action model is the
        move. The first model call that raises ends the turn with its error. */
    method Act(observation: string) returns (r: Result<string>, calls: seq<Call>)
      modifies this
      ensures var u := UpdatedMemory(models, prompts.memoryModule, codec, old(memory), observation);
              memory == if u.Ok? then u.value else old(memory)
      ensures 1 <= |calls| <= 3 && StagesOf(calls) == [MemoryStage, ReviewStage, ActionStage][..|calls|]
      ensures forall i :: 0 <= i < |calls| - 1 ==> models(calls[i].stage, calls[i].prompt).Ok?
      ensures calls[0].prompt == MemoryPrompt(prompts.memoryModule, codec, old(memory), observation)
      ensures |calls| >= 2 ==> calls[1].prompt == ReviewPrompt(prompts.reviewer, codec, memory, observation)
      ensures |calls| == 3 ==>
        calls[2].prompt == ActionPrompt(prompts.finalAction, observation, models(ReviewStage, calls[1].prompt).value)
      ensures r == models(calls[|calls| - 1].stage, calls[|calls| - 1].prompt)
      ensures r.Ok? ==> |calls| == 3
    {
      var updated, memoryCall := UpdateMemory(observation);
      if updated.Err? {
        calls := [memoryCall];
        r := Err(updated.message);
        return;
      }
      var reviewCall := Call(ReviewStage, ReviewPrompt(prompts.reviewer, codec, updated.value, observation));
      var review := models(reviewCall.stage, reviewCall.prompt);
      if review.Err? {
        calls := [memoryCall, reviewCall];
        r := review;
        return;
      }
      var actionCall := Call(ActionStage, ActionPrompt(prompts.finalAction, observation, review.value));
      calls := [memoryCall, reviewCall, actionCall];
      r := models(actionCall.stage, actionCall.prompt);
    }

    /** `evaluate`: memory, then review, then parse. The parse reply must be JSON that
        validates as an `EvaluationResponse`; if it is not, the error is raised. */
    method Evaluate(observation: string) returns (r: Result<EvaluationResponse>, calls: seq<Call>)
      modifies this
      ensures var u := UpdatedMemory(models, prompts.memoryModule, codec, old(memory), observation);
              memory == if u.Ok? then u.value else old(memory)
      ensures 1 <= |calls| <= 3 && StagesOf(calls) == [MemoryStage, ReviewStage, ParseStage][..|calls|]
      ensures forall i :: 0 <= i < |calls| - 1 ==> models(calls[i].stage, calls[i].prompt).Ok?
      ensures calls[0].prompt == MemoryPrompt(prompts.memoryModule, codec, old(memory), observation)
      ensures |calls| >= 2 ==> calls[1].prompt == ReviewPrompt(prompts.reviewer, codec, memory, observation)
      ensures |calls| == 3 ==> calls[2].prompt == ParsePrompt(prompts.parse, models(ReviewStage, calls[1].prompt).value)
      ensures var last := models(calls[|calls| - 1].stage, calls[|calls| - 1].prompt);
              && (last.Err? ==> r == Err(last.message))
              && (last.Ok? ==> |calls| == 3 && r == ParseEvaluation(codec, last.value))
    {
      var updated, memoryCall := UpdateMemory(observation);
      if updated.Err? {
        calls := [memoryCall];
        r := Err(updated.message);
        return;
      }
      var reviewCall := Call(ReviewStage, ReviewPrompt(prompts.reviewer, codec, updated.value, observation));
      var review := models(reviewCall.stage, reviewCall.prompt);
      if review.Err? {
        calls := [memoryCall, reviewCall];
        r := Err(review.message);
        return;
      }
      var parseCall := Call(ParseStage, ParsePrompt(prompts.parse, review.value));
      calls := [memoryCall, reviewCall, parseCall];
      var reply := models(parseCall.stage, parseCall.prompt);
      if reply.Err? {
        r := Err(reply.message);
        return;
      }
      r := ParseEvaluation(codec, reply.value);
    }
  }
}
