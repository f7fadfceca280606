/** The boundary to the hosted language models. Every call sends a system message and one
    user message and either returns the reply text or raises; which model answers depends on
    the stage making the call. */
module Llm {
  import opened Wrappers

  datatype Prompt = Prompt(system: string, user: string)

  /** The pipeline stages that call a model. */
  datatype Stage = MemoryStage | ReviewStage | ToneStage | ActionStage | ParseStage

  /** One model invocation, as sent. */
  datatype Call = Call(stage: Stage, prompt: Prompt)

  /** The models an agent talks to: the reply to a prompt at a stage, or the raised error. */
  type Models = (Stage, Prompt) -> Result<string>

  /** The stages of a call trace, in the order they were invoked. */
  function StagesOf(calls: seq<Call>): (r: seq<Stage>)
    ensures |r| == |calls|
    ensures forall i :: 0 <= i < |calls| ==> r[i] == calls[i].stage
  {
    if calls == [] then [] else [calls[0].stage] + StagesOf(calls[1..])
  }
}
