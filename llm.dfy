/**
 * The language-model gateway every agent talks to, as an abstract function.
 *
 * A prompt is recorded by the values that vary between calls; the fixed
 * instruction wording around them is not part of this model. A completion is
 * the returned message text plus the usage metadata the client reported.
 */
module Llm {
  import opened Wrappers

  /** Token-usage metadata, passed through untouched. */
  type Usage = map<string, int>

  datatype Completion = Completion(content: string, usage: Option<Usage>)

  datatype Prompt =
    | ClassifyPrompt
    | SqlPrompt(dialect: string, allowedObjects: string, schemaContext: string)
    | RepairPrompt(dialect: string, allowedObjects: string, schema: string)
    | VizPlanPrompt(fqView: string, schema: string)

  /** One chat completion: system prompt and user message in, completion or exception text out. */
  type Gateway = (Prompt, string) -> Result<Completion, string>
}
