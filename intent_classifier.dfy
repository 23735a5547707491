/**
 * The intent classifier: one language-model call whose one-word answer is
 * mapped onto the three intents the router understands.
 */
module IntentClassifier {
  import opened Wrappers
  import opened Text
  import opened Llm

  datatype IntentPrediction = IntentPrediction(intent: string, reason: Option<string>, usage: Option<Usage>)

  /** The label: the completion stripped and lower-cased. */
  function Label(content: string): string {
    Lower(Strip(content, Whitespace))
  }

  /** A label has no whitespace at either end, no upper-case letter, and is no longer than the completion. */
  lemma LabelShape(content: string)
    ensures var r := Label(content);
      && NoEdge(r, Whitespace)
      && (forall i :: 0 <= i < |r| ==> !('A' <= r[i] <= 'Z'))
      && |r| <= |content|
  {
    var st := Strip(content, Whitespace);
    StripLower(content);
    assert Label(content) == Strip(Lower(content), Whitespace);
    LowerHasNoUpper(st);
    var i :| 0 <= i <= |content| - |st| && OccursAt(content, st, i);
  }

  /** `visual` wins over `retrieval`; anything else is `other`. */
  function IntentOf(word: string): (r: string)
    ensures r == "visualization" || r == "retrieval" || r == "other"
    ensures r == "visualization" <==> Contains(word, "visual")
    ensures r == "retrieval" <==> !Contains(word, "visual") && Contains(word, "retrieval")
    ensures r == "other" <==> !Contains(word, "visual") && !Contains(word, "retrieval")
  {
    if Contains(word, "visual") then "visualization"
    else if Contains(word, "retrieval") then "retrieval"
    else "other"
  }

  /** `predict`: the gateway's failure propagates; otherwise the label decides the intent. */
  function Predict(gateway: Gateway, question: string): (r: Result<IntentPrediction, string>)
    ensures gateway(ClassifyPrompt, question).Err? ==> r == Err(gateway(ClassifyPrompt, question).error)
    ensures gateway(ClassifyPrompt, question).Ok? ==>
      var c := gateway(ClassifyPrompt, question).value;
      && r.Ok?
      && r.value.intent == IntentOf(Label(c.content))
      && r.value.reason == Some("LLM label: " + Label(c.content))
      && r.value.usage == c.usage
  {
    match gateway(ClassifyPrompt, question)
    case Err(e) => Err(e)
    case Ok(c) =>
      var word := Label(c.content);
      Ok(IntentPrediction(IntentOf(word), Some("LLM label: " + word), c.usage))
  }

  /** Every prediction carries one of the three intents. */
  lemma PredictionIntents(gateway: Gateway, question: string)
    requires Predict(gateway, question).Ok?
    ensures Predict(gateway, question).value.intent in {"visualization", "retrieval", "other"}
  {
  }

  /** The label, and so the intent, ignores the letter case of the completion. */
  lemma LabelIgnoresCase(content: string)
    ensures Label(Upper(content)) == Label(content)
  {
    StripLower(Upper(content));
    StripLower(content);
    LowerOfUpper(content);
  }

  /** The label, and so the intent, ignores whitespace around the completion. */
  lemma LabelIgnoresPadding(p: string, content: string, q: string)
    requires forall i :: 0 <= i < |p| ==> p[i] in Whitespace
    requires forall i :: 0 <= i < |q| ==> q[i] in Whitespace
    ensures Label(p + content + q) == Label(content)
  {
    StripPadding(p, content, q, Whitespace);
  }
}
