/**
 * The router: a keyword pre-filter that sends chart requests straight to the
 * visualisation agent, and otherwise the intent classifier's verdict.
 *
 * The pre-filter's patterns are regular expressions made of a literal word and
 * word boundaries (`\b`). A word character is an ASCII letter, digit or `_`;
 * Python's Unicode word characters are not modelled.
 */
module Router {
  import opened Wrappers
  import opened Text
  import opened Llm
  import opened IntentClassifier

  datatype AgentName = SqlAgentName | VizAgentName | UnknownAgent

  datatype RouteDecision = RouteDecision(agent: AgentName, reason: string, intent: string, usage: Option<Usage>)

  predicate IsWordChar(c: char) {
    'a' <= c <= 'z' || 'A' <= c <= 'Z' || '0' <= c <= '9' || c == '_'
  }

  /** `\b` at position `i`: a word character on exactly one side. */
  predicate Boundary(s: string, i: int)
    requires 0 <= i <= |s|
  {
    (i > 0 && IsWordChar(s[i - 1])) != (i < |s| && IsWordChar(s[i]))
  }

  /** `\bword` or `\bword\b`. */
  datatype Pattern = Pattern(word: string, trailingBoundary: bool)

  /** The pattern as written in the keyword list. */
  function PatternText(p: Pattern): string {
    "\\b" + p.word + (if p.trailingBoundary then "\\b" else "")
  }

  predicate MatchesAt(s: string, p: Pattern, i: int) {
    && OccursAt(s, p.word, i)
    && Boundary(s, i)
    && (p.trailingBoundary ==> Boundary(s, i + |p.word|))
  }

  /** `re.search(p, s)` from position `i` on. */
  predicate SearchFrom(s: string, p: Pattern, i: nat)
    decreases |s| - i
  {
    i + |p.word| <= |s| && (MatchesAt(s, p, i) || SearchFrom(s, p, i + 1))
  }

  predicate Search(s: string, p: Pattern) {
    SearchFrom(s, p, 0)
  }

  lemma {:induction false} SearchFromWitness(s: string, p: Pattern, i: nat, k: nat)
    requires i <= k && MatchesAt(s, p, k)
    ensures SearchFrom(s, p, i)
    decreases k - i
  {
    if i < k {
      SearchFromWitness(s, p, i + 1, k);
    }
  }

  /** A pattern is found exactly when it matches somewhere. */
  lemma {:induction false} SearchFromExists(s: string, p: Pattern, i: nat)
    ensures SearchFrom(s, p, i) <==> exists k :: i <= k <= |s| && MatchesAt(s, p, k)
    decreases |s| - i
  {
    if exists k :: i <= k <= |s| && MatchesAt(s, p, k) {
      var k :| i <= k <= |s| && MatchesAt(s, p, k);
      SearchFromWitness(s, p, i, k);
    }
    if i + |p.word| <= |s| {
      SearchFromExists(s, p, i + 1);
    }
  }

  const VizKeywords: seq<Pattern> := [
    Pattern("plot", true),
    Pattern("chart", true),
    Pattern("graph", true),
    Pattern("visual", false),
    Pattern("bar chart", true),
    Pattern("line chart", true),
    Pattern("scatter", true),
    Pattern("pie", true)
  ]

  /** The index of the first pattern from `k` on that is found in `s`. */
  function FirstMatchFrom(s: string, pats: seq<Pattern>, k: nat): (r: Option<nat>)
    requires k <= |pats|
    ensures r.Some? ==> k <= r.value < |pats| && Search(s, pats[r.value])
    ensures r.Some? ==> forall j :: k <= j < r.value ==> !Search(s, pats[j])
    ensures r.None? ==> forall j :: k <= j < |pats| ==> !Search(s, pats[j])
    decreases |pats| - k
  {
    if k == |pats| then None
    else if Search(s, pats[k]) then Some(k)
    else FirstMatchFrom(s, pats, k + 1)
  }

  /** The first keyword pattern found in the lower-cased question. */
  function KeywordMatch(question: string): (r: Option<nat>)
    ensures r.Some? ==> r.value < |VizKeywords| && Search(Lower(question), VizKeywords[r.value])
    ensures r.Some? ==> forall j :: 0 <= j < r.value ==> !Search(Lower(question), VizKeywords[j])
    ensures r.None? ==> forall j :: 0 <= j < |VizKeywords| ==> !Search(Lower(question), VizKeywords[j])
  {
    FirstMatchFrom(Lower(question), VizKeywords, 0)
  }

  /**
   * What `route` decides for a classifier outcome: a failure is unknown,
   * otherwise the intent picks the agent and is passed on with the usage.
   */
  function FromPrediction(prediction: Result<IntentPrediction, string>): (r: RouteDecision)
    ensures r.reason != ""
    ensures prediction.Err? ==> r.agent == UnknownAgent && r.intent == "unknown" && r.usage == None
    ensures prediction.Err? ==> StartsWith(r.reason, "Intent classification failed: ")
    ensures prediction.Ok? ==> r.intent == prediction.value.intent && r.usage == prediction.value.usage
    ensures prediction.Ok? ==> (r.agent == SqlAgentName <==> prediction.value.intent == "retrieval")
    ensures prediction.Ok? ==> (r.agent == VizAgentName <==> prediction.value.intent == "visualization")
    ensures prediction.Ok? && Truthy(prediction.value.reason) ==> r.reason == prediction.value.reason.value
  {
    match prediction
    case Err(e) => RouteDecision(UnknownAgent, "Intent classification failed: " + e, "unknown", None)
    case Ok(p) =>
      if p.intent == "retrieval" then
        RouteDecision(SqlAgentName, OrElse(p.reason, "LLM intent: retrieval"), p.intent, p.usage)
      else if p.intent == "visualization" then
        RouteDecision(VizAgentName, OrElse(p.reason, "LLM intent: visualization"), p.intent, p.usage)
      else
        RouteDecision(UnknownAgent, OrElse(p.reason, "LLM intent not retrieval"), p.intent, p.usage)
  }

  /** `route`: the keyword pre-filter first, the classifier only when no keyword is found. */
  function Route(question: string, gateway: Gateway): (r: RouteDecision)
    ensures KeywordMatch(question).Some? ==>
      r.agent == VizAgentName && r.intent == "visualization" && r.usage == None
    ensures KeywordMatch(question).Some? ==>
      r.reason == "Matched visualization keyword: " + PatternText(VizKeywords[KeywordMatch(question).value])
    ensures KeywordMatch(question).None? ==> r == FromPrediction(Predict(gateway, question))
  {
    match KeywordMatch(question)
    case Some(i) =>
      RouteDecision(VizAgentName, "Matched visualization keyword: " + PatternText(VizKeywords[i]), "visualization", None)
    case None => FromPrediction(Predict(gateway, question))
  }

  // ---------------------------------------------------------------------------
  // properties

  /** When a keyword is found the classifier plays no part: any gateway gives the same decision. */
  lemma KeywordSkipsClassifier(question: string, g1: Gateway, g2: Gateway)
    requires KeywordMatch(question).Some?
    ensures Route(question, g1) == Route(question, g2)
    ensures Route(question, g1).agent == VizAgentName && Route(question, g1).usage == None
  {
  }

  /** The pre-filter ignores letter case. */
  lemma KeywordsIgnoreCase(question: string)
    ensures KeywordMatch(Upper(question)) == KeywordMatch(question)
  {
    LowerOfUpper(question);
  }

  /** A `\bw\b` match whose word has a non-word character before position `k` also matches `w[k..]` there. */
  lemma SuffixMatches(s: string, w: string, i: int, k: nat)
    requires MatchesAt(s, Pattern(w, true), i)
    requires 0 < k < |w| && !IsWordChar(w[k - 1]) && IsWordChar(w[k])
    ensures MatchesAt(s, Pattern(w[k..], true), i + k)
  {
    assert s[i..i + |w|] == w;
    assert s[i + k - 1] == w[k - 1] && s[i + k] == w[k];
    assert s[i + k..i + k + |w[k..]|] == w[k..];
  }

  lemma ChartInside()
    ensures "bar chart"[4..] == "chart" && "bar chart"[3] == ' ' && "bar chart"[4] == 'c'
    ensures "line chart"[5..] == "chart" && "line chart"[4] == ' ' && "line chart"[5] == 'c'
  {
  }

  /** Wherever `\bw\b` is found, so is `\bw[k..]\b` when `w[k..]` starts a word inside `w`. */
  lemma SuffixFound(s: string, w: string, k: nat)
    requires 0 < k < |w| && !IsWordChar(w[k - 1]) && IsWordChar(w[k])
    requires Search(s, Pattern(w, true))
    ensures Search(s, Pattern(w[k..], true))
  {
    SearchFromExists(s, Pattern(w, true), 0);
    var i :| 0 <= i <= |s| && MatchesAt(s, Pattern(w, true), i);
    SuffixMatches(s, w, i, k);
    SearchFromWitness(s, Pattern(w[k..], true), 0, i + k);
  }

  /** A `\bw\b` pattern listed after the pattern for a word-starting suffix of `w` is never the first found. */
  lemma Shadowed(s: string, pats: seq<Pattern>, j: nat, m: nat, k: nat)
    requires m < j < |pats| && pats[j].trailingBoundary
    requires 0 < k < |pats[j].word| && !IsWordChar(pats[j].word[k - 1]) && IsWordChar(pats[j].word[k])
    requires pats[m] == Pattern(pats[j].word[k..], true)
    ensures FirstMatchFrom(s, pats, 0) != Some(j)
  {
    if FirstMatchFrom(s, pats, 0) == Some(j) {
      assert pats[j] == Pattern(pats[j].word, true);
      SuffixFound(s, pats[j].word, k);
      assert false;
    }
  }

  /** `\bbar chart\b` and `\bline chart\b` can never be the reported pattern: `\bchart\b` comes first. */
  lemma ChartShadowsLongerPatterns(question: string)
    ensures KeywordMatch(question) != Some(4) && KeywordMatch(question) != Some(5)
  {
    ChartInside();
    Shadowed(Lower(question), VizKeywords, 4, 1, 4);
    Shadowed(Lower(question), VizKeywords, 5, 1, 5);
  }

  /** `\bvisual` has no closing boundary: `visualize`, `visualization` and the like reach the viz agent. */
  lemma VisualPrefixRoutesToViz(question: string, gateway: Gateway, i: nat)
    requires OccursAt(Lower(question), "visual", i)
    requires i == 0 || !IsWordChar(Lower(question)[i - 1])
    ensures Route(question, gateway).agent == VizAgentName
    ensures Route(question, gateway).intent == "visualization"
  {
    var s := Lower(question);
    assert s[i] == "visual"[0] == 'v';
    assert MatchesAt(s, VizKeywords[3], i);
    SearchFromWitness(s, VizKeywords[3], 0, i);
  }

  /** A failed classification never routes to the SQL agent. */
  lemma FailureIsUnknown(question: string, gateway: Gateway)
    requires KeywordMatch(question).None? && Predict(gateway, question).Err?
    ensures Route(question, gateway).agent == UnknownAgent && Route(question, gateway).intent == "unknown"
  {
  }

  /** On the classifier path the intent decides the agent, and intent and usage are passed on unchanged. */
  lemma PredictionDecides(question: string, gateway: Gateway)
    requires KeywordMatch(question).None? && Predict(gateway, question).Ok?
    ensures var p := Predict(gateway, question).value;
      var r := Route(question, gateway);
      && (r.agent == SqlAgentName <==> p.intent == "retrieval")
      && (r.agent == VizAgentName <==> p.intent == "visualization")
      && r.intent == p.intent && r.usage == p.usage
  {
  }

  /** The reason is never empty. */
  lemma ReasonNonEmpty(question: string, gateway: Gateway)
    ensures Route(question, gateway).reason != ""
  {
    var r := Route(question, gateway);
    if KeywordMatch(question).Some? || Predict(gateway, question).Err? {
      assert r.reason[0] == 'M' || r.reason[0] == 'I';
    }
  }

  /** Through the classifier, only the words `retrieval` and `visual` in its answer lead to an agent. */
  lemma ClassifierRouting(question: string, gateway: Gateway)
    requires KeywordMatch(question).None? && gateway(ClassifyPrompt, question).Ok?
    ensures var w := Label(gateway(ClassifyPrompt, question).value.content);
      && (Route(question, gateway).agent == VizAgentName <==> Contains(w, "visual"))
      && (Route(question, gateway).agent == SqlAgentName <==> !Contains(w, "visual") && Contains(w, "retrieval"))
  {
  }
}
