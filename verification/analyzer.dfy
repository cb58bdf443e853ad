/** `analyzePrompt`: turns request text into selection criteria by testing the
    lower-cased text against fixed keyword lists. */
module Analyzer {
  import opened Strings

  datatype Complexity = Low | Medium | High

  /** The source keeps the task type as a string; these are its five values. */
  datatype TaskType = Coding | Creative | Reasoning | Multimodal | General

  datatype Criteria = Criteria(
    taskType: TaskType,
    complexity: Complexity,
    requiresSpeed: bool,
    requiresAccuracy: bool,
    budgetSensitive: bool,
    requiresMultimodal: bool,
    requiresCode: bool,
    requiresCreative: bool,
    requiresReasoning: bool
  )

  const CodeTerms: seq<string> := ["code", "program", "debug", "function", "algorithm", "script", "api",
    "database", "sql", "javascript", "python", "react", "html", "css"]
  const CreativeTerms: seq<string> := ["write", "story", "poem", "creative", "blog", "article", "marketing",
    "content", "design", "brainstorm"]
  const ReasoningTerms: seq<string> := ["analyze", "compare", "explain", "reason", "logic", "problem", "solve",
    "strategy", "plan", "decision"]
  const SpeedTerms: seq<string> := ["quick", "fast", "urgent", "immediately", "asap", "now"]
  const AccuracyTerms: seq<string> := ["accurate", "precise", "exact", "detailed", "thorough", "comprehensive",
    "research"]
  const BudgetTerms: seq<string> := ["cheap", "cost", "budget", "affordable", "economical"]
  const MultimodalTerms: seq<string> := ["image", "picture", "photo", "visual", "diagram", "chart", "multimodal"]
  const LowTerms: seq<string> := ["simple", "basic", "easy", "quick"]
  const HighTerms: seq<string> := ["complex", "advanced", "detailed", "comprehensive", "difficult"]

  /** Reference meaning of a keyword test: some keyword is a substring of the
      lower-cased prompt. */
  ghost predicate Mentions(prompt: string, terms: seq<string>) {
    exists k :: 0 <= k < |terms| && Occurs(ToLower(prompt), terms[k])
  }

  /** Task type by fixed priority, first match wins. */
  function TaskTypeOf(code: bool, creative: bool, reasoning: bool, multimodal: bool): (t: TaskType)
    ensures t == Coding <==> code
    ensures t == Creative <==> !code && creative
    ensures t == Reasoning <==> !code && !creative && reasoning
    ensures t == Multimodal <==> !code && !creative && !reasoning && multimodal
    ensures t == General <==> !code && !creative && !reasoning && !multimodal
  {
    if code then Coding
    else if creative then Creative
    else if reasoning then Reasoning
    else if multimodal then Multimodal
    else General
  }

  function AnalyzePrompt(prompt: string): (c: Criteria)
    ensures c.requiresCode <==> Mentions(prompt, CodeTerms)
    ensures c.requiresCreative <==> Mentions(prompt, CreativeTerms)
    ensures c.requiresReasoning <==> Mentions(prompt, ReasoningTerms)
    ensures c.requiresSpeed <==> Mentions(prompt, SpeedTerms)
    ensures c.requiresAccuracy <==> Mentions(prompt, AccuracyTerms)
    ensures c.budgetSensitive <==> Mentions(prompt, BudgetTerms)
    ensures c.requiresMultimodal <==> Mentions(prompt, MultimodalTerms)
    // a high keyword wins over a low one; neither leaves the default
    ensures c.complexity == High <==> Mentions(prompt, HighTerms)
    ensures c.complexity == Low <==> Mentions(prompt, LowTerms) && !Mentions(prompt, HighTerms)
    ensures c.complexity == Medium <==> !Mentions(prompt, LowTerms) && !Mentions(prompt, HighTerms)
    ensures c.taskType == Coding <==> c.requiresCode
    ensures c.taskType == Creative <==> !c.requiresCode && c.requiresCreative
    ensures c.taskType == Reasoning <==> !c.requiresCode && !c.requiresCreative && c.requiresReasoning
    ensures c.taskType == Multimodal <==>
      !c.requiresCode && !c.requiresCreative && !c.requiresReasoning && c.requiresMultimodal
    ensures c.taskType == General <==>
      !c.requiresCode && !c.requiresCreative && !c.requiresReasoning && !c.requiresMultimodal
  {
    var lower := ToLower(prompt);
    var code := ContainsAny(lower, CodeTerms);
    var creative := ContainsAny(lower, CreativeTerms);
    var reasoning := ContainsAny(lower, ReasoningTerms);
    var speed := ContainsAny(lower, SpeedTerms);
    var accuracy := ContainsAny(lower, AccuracyTerms);
    var budget := ContainsAny(lower, BudgetTerms);
    var multimodal := ContainsAny(lower, MultimodalTerms);
    // later assignment wins, as in the source's two consecutive `if`s
    var complexity := Medium;
    var complexity := if ContainsAny(lower, LowTerms) then Low else complexity;
    var complexity := if ContainsAny(lower, HighTerms) then High else complexity;
    Criteria(TaskTypeOf(code, creative, reasoning, multimodal), complexity,
      speed, accuracy, budget, multimodal, code, creative, reasoning)
  }

  /** The criteria of an empty request: no flag, general task, medium complexity. */
  const Neutral: Criteria := Criteria(General, Medium, false, false, false, false, false, false, false)

  /** No keyword list used here contains the empty word, so none matches an empty prompt. */
  lemma NotMentionedInEmpty(terms: seq<string>)
    requires forall k :: 0 <= k < |terms| ==> |terms[k]| > 0
    ensures !Mentions("", terms)
  {
    assert ToLower("") == "";
  }

  lemma EmptyPromptIsNeutral()
    ensures AnalyzePrompt("") == Neutral
  {
    NotMentionedInEmpty(CodeTerms);
    NotMentionedInEmpty(CreativeTerms);
    NotMentionedInEmpty(ReasoningTerms);
    NotMentionedInEmpty(SpeedTerms);
    NotMentionedInEmpty(AccuracyTerms);
    NotMentionedInEmpty(BudgetTerms);
    NotMentionedInEmpty(MultimodalTerms);
    NotMentionedInEmpty(LowTerms);
    NotMentionedInEmpty(HighTerms);
  }

  /** The analysis ignores ASCII letter case. */
  lemma AnalysisIgnoresCase(prompt: string)
    ensures AnalyzePrompt(ToLower(prompt)) == AnalyzePrompt(prompt)
  {
    ToLowerIdempotent(prompt);
  }
}
