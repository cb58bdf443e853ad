/** Worked examples on the shipped registry: a coding request, a hurried
    simple request and the empty request, traced through analysis, scoring
    and ranking to the final selection; plus the budget bands and a priced
    exchange. */
module Scenarios {
  import opened Strings
  import opened Catalog
  import opened Analyzer
  import opened Scorer
  import opened Selector
  import opened Cost

  const DebugPrompt := "Help me debug this Python function"
  const DebugLower := "help me debug this python function"
  const QuickPrompt := "quick summary please"

  // Lemmas about these constants and about the registry take them as
  // parameters equal to the constant (`requires reg == AiModels`), so that the
  // recursive string and scoring functions are unfolded on a variable rather
  // than evaluated eagerly on the literal.

  /** The criteria of a coding request: only the code flag is set. */
  const DebugCriteria := Criteria(Coding, Complexity.Medium, false, false, false, false, true, false, false)

  /** The criteria of a hurried, simple request: the speed flag and low complexity. */
  const QuickCriteria := Criteria(General, Low, true, false, false, false, false, false, false)

  /** Requests that mention a coding keyword and no keyword of any other list. */
  ghost predicate CodeOnlyRequest(p: string) {
    Mentions(p, CodeTerms) && !Mentions(p, CreativeTerms) && !Mentions(p, ReasoningTerms)
    && !Mentions(p, SpeedTerms) && !Mentions(p, AccuracyTerms) && !Mentions(p, BudgetTerms)
    && !Mentions(p, MultimodalTerms) && !Mentions(p, LowTerms) && !Mentions(p, HighTerms)
  }

  /** Requests that mention a speed keyword and a low-complexity keyword and
      no keyword of any other list. */
  ghost predicate SpeedSimpleRequest(p: string) {
    !Mentions(p, CodeTerms) && !Mentions(p, CreativeTerms) && !Mentions(p, ReasoningTerms)
    && Mentions(p, SpeedTerms) && !Mentions(p, AccuracyTerms) && !Mentions(p, BudgetTerms)
    && !Mentions(p, MultimodalTerms) && Mentions(p, LowTerms) && !Mentions(p, HighTerms)
  }

  /** Every request of the coding class gets the coding criteria, whatever else it
      says. */
  lemma DebugAnalysis(p: string)
    requires CodeOnlyRequest(p)
    ensures AnalyzePrompt(p) == DebugCriteria
  {
  }

  /** Every request of the hurried-simple class gets the quick criteria. */
  lemma QuickAnalysis(p: string)
    requires SpeedSimpleRequest(p)
    ensures AnalyzePrompt(p) == QuickCriteria
  {
  }

  /** The parts of the coding criteria the scorer reads. */
  predicate OnlyCode(c: Criteria) {
    c.requiresCode && !c.requiresCreative && !c.requiresReasoning && !c.requiresMultimodal
    && !c.requiresSpeed && !c.requiresAccuracy && !c.budgetSensitive && c.complexity == Complexity.Medium
  }

  /** The parts of the quick criteria the scorer reads. */
  predicate OnlyQuick(c: Criteria) {
    !c.requiresCode && !c.requiresCreative && !c.requiresReasoning && !c.requiresMultimodal
    && c.requiresSpeed && !c.requiresAccuracy && !c.budgetSensitive && c.complexity == Low
  }

  lemma DebugFlags(p: string)
    requires CodeOnlyRequest(p)
    ensures OnlyCode(AnalyzePrompt(p))
  {
    DebugAnalysis(p);
  }

  lemma QuickFlags(p: string)
    requires SpeedSimpleRequest(p)
    ensures OnlyQuick(AnalyzePrompt(p))
  {
    QuickAnalysis(p);
  }

  // The two example prompts belong to their classes: the keywords they
  // contain are found at a position, and every other keyword is ruled out by
  // a pair of adjacent letters that never stands next to each other in the
  // lower-cased prompt.

  lemma DebugPromptLowers(p: string)
    requires p == DebugPrompt
    ensures ToLower(p) == DebugLower
  {
    ToLowerIs(p, DebugLower);
  }

  lemma QuickPromptLowers(p: string)
    requires p == QuickPrompt
    ensures ToLower(p) == QuickPrompt
  {
    ToLowerFixesLower(p);
  }

  lemma DebugLacksCreative(l: string)
    requires l == DebugLower
    ensures forall k :: 0 <= k < |CreativeTerms| ==> !Occurs(l, CreativeTerms[k])
  {
    forall k | 0 <= k < |CreativeTerms| ensures !Occurs(l, CreativeTerms[k]) {
      PairAbsent(l, CreativeTerms[k], if k == 8 then 1 else 0);
    }
  }

  lemma DebugLacksReasoning(l: string)
    requires l == DebugLower
    ensures forall k :: 0 <= k < |ReasoningTerms| ==> !Occurs(l, ReasoningTerms[k])
  {
    forall k | 0 <= k < |ReasoningTerms| ensures !Occurs(l, ReasoningTerms[k]) {
      PairAbsent(l, ReasoningTerms[k], if k == 9 then 1 else 0);
    }
  }

  lemma DebugLacksSpeed(l: string)
    requires l == DebugLower
    ensures forall k :: 0 <= k < |SpeedTerms| ==> !Occurs(l, SpeedTerms[k])
  {
    forall k | 0 <= k < |SpeedTerms| ensures !Occurs(l, SpeedTerms[k]) {
      PairAbsent(l, SpeedTerms[k], 0);
    }
  }

  lemma DebugLacksAccuracy(l: string)
    requires l == DebugLower
    ensures forall k :: 0 <= k < |AccuracyTerms| ==> !Occurs(l, AccuracyTerms[k])
  {
    forall k | 0 <= k < |AccuracyTerms| ensures !Occurs(l, AccuracyTerms[k]) {
      PairAbsent(l, AccuracyTerms[k], if k == 3 then 1 else if k == 4 then 2 else 0);
    }
  }

  lemma DebugLacksBudget(l: string)
    requires l == DebugLower
    ensures forall k :: 0 <= k < |BudgetTerms| ==> !Occurs(l, BudgetTerms[k])
  {
    forall k | 0 <= k < |BudgetTerms| ensures !Occurs(l, BudgetTerms[k]) {
      PairAbsent(l, BudgetTerms[k], if k == 2 then 1 else 0);
    }
  }

  lemma DebugLacksMultimodal(l: string)
    requires l == DebugLower
    ensures forall k :: 0 <= k < |MultimodalTerms| ==> !Occurs(l, MultimodalTerms[k])
  {
    forall k | 0 <= k < |MultimodalTerms| ensures !Occurs(l, MultimodalTerms[k]) {
      PairAbsent(l, MultimodalTerms[k], 0);
    }
  }

  lemma DebugLacksLow(l: string)
    requires l == DebugLower
    ensures forall k :: 0 <= k < |LowTerms| ==> !Occurs(l, LowTerms[k])
  {
    forall k | 0 <= k < |LowTerms| ensures !Occurs(l, LowTerms[k]) {
      PairAbsent(l, LowTerms[k], 0);
    }
  }

  lemma DebugLacksHigh(l: string)
    requires l == DebugLower
    ensures forall k :: 0 <= k < |HighTerms| ==> !Occurs(l, HighTerms[k])
  {
    forall k | 0 <= k < |HighTerms| ensures !Occurs(l, HighTerms[k]) {
      PairAbsent(l, HighTerms[k], if k == 2 then 1 else 0);
    }
  }

  /** "debug" stands at position 8 of the lower-cased coding prompt. */
  lemma DebugHasDebug(l: string)
    requires l == DebugLower
    ensures Occurs(l, CodeTerms[2])
  {
    OccursAt(l, CodeTerms[2], 8);
  }

  /** The lower-cased coding prompt mentions a coding keyword and no other. */
  lemma DebugMentions(p: string, l: string)
    requires ToLower(p) == l && l == DebugLower
    ensures CodeOnlyRequest(p)
  {
    assert Mentions(p, CodeTerms) by { DebugHasDebug(l); }
    assert !Mentions(p, CreativeTerms) by { DebugLacksCreative(l); }
    assert !Mentions(p, ReasoningTerms) by { DebugLacksReasoning(l); }
    assert !Mentions(p, SpeedTerms) by { DebugLacksSpeed(l); }
    assert !Mentions(p, AccuracyTerms) by { DebugLacksAccuracy(l); }
    assert !Mentions(p, BudgetTerms) by { DebugLacksBudget(l); }
    assert !Mentions(p, MultimodalTerms) by { DebugLacksMultimodal(l); }
    assert !Mentions(p, LowTerms) by { DebugLacksLow(l); }
    assert !Mentions(p, HighTerms) by { DebugLacksHigh(l); }
  }

  lemma QuickLacksCode(l: string)
    requires l == QuickPrompt
    ensures forall k :: 0 <= k < |CodeTerms| ==> !Occurs(l, CodeTerms[k])
  {
    forall k | 0 <= k < |CodeTerms| ensures !Occurs(l, CodeTerms[k]) {
      PairAbsent(l, CodeTerms[k], 0);
    }
  }

  lemma QuickLacksCreative(l: string)
    requires l == QuickPrompt
    ensures forall k :: 0 <= k < |CreativeTerms| ==> !Occurs(l, CreativeTerms[k])
  {
    forall k | 0 <= k < |CreativeTerms| ensures !Occurs(l, CreativeTerms[k]) {
      PairAbsent(l, CreativeTerms[k], if k == 5 then 1 else if k == 6 then 2 else 0);
    }
  }

  lemma QuickLacksReasoning(l: string)
    requires l == QuickPrompt
    ensures forall k :: 0 <= k < |ReasoningTerms| ==> !Occurs(l, ReasoningTerms[k])
  {
    forall k | 0 <= k < |ReasoningTerms| ensures !Occurs(l, ReasoningTerms[k]) {
      PairAbsent(l, ReasoningTerms[k], if k == 8 then 1 else 0);
    }
  }

  lemma QuickLacksAccuracy(l: string)
    requires l == QuickPrompt
    ensures forall k :: 0 <= k < |AccuracyTerms| ==> !Occurs(l, AccuracyTerms[k])
  {
    forall k | 0 <= k < |AccuracyTerms| ensures !Occurs(l, AccuracyTerms[k]) {
      PairAbsent(l, AccuracyTerms[k], 0);
    }
  }

  lemma QuickLacksBudget(l: string)
    requires l == QuickPrompt
    ensures forall k :: 0 <= k < |BudgetTerms| ==> !Occurs(l, BudgetTerms[k])
  {
    forall k | 0 <= k < |BudgetTerms| ensures !Occurs(l, BudgetTerms[k]) {
      PairAbsent(l, BudgetTerms[k], 0);
    }
  }

  lemma QuickLacksMultimodal(l: string)
    requires l == QuickPrompt
    ensures forall k :: 0 <= k < |MultimodalTerms| ==> !Occurs(l, MultimodalTerms[k])
  {
    forall k | 0 <= k < |MultimodalTerms| ensures !Occurs(l, MultimodalTerms[k]) {
      PairAbsent(l, MultimodalTerms[k], 0);
    }
  }

  lemma QuickLacksHigh(l: string)
    requires l == QuickPrompt
    ensures forall k :: 0 <= k < |HighTerms| ==> !Occurs(l, HighTerms[k])
  {
    forall k | 0 <= k < |HighTerms| ensures !Occurs(l, HighTerms[k]) {
      PairAbsent(l, HighTerms[k], 0);
    }
  }

  /** "quick" opens the quick prompt, as a speed keyword. */
  lemma QuickHasSpeed(l: string)
    requires l == QuickPrompt
    ensures Occurs(l, SpeedTerms[0])
  {
    OccursAt(l, SpeedTerms[0], 0);
  }

  /** "quick" opens the quick prompt, as a low-complexity keyword. */
  lemma QuickHasLow(l: string)
    requires l == QuickPrompt
    ensures Occurs(l, LowTerms[3])
  {
    OccursAt(l, LowTerms[3], 0);
  }

  /** "quick" opens the prompt and is both a speed and a low-complexity keyword. */
  lemma QuickMentions(p: string, l: string)
    requires ToLower(p) == l && l == QuickPrompt
    ensures SpeedSimpleRequest(p)
  {
    assert !Mentions(p, CodeTerms) by { QuickLacksCode(l); }
    assert !Mentions(p, CreativeTerms) by { QuickLacksCreative(l); }
    assert !Mentions(p, ReasoningTerms) by { QuickLacksReasoning(l); }
    assert Mentions(p, SpeedTerms) by { QuickHasSpeed(l); }
    assert !Mentions(p, AccuracyTerms) by { QuickLacksAccuracy(l); }
    assert !Mentions(p, BudgetTerms) by { QuickLacksBudget(l); }
    assert !Mentions(p, MultimodalTerms) by { QuickLacksMultimodal(l); }
    assert Mentions(p, LowTerms) by { QuickHasLow(l); }
    assert !Mentions(p, HighTerms) by { QuickLacksHigh(l); }
  }

  /** For a coding request only the code rule and the OpenAI and Meta bonuses can
      fire, for any candidate. */
  lemma CodeRequestScore(c: Criteria, m: Model)
    requires OnlyCode(c)
    ensures Score(c, m) == (if "code" in m.capabilities then 30 else 0)
      + (if m.provider == "OpenAI" || m.provider == "Meta" then 5 else 0)
    ensures Fragments(c, m) == if "code" in m.capabilities then [ForCoding] else []
  {
    ScoreExpanded(c, m); FragmentsExpanded(c, m);
  }

  /** For a hurried simple request only the speed rule, the simple-task rule and the
      Google bonus can fire, for any candidate. */
  lemma QuickRequestScore(c: Criteria, m: Model)
    requires OnlyQuick(c)
    ensures Score(c, m) == (match m.responseTime case Fast => 30 case Medium => 10 case Slow => -10)
      + (if m.provider == "Google" then 5 else 0)
    ensures Fragments(c, m) == if m.responseTime == Fast then [ForSpeed, ForSimple] else []
  {
    ScoreExpanded(c, m); FragmentsExpanded(c, m);
  }

  /** Which of eight entries list "code", and which come from OpenAI or Meta,
      as in the shipped registry. */
  predicate CodeShape(reg: seq<Model>) {
    |reg| == 8
    && "code" in reg[0].capabilities && "code" !in reg[1].capabilities && "code" in reg[2].capabilities
    && "code" in reg[3].capabilities && "code" in reg[4].capabilities && "code" in reg[5].capabilities
    && "code" !in reg[6].capabilities && "code" !in reg[7].capabilities
    && reg[0].provider == "OpenAI" && reg[3].provider == "Meta" && reg[4].provider == "Meta"
    && (forall i :: i in {1, 2, 5, 6, 7} ==> reg[i].provider != "OpenAI" && reg[i].provider != "Meta")
  }

  /** Which of eight entries are fast, and which come from Google, as in the
      shipped registry. */
  predicate SpeedShape(reg: seq<Model>) {
    |reg| == 8
    && reg[0].responseTime == ResponseTime.Medium && reg[1].responseTime == ResponseTime.Medium && reg[2].responseTime == Fast
    && reg[3].responseTime == Fast && reg[4].responseTime == Fast && reg[5].responseTime == ResponseTime.Medium
    && reg[6].responseTime == Fast && reg[7].responseTime == Fast
    && reg[2].provider == "Google" && reg[6].provider == "Google"
    && (forall i :: i in {0, 1, 3, 4, 5, 7} ==> reg[i].provider != "Google")
  }

  /** The registry entries that list "code". */
  lemma CodeListed(reg: seq<Model>)
    requires reg == AiModels
    ensures |reg| == 8
    ensures "code" in reg[0].capabilities && "code" in reg[2].capabilities && "code" in reg[3].capabilities
    ensures "code" in reg[4].capabilities && "code" in reg[5].capabilities
  {
    assert reg[0].capabilities[3] == "code" && reg[2].capabilities[1] == "code";
    assert reg[3].capabilities[1] == "code" && reg[4].capabilities[0] == "code";
    assert reg[5].capabilities[2] == "code";
  }

  /** The registry entries that do not list "code". */
  lemma CodeUnlisted(reg: seq<Model>)
    requires reg == AiModels
    ensures |reg| == 8
    ensures "code" !in reg[1].capabilities && "code" !in reg[6].capabilities && "code" !in reg[7].capabilities
  {
  }

  /** The registry entries from OpenAI or Meta. */
  lemma CodeProviders(reg: seq<Model>)
    requires reg == AiModels
    ensures |reg| == 8
    ensures reg[0].provider == "OpenAI" && reg[3].provider == "Meta" && reg[4].provider == "Meta"
    ensures forall i :: i in {1, 2, 5, 6, 7} ==> reg[i].provider != "OpenAI" && reg[i].provider != "Meta"
  {
  }

  lemma CodeFacts(reg: seq<Model>)
    requires reg == AiModels
    ensures CodeShape(reg)
  {
    CodeListed(reg); CodeUnlisted(reg); CodeProviders(reg);
  }

  lemma SpeedFacts(reg: seq<Model>)
    requires reg == AiModels
    ensures SpeedShape(reg)
  {
  }

  /** A coding request scored over eight entries shaped like the registry. */
  lemma CodeScores(c: Criteria, reg: seq<Model>)
    requires OnlyCode(c) && CodeShape(reg)
    ensures |ScoreAll(c, reg)| == 8
    ensures ScoreAll(c, reg)[0] == Scored(0, reg[0], 35, [ForCoding])
    ensures ScoreAll(c, reg)[1] == Scored(1, reg[1], 0, [])
    ensures ScoreAll(c, reg)[2] == Scored(2, reg[2], 30, [ForCoding])
    ensures ScoreAll(c, reg)[3] == Scored(3, reg[3], 35, [ForCoding])
    ensures ScoreAll(c, reg)[4] == Scored(4, reg[4], 35, [ForCoding])
    ensures ScoreAll(c, reg)[5] == Scored(5, reg[5], 30, [ForCoding])
    ensures ScoreAll(c, reg)[6] == Scored(6, reg[6], 0, [])
    ensures ScoreAll(c, reg)[7] == Scored(7, reg[7], 0, [])
  {
    var s := ScoreAll(c, reg);
    assert s[0] == Scored(0, reg[0], 35, [ForCoding]) by { CodeRequestScore(c, reg[0]); }
    assert s[1] == Scored(1, reg[1], 0, []) by { assert 1 in {1, 2, 5, 6, 7}; CodeRequestScore(c, reg[1]); }
    assert s[2] == Scored(2, reg[2], 30, [ForCoding]) by { assert 2 in {1, 2, 5, 6, 7}; CodeRequestScore(c, reg[2]); }
    assert s[3] == Scored(3, reg[3], 35, [ForCoding]) by { CodeRequestScore(c, reg[3]); }
    assert s[4] == Scored(4, reg[4], 35, [ForCoding]) by { CodeRequestScore(c, reg[4]); }
    assert s[5] == Scored(5, reg[5], 30, [ForCoding]) by { assert 5 in {1, 2, 5, 6, 7}; CodeRequestScore(c, reg[5]); }
    assert s[6] == Scored(6, reg[6], 0, []) by { assert 6 in {1, 2, 5, 6, 7}; CodeRequestScore(c, reg[6]); }
    assert s[7] == Scored(7, reg[7], 0, []) by { assert 7 in {1, 2, 5, 6, 7}; CodeRequestScore(c, reg[7]); }
  }

  /** A hurried simple request scored over eight entries shaped like the registry. */
  lemma SpeedScores(c: Criteria, reg: seq<Model>)
    requires OnlyQuick(c) && SpeedShape(reg)
    ensures |ScoreAll(c, reg)| == 8
    ensures ScoreAll(c, reg)[0] == Scored(0, reg[0], 10, [])
    ensures ScoreAll(c, reg)[1] == Scored(1, reg[1], 10, [])
    ensures ScoreAll(c, reg)[2] == Scored(2, reg[2], 35, [ForSpeed, ForSimple])
    ensures ScoreAll(c, reg)[3] == Scored(3, reg[3], 30, [ForSpeed, ForSimple])
    ensures ScoreAll(c, reg)[4] == Scored(4, reg[4], 30, [ForSpeed, ForSimple])
    ensures ScoreAll(c, reg)[5] == Scored(5, reg[5], 10, [])
    ensures ScoreAll(c, reg)[6] == Scored(6, reg[6], 35, [ForSpeed, ForSimple])
    ensures ScoreAll(c, reg)[7] == Scored(7, reg[7], 30, [ForSpeed, ForSimple])
  {
    var s := ScoreAll(c, reg);
    assert s[0] == Scored(0, reg[0], 10, []) by { assert 0 in {0, 1, 3, 4, 5, 7}; QuickRequestScore(c, reg[0]); }
    assert s[1] == Scored(1, reg[1], 10, []) by { assert 1 in {0, 1, 3, 4, 5, 7}; QuickRequestScore(c, reg[1]); }
    assert s[2] == Scored(2, reg[2], 35, [ForSpeed, ForSimple]) by { QuickRequestScore(c, reg[2]); }
    assert s[3] == Scored(3, reg[3], 30, [ForSpeed, ForSimple]) by { assert 3 in {0, 1, 3, 4, 5, 7}; QuickRequestScore(c, reg[3]); }
    assert s[4] == Scored(4, reg[4], 30, [ForSpeed, ForSimple]) by { assert 4 in {0, 1, 3, 4, 5, 7}; QuickRequestScore(c, reg[4]); }
    assert s[5] == Scored(5, reg[5], 10, []) by { assert 5 in {0, 1, 3, 4, 5, 7}; QuickRequestScore(c, reg[5]); }
    assert s[6] == Scored(6, reg[6], 35, [ForSpeed, ForSimple]) by { QuickRequestScore(c, reg[6]); }
    assert s[7] == Scored(7, reg[7], 30, [ForSpeed, ForSimple]) by { assert 7 in {0, 1, 3, 4, 5, 7}; QuickRequestScore(c, reg[7]); }
  }

  /** The coding request scored over the registry: 35 for code-capable OpenAI and Meta
      entries, 30 for other code-capable ones, 0 otherwise. */
  lemma DebugScores(c: Criteria, reg: seq<Model>)
    requires OnlyCode(c) && reg == AiModels
    ensures |ScoreAll(c, reg)| == 8
    ensures ScoreAll(c, reg)[0] == Scored(0, reg[0], 35, [ForCoding])
    ensures ScoreAll(c, reg)[1] == Scored(1, reg[1], 0, [])
    ensures ScoreAll(c, reg)[2] == Scored(2, reg[2], 30, [ForCoding])
    ensures ScoreAll(c, reg)[3] == Scored(3, reg[3], 35, [ForCoding])
    ensures ScoreAll(c, reg)[4] == Scored(4, reg[4], 35, [ForCoding])
    ensures ScoreAll(c, reg)[5] == Scored(5, reg[5], 30, [ForCoding])
    ensures ScoreAll(c, reg)[6] == Scored(6, reg[6], 0, [])
    ensures ScoreAll(c, reg)[7] == Scored(7, reg[7], 0, [])
  {
    CodeFacts(reg);
    CodeScores(c, reg);
  }

  /** The quick request scored over the registry: 35 for fast Google entries, 30 for
      other fast ones, 10 for the medium-speed ones. */
  lemma QuickScores(c: Criteria, reg: seq<Model>)
    requires OnlyQuick(c) && reg == AiModels
    ensures |ScoreAll(c, reg)| == 8
    ensures ScoreAll(c, reg)[0] == Scored(0, reg[0], 10, [])
    ensures ScoreAll(c, reg)[1] == Scored(1, reg[1], 10, [])
    ensures ScoreAll(c, reg)[2] == Scored(2, reg[2], 35, [ForSpeed, ForSimple])
    ensures ScoreAll(c, reg)[3] == Scored(3, reg[3], 30, [ForSpeed, ForSimple])
    ensures ScoreAll(c, reg)[4] == Scored(4, reg[4], 30, [ForSpeed, ForSimple])
    ensures ScoreAll(c, reg)[5] == Scored(5, reg[5], 10, [])
    ensures ScoreAll(c, reg)[6] == Scored(6, reg[6], 35, [ForSpeed, ForSimple])
    ensures ScoreAll(c, reg)[7] == Scored(7, reg[7], 30, [ForSpeed, ForSimple])
  {
    SpeedFacts(reg);
    SpeedScores(c, reg);
  }

  /** The stable descending order of the coding scores: ties (35, 35, 35 and 30, 30
      and 0, 0, 0) stay in registry order. */
  lemma DebugOrder(s: seq<Scored>) returns (t: seq<Scored>)
    requires |s| == 8
    requires forall i :: 0 <= i < 8 ==> s[i].index == i
    requires s[0].score == 35 && s[1].score == 0 && s[2].score == 30 && s[3].score == 35
    requires s[4].score == 35 && s[5].score == 30 && s[6].score == 0 && s[7].score == 0
    ensures t == [s[0], s[3], s[4], s[2], s[5], s[1], s[6], s[7]]
    ensures Ranked(t)
    ensures multiset(t) == multiset(s)
  {
    t := [s[0], s[3], s[4], s[2], s[5], s[1], s[6], s[7]];
    RankedByNeighbours(t);
    var a, b, c, d, e, f := [s[0]], [s[1]], [s[2]], [s[3], s[4]], [s[5]], [s[6], s[7]];
    assert s == a + b + c + d + e + f;
    assert t == a + d + c + e + b + f;
  }

  /** The stable descending order of the quick scores. */
  lemma QuickOrder(s: seq<Scored>) returns (t: seq<Scored>)
    requires |s| == 8
    requires forall i :: 0 <= i < 8 ==> s[i].index == i
    requires s[0].score == 10 && s[1].score == 10 && s[2].score == 35 && s[3].score == 30
    requires s[4].score == 30 && s[5].score == 10 && s[6].score == 35 && s[7].score == 30
    ensures t == [s[2], s[6], s[3], s[4], s[7], s[0], s[1], s[5]]
    ensures Ranked(t)
    ensures multiset(t) == multiset(s)
  {
    t := [s[2], s[6], s[3], s[4], s[7], s[0], s[1], s[5]];
    RankedByNeighbours(t);
    var a, b, c, d, e, f := [s[0], s[1]], [s[2]], [s[3], s[4]], [s[5]], [s[6]], [s[7]];
    assert s == a + b + c + d + e + f;
    assert t == b + e + c + f + a + d;
  }

  lemma NextThree(t: seq<Scored>)
    requires |t| >= 4
    ensures Models(t[1..4]) == [t[1].model, t[2].model, t[3].model]
  {
  }

  /** The debug request's scores decide the selection: gpt-4-turbo first,
      then the Meta pair (tied at 35, in registry order), then gemini-pro at 30
      ahead of mistral-large at 30; 35 is below the confidence floor. */
  lemma DebugSelect(c: Criteria, reg: seq<Model>)
    requires OnlyCode(c) && reg == AiModels
    ensures Select(reg, c) == Selection(reg[0], 60, "excellent for coding tasks", [reg[3], reg[4], reg[2]])
  {
    DebugScores(c, reg);
    var t := DebugOrder(ScoreAll(c, reg));
    SelectReadsAnyRanking(reg, c, t);
    NextThree(t);
    assert Phrases([ForCoding]) == ["excellent for coding tasks"];
  }

  lemma QuickSelect(c: Criteria, reg: seq<Model>)
    requires OnlyQuick(c) && reg == AiModels
    ensures Select(reg, c) ==
      Selection(reg[2], 60, "fast response time, efficient for simple tasks", [reg[6], reg[3], reg[4]])
  {
    QuickScores(c, reg);
    var t := QuickOrder(ScoreAll(c, reg));
    SelectReadsAnyRanking(reg, c, t);
    NextThree(t);
    SpeedAndSimpleText();
  }

  lemma SpeedAndSimpleText()
    ensures ReasoningText([ForSpeed, ForSimple]) == "fast response time, efficient for simple tasks"
  {
    assert Phrases([ForSpeed, ForSimple]) == ["fast response time", "efficient for simple tasks"];
  }

  /** Every coding request, "Help me debug this Python function" among them,
      selects gpt-4-turbo at the confidence floor, with llama-2-70b,
      codellama-34b and gemini-pro as alternatives. */
  lemma DebugRequest(p: string, reg: seq<Model>)
    requires CodeOnlyRequest(p) && reg == AiModels
    ensures Select(reg, AnalyzePrompt(p)) ==
      Selection(reg[0], 60, "excellent for coding tasks", [reg[3], reg[4], reg[2]])
  {
    DebugFlags(p);
    DebugSelect(AnalyzePrompt(p), reg);
  }

  /** Every hurried simple request, "quick summary please" among them,
      selects gemini-pro; the alternatives are palm-2 (tied at 35, later in
      the registry), llama-2-70b and codellama-34b. */
  lemma QuickRequest(p: string, reg: seq<Model>)
    requires SpeedSimpleRequest(p) && reg == AiModels
    ensures Select(reg, AnalyzePrompt(p)) ==
      Selection(reg[2], 60, "fast response time, efficient for simple tasks", [reg[6], reg[3], reg[4]])
  {
    QuickFlags(p);
    QuickSelect(AnalyzePrompt(p), reg);
  }

  /** The selection for the coding prompt: gpt-4-turbo at 60 with "excellent
      for coding tasks", and llama-2-70b, codellama-34b and gemini-pro as
      alternatives. */
  const DebugChoice := Selection(AiModels[0], 60, "excellent for coding tasks", [AiModels[3], AiModels[4], AiModels[2]])

  /** The selection for the quick prompt: gemini-pro at 60 with the speed and
      simple-task reasoning, and palm-2, llama-2-70b and codellama-34b as
      alternatives. */
  const QuickChoice := Selection(AiModels[2], 60, "fast response time, efficient for simple tasks", [AiModels[6], AiModels[3], AiModels[4]])

  /** "Help me debug this Python function" is a code-only request. */
  lemma DebugPromptIsCodeOnly(p: string)
    requires p == DebugPrompt
    ensures CodeOnlyRequest(p)
  {
    DebugPromptLowers(p);
    DebugMentions(p, DebugLower);
  }

  /** "quick summary please" is a speed-and-simple request. */
  lemma QuickPromptIsSpeedSimple(p: string)
    requires p == QuickPrompt
    ensures SpeedSimpleRequest(p)
  {
    QuickPromptLowers(p);
    QuickMentions(p, QuickPrompt);
  }

  /** The coding prompt itself, from the raw text to the selection. */
  lemma DebugPromptSelects()
    ensures Select(AiModels, AnalyzePrompt(DebugPrompt)) == DebugChoice
  {
    DebugPromptIsCodeOnly(DebugPrompt);
    DebugRequest(DebugPrompt, AiModels);
  }

  /** The quick prompt itself, from the raw text to the selection. */
  lemma QuickPromptSelects()
    ensures Select(AiModels, AnalyzePrompt(QuickPrompt)) == QuickChoice
  {
    QuickPromptIsSpeedSimple(QuickPrompt);
    QuickRequest(QuickPrompt, AiModels);
  }

  /** The empty request selects the first registry entry with the fallback
      reasoning, and the next three entries as alternatives. */
  lemma EmptyRequest(reg: seq<Model>)
    requires reg == AiModels
    ensures Select(reg, AnalyzePrompt("")) == Selection(reg[0], 60, Fallback, reg[1..4])
  {
    EmptyPromptIsNeutral();
    NeutralSelectsRegistryOrder(reg);
  }

  /** The registry entries by id, in registry order. */
  lemma RegistryIds(reg: seq<Model>)
    requires reg == AiModels
    ensures reg[0].id == "gpt-4-turbo" && reg[1].id == "claude-3-opus"
    ensures reg[2].id == "gemini-pro" && reg[3].id == "llama-2-70b"
    ensures reg[4].id == "codellama-34b" && reg[5].id == "mistral-large"
    ensures reg[6].id == "palm-2" && reg[7].id == "claude-3-haiku"
  {
  }

  /** Where each registry entry falls in the budget rule's three bands:
      cheap below an average rate of 0.002, expensive above 0.02, and
      gpt-4-turbo exactly on the upper boundary, so neither. */
  lemma BudgetBands(reg: seq<Model>)
    requires reg == AiModels
    ensures forall i :: 0 <= i < |reg| ==> (AverageRate(reg[i]) < 0.002 <==> i in {2, 3, 4, 6, 7})
    ensures forall i :: 0 <= i < |reg| ==> (AverageRate(reg[i]) > 0.02 <==> i == 1)
    ensures AverageRate(reg[0]) == 0.02
  {
  }

  /** 1000 input and 500 output tokens on gpt-4-turbo cost 0.01 + 0.015. */
  lemma CostExample(reg: seq<Model>)
    requires reg == AiModels
    ensures CalculateCost(reg[0], 1000, 500) == 0.025
  {
  }
}
