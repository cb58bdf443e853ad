/** The per-candidate scorer inside `selectBestModel`: a fixed, ordered list of
    additive integer rules, each of which may also emit a reasoning fragment. */
module Scorer {
  import opened Catalog
  import opened Analyzer

  /** What one rule adds: points, and either no fragment or exactly one. */
  datatype Contribution = Contribution(points: int, emitted: seq<Reason>)

  const NoChange: Contribution := Contribution(0, [])

  /** The reasoning fragments a rule can emit, one per labelled rule. */
  datatype Reason =
    | ForCoding | ForCreative | ForReasoning | ForMultimodal | ForSpeed
    | ForAccuracy | ForBudget | ForComplex | ForSimple

  /** The text shown for each fragment. */
  function Phrase(r: Reason): (s: string)
    ensures |s| > 0
  {
    match r
    case ForCoding => "excellent for coding tasks"
    case ForCreative => "strong creative capabilities"
    case ForReasoning => "advanced reasoning abilities"
    case ForMultimodal => "multimodal support"
    case ForSpeed => "fast response time"
    case ForAccuracy => "high accuracy"
    case ForBudget => "cost-effective"
    case ForComplex => "handles complex tasks well"
    case ForSimple => "efficient for simple tasks"
  }

  /** Rules 1-4: a required capability the candidate lists. */
  function CapabilityRule(required: bool, m: Model, capability: string, points: int, fragment: Reason): (r: Contribution)
  {
    if required && capability in m.capabilities then Contribution(points, [fragment]) else NoChange
  }

  function SpeedRule(c: Criteria, m: Model): (r: Contribution)
  {
    if !c.requiresSpeed then NoChange
    else match m.responseTime
      case Fast => Contribution(20, [ForSpeed])
      case Medium => Contribution(10, [])
      case Slow => Contribution(-10, [])
  }

  function AccuracyRule(c: Criteria, m: Model): (r: Contribution)
  {
    if !c.requiresAccuracy then NoChange
    else Contribution((m.accuracy - 80) * 2, if m.accuracy >= 90 then [ForAccuracy] else [])
  }

  /** The mean of the two per-1000-token rates. */
  function AverageRate(m: Model): (r: real)
  {
    (m.pricing.inputRate + m.pricing.outputRate) / 2.0
  }

  function BudgetRule(c: Criteria, m: Model): (r: Contribution)
  {
    if !c.budgetSensitive then NoChange
    else if AverageRate(m) < 0.002 then Contribution(20, [ForBudget])
    else if AverageRate(m) > 0.02 then Contribution(-15, [])
    else NoChange
  }

  function ComplexityRule(c: Criteria, m: Model): (r: Contribution)
  {
    if c.complexity == High && m.accuracy >= 90 then Contribution(15, [ForComplex])
    else if c.complexity == Low && m.responseTime == Fast then Contribution(10, [ForSimple])
    else NoChange
  }

  /** Rule 10: provider affinity, +5 and never a fragment. */
  function ProviderBonus(applies: bool): (r: Contribution)
  {
    if applies then Contribution(5, []) else NoChange
  }

  /** What each rule can contribute. A capability rule scores its points
      exactly when it emits its fragment. Speed gives between -10 and 20,
      negative only for a slow candidate when speed is required. Accuracy
      gives two points per accuracy point above 80 (negative below 80), with
      its fragment from 90 up. Budget gives +20 (with its fragment) below an
      average rate of 0.002, -15 above 0.02, 0 otherwise. Complexity gives 15 with "handles complex
      tasks well", 10 with "efficient for simple tasks", or 0 and nothing.
      A provider bonus is 5 or 0 and never speaks. */
  lemma RulePoints(c: Criteria, m: Model, required: bool, capability: string, points: int, fragment: Reason, applies: bool)
    ensures var r := CapabilityRule(required, m, capability, points, fragment);
      (r.emitted == [fragment] <==> required && capability in m.capabilities)
      && (r.emitted == [] ==> r.points == 0)
      && (r.emitted != [] ==> r.emitted == [fragment] && r.points == points)
    ensures var r := SpeedRule(c, m);
      -10 <= r.points <= 20
      && (r.points < 0 <==> c.requiresSpeed && m.responseTime == Slow)
      && (r.emitted == [ForSpeed] <==> c.requiresSpeed && m.responseTime == Fast)
    ensures var r := AccuracyRule(c, m);
      (r.emitted != [] ==> r.points >= 20)
      && (c.requiresAccuracy && m.accuracy > 80 ==> r.points > 0)
      && r.points == (if c.requiresAccuracy then (m.accuracy - 80) * 2 else 0)
      && (r.emitted == [ForAccuracy] <==> c.requiresAccuracy && m.accuracy >= 90)
    ensures var r := BudgetRule(c, m);
      (r.points == 20 || r.points == 0 || r.points == -15)
      && (r.emitted == [ForBudget] <==> r.points == 20)
      && (r.points == 20 <==> c.budgetSensitive && AverageRate(m) < 0.002)
      && (r.points == -15 <==> c.budgetSensitive && AverageRate(m) > 0.02)
    ensures var r := ComplexityRule(c, m);
      (r.points == 15 <==> r.emitted == [ForComplex])
      && (r.points == 10 <==> r.emitted == [ForSimple])
      && (r.points == 0 <==> r.emitted == [])
    ensures var r := ProviderBonus(applies);
      r.emitted == [] && (r.points == 5 <==> applies) && (r.points == 0 <==> !applies)
    ensures m.pricing.inputRate <= AverageRate(m) <= m.pricing.outputRate
      || m.pricing.outputRate <= AverageRate(m) <= m.pricing.inputRate
  {
  }

  /** The rules in the order the source evaluates them. */
  function Contributions(c: Criteria, m: Model): (r: seq<Contribution>)
    ensures |r| == 12
  {
    [ CapabilityRule(c.requiresCode, m, "code", 30, ForCoding),
      CapabilityRule(c.requiresCreative, m, "creative-writing", 25, ForCreative),
      CapabilityRule(c.requiresReasoning, m, "reasoning", 25, ForReasoning),
      CapabilityRule(c.requiresMultimodal, m, "multimodal", 35, ForMultimodal),
      SpeedRule(c, m),
      AccuracyRule(c, m),
      BudgetRule(c, m),
      ComplexityRule(c, m),
      ProviderBonus(m.provider == "OpenAI" && (c.requiresCode || c.requiresReasoning)),
      ProviderBonus(m.provider == "Anthropic" && c.requiresReasoning),
      ProviderBonus(m.provider == "Google" && (c.requiresSpeed || c.requiresMultimodal)),
      ProviderBonus(m.provider == "Meta" && (c.budgetSensitive || c.requiresCode)) ]
  }

  function Sum(cs: seq<Contribution>): (r: int) {
    if |cs| == 0 then 0 else cs[0].points + Sum(cs[1..])
  }

  function Labels(cs: seq<Contribution>): (r: seq<Reason>) {
    if |cs| == 0 then [] else cs[0].emitted + Labels(cs[1..])
  }

  function Score(c: Criteria, m: Model): (r: int) {
    Sum(Contributions(c, m))
  }

  /** The fragments emitted for a candidate, in rule order. */
  function Fragments(c: Criteria, m: Model): (r: seq<Reason>) {
    Labels(Contributions(c, m))
  }

  /** The total score written out rule by rule. */
  lemma ScoreExpanded(c: Criteria, m: Model)
    ensures Score(c, m) ==
      CapabilityRule(c.requiresCode, m, "code", 30, ForCoding).points
      + CapabilityRule(c.requiresCreative, m, "creative-writing", 25, ForCreative).points
      + CapabilityRule(c.requiresReasoning, m, "reasoning", 25, ForReasoning).points
      + CapabilityRule(c.requiresMultimodal, m, "multimodal", 35, ForMultimodal).points
      + SpeedRule(c, m).points + AccuracyRule(c, m).points + BudgetRule(c, m).points + ComplexityRule(c, m).points
      + ProviderBonus(m.provider == "OpenAI" && (c.requiresCode || c.requiresReasoning)).points
      + ProviderBonus(m.provider == "Anthropic" && c.requiresReasoning).points
      + ProviderBonus(m.provider == "Google" && (c.requiresSpeed || c.requiresMultimodal)).points
      + ProviderBonus(m.provider == "Meta" && (c.budgetSensitive || c.requiresCode)).points
  {
    SumOfRules(Contributions(c, m));
  }

  /** The fragments written out rule by rule (provider bonuses emit none). */
  lemma FragmentsExpanded(c: Criteria, m: Model)
    ensures Fragments(c, m) ==
      CapabilityRule(c.requiresCode, m, "code", 30, ForCoding).emitted
      + (CapabilityRule(c.requiresCreative, m, "creative-writing", 25, ForCreative).emitted
      + (CapabilityRule(c.requiresReasoning, m, "reasoning", 25, ForReasoning).emitted
      + (CapabilityRule(c.requiresMultimodal, m, "multimodal", 35, ForMultimodal).emitted
      + (SpeedRule(c, m).emitted + (AccuracyRule(c, m).emitted + (BudgetRule(c, m).emitted
      + ComplexityRule(c, m).emitted))))))
  {
    ProviderBonusesSilent(c, m);
    LabelsOfRules(Contributions(c, m));
  }

  /** The four provider bonuses never emit a fragment. */
  lemma ProviderBonusesSilent(c: Criteria, m: Model)
    ensures forall k :: 8 <= k < 12 ==> Contributions(c, m)[k].emitted == []
  {
  }

  lemma SumOfRules(cs: seq<Contribution>)
    requires |cs| == 12
    ensures Sum(cs) == cs[0].points + cs[1].points + cs[2].points + cs[3].points
      + cs[4].points + cs[5].points + cs[6].points + cs[7].points
      + cs[8].points + cs[9].points + cs[10].points + cs[11].points
  {
    SumFrom(cs, 0); SumFrom(cs, 1); SumFrom(cs, 2); SumFrom(cs, 3);
    SumFrom(cs, 4); SumFrom(cs, 5); SumFrom(cs, 6); SumFrom(cs, 7);
    SumFrom(cs, 8); SumFrom(cs, 9); SumFrom(cs, 10); SumFrom(cs, 11);
  }

  lemma LabelsOfRules(cs: seq<Contribution>)
    requires |cs| == 12
    requires forall k :: 8 <= k < 12 ==> cs[k].emitted == []
    ensures Labels(cs) == cs[0].emitted + (cs[1].emitted + (cs[2].emitted + (cs[3].emitted
      + (cs[4].emitted + (cs[5].emitted + (cs[6].emitted + cs[7].emitted))))))
  {
    LabelsFrom(cs, 8); LabelsFrom(cs, 9); LabelsFrom(cs, 10); LabelsFrom(cs, 11);
    LabelsFrom(cs, 7);
    assert Labels(cs[7..]) == cs[7].emitted;
    LabelsFrom(cs, 0); LabelsFrom(cs, 1); LabelsFrom(cs, 2); LabelsFrom(cs, 3);
    LabelsFrom(cs, 4); LabelsFrom(cs, 5); LabelsFrom(cs, 6);
  }

  lemma SumFrom(cs: seq<Contribution>, k: int)
    requires 0 <= k < |cs|
    ensures Sum(cs[k..]) == cs[k].points + Sum(cs[k + 1..])
  {
    assert cs[k..][1..] == cs[k + 1..];
  }

  lemma LabelsFrom(cs: seq<Contribution>, k: int)
    requires 0 <= k < |cs|
    ensures Labels(cs[k..]) == cs[k].emitted + Labels(cs[k + 1..])
  {
    assert cs[k..][1..] == cs[k + 1..];
  }

  /** Raising every rule's points raises the total. */
  lemma {:induction false} SumMonotone(a: seq<Contribution>, b: seq<Contribution>)
    requires |a| == |b|
    requires forall i :: 0 <= i < |a| ==> a[i].points <= b[i].points
    ensures Sum(a) <= Sum(b)
  {
    if |a| > 0 {
      SumMonotone(a[1..], b[1..]);
    }
  }

  /** A fragment is emitted exactly when one of the rules emits it. */
  lemma {:induction false} InLabels(cs: seq<Contribution>, f: Reason)
    ensures f in Labels(cs) <==> exists i :: 0 <= i < |cs| && f in cs[i].emitted
  {
    if |cs| > 0 {
      InLabels(cs[1..], f);
      assert forall i :: 1 <= i < |cs| ==> cs[i] == cs[1..][i - 1];
    }
  }

  /** Changing one rule's points changes the total by exactly that much. */
  lemma {:induction false} SumShift(a: seq<Contribution>, b: seq<Contribution>, i: int)
    requires |a| == |b| && 0 <= i < |a|
    requires forall j :: 0 <= j < |a| && j != i ==> a[j].points == b[j].points
    ensures Sum(b) == Sum(a) + (b[i].points - a[i].points)
  {
    if i == 0 {
      SumMonotone(a[1..], b[1..]);
      SumMonotone(b[1..], a[1..]);
    } else {
      SumShift(a[1..], b[1..], i - 1);
    }
  }

  /** Taking one rule out of the list takes out exactly its points. */
  lemma {:induction false} SumRemove(cs: seq<Contribution>, j: int)
    requires 0 <= j < |cs|
    ensures Sum(cs) == cs[j].points + Sum(cs[..j] + cs[j + 1..])
    decreases |cs|
  {
    if j == 0 {
      assert cs[..0] + cs[1..] == cs[1..];
    } else {
      var tail := cs[1..];
      SumRemove(tail, j - 1);
      assert tail[..j - 1] + tail[j..] == (cs[..j] + cs[j + 1..])[1..];
    }
  }

  /** Taking the first entry of a and a matching entry of b out of two
      permutations leaves two permutations. */
  lemma RemoveMatching(a: seq<Contribution>, b: seq<Contribution>, j: int)
    requires multiset(a) == multiset(b) && |a| > 0
    requires 0 <= j < |b| && b[j] == a[0]
    ensures multiset(a[1..]) == multiset(b[..j] + b[j + 1..])
  {
    assert b == b[..j] + [b[j]] + b[j + 1..];
    assert multiset(b[..j] + b[j + 1..]) == multiset(b) - multiset{a[0]};
    assert a == [a[0]] + a[1..];
    assert multiset(a[1..]) == multiset(a) - multiset{a[0]};
  }

  /** The total does not depend on the order of the rules. */
  lemma {:induction false} SumPermutation(a: seq<Contribution>, b: seq<Contribution>)
    requires multiset(a) == multiset(b)
    ensures Sum(a) == Sum(b)
    decreases |a|
  {
    assert |a| == |multiset(a)| == |multiset(b)| == |b|;
    if |a| > 0 {
      assert a[0] in multiset(b);
      var j :| 0 <= j < |b| && b[j] == a[0];
      var rest := b[..j] + b[j + 1..];
      RemoveMatching(a, b, j);
      SumPermutation(a[1..], rest);
      SumRemove(b, j);
      assert Sum(a) == a[0].points + Sum(a[1..]);
    }
  }

  /** The score is the total of the rules' points in whatever order they are
      evaluated: each rule adds independently of the others. */
  lemma ScoreIgnoresRuleOrder(c: Criteria, m: Model, cs: seq<Contribution>)
    requires multiset(cs) == multiset(Contributions(c, m))
    ensures Sum(cs) == Score(c, m)
  {
    SumPermutation(cs, Contributions(c, m));
  }

  /** A rule list in which no rule fires adds nothing and says nothing. */
  lemma {:induction false} NothingFires(cs: seq<Contribution>)
    requires forall i :: 0 <= i < |cs| ==> cs[i] == NoChange
    ensures Sum(cs) == 0
    ensures Labels(cs) == []
  {
    if |cs| > 0 {
      NothingFires(cs[1..]);
    }
  }

  /** The four requirement flags gated by a capability rule. */
  datatype Need = NeedCode | NeedCreative | NeedReasoning | NeedMultimodal

  /** The criteria with one more requirement switched on. */
  function Require(c: Criteria, f: Need): (r: Criteria) {
    match f
    case NeedCode => c.(requiresCode := true)
    case NeedCreative => c.(requiresCreative := true)
    case NeedReasoning => c.(requiresReasoning := true)
    case NeedMultimodal => c.(requiresMultimodal := true)
  }

  function IsRequired(c: Criteria, f: Need): (b: bool) {
    match f
    case NeedCode => c.requiresCode
    case NeedCreative => c.requiresCreative
    case NeedReasoning => c.requiresReasoning
    case NeedMultimodal => c.requiresMultimodal
  }

  /** What switching a requirement on is worth: the capability rule's points
      if the candidate has the capability, plus +5 for each provider bonus
      that the switch newly triggers. */
  function Gain(c: Criteria, m: Model, f: Need): (g: int)
    ensures g >= 0
  {
    match f
    case NeedCode =>
      (if "code" in m.capabilities then 30 else 0)
      + (if m.provider == "OpenAI" && !c.requiresReasoning then 5 else 0)
      + (if m.provider == "Meta" && !c.budgetSensitive then 5 else 0)
    case NeedCreative =>
      if "creative-writing" in m.capabilities then 25 else 0
    case NeedReasoning =>
      (if "reasoning" in m.capabilities then 25 else 0)
      + (if m.provider == "OpenAI" && !c.requiresCode then 5 else 0)
      + (if m.provider == "Anthropic" then 5 else 0)
    case NeedMultimodal =>
      (if "multimodal" in m.capabilities then 35 else 0)
      + (if m.provider == "Google" && !c.requiresSpeed then 5 else 0)
  }

  /** Changing two or three rules' points changes the total by the sum of the changes. */
  lemma SumShift2(a: seq<Contribution>, b: seq<Contribution>, i: int, j: int)
    requires |a| == |b| && 0 <= i < j < |a|
    requires forall k :: 0 <= k < |a| && k != i && k != j ==> a[k].points == b[k].points
    ensures Sum(b) == Sum(a) + (b[i].points - a[i].points) + (b[j].points - a[j].points)
  {
    var x := a[i := b[i]];
    SumShift(a, x, i);
    SumShift(x, b, j);
  }

  lemma SumShift3(a: seq<Contribution>, b: seq<Contribution>, i: int, j: int, k: int)
    requires |a| == |b| && 0 <= i < j < k < |a|
    requires forall n :: 0 <= n < |a| && n != i && n != j && n != k ==> a[n].points == b[n].points
    ensures Sum(b) == Sum(a) + (b[i].points - a[i].points) + (b[j].points - a[j].points) + (b[k].points - a[k].points)
  {
    var x := a[i := b[i]];
    SumShift(a, x, i);
    SumShift2(x, b, j, k);
  }

  /** Only the rules at positions i, j and k can tell the two criteria apart. */
  predicate AgreeExcept(c: Criteria, c': Criteria, m: Model, i: int, j: int, k: int) {
    forall n :: 0 <= n < 12 && n != i && n != j && n != k ==>
      Contributions(c, m)[n].points == Contributions(c', m)[n].points
  }

  /** The change of one rule's points between two criteria. */
  function Delta(c: Criteria, c': Criteria, m: Model, n: int): (d: int)
    requires 0 <= n < 12
  {
    Contributions(c', m)[n].points - Contributions(c, m)[n].points
  }

  lemma ScoreChange(c: Criteria, c': Criteria, m: Model, i: int, j: int, k: int)
    requires 0 <= i < j < k < 12
    requires AgreeExcept(c, c', m, i, j, k)
    ensures Score(c', m) == Score(c, m) + Delta(c, c', m, i) + Delta(c, c', m, j) + Delta(c, c', m, k)
  {
    SumShift3(Contributions(c, m), Contributions(c', m), i, j, k);
  }

  lemma CodeRules(c: Criteria, m: Model)
    requires !c.requiresCode
    ensures AgreeExcept(c, Require(c, NeedCode), m, 0, 8, 11)
  {
  }

  lemma CodeDeltas(c: Criteria, m: Model)
    requires !c.requiresCode
    ensures Delta(c, Require(c, NeedCode), m, 0) == (if "code" in m.capabilities then 30 else 0)
    ensures Delta(c, Require(c, NeedCode), m, 8) == (if m.provider == "OpenAI" && !c.requiresReasoning then 5 else 0)
    ensures Delta(c, Require(c, NeedCode), m, 11) == (if m.provider == "Meta" && !c.budgetSensitive then 5 else 0)
  {
  }

  lemma CodeGain(c: Criteria, m: Model)
    requires !c.requiresCode
    ensures Score(Require(c, NeedCode), m) == Score(c, m) + Gain(c, m, NeedCode)
  {
    CodeRules(c, m);
    CodeDeltas(c, m);
    ScoreChange(c, Require(c, NeedCode), m, 0, 8, 11);
  }

  lemma CreativeRules(c: Criteria, m: Model)
    requires !c.requiresCreative
    ensures AgreeExcept(c, Require(c, NeedCreative), m, 1, 2, 3)
  {
  }

  lemma CreativeDeltas(c: Criteria, m: Model)
    requires !c.requiresCreative
    ensures Delta(c, Require(c, NeedCreative), m, 1) == (if "creative-writing" in m.capabilities then 25 else 0)
    ensures Delta(c, Require(c, NeedCreative), m, 2) == (0)
    ensures Delta(c, Require(c, NeedCreative), m, 3) == (0)
  {
  }

  lemma CreativeGain(c: Criteria, m: Model)
    requires !c.requiresCreative
    ensures Score(Require(c, NeedCreative), m) == Score(c, m) + Gain(c, m, NeedCreative)
  {
    CreativeRules(c, m);
    CreativeDeltas(c, m);
    ScoreChange(c, Require(c, NeedCreative), m, 1, 2, 3);
  }

  lemma ReasoningRules(c: Criteria, m: Model)
    requires !c.requiresReasoning
    ensures AgreeExcept(c, Require(c, NeedReasoning), m, 2, 8, 9)
  {
  }

  lemma ReasoningDeltas(c: Criteria, m: Model)
    requires !c.requiresReasoning
    ensures Delta(c, Require(c, NeedReasoning), m, 2) == (if "reasoning" in m.capabilities then 25 else 0)
    ensures Delta(c, Require(c, NeedReasoning), m, 8) == (if m.provider == "OpenAI" && !c.requiresCode then 5 else 0)
    ensures Delta(c, Require(c, NeedReasoning), m, 9) == (if m.provider == "Anthropic" then 5 else 0)
  {
  }

  lemma ReasoningGain(c: Criteria, m: Model)
    requires !c.requiresReasoning
    ensures Score(Require(c, NeedReasoning), m) == Score(c, m) + Gain(c, m, NeedReasoning)
  {
    ReasoningRules(c, m);
    ReasoningDeltas(c, m);
    ScoreChange(c, Require(c, NeedReasoning), m, 2, 8, 9);
  }

  lemma MultimodalRules(c: Criteria, m: Model)
    requires !c.requiresMultimodal
    ensures AgreeExcept(c, Require(c, NeedMultimodal), m, 3, 4, 10)
  {
  }

  lemma MultimodalDeltas(c: Criteria, m: Model)
    requires !c.requiresMultimodal
    ensures Delta(c, Require(c, NeedMultimodal), m, 3) == (if "multimodal" in m.capabilities then 35 else 0)
    ensures Delta(c, Require(c, NeedMultimodal), m, 4) == (0)
    ensures Delta(c, Require(c, NeedMultimodal), m, 10) == (if m.provider == "Google" && !c.requiresSpeed then 5 else 0)
  {
  }

  lemma MultimodalGain(c: Criteria, m: Model)
    requires !c.requiresMultimodal
    ensures Score(Require(c, NeedMultimodal), m) == Score(c, m) + Gain(c, m, NeedMultimodal)
  {
    MultimodalRules(c, m);
    MultimodalDeltas(c, m);
    ScoreChange(c, Require(c, NeedMultimodal), m, 3, 4, 10);
  }

  /** Switching an unset requirement on raises the score by exactly its gain. */
  lemma RequireGainsExactly(c: Criteria, m: Model, f: Need)
    requires !IsRequired(c, f)
    ensures Score(Require(c, f), m) == Score(c, m) + Gain(c, m, f)
  {
    match f
    case NeedCode => CodeGain(c, m);
    case NeedCreative => CreativeGain(c, m);
    case NeedReasoning => ReasoningGain(c, m);
    case NeedMultimodal => MultimodalGain(c, m);
  }

  /** Switching on a capability requirement never lowers any candidate's score. */
  lemma RequireNeverLowersScore(c: Criteria, m: Model, f: Need)
    ensures Score(c, m) <= Score(Require(c, f), m)
  {
    if IsRequired(c, f) {
      assert Require(c, f) == c;
    } else {
      RequireGainsExactly(c, m, f);
    }
  }

  /** The three preference flags that are not gated by a capability: speed,
      accuracy and budget. Unlike a capability requirement, switching one on
      can lower a score. */
  datatype Preference = PreferSpeed | PreferAccuracy | PreferBudget

  /** The criteria with one more preference switched on. */
  function Prefer(c: Criteria, p: Preference): (r: Criteria) {
    match p
    case PreferSpeed => c.(requiresSpeed := true)
    case PreferAccuracy => c.(requiresAccuracy := true)
    case PreferBudget => c.(budgetSensitive := true)
  }

  function IsPreferred(c: Criteria, p: Preference): (b: bool) {
    match p
    case PreferSpeed => c.requiresSpeed
    case PreferAccuracy => c.requiresAccuracy
    case PreferBudget => c.budgetSensitive
  }

  /** What switching a preference on does to a score: the speed rule's
      +20/+10/-10 and the Google bonus it newly triggers; the accuracy rule's
      two points per accuracy point above 80 (negative below 80); the budget
      rule's +20/0/-15 band and the Meta bonus it newly triggers. */
  function Effect(c: Criteria, m: Model, p: Preference): (e: int)
    ensures p == PreferSpeed ==> -10 <= e <= 25
    ensures p == PreferBudget ==> -15 <= e <= 25
    ensures p == PreferAccuracy ==> (e < 0 <==> m.accuracy < 80)
  {
    match p
    case PreferSpeed =>
      (match m.responseTime case Fast => 20 case Medium => 10 case Slow => -10)
      + (if m.provider == "Google" && !c.requiresMultimodal then 5 else 0)
    case PreferAccuracy =>
      (m.accuracy - 80) * 2
    case PreferBudget =>
      (if AverageRate(m) < 0.002 then 20 else if AverageRate(m) > 0.02 then -15 else 0)
      + (if m.provider == "Meta" && !c.requiresCode then 5 else 0)
  }

  lemma SpeedRules(c: Criteria, m: Model)
    requires !c.requiresSpeed
    ensures AgreeExcept(c, Prefer(c, PreferSpeed), m, 4, 5, 10)
  {
  }

  lemma SpeedDeltas(c: Criteria, m: Model)
    requires !c.requiresSpeed
    ensures Delta(c, Prefer(c, PreferSpeed), m, 4) == (match m.responseTime case Fast => 20 case Medium => 10 case Slow => -10)
    ensures Delta(c, Prefer(c, PreferSpeed), m, 5) == 0
    ensures Delta(c, Prefer(c, PreferSpeed), m, 10) == (if m.provider == "Google" && !c.requiresMultimodal then 5 else 0)
  {
  }

  lemma SpeedEffect(c: Criteria, m: Model)
    requires !c.requiresSpeed
    ensures Score(Prefer(c, PreferSpeed), m) == Score(c, m) + Effect(c, m, PreferSpeed)
  {
    SpeedRules(c, m);
    SpeedDeltas(c, m);
    ScoreChange(c, Prefer(c, PreferSpeed), m, 4, 5, 10);
  }

  lemma AccuracyRules(c: Criteria, m: Model)
    requires !c.requiresAccuracy
    ensures AgreeExcept(c, Prefer(c, PreferAccuracy), m, 5, 6, 7)
  {
  }

  lemma AccuracyDeltas(c: Criteria, m: Model)
    requires !c.requiresAccuracy
    ensures Delta(c, Prefer(c, PreferAccuracy), m, 5) == (m.accuracy - 80) * 2
    ensures Delta(c, Prefer(c, PreferAccuracy), m, 6) == 0
    ensures Delta(c, Prefer(c, PreferAccuracy), m, 7) == 0
  {
  }

  lemma AccuracyEffect(c: Criteria, m: Model)
    requires !c.requiresAccuracy
    ensures Score(Prefer(c, PreferAccuracy), m) == Score(c, m) + Effect(c, m, PreferAccuracy)
  {
    AccuracyRules(c, m);
    AccuracyDeltas(c, m);
    ScoreChange(c, Prefer(c, PreferAccuracy), m, 5, 6, 7);
  }

  lemma BudgetRules(c: Criteria, m: Model)
    requires !c.budgetSensitive
    ensures AgreeExcept(c, Prefer(c, PreferBudget), m, 6, 7, 11)
  {
  }

  lemma BudgetDeltas(c: Criteria, m: Model)
    requires !c.budgetSensitive
    ensures Delta(c, Prefer(c, PreferBudget), m, 6) ==
      (if AverageRate(m) < 0.002 then 20 else if AverageRate(m) > 0.02 then -15 else 0)
    ensures Delta(c, Prefer(c, PreferBudget), m, 7) == 0
    ensures Delta(c, Prefer(c, PreferBudget), m, 11) == (if m.provider == "Meta" && !c.requiresCode then 5 else 0)
  {
  }

  lemma BudgetEffect(c: Criteria, m: Model)
    requires !c.budgetSensitive
    ensures Score(Prefer(c, PreferBudget), m) == Score(c, m) + Effect(c, m, PreferBudget)
  {
    BudgetRules(c, m);
    BudgetDeltas(c, m);
    ScoreChange(c, Prefer(c, PreferBudget), m, 6, 7, 11);
  }

  /** Switching an unset preference on changes the score by exactly its effect. */
  lemma PreferChangesExactly(c: Criteria, m: Model, p: Preference)
    requires !IsPreferred(c, p)
    ensures Score(Prefer(c, p), m) == Score(c, m) + Effect(c, m, p)
  {
    match p
    case PreferSpeed => SpeedEffect(c, m);
    case PreferAccuracy => AccuracyEffect(c, m);
    case PreferBudget => BudgetEffect(c, m);
  }

  /** Asking for accuracy lowers the score of every model below 80 accuracy
      and raises that of every model above it. */
  lemma AccuracyCutsBothWays(c: Criteria, m: Model)
    requires !c.requiresAccuracy
    ensures m.accuracy < 80 ==> Score(Prefer(c, PreferAccuracy), m) < Score(c, m)
    ensures m.accuracy > 80 ==> Score(Prefer(c, PreferAccuracy), m) > Score(c, m)
  {
    AccuracyEffect(c, m);
  }

  /** Position, in rule order, of the one rule that can emit a fragment. */
  function RuleOf(f: Reason): (n: nat)
    ensures n < 8
  {
    match f
    case ForCoding => 0
    case ForCreative => 1
    case ForReasoning => 2
    case ForMultimodal => 3
    case ForSpeed => 4
    case ForAccuracy => 5
    case ForBudget => 6
    case ForComplex | ForSimple => 7
  }

  /** A fragment is emitted by no rule other than its own. */
  lemma EmittedOnlyByItsRule(c: Criteria, m: Model, f: Reason)
    ensures f in Fragments(c, m) <==> f in Contributions(c, m)[RuleOf(f)].emitted
  {
    var cs := Contributions(c, m);
    InLabels(cs, f);
    if f in Fragments(c, m) {
      var n :| 0 <= n < |cs| && f in cs[n].emitted;
      RuleEmitsOwnFragments(c, m, n, f);
    }
  }

  lemma RuleEmitsOwnFragments(c: Criteria, m: Model, n: int, f: Reason)
    requires 0 <= n < 12
    requires f in Contributions(c, m)[n].emitted
    ensures RuleOf(f) == n
  {
    var cs := Contributions(c, m);
    if n < 4 {
      assert cs[n].emitted == [] || cs[n].emitted == [RuleReason(n)];
    } else if n == 4 {
      assert SpeedRule(c, m).emitted <= [ForSpeed];
    } else if n == 5 {
      assert AccuracyRule(c, m).emitted <= [ForAccuracy];
    } else if n == 6 {
      assert BudgetRule(c, m).emitted <= [ForBudget];
    } else if n == 7 {
      assert ComplexityRule(c, m).emitted <= [ForComplex] || ComplexityRule(c, m).emitted == [ForSimple];
    }
  }

  /** The fragment of each capability rule, by position. */
  function RuleReason(n: int): (f: Reason)
    requires 0 <= n < 4
  {
    if n == 0 then ForCoding else if n == 1 then ForCreative else if n == 2 then ForReasoning else ForMultimodal
  }

  /** When each fragment's rule fires, stated directly on the criteria and
      the candidate's attributes. */
  predicate Fires(c: Criteria, m: Model, f: Reason) {
    match f
    case ForCoding => c.requiresCode && "code" in m.capabilities
    case ForCreative => c.requiresCreative && "creative-writing" in m.capabilities
    case ForReasoning => c.requiresReasoning && "reasoning" in m.capabilities
    case ForMultimodal => c.requiresMultimodal && "multimodal" in m.capabilities
    case ForSpeed => c.requiresSpeed && m.responseTime == Fast
    case ForAccuracy => c.requiresAccuracy && m.accuracy >= 90
    case ForBudget => c.budgetSensitive && AverageRate(m) < 0.002
    case ForComplex => c.complexity == High && m.accuracy >= 90
    case ForSimple => c.complexity == Low && m.responseTime == Fast
  }

  /** Each fragment appears exactly when its rule fires. */
  lemma FragmentFiresExactly(c: Criteria, m: Model, f: Reason)
    ensures f in Fragments(c, m) <==> Fires(c, m, f)
  {
    EmittedOnlyByItsRule(c, m, f);
    OwnRuleFires(c, m, f);
  }

  /** A fragment's own rule emits it exactly when the fragment fires. */
  lemma OwnRuleFires(c: Criteria, m: Model, f: Reason)
    ensures f in Contributions(c, m)[RuleOf(f)].emitted <==> Fires(c, m, f)
  {
    var cs := Contributions(c, m);
    match f
    case ForCoding => assert cs[0] == CapabilityRule(c.requiresCode, m, "code", 30, ForCoding);
    case ForCreative => assert cs[1] == CapabilityRule(c.requiresCreative, m, "creative-writing", 25, ForCreative);
    case ForReasoning => assert cs[2] == CapabilityRule(c.requiresReasoning, m, "reasoning", 25, ForReasoning);
    case ForMultimodal => assert cs[3] == CapabilityRule(c.requiresMultimodal, m, "multimodal", 35, ForMultimodal);
    case ForSpeed => assert cs[4] == SpeedRule(c, m);
    case ForAccuracy => assert cs[5] == AccuracyRule(c, m);
    case ForBudget => assert cs[6] == BudgetRule(c, m);
    case ForComplex => assert cs[7] == ComplexityRule(c, m);
    case ForSimple => assert cs[7] == ComplexityRule(c, m);
  }

  /** Each rule emits at most one fragment. */
  lemma RuleEmitsAtMostOne(c: Criteria, m: Model, n: int)
    requires 0 <= n < 12
    ensures |Contributions(c, m)[n].emitted| <= 1
  {
    var cs := Contributions(c, m);
    if n < 4 {
      assert cs[n].emitted == [] || cs[n].emitted == [RuleReason(n)];
    } else if n == 4 {
      assert |SpeedRule(c, m).emitted| <= 1;
    } else if n == 5 {
      assert |AccuracyRule(c, m).emitted| <= 1;
    } else if n == 6 {
      assert |BudgetRule(c, m).emitted| <= 1;
    } else if n == 7 {
      assert |ComplexityRule(c, m).emitted| <= 1;
    } else {
      assert cs[n].emitted == [];
    }
  }

  /** Rules standing at positions base, base + 1, ...: each emits at most one
      fragment, and only fragments whose rule is that position. */
  predicate EmitsInPlace(cs: seq<Contribution>, base: int) {
    forall n :: 0 <= n < |cs| ==>
      |cs[n].emitted| <= 1 && forall f :: f in cs[n].emitted ==> RuleOf(f) == base + n
  }

  /** Concatenating such rules' fragments lists them by strictly increasing
      rule position. */
  lemma {:induction false} LabelsInOrder(cs: seq<Contribution>, base: int)
    requires EmitsInPlace(cs, base)
    ensures forall i :: 0 <= i < |Labels(cs)| ==> base <= RuleOf(Labels(cs)[i])
    ensures forall i, j :: 0 <= i < j < |Labels(cs)| ==> RuleOf(Labels(cs)[i]) < RuleOf(Labels(cs)[j])
  {
    if |cs| > 0 {
      var rest := cs[1..];
      assert forall n :: 0 <= n < |rest| ==> rest[n] == cs[n + 1];
      LabelsInOrder(rest, base + 1);
      if cs[0].emitted != [] {
        assert cs[0].emitted == [cs[0].emitted[0]];
        assert RuleOf(cs[0].emitted[0]) == base;
      }
    }
  }

  /** The reasoning fragments come out in rule order, at most one per rule. */
  lemma FragmentsInRuleOrder(c: Criteria, m: Model)
    ensures forall i, j :: 0 <= i < j < |Fragments(c, m)| ==>
      RuleOf(Fragments(c, m)[i]) < RuleOf(Fragments(c, m)[j])
  {
    var cs := Contributions(c, m);
    forall n | 0 <= n < |cs|
      ensures |cs[n].emitted| <= 1 && forall f :: f in cs[n].emitted ==> RuleOf(f) == n
    {
      RuleEmitsAtMostOne(c, m, n);
      forall f | f in cs[n].emitted
        ensures RuleOf(f) == n
      {
        RuleEmitsOwnFragments(c, m, n, f);
      }
    }
    LabelsInOrder(cs, 0);
  }

  /** With neutral criteria every rule is silent: score 0 and no fragment. */
  lemma NeutralScoresZero(m: Model)
    ensures Score(Neutral, m) == 0
    ensures Fragments(Neutral, m) == []
  {
    NothingFires(Contributions(Neutral, m));
  }
}
