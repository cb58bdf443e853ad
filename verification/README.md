# Model selection engine, modelled in Dafny

This project models the model-selection engine of a small chat front end.
Given a user request, the engine picks one of eight registered language
models. It works in five steps:

- `analyzePrompt` lower-cases the request and tests it against fixed keyword
  lists. From these tests it derives the selection criteria:
  - seven requirement flags;
  - a complexity level, where a high keyword beats a low one;
  - a task type, where the first match wins.
- The scorer inside `selectBestModel` gives every registry entry an integer
  score. The score comes from a fixed, ordered list of additive rules, and
  each rule may append a reasoning fragment.
- `selectBestModel` sorts the scored entries with a stable descending sort.
  It reports:
  - the top entry;
  - a confidence: the top score clamped to [60, 95];
  - the top entry's fragments joined with ", ", or a fallback sentence;
  - up to three of the following entries as alternatives.
- `calculateCost` prices an exchange linearly at per-1000-token rates.
- `estimateTokens` estimates one token per four characters, rounded up.

The modules follow that structure:

| module | file | contents |
|---|---|---|
| `Strings` | strings.dfy | ASCII lower-casing, substring containment (`Occurs`, the reference meaning; `Contains`, the computation), `Join` |
| `Catalog` | catalog.dfy | the `Model` record and the eight-entry registry `AiModels` |
| `Analyzer` | analyzer.dfy | `Criteria`, the keyword lists, `AnalyzePrompt` |
| `Scorer` | scorer.dfy | the twelve rules as a list of `Contribution`s (points plus emitted fragments), `Score`, `Fragments`, and the lemmas about them |
| `Selector` | selector.dfy | stable insertion sort, the earliest-argmax reference `FirstBest`, `Select` |
| `Cost` | cost.dfy | `CalculateCost`, `EstimateTokens` |
| `Scenarios` | scenarios.dfy | the registry worked through three requests, the budget bands, a priced exchange |

Representation choices:

- The stable sort is an insertion sort under a strict order, `Outranks`. It
  puts the higher score first and, on equal scores, the earlier registry
  entry. `RankedUnique` shows that exactly one permutation of the scored
  registry is ranked in this order. That permutation is what any stable
  descending sort returns.
- Fragments are a datatype `Reason`. `Phrase` gives the text of each one.
- Scores and token counts are integers. Rates and costs are exact reals.

## Model

| member | source | states |
|---|---|---|
| Strings.ToLower | src/utils/modelSelector.ts:17 | the lower-cased text has the same length, contains no upper-case ASCII letter, shifts each upper-case letter by 32 and keeps every other character |
| Strings.ToLowerIdempotent | src/utils/modelSelector.ts:17 | lower-casing an already lower-cased text changes nothing |
| Strings.Contains | src/utils/modelSelector.ts:20-31 | the containment test answers true exactly when some window of the text equals the keyword |
| Strings.Join | src/utils/modelSelector.ts:139 | joining non-empty fragments is empty iff there are none; one fragment is kept as it is; with more, the first fragment and the separator come first |
| Strings.JoinSnoc | src/utils/modelSelector.ts:139 | appending a part to a non-empty list appends the separator and that part, so every part appears once, in order, separated by the separator |
| Strings.ContainsAny | src/utils/modelSelector.ts:20-31 | an alternation test over plain words succeeds exactly when one of the listed words occurs in the text |
| Strings.PairAbsent | src/utils/modelSelector.ts:20-31 | a keyword cannot occur in a text where two of its adjacent letters never stand side by side |
| Analyzer.TaskTypeOf | src/utils/modelSelector.ts:34-38 | task type by priority in both directions: coding iff code; creative iff creative and not code; and so on down to general iff no flag |
| Analyzer.AnalyzePrompt | src/utils/modelSelector.ts:16-51 | each flag holds iff the lower-cased prompt contains a keyword of its list; complexity is high iff a high keyword occurs, low iff a low keyword occurs and no high one, medium otherwise; task type by first match |
| Analyzer.EmptyPromptIsNeutral | src/utils/modelSelector.ts:16-51 | the empty prompt sets no flag, general task type, medium complexity |
| Analyzer.AnalysisIgnoresCase | src/utils/modelSelector.ts:17 | a prompt and its lower-cased form produce the same criteria |
| Scorer.Phrase | src/utils/modelSelector.ts:63-120 | every fragment text is non-empty, so a top entry with a fragment never falls back |
| Scorer.Contributions | src/utils/modelSelector.ts:63-134 | twelve rules in source order; by ProviderBonusesSilent the last four (the provider bonuses) never emit a fragment, and by FragmentsInRuleOrder no rule emits two |
| Scorer.CapabilityRule | src/utils/modelSelector.ts:64-82 | by RulePoints: emits its fragment iff the flag is set and the capability is listed, and then adds exactly its points; otherwise adds nothing |
| Scorer.SpeedRule | src/utils/modelSelector.ts:85-94 | by RulePoints: adds between -10 and +20; negative iff speed is required and the model is slow; emits "fast response time" iff speed is required and the model is fast |
| Scorer.AccuracyRule | src/utils/modelSelector.ts:97-100 | by RulePoints: when accuracy is required it adds exactly (accuracy - 80) * 2, negative below 80, and emits "high accuracy" iff accuracy is at least 90; otherwise it adds nothing |
| Scorer.BudgetRule | src/utils/modelSelector.ts:103-111 | by RulePoints: adds +20, 0 or -15; +20 (with "cost-effective") iff budget-sensitive and average rate below 0.002; -15 iff budget-sensitive and above 0.02 |
| Scorer.ComplexityRule | src/utils/modelSelector.ts:114-120 | by RulePoints: +15 iff "handles complex tasks well" is emitted, +10 iff "efficient for simple tasks" is, 0 iff none; by FragmentFiresExactly the first fires iff complexity is high and accuracy at least 90, the second iff complexity is low and the model is fast |
| Scorer.ProviderBonus | src/utils/modelSelector.ts:123-134 | by RulePoints: +5 iff the provider's condition holds, never a fragment |
| Scorer.AverageRate | src/utils/modelSelector.ts:104 | by RulePoints: the average rate lies between the input and the output rate |
| Scorer.RulePoints | src/utils/modelSelector.ts:63-134 | the points and fragment each kind of rule can contribute, as listed on the rule rows above |
| Scorer.Score | src/utils/modelSelector.ts:59-134 | the score is the total of the rules' points: by ScoreIgnoresRuleOrder in any order; by RequireGainsExactly (four capability flags), PreferChangesExactly (speed, accuracy, budget) and NeutralScoresZero with the exact effect of each of the seven flags |
| Scorer.Fragments | src/utils/modelSelector.ts:61-139 | the fragments: by FragmentFiresExactly each appears iff its rule's condition holds, by FragmentsInRuleOrder in rule order |
| Scorer.SumPermutation | src/utils/modelSelector.ts:59-134 | adding the same contributions in any order gives the same total |
| Scorer.ScoreIgnoresRuleOrder | src/utils/modelSelector.ts:59-134 | the score equals the total points of any reordering of the twelve rules, so the order of the additive rules does not matter |
| Scorer.RequireGainsExactly | src/utils/modelSelector.ts:64-134 | switching on an unset capability requirement raises a model's score by exactly its capability points (+30, +25, +25 or +35 when the capability is listed) plus the +5 provider bonuses it newly unlocks |
| Scorer.Effect | src/utils/modelSelector.ts:85-134 | the change a preference flag makes is -10..25 for speed, -15..25 for budget, and negative for accuracy exactly below 80 accuracy |
| Scorer.PreferChangesExactly | src/utils/modelSelector.ts:85-134 | switching on an unset speed, accuracy or budget flag changes a model's score by exactly +20/+10/-10 by speed (plus the Google +5 it unlocks), (accuracy - 80) * 2, or +20/0/-15 by average rate (plus the Meta +5 it unlocks) |
| Scorer.AccuracyCutsBothWays | src/utils/modelSelector.ts:97-100 | asking for accuracy lowers the score of every model below 80 accuracy and raises that of every model above 80 |
| Scorer.RequireNeverLowersScore | src/utils/modelSelector.ts:64-134 | switching on any one of the code, creative, reasoning or multimodal flags, everything else fixed, never lowers any model's score |
| Scorer.FragmentFiresExactly | src/utils/modelSelector.ts:63-120 | each fragment appears iff its rule's condition holds on the criteria and the model (e.g. "cost-effective" iff budget-sensitive and average rate below 0.002) |
| Scorer.FragmentsInRuleOrder | src/utils/modelSelector.ts:61-139 | the fragments are listed by strictly increasing rule position, so no rule contributes two |
| Scorer.LabelsInOrder | src/utils/modelSelector.ts:61-139 | concatenating rules that each emit at most their own fragment lists the fragments by increasing rule position |
| Scorer.NeutralScoresZero | src/utils/modelSelector.ts:59-141 | with no flag set and medium complexity every rule is silent: score 0, no fragment |
| Selector.ScoreAll | src/utils/modelSelector.ts:59-141 | one scored entry per registry model, at the model's registry position, with pairwise distinct positions |
| Selector.Insert | src/utils/modelSelector.ts:144 | inserting an entry into a ranked list keeps it ranked and adds exactly that entry |
| Selector.Sort | src/utils/modelSelector.ts:144 | the sorted list is ranked (score descending, ties by registry position) and is a permutation of its input |
| Selector.RankedByNeighbours | src/utils/modelSelector.ts:144 | a list in which each entry outranks the next is ranked throughout, since outranking is transitive |
| Selector.RankedUnique | src/utils/modelSelector.ts:144 | two ranked permutations of the same entries are equal, so the stable order is unique |
| Selector.Rank | src/utils/modelSelector.ts:143-144 | the ranking is a ranked permutation of the scored registry, one entry per registry model |
| Selector.FirstMax | src/utils/modelSelector.ts:144-146 | the earliest position of a largest value: nothing exceeds it and everything before it is smaller |
| Selector.FirstBest | src/utils/modelSelector.ts:144-146 | reference definition: the earliest registry position whose score no entry exceeds |
| Selector.Clamp | src/utils/modelSelector.ts:147 | confidence lies in [60, 95]; a score already in range is kept; below gives 60, above gives 95 |
| Selector.Models | src/utils/modelSelector.ts:148 | the alternatives' models are the listed entries' models, one per entry, in the same order |
| Selector.ReasoningText | src/utils/modelSelector.ts:139-153 | no fragment gives the fallback sentence; otherwise the fragments' texts joined with ", "; never empty |
| Selector.Select | src/utils/modelSelector.ts:143-155 | on a non-empty registry: the selection is a registry member, confidence in [60, 95], min(3, n - 1) alternatives all from the registry, non-empty reasoning |
| Selector.SelectReadsAnyRanking | src/utils/modelSelector.ts:143-155 | for any stable descending ranking of the scored registry, the selection is its first entry, the clamped top score, the top entry's reasoning, and ranks 2 to 4 as alternatives |
| Selector.SelectPicksFirstBest | src/utils/modelSelector.ts:144-153 | the selected model is the earliest registry entry with the highest score: none scores more and every earlier one scores less |
| Selector.NeutralSelectsRegistryOrder | src/utils/modelSelector.ts:143-155 | with all scores 0 the first registry entry is selected at confidence 60 with the fallback reasoning, and up to three of the following entries, in registry order, are the alternatives |
| Cost.CalculateCost | src/utils/modelSelector.ts:158-160 | non-negative rates give a non-negative cost; by CostIsAdditive and CostSplitsByDirection the price is linear in each token count |
| Cost.NoTokensNoCost | src/utils/modelSelector.ts:158-160 | an exchange of no tokens costs nothing |
| Cost.CostIsAdditive | src/utils/modelSelector.ts:158-160 | the cost of two exchanges together is the sum of their costs |
| Cost.CostSplitsByDirection | src/utils/modelSelector.ts:158-160 | the cost splits into an input part linear in input tokens and an output part linear in output tokens |
| Cost.CostMonotone | src/utils/modelSelector.ts:158-160 | with non-negative rates, more tokens never cost less, and no cost is negative |
| Cost.EstimateTokens | src/utils/modelSelector.ts:162-165 | the estimate is the least token count whose four characters each cover the text, i.e. ceil(length / 4) |
| Cost.EstimateMonotone | src/utils/modelSelector.ts:162-165 | a longer text never gets a smaller estimate |
| Cost.EmptyTextNoTokens | src/utils/modelSelector.ts:162-165 | the empty text is zero tokens |
| Catalog.RegistryWellFormed | src/data/models.ts:3-108 | the registry has eight entries with pairwise distinct ids, so selection is defined on it |
| Catalog.RegistryAttributes | src/data/models.ts:3-108 | every accuracy is in 82..95, no entry is slow (the -10 speed branch never fires here), and all rates are non-negative |
| Scenarios.DebugPromptLowers | src/utils/modelSelector.ts:17 | "Help me debug this Python function" lower-cases to "help me debug this python function" |
| Scenarios.DebugMentions | src/utils/modelSelector.ts:20-31 | that lower-cased prompt contains a code keyword ("debug") and no keyword of the other eight lists |
| Scenarios.DebugAnalysis | src/utils/modelSelector.ts:16-51 | any request mentioning only code keywords gets the coding criteria: task type coding, medium complexity, only the code flag |
| Scenarios.QuickPromptLowers | src/utils/modelSelector.ts:17 | "quick summary please" is already lower-case |
| Scenarios.QuickMentions | src/utils/modelSelector.ts:20-31 | "quick summary please" contains a speed keyword and a low-complexity keyword ("quick" for both) and nothing else |
| Scenarios.QuickAnalysis | src/utils/modelSelector.ts:16-51 | any such request gets the speed flag alone, low complexity, general task type |
| Scenarios.CodeRequestScore | src/utils/modelSelector.ts:63-134 | under the coding criteria any model scores 30 if it lists "code", plus 5 if it is from OpenAI or Meta, with "excellent for coding tasks" iff it lists "code" |
| Scenarios.QuickRequestScore | src/utils/modelSelector.ts:84-134 | under the quick criteria any model scores 30 if fast, 10 if medium, -10 if slow, plus 5 if from Google, with the speed and simple-task fragments iff fast |
| Scenarios.CodeFacts | src/data/models.ts:3-108 | which registry entries list "code" (all but claude-3-opus, palm-2, claude-3-haiku) and which are from OpenAI or Meta |
| Scenarios.SpeedFacts | src/data/models.ts:3-108 | which registry entries are fast (all but gpt-4-turbo, claude-3-opus, mistral-large, which are medium) and which are from Google (gemini-pro, palm-2) |
| Scenarios.CodeScores | src/utils/modelSelector.ts:59-141 | under the coding criteria, any eight entries with the registry's code capabilities and providers score 35, 0, 30, 35, 35, 30, 0, 0, with "excellent for coding tasks" exactly on the code-capable ones |
| Scenarios.SpeedScores | src/utils/modelSelector.ts:59-141 | under the quick criteria, any eight entries with the registry's speeds and providers score 10, 10, 35, 30, 30, 10, 35, 30, with the speed and simple-task fragments exactly on the fast ones |
| Scenarios.DebugScores | src/utils/modelSelector.ts:59-141 | the coding request scores the registry 35, 0, 30, 35, 35, 30, 0, 0: gpt-4-turbo, llama-2-70b and codellama-34b tie at 35; gemini-pro and mistral-large have 30 |
| Scenarios.QuickScores | src/utils/modelSelector.ts:59-141 | the quick request scores the registry 10, 10, 35, 30, 30, 10, 35, 30: gemini-pro and palm-2 tie at 35 |
| Scenarios.DebugOrder | src/utils/modelSelector.ts:144 | the stable descending order of the coding scores is registry positions 0, 3, 4, 2, 5, 1, 6, 7 |
| Scenarios.QuickOrder | src/utils/modelSelector.ts:144 | the stable descending order of the quick scores is registry positions 2, 6, 3, 4, 7, 0, 1, 5 |
| Scenarios.DebugSelect | src/utils/modelSelector.ts:143-155 | the coding criteria select gpt-4-turbo at confidence 60 with "excellent for coding tasks" and alternatives llama-2-70b, codellama-34b, gemini-pro |
| Scenarios.QuickSelect | src/utils/modelSelector.ts:143-155 | the quick criteria select gemini-pro at confidence 60 with "fast response time, efficient for simple tasks" and alternatives palm-2, llama-2-70b, codellama-34b |
| Scenarios.DebugRequest | src/utils/modelSelector.ts:16-155 | every code-only request, the debug prompt among them, selects registry entry 0 (gpt-4-turbo) at 60 with "excellent for coding tasks" and entries 3, 4, 2 (llama-2-70b, codellama-34b, gemini-pro) as alternatives |
| Scenarios.QuickRequest | src/utils/modelSelector.ts:16-155 | every speed-and-simple request, "quick summary please" among them, selects registry entry 2 (gemini-pro) at 60 with the speed and simple-task reasoning, and entries 6, 3, 4 (palm-2, llama-2-70b, codellama-34b) as alternatives |
| Scenarios.DebugPromptIsCodeOnly | src/utils/modelSelector.ts:16-31 | the literal prompt "Help me debug this Python function" is a code-only request |
| Scenarios.QuickPromptIsSpeedSimple | src/utils/modelSelector.ts:16-31 | the literal prompt "quick summary please" is a speed-and-simple request |
| Scenarios.DebugPromptSelects | src/utils/modelSelector.ts:16-155 | the literal prompt "Help me debug this Python function" selects gpt-4-turbo at 60 with "excellent for coding tasks", and llama-2-70b, codellama-34b and gemini-pro as alternatives |
| Scenarios.QuickPromptSelects | src/utils/modelSelector.ts:16-155 | the literal prompt "quick summary please" selects gemini-pro at 60 with "fast response time, efficient for simple tasks", and palm-2, llama-2-70b and codellama-34b as alternatives |
| Scenarios.EmptyRequest | src/utils/modelSelector.ts:16-155 | the empty request selects the first registry entry at confidence 60 with the fallback reasoning, and the second to fourth entries as alternatives |
| Scenarios.RegistryIds | src/data/models.ts:3-108 | the registry ids in order: gpt-4-turbo, claude-3-opus, gemini-pro, llama-2-70b, codellama-34b, mistral-large, palm-2, claude-3-haiku |
| Scenarios.BudgetBands | src/utils/modelSelector.ts:103-111 | on the registry the +20 band (average rate below 0.002) holds exactly for gemini-pro, llama-2-70b, codellama-34b, palm-2, claude-3-haiku; the -15 band (above 0.02) only for claude-3-opus; gpt-4-turbo sits exactly at 0.02 |
| Scenarios.CostExample | src/utils/modelSelector.ts:158-160 | 1000 input and 500 output tokens on gpt-4-turbo cost 0.025 |

Two facts about the code that the model keeps:

- The reasoning fragments are joined exactly as written
  (src/utils/modelSelector.ts:139). All of them are lower-case literals.
- The low-complexity rule is the `else` branch of the high-complexity rule
  (src/utils/modelSelector.ts:114-120). `Scorer.ComplexityRule` keeps the
  `else if`. Complexity has a single value, so at most one of the two can
  fire either way.

## Left out

- The provider SDK calls, API-key lookup and the duplicate cost and token
  helpers in src/services/aiProviders.ts are not part of this model. They
  are network I/O and foreign libraries, and the helpers repeat the
  modelled formulas.
- src/utils/responseGenerator.ts is not part of this model. It only returns
  canned text after a first-match keyword dispatch, the same shape as
  `analyzePrompt`.
- The React components and App.tsx are not part of this model: UI state,
  timers, random mock token counts, identifiers and browser storage.
- Strings.ToLower: lower-cases ASCII letters only. JavaScript's
  `toLowerCase` also maps non-ASCII letters. Every keyword is plain ASCII,
  but a non-ASCII upper-case letter in a prompt is kept as it is here.
- Strings.ContainsAny: models each regular expression as "some listed word
  is a substring". That is exact for alternations of plain lower-case words,
  which is all the source uses. General regular-expression semantics are
  not modelled.
- Cost.CalculateCost and Scorer.AverageRate use exact real arithmetic. The
  source uses IEEE-754 doubles, so rounding is not modelled. For example,
  the gpt-4-turbo average is exactly 0.02 here.
- Cost.EstimateTokens: counts characters of the Dafny string. JavaScript's
  `length` counts UTF-16 code units, so characters outside the Basic
  Multilingual Plane count once here instead of twice.
- Selector.Select: requires a non-empty registry. The source has no guard
  and would throw on `scoredModels[0]` for an empty one.
- Selector.Sort: requires pairwise distinct registry positions. Each scored
  entry carries its model's registry position (`Selector.ScoreAll`), so the
  positions are always distinct. The source keeps no position: its stable sort
  (src/utils/modelSelector.ts:144) keeps registry order among equal scores,
  and the position is how the model states that order.
- Catalog.Model: the pricing fields are named `inputRate` and `outputRate`
  (per 1000 tokens), where the source calls them `inputTokens` and
  `outputTokens`.
- Interfaces that carry no logic (`Conversation`, `Message` and the rest of
  src/types/index.ts beyond `AIModel`) are not modelled.
