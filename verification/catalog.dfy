/** The candidate record (`AIModel`) and the fixed registry of eight candidates
    (`aiModels`) that the selector ranks. */
module Catalog {

  datatype ResponseTime = Fast | Medium | Slow

  /** Prices in currency per 1000 tokens. */
  datatype Pricing = Pricing(inputRate: real, outputRate: real)

  datatype Model = Model(
    id: string,
    name: string,
    provider: string,
    description: string,
    capabilities: seq<string>,
    strengths: seq<string>,
    pricing: Pricing,
    maxTokens: nat,
    responseTime: ResponseTime,
    accuracy: int,
    icon: string
  )

  /** No two registry entries share an id. */
  predicate DistinctIds(registry: seq<Model>) {
    forall i, j :: 0 <= i < j < |registry| ==> registry[i].id != registry[j].id
  }

  /** The registry in its declared order; the order breaks score ties. */
  const AiModels: seq<Model> := [
    Model("gpt-4-turbo", "GPT-4 Turbo", "OpenAI",
      "Most capable model for complex reasoning, analysis, and creative tasks",
      ["reasoning", "analysis", "creative-writing", "code", "math", "research"],
      ["Complex reasoning", "Code generation", "Creative writing", "Analysis"],
      Pricing(0.01, 0.03), 128000, Medium, 95, "\U{1F9E0}"),
    Model("claude-3-opus", "Claude 3 Opus", "Anthropic",
      "Excellent for nuanced conversations, analysis, and ethical reasoning",
      ["reasoning", "analysis", "creative-writing", "research", "ethics"],
      ["Nuanced analysis", "Ethical reasoning", "Long conversations", "Research"],
      Pricing(0.015, 0.075), 200000, Medium, 94, "\U{1F3AD}"),
    Model("gemini-pro", "Gemini Pro", "Google",
      "Fast and efficient for general tasks with multimodal capabilities",
      ["reasoning", "code", "multimodal", "search", "math"],
      ["Speed", "Multimodal", "Integration", "Real-time data"],
      Pricing(0.0005, 0.0015), 32000, Fast, 88, "\U{1F48E}"),
    Model("llama-2-70b", "Llama 2 70B", "Meta",
      "Open-source model great for general tasks and customization",
      ["reasoning", "code", "creative-writing", "chat"],
      ["Open source", "Customizable", "Cost-effective", "Privacy"],
      Pricing(0.0007, 0.0009), 4096, Fast, 85, "\U{1F999}"),
    Model("codellama-34b", "CodeLlama 34B", "Meta",
      "Specialized for code generation, debugging, and programming tasks",
      ["code", "debugging", "refactoring", "documentation"],
      ["Code generation", "Debugging", "Multiple languages", "Documentation"],
      Pricing(0.0005, 0.0008), 16384, Fast, 92, "\U{1F4BB}"),
    Model("mistral-large", "Mistral Large", "Mistral AI",
      "European AI model with strong multilingual capabilities",
      ["reasoning", "multilingual", "code", "analysis"],
      ["Multilingual", "European compliance", "Reasoning", "Efficiency"],
      Pricing(0.008, 0.024), 32000, Medium, 90, "\U{1F30D}"),
    Model("palm-2", "PaLM 2", "Google",
      "Efficient model for reasoning and multilingual tasks",
      ["reasoning", "multilingual", "math", "science"],
      ["Multilingual", "Scientific reasoning", "Mathematics", "Efficiency"],
      Pricing(0.0005, 0.001), 8192, Fast, 87, "\U{1F334}"),
    Model("claude-3-haiku", "Claude 3 Haiku", "Anthropic",
      "Fast and cost-effective for simple tasks and quick responses",
      ["chat", "simple-tasks", "summarization", "qa"],
      ["Speed", "Cost-effective", "Simple tasks", "Quick responses"],
      Pricing(0.00025, 0.00125), 200000, Fast, 82, "\U{1F338}")
  ]

  /** The registry is non-empty and its ids are pairwise distinct, so selection
      is always defined on it. */
  lemma RegistryWellFormed()
    ensures |AiModels| == 8
    ensures DistinctIds(AiModels)
  {
    DistinctByShape(AiModels);
  }

  /** Ids differ when their lengths or their second characters differ. */
  lemma DistinctByShape(registry: seq<Model>)
    requires forall i :: 0 <= i < |registry| ==> |registry[i].id| > 1
    requires forall i, j :: 0 <= i < j < |registry| ==>
      |registry[i].id| != |registry[j].id| || registry[i].id[1] != registry[j].id[1]
    ensures DistinctIds(registry)
  {
  }

  /** Every accuracy is an integer percentage, 82..95 in this registry, and no
      entry is slow, so the slow-speed penalty never applies here. */
  lemma RegistryAttributes()
    ensures forall i :: 0 <= i < |AiModels| ==> 82 <= AiModels[i].accuracy <= 95
    ensures forall i :: 0 <= i < |AiModels| ==> AiModels[i].responseTime != Slow
    ensures forall i :: 0 <= i < |AiModels| ==> AiModels[i].pricing.inputRate >= 0.0 && AiModels[i].pricing.outputRate >= 0.0
  {
  }
}
