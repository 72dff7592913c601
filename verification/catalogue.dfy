/**
 * The static provider catalogue both managers' `GetAvailableProviders` return
 * (internal/outbound/manager.go and internal/ai/manager.go carry identical
 * copies): three fixed entries keyed by provider name, of which only the
 * availability flags depend on the registry.
 */
module Catalogue {

  import opened Models

  function OpenAIEntry(available: bool): AIProviderComparison {
    AIProviderComparison(
      OpenAI, "OpenAI GPT",
      ["Excellent general knowledge", "Strong reasoning capabilities", "Good code generation",
       "Wide range of models", "Reliable API"],
      ["Can be expensive for high usage", "Knowledge cutoff limitations", "Rate limiting on free tier"],
      ["General text generation", "Code completion and debugging", "Creative writing", "Question answering"],
      "Pay per token (~$0.002/1K tokens for GPT-3.5)", 4096, available)
  }

  function GeminiEntry(available: bool): AIProviderComparison {
    AIProviderComparison(
      Gemini, "Google Gemini",
      ["Multimodal capabilities", "Large context window", "Good at reasoning tasks",
       "Free tier available", "Fast response times"],
      ["Less mature than OpenAI", "Limited third-party integrations", "Newer model with less community support"],
      ["Multimodal tasks", "Long document analysis", "Research and analysis", "Cost-effective solutions"],
      "Free tier available, pay per token for pro usage", 8192, available)
  }

  /** Anthropic is listed but not implemented, so it is never available. */
  function AnthropicEntry(): AIProviderComparison {
    AIProviderComparison(
      Anthropic, "Anthropic Claude",
      ["Strong safety focus", "Excellent at analysis", "Good refusal mechanisms", "Thoughtful responses"],
      ["More conservative responses", "Limited availability", "Higher cost"],
      ["Safety-critical applications", "Research and analysis", "Ethical AI use cases"],
      "Pay per token (premium pricing)", 8192, false)
  }

  /**
   * The catalogue: exactly the keys `openai`, `gemini` and `anthropic`, each
   * entry describing the provider it is keyed by, with the given availability
   * for OpenAI and Gemini and none for Anthropic.
   */
  function Entries(openAIAvailable: bool, geminiAvailable: bool): (cat: map<string, AIProviderComparison>)
    ensures cat.Keys == {"openai", "gemini", "anthropic"}
    ensures forall name :: name in cat ==> cat[name].provider == name
    ensures cat["openai"].available == openAIAvailable
    ensures cat["gemini"].available == geminiAvailable
    ensures !cat["anthropic"].available
    ensures cat["openai"].maxTokens == 4096 && cat["gemini"].maxTokens == 8192 && cat["anthropic"].maxTokens == 8192
    ensures forall name :: name in cat ==> |cat[name].strengths| > 0 && |cat[name].weaknesses| > 0 && |cat[name].bestFor| > 0
  {
    map["openai" := OpenAIEntry(openAIAvailable), "gemini" := GeminiEntry(geminiAvailable), "anthropic" := AnthropicEntry()]
  }
}
