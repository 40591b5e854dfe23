/**
 * The generative-text provider as the content generator sees it: one blocking
 * chat-completion call per request, which either returns the reply text or
 * raises.  The provider itself is an oracle: any function from requests to
 * replies.  The four request builders fix the model, the output cap and the
 * sampling temperature of each call site, and record which values the prompt
 * text embeds (the surrounding template wording is not modelled).
 */
module Provider {

  /** What one call returns: the text of the first choice, or the raised error's message. */
  datatype Reply = Completion(text: string) | ProviderFailure(message: string)

  /** The values a prompt embeds, one constructor per prompt template. */
  datatype Prompt =
    | OutlinePrompt(topic: string)
    | ArticlePrompt(outline: string, wordCount: int)
    | SeoPrompt(topic: string, preview: string)
    | TopicsPrompt(count: int)

  /** One chat-completion request: model identifier, prompt, output cap and temperature. */
  datatype GenerationRequest = GenerationRequest(model: string, prompt: Prompt, maxTokens: nat, temperature: real)

  /** The external provider, as an oracle. */
  type Oracle = GenerationRequest -> Reply

  const OutlineModel := "gpt-4"
  const ArticleModel := "gpt-4"
  const SeoModel := "gpt-3.5-turbo"
  const TopicsModel := "gpt-3.5-turbo"

  /** Stage 1 of an article: the outline, from the topic. */
  function OutlineRequest(topic: string): (r: GenerationRequest)
    ensures r.model == "gpt-4" && r.maxTokens == 800 && r.temperature == 0.7
    ensures r.prompt.OutlinePrompt? && r.prompt.topic == topic
  {
    GenerationRequest(OutlineModel, OutlinePrompt(topic), 800, 0.7)
  }

  /** Stage 2 of an article: the body, from the outline and the target length. */
  function ArticleRequest(outline: string, wordCount: int): (r: GenerationRequest)
    ensures r.model == "gpt-4" && r.maxTokens == 3000 && r.temperature == 0.7
    ensures r.prompt.ArticlePrompt? && r.prompt.outline == outline && r.prompt.wordCount == wordCount
  {
    GenerationRequest(ArticleModel, ArticlePrompt(outline, wordCount), 3000, 0.7)
  }

  /** Stage 3 of an article: SEO metadata, from the topic and a preview of the body. */
  function SeoRequest(topic: string, preview: string): (r: GenerationRequest)
    ensures r.model == "gpt-3.5-turbo" && r.maxTokens == 300 && r.temperature == 0.5
    ensures r.prompt.SeoPrompt? && r.prompt.topic == topic && r.prompt.preview == preview
  {
    GenerationRequest(SeoModel, SeoPrompt(topic, preview), 300, 0.5)
  }

  /** The single call behind a list of topic ideas. */
  function TopicsRequest(count: int): (r: GenerationRequest)
    ensures r.model == "gpt-3.5-turbo" && r.maxTokens == 500 && r.temperature == 0.8
    ensures r.prompt.TopicsPrompt? && r.prompt.count == count
  {
    GenerationRequest(TopicsModel, TopicsPrompt(count), 500, 0.8)
  }

  /**
   * A request identifies its call site and the values its prompt embeds:
   * the three stages of an article never send the same request, and two
   * requests of one stage are equal only when they embed the same values.
   * So an oracle can answer each stage, and each input, independently.
   */
  lemma RequestsIdentifyCall(topic1: string, topic2: string, outline1: string, outline2: string,
                             wc1: int, wc2: int, preview1: string, preview2: string)
    ensures OutlineRequest(topic1) != ArticleRequest(outline1, wc1)
    ensures OutlineRequest(topic1) != SeoRequest(topic2, preview1)
    ensures ArticleRequest(outline1, wc1) != SeoRequest(topic1, preview1)
    ensures OutlineRequest(topic1) == OutlineRequest(topic2) ==> topic1 == topic2
    ensures ArticleRequest(outline1, wc1) == ArticleRequest(outline2, wc2) ==> outline1 == outline2 && wc1 == wc2
    ensures SeoRequest(topic1, preview1) == SeoRequest(topic2, preview2) ==> topic1 == topic2 && preview1 == preview2
  {
  }
}
