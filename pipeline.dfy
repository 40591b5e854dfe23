/**
 * `AIContentGenerator.generate_article`: three dependent provider calls
 * (outline, then article body, then SEO metadata) inside one `try`; the
 * first exception of any kind ends the run with `{success: false, error}`.
 * Only a failure of `json.loads` on the metadata reply is recovered locally,
 * by a fixed fallback record; a reply that decodes but cannot be indexed by
 * the four metadata keys still raises, when the result is assembled.
 */
module ArticlePipeline {
  import opened Text
  import opened Json
  import opened Provider

  /** The metadata stage sees at most this many characters of the body. */
  const PreviewLength := 500

  /** The keys read from the metadata record, in the order the result reads them. */
  const SeoKeys := ["title", "excerpt", "tags", "categories"]

  /** The exception that ended a run. */
  datatype Fault =
    | ProviderError(message: string)   // raised by a provider call
    | MissingKey(key: string)          // KeyError: the metadata dict lacks the key
    | NotSubscriptable(typeName: string) // TypeError: the metadata value is not a dict

  /** The four metadata fields, as read from the record. */
  datatype Metadata = Metadata(title: Json, excerpt: Json, tags: Json, categories: Json)

  /** The fields of a successful result (the generation timestamp is left out). */
  datatype Article = Article(title: Json, content: string, excerpt: Json, tags: Json, categories: Json, wordCount: nat)

  datatype ArticleResult = Succeeded(article: Article) | Failed(error: Fault)

  /** A run: its result and the provider requests it issued, in order. */
  datatype Run = Run(result: ArticleResult, calls: seq<GenerationRequest>)

  /** `json.loads`, abstracted: a syntax error or a decoded value. */
  type JsonLoads = string -> Decoded

  datatype Outcome<T> = Ok(value: T) | Err(fault: Fault)

  /** The part of the body the metadata prompt embeds: `content[:500]`. */
  function Preview(content: string): (p: string)
    ensures |p| <= PreviewLength && p <= content
    ensures |content| <= PreviewLength ==> p == content
    ensures PreviewLength <= |content| ==> p == content[..PreviewLength]
  {
    Prefix(content, PreviewLength)
  }

  /**
   * The record used when the metadata reply is not valid JSON: a dict with
   * the four keys, whose title and excerpt embed the topic, with four tags
   * and two categories.
   */
  function FallbackSeo(topic: string): (r: Json)
    ensures HasSeoKeys(r)
    ensures r.fields["title"].JString? && |r.fields["title"].s| > 14 + |topic|
            && r.fields["title"].s[14..14 + |topic|] == topic
    ensures r.fields["excerpt"].JString? && |r.fields["excerpt"].s| > 40 + |topic|
            && r.fields["excerpt"].s[40..40 + |topic|] == topic
    ensures r.fields["tags"].JArray? && |r.fields["tags"].items| == 4
    ensures r.fields["categories"].JArray? && |r.fields["categories"].items| == 2
  {
    JObject(map[
      "title" := JString("Understanding " + topic + ": A Beginner's Guide to AI"),
      "excerpt" := JString("Learn everything you need to know about " + topic
                           + " in AI. Practical guide for beginners and professionals."),
      "tags" := JArray([JString("AI"), JString("artificial intelligence"), JString("technology"), JString("beginners")]),
      "categories" := JArray([JString("AI Basics"), JString("Technology")])
    ])
  }

  /**
   * `seo_data`: the decoded metadata reply, or the fallback record built
   * from the topic when decoding raised.  As a corollary of the first two
   * clauses and FallbackSeo's contract, it holds the four keys exactly when the fallback
   * applied or the decoded value holds them.
   */
  function SeoData(reply: string, topic: string, loads: JsonLoads): (r: Json)
    ensures loads(reply).Decoded? ==> r == loads(reply).value
    ensures loads(reply).SyntaxError? ==> r == FallbackSeo(topic)
    ensures HasSeoKeys(r) <==> loads(reply).SyntaxError? || HasSeoKeys(loads(reply).value)
  {
    match loads(reply)
    case SyntaxError => FallbackSeo(topic)
    case Decoded(v) => v
  }

  /**
   * `seo_data[key]`, with Python's exception turned into a fault: the stored
   * value, a `KeyError` naming the key for a dict without it, or a
   * `TypeError` naming the type of anything that is not a dict.
   */
  function Field(data: Json, key: string): (r: Outcome<Json>)
    ensures r.Ok? <==> data.JObject? && key in data.fields
    ensures r.Ok? ==> r.value == data.fields[key]
    ensures r.Err? ==> r.fault == (if data.JObject? then MissingKey(key) else NotSubscriptable(TypeName(data)))
  {
    match Subscript(data, key)
    case Found(v) => Ok(v)
    case KeyError(k) => Err(MissingKey(k))
    case TypeError(t) => Err(NotSubscriptable(t))
  }

  /** The record is a dict that holds all four metadata keys. */
  predicate HasSeoKeys(data: Json) {
    && data.JObject?
    && "title" in data.fields && "excerpt" in data.fields
    && "tags" in data.fields && "categories" in data.fields
  }

  /**
   * Reading the four metadata fields, in the order the result dict reads
   * them.  It succeeds exactly when the record is a dict holding all four
   * keys, and then yields their values unchanged; otherwise the fault is a
   * `TypeError` for a non-dict, or a `KeyError` for the first absent key.
   */
  function ReadSeo(data: Json): (r: Outcome<Metadata>)
    ensures r.Ok? <==> HasSeoKeys(data)
    ensures r.Ok? ==> r.value == Metadata(data.fields["title"], data.fields["excerpt"],
                                          data.fields["tags"], data.fields["categories"])
    ensures !data.JObject? ==> r == Err(NotSubscriptable(TypeName(data)))
    ensures data.JObject? && r.Err? ==>
              exists i :: 0 <= i < |SeoKeys| && r.fault == MissingKey(SeoKeys[i])
                          && SeoKeys[i] !in data.fields
                          && forall j :: 0 <= j < i ==> SeoKeys[j] in data.fields
  {
    assert SeoKeys[0] == "title" && SeoKeys[1] == "excerpt" && SeoKeys[2] == "tags" && SeoKeys[3] == "categories";
    match Field(data, "title")
    case Err(f) => Err(f)
    case Ok(title) =>
      match Field(data, "excerpt")
      case Err(f) => Err(f)
      case Ok(excerpt) =>
        match Field(data, "tags")
        case Err(f) => Err(f)
        case Ok(tags) =>
          match Field(data, "categories")
          case Err(f) => Err(f)
          case Ok(categories) => Ok(Metadata(title, excerpt, tags, categories))
  }

  /**
   * `generate_article(topic, word_count)` against the provider `provider`.
   * The run issues the outline request first; each later request is issued
   * only after the previous one answered, and embeds that answer; a run
   * stops early only on a provider failure, whose message becomes the
   * result's error.  A successful run made all three calls, and its content
   * is the body stage's reply verbatim with its own whitespace-token count.
   */
  function GenerateArticle(topic: string, wordCount: int, provider: Oracle, loads: JsonLoads): (run: Run)
    ensures 1 <= |run.calls| <= 3 && run.calls[0] == OutlineRequest(topic)
    ensures forall i :: 0 <= i < |run.calls| - 1 ==> provider(run.calls[i]).Completion?
    ensures |run.calls| >= 2 ==> provider(run.calls[0]).Completion? && run.calls[1] == ArticleRequest(provider(run.calls[0]).text, wordCount)
    ensures |run.calls| == 3 ==> provider(run.calls[1]).Completion? && run.calls[2] == SeoRequest(topic, Preview(provider(run.calls[1]).text))
    ensures |run.calls| < 3 ==> provider(run.calls[|run.calls| - 1]).ProviderFailure?
    ensures provider(run.calls[|run.calls| - 1]).ProviderFailure? ==>
              run.result == Failed(ProviderError(provider(run.calls[|run.calls| - 1]).message))
    ensures run.result.Succeeded? ==>
              && |run.calls| == 3
              && provider(run.calls[2]).Completion?
              && run.result.article.content == provider(run.calls[1]).text
              && run.result.article.wordCount == |Words(run.result.article.content)|
  {
    var outlineCall := OutlineRequest(topic);
    match provider(outlineCall)
    case ProviderFailure(m) => Run(Failed(ProviderError(m)), [outlineCall])
    case Completion(outline) =>
      var articleCall := ArticleRequest(outline, wordCount);
      match provider(articleCall)
      case ProviderFailure(m) => Run(Failed(ProviderError(m)), [outlineCall, articleCall])
      case Completion(content) =>
        var seoCall := SeoRequest(topic, Preview(content));
        var calls := [outlineCall, articleCall, seoCall];
        match provider(seoCall)
        case ProviderFailure(m) => Run(Failed(ProviderError(m)), calls)
        case Completion(seoReply) =>
          match ReadSeo(SeoData(seoReply, topic, loads))
          case Err(f) => Run(Failed(f), calls)
          case Ok(meta) =>
            Run(Succeeded(Article(meta.title, content, meta.excerpt, meta.tags, meta.categories, WordCount(content))), calls)
  }

  // ---------------------------------------------------------------------------
  // Properties of a run
  // ---------------------------------------------------------------------------

  /** The reply to the body stage, in a run whose outline stage answered. */
  function BodyReply(topic: string, wordCount: int, provider: Oracle): Reply
    requires provider(OutlineRequest(topic)).Completion?
  {
    provider(ArticleRequest(provider(OutlineRequest(topic)).text, wordCount))
  }

  /** The reply to the metadata stage, in a run whose first two stages answered. */
  function MetadataReply(topic: string, wordCount: int, provider: Oracle): Reply
    requires provider(OutlineRequest(topic)).Completion?
    requires BodyReply(topic, wordCount, provider).Completion?
  {
    provider(SeoRequest(topic, Preview(BodyReply(topic, wordCount, provider).text)))
  }

  /** A failed outline call ends the run at once: one call, and its message as the error. */
  lemma OutlineFailureStopsRun(topic: string, wordCount: int, provider: Oracle, loads: JsonLoads)
    requires provider(OutlineRequest(topic)).ProviderFailure?
    ensures GenerateArticle(topic, wordCount, provider, loads)
            == Run(Failed(ProviderError(provider(OutlineRequest(topic)).message)), [OutlineRequest(topic)])
  {
  }

  /**
   * A failed body or metadata call fails the whole run with that call's
   * message; nothing of the body already produced is returned.
   */
  lemma LateFailureDiscardsBody(topic: string, wordCount: int, provider: Oracle, loads: JsonLoads)
    requires provider(OutlineRequest(topic)).Completion?
    requires BodyReply(topic, wordCount, provider).ProviderFailure?
             || MetadataReply(topic, wordCount, provider).ProviderFailure?
    ensures var run := GenerateArticle(topic, wordCount, provider, loads);
            && run.result.Failed?
            && run.result.error.ProviderError?
            && (BodyReply(topic, wordCount, provider).ProviderFailure? ==>
                  run.result.error.message == BodyReply(topic, wordCount, provider).message && |run.calls| == 2)
            && (BodyReply(topic, wordCount, provider).Completion? ==>
                  run.result.error.message == MetadataReply(topic, wordCount, provider).message && |run.calls| == 3)
  {
  }

  /**
   * Once all three calls answered, the run succeeds exactly when the
   * metadata reply is not valid JSON (the fallback applies) or decodes to a
   * dict holding all four keys.  A value that decodes but is not such a dict
   * fails the run instead of the fallback, with the fault of reading that
   * value: a `TypeError` for a non-dict, or a `KeyError` for the first key
   * missing in the order title, excerpt, tags, categories (ReadSeo).
   */
  lemma MetadataDecidesOutcome(topic: string, wordCount: int, provider: Oracle, loads: JsonLoads)
    requires provider(OutlineRequest(topic)).Completion?
    requires BodyReply(topic, wordCount, provider).Completion?
    requires MetadataReply(topic, wordCount, provider).Completion?
    ensures var run := GenerateArticle(topic, wordCount, provider, loads);
            var decoded := loads(MetadataReply(topic, wordCount, provider).text);
            && |run.calls| == 3
            && (run.result.Succeeded? <==>
                  decoded.SyntaxError?
                  || HasSeoKeys(decoded.value))
            && (run.result.Failed? ==> run.result.error.MissingKey? || run.result.error.NotSubscriptable?)
            && (decoded.Decoded? && run.result.Failed? ==> run.result.error == ReadSeo(decoded.value).fault)
  {
    var run := GenerateArticle(topic, wordCount, provider, loads);
    var data := SeoData(MetadataReply(topic, wordCount, provider).text, topic, loads);
    if run.result.Failed? {
      assert ReadSeo(data).Err?;
      if data.JObject? {
        var i :| 0 <= i < |SeoKeys| && ReadSeo(data).fault == MissingKey(SeoKeys[i]);
      }
    }
  }

  /**
   * When the metadata reply is not valid JSON, the run still succeeds, with
   * the fallback title built from the topic, four tags and two categories.
   */
  lemma SyntaxErrorUsesFallback(topic: string, wordCount: int, provider: Oracle, loads: JsonLoads)
    requires provider(OutlineRequest(topic)).Completion?
    requires BodyReply(topic, wordCount, provider).Completion?
    requires MetadataReply(topic, wordCount, provider).Completion?
    requires loads(MetadataReply(topic, wordCount, provider).text).SyntaxError?
    ensures var run := GenerateArticle(topic, wordCount, provider, loads);
            && run.result.Succeeded?
            && run.result.article.title == JString("Understanding " + topic + ": A Beginner's Guide to AI")
            && run.result.article.tags.JArray? && |run.result.article.tags.items| == 4
            && run.result.article.categories.JArray? && |run.result.article.categories.items| == 2
            && run.result.article.content == BodyReply(topic, wordCount, provider).text
  {
    assert ReadSeo(FallbackSeo(topic)).Ok?;
  }

  /**
   * The metadata of a successful run is never a mix: either all four fields
   * come from the decoded reply, or all four from the fallback record.
   */
  lemma MetadataIsWhole(topic: string, wordCount: int, provider: Oracle, loads: JsonLoads)
    requires GenerateArticle(topic, wordCount, provider, loads).result.Succeeded?
    ensures var run := GenerateArticle(topic, wordCount, provider, loads);
            var a := run.result.article;
            var source := match loads(provider(run.calls[2]).text)
                          case SyntaxError => FallbackSeo(topic)
                          case Decoded(v) => v;
            && source.JObject?
            && a.title == source.fields["title"] && a.excerpt == source.fields["excerpt"]
            && a.tags == source.fields["tags"] && a.categories == source.fields["categories"]
  {
  }

  /**
   * The requested target length reaches only the body request: two runs
   * whose body stage receives the same reply have the same result, and a
   * successful one reports the body's own count of word starts, whatever
   * target each run requested.
   */
  lemma WordCountIgnoresTarget(topic: string, target1: int, target2: int, provider: Oracle, loads: JsonLoads)
    requires provider(OutlineRequest(topic)).Completion?
    requires BodyReply(topic, target1, provider) == BodyReply(topic, target2, provider)
    ensures GenerateArticle(topic, target1, provider, loads).result == GenerateArticle(topic, target2, provider, loads).result
    ensures GenerateArticle(topic, target1, provider, loads).result.Succeeded? ==>
              GenerateArticle(topic, target1, provider, loads).result.article.wordCount
              == WordStartsFrom(BodyReply(topic, target1, provider).text, 0)
  {
  }

  /** The metadata prompt embeds a prefix of the body of at most 500 characters. */
  lemma MetadataPromptPreviewBounded(topic: string, wordCount: int, provider: Oracle, loads: JsonLoads)
    requires |GenerateArticle(topic, wordCount, provider, loads).calls| == 3
    ensures var run := GenerateArticle(topic, wordCount, provider, loads);
            var preview := run.calls[2].prompt.preview;
            && run.calls[2].prompt.SeoPrompt?
            && |preview| <= PreviewLength
            && preview <= provider(run.calls[1]).text
  {
  }
}
