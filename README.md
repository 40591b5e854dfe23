# AI content generator: article pipeline and topic suggestions

This project models the content generator of the autonomous blog system
(`content-generator/src/main.py`). It covers three things:

- `AIContentGenerator.generate_article`. This is a three-stage conversation
  with a generative-text provider: an outline, then the article body written
  from that outline, then SEO metadata written from a preview of the body.
  The result is either a success (title, content, excerpt, tags, categories
  and the body's own whitespace-token count) or a failure carrying the
  exception that ended the run.
- `AIContentGenerator.suggest_topics`. This makes one provider call. It
  strips and splits the reply on newlines, drops blank lines, and cleans
  each remaining line with `strip('- ').strip()`. If the call raises, it
  returns a fixed list of five topics.
- The request guard of `POST /api/generate`. It decides between a 400
  ("Topic is required"), a 500 ("Failed to generate content") and a
  call into the pipeline.

The provider is an oracle, a function from requests to replies, so every
property holds for every possible provider behaviour that answers
the same request with the same reply (a fixed, deterministic provider).
A lemma relating two runs, such as `WordCountIgnoresTarget`, relies on
this: both runs send the same metadata request and get the same reply. A run of the
pipeline returns the requests it issued as well as its result. That is how
"the later stages are never called" is stated. `json.loads` is a function
parameter too: the model fixes what the code does with its outcome, not
how JSON text is parsed.

Modules:

- `Text` (`text.dfy`): Python's `strip()`, `strip(chars)`, `split('\n')`,
  `split()` and `s[:n]`. It uses Python's whitespace set.
- `Json` (`json.dfy`): decoded JSON values, with Python truthiness and
  `v[key]` subscripting (`KeyError` versus `TypeError`).
- `Provider` (`provider.dfy`): the four request shapes (model, output cap,
  temperature, embedded values).
- `Lists` (`lists.dfy`): the filtered list comprehension.
- `ArticlePipeline` (`pipeline.dfy`): `generate_article`.
- `TopicSuggester` (`topics.dfy`): `suggest_topics`.
- `GenerateEndpoint` (`endpoint.dfy`): the guard of `/api/generate`.

Three places where the code does less than one might expect. In each, the
model follows the code:

- Metadata fallback. One might expect any malformed metadata reply
  (missing keys, wrong types, invalid syntax) to get the fallback record.
  In the code only an exception while reading or decoding the reply's text
  does (`main.py:127-136`). A reply that decodes to a value without the four
  keys raises `KeyError`/`TypeError` later, when the result is assembled,
  so the whole run fails (`MetadataDecidesOutcome`).
- Blank topics. One might expect the cleaned topic list to hold no blank
  entries. The code filters blank lines *before* cleaning, so a line such as
  `---` survives the filter and becomes the empty topic
  (`RuleLineBecomesEmptyTopic`).
- Topic validation. One might expect every request without a usable topic
  to be refused with 400. The code does that only for a falsy body or a
  dict. A truthy body that is not a dict (a list, a string, a number) has no
  `.get`. It raises, and the handler answers 500 (`GuardGenerate`).

## Model

| member | source | states |
|---|---|---|
| `Text.TrimLeft` | content-generator/src/main.py:181-182 | The result is a suffix of the input. It does not start with a stripped character, and everything removed is a stripped character. |
| `Text.TrimRight` | content-generator/src/main.py:181-182 | The result is a prefix of the input. It does not end with a stripped character, and everything removed is a stripped character. |
| `Text.Strip` | content-generator/src/main.py:181-182 | `strip()` / `strip(chars)`: the result neither starts nor ends with a stripped character. It is empty exactly when every input character is stripped. |
| `Text.StripIsSlice` | content-generator/src/main.py:181-182 | The stripped text is a contiguous slice of the input, surrounded only by stripped characters. |
| `Text.StripSlice` | content-generator/src/main.py:181-182 | Converse of StripIsSlice. A slice that starts and ends with a kept character, with only stripped characters around it, is the result of the strip. |
| `Text.TrimLeftSkips` | content-generator/src/main.py:181-182 | TrimLeft removes exactly the leading run of stripped characters. |
| `Text.TrimRightSkips` | content-generator/src/main.py:181-182 | TrimRight removes exactly the trailing run of stripped characters. |
| `Text.StripTwiceSettles` | content-generator/src/main.py:182 | When every character the second strip removes is also one the first removes, the second strip changes nothing. |
| `Text.StripKeeps` | content-generator/src/main.py:181-182 | Every character that is not stripped survives the strip. |
| `Text.Split` | content-generator/src/main.py:181 | `split('\n')` yields at least one piece, and no piece contains the separator. |
| `Text.JoinSplit` | content-generator/src/main.py:181 | Joining the pieces with the separator gives back the text. |
| `Text.SplitJoin` | content-generator/src/main.py:181 | Splitting a join of separator-free pieces gives back the pieces. |
| `Text.SplitLength` | content-generator/src/main.py:181 | The number of pieces is the number of separators plus one. |
| `Text.SplitWithoutSeparator` | content-generator/src/main.py:181 | A text without the separator splits into itself. |
| `Text.SplitAfterPiece` | content-generator/src/main.py:181 | A separator closes the first piece, whatever follows it. |
| `Text.RunLength` | content-generator/src/main.py:145 | The leading non-whitespace run is bounded by the text and ends at whitespace or at the end of the text. |
| `Text.Words` | content-generator/src/main.py:145 | `split()`: every token is non-empty and contains no whitespace. |
| `Text.WordsCountWordStarts` | content-generator/src/main.py:145 | The number of tokens of `split()` equals the number of positions where a non-whitespace character follows whitespace or the start. |
| `Text.WordCount` | content-generator/src/main.py:145 | `len(content.split())` equals the independent count of word starts, WordStartsFrom(content, 0). |
| `Text.WordsFromCountStarts` | content-generator/src/main.py:145 | From a token boundary, the number of tokens equals the number of token starts. |
| `Text.TakeWord` | content-generator/src/main.py:145 | A token at a boundary counts once among the tokens and once among the token starts. |
| `Text.WordsCoverText` | content-generator/src/main.py:145 | The tokens, concatenated, are exactly the non-whitespace characters of the text, in order. |
| `Text.Prefix` | content-generator/src/main.py:109 | `s[:n]` is a prefix of `s` of length `min(n, len(s))`. |
| `Provider.OutlineRequest` | content-generator/src/main.py:62-67 | The outline call uses `gpt-4`, at most 800 tokens and temperature 0.7, and its prompt embeds the topic. |
| `Provider.ArticleRequest` | content-generator/src/main.py:91-96 | The body call uses `gpt-4`, at most 3000 tokens and temperature 0.7, and its prompt embeds the outline and the target length. |
| `Provider.SeoRequest` | content-generator/src/main.py:120-125 | The metadata call uses `gpt-3.5-turbo`, at most 300 tokens and temperature 0.5, and its prompt embeds the topic and the body preview. |
| `Provider.TopicsRequest` | content-generator/src/main.py:174-179 | The topics call uses `gpt-3.5-turbo`, at most 500 tokens and temperature 0.8, and its prompt embeds the requested count. |
| `Provider.RequestsIdentifyCall` | content-generator/src/main.py:62-125 | The three stages of an article never send the same request, and two requests of one stage are equal only when they embed the same values. |
| `Json.Subscript` | content-generator/src/main.py:140-144 | `v[key]` succeeds exactly on a dict holding the key. Otherwise it raises `KeyError(key)` for a dict and a `TypeError` naming the type for any other value. |
| `Lists.FilterMap` | content-generator/src/main.py:182 | The comprehension yields no more elements than its input. |
| `Lists.FilterMapKeepsProperty` | content-generator/src/main.py:182 | A property that the mapped function gives every accepted element holds of every element of the result. |
| `Lists.KeptFrom` | content-generator/src/main.py:182 | The positions it lists are in range, accepted by the filter, and strictly increasing. |
| `Lists.KeptFromComplete` | content-generator/src/main.py:182 | Every accepted position is listed. |
| `Lists.FilterMapFollowsPositions` | content-generator/src/main.py:182 | The comprehension maps the function over exactly the listed positions. |
| `Lists.FilterMapInOrder` | content-generator/src/main.py:182 | The comprehension keeps exactly the accepted elements, mapped, in their original order. |
| `Lists.FilterMapKeepingAll` | content-generator/src/main.py:182 | When every element is accepted, the comprehension is a plain map. |
| `ArticlePipeline.Preview` | content-generator/src/main.py:109 | `content[:500]`: a prefix of the body; the whole body when it has at most 500 characters, otherwise exactly its first 500. |
| `ArticlePipeline.FallbackSeo` | content-generator/src/main.py:131-136 | The fallback record is a dict with the four keys; its title and excerpt embed the topic; it has four tags and two categories. |
| `ArticlePipeline.SeoData` | content-generator/src/main.py:127-136 | `seo_data` is the decoded reply when decoding succeeds and exactly the fallback record built from the topic (`FallbackSeo`) when it raises; it holds the four keys exactly when the fallback applied or the decoded value holds them. |
| `ArticlePipeline.Field` | content-generator/src/main.py:140-144 | `seo_data[key]` succeeds exactly on a dict holding the key, and then yields the stored value; otherwise it fails with `KeyError(key)` for a dict and with a `TypeError` naming the type for anything else. |
| `ArticlePipeline.ReadSeo` | content-generator/src/main.py:138-147 | Building the result succeeds exactly when the record is a dict with the four keys, and then copies their values. A non-dict fails with a `TypeError`. A dict fails with a `KeyError` for the first missing key in reading order. |
| `ArticlePipeline.GenerateArticle` | content-generator/src/main.py:32-154 | The outline is requested first. Each later request is issued only after the previous one answered, and embeds that answer. The run stops early only on a provider failure, whose message becomes the error. A success made all three calls, has the body reply as its content, and has the body's own token count. |
| `ArticlePipeline.OutlineFailureStopsRun` | content-generator/src/main.py:62-67 | A failed outline call ends the run after one call, with its message as the error. |
| `ArticlePipeline.LateFailureDiscardsBody` | content-generator/src/main.py:91-125 | A failed body or metadata call fails the run with that call's message, after two or three calls respectively, and returns no content. |
| `ArticlePipeline.MetadataDecidesOutcome` | content-generator/src/main.py:127-147 | With all three calls answered, the run succeeds exactly when the metadata reply is invalid JSON or decodes to a dict with all four keys. Otherwise it fails with exactly the fault of reading the decoded value (`ReadSeo`): a `TypeError` for a non-dict, or a `KeyError` for the first missing key in the order title, excerpt, tags, categories (lines 138-144). |
| `ArticlePipeline.SyntaxErrorUsesFallback` | content-generator/src/main.py:127-136 | Invalid metadata JSON still gives a success: the fallback title built from the topic, four tags, two categories, and the body unchanged. |
| `ArticlePipeline.MetadataIsWhole` | content-generator/src/main.py:127-144 | The four metadata fields of a success come all from the decoded reply or all from the fallback, never a mix. |
| `ArticlePipeline.WordCountIgnoresTarget` | content-generator/src/main.py:72-98 | The requested target reaches only the body request: with the same body reply, two runs with different targets have the same result, and a success reports the body's own count of word starts (line 145), never the target. |
| `ArticlePipeline.MetadataPromptPreviewBounded` | content-generator/src/main.py:101-109 | The third request carries a prefix of the body of at most 500 characters. |
| `TopicSuggester.BlankMeansEmptyStrip` | content-generator/src/main.py:182 | A line is dropped by the filter exactly when its `strip()` is empty. |
| `TopicSuggester.CleanTopic` | content-generator/src/main.py:182 | `line.strip('- ').strip()` neither starts nor ends with whitespace; `CleanTopicKeeps` and `CleanTopicDropsBullets` state what it keeps and what it removes. |
| `TopicSuggester.CleanTopicDropsBullets` | content-generator/src/main.py:182 | On a line whose only whitespace is the plain space, the second `strip()` changes nothing and the topic neither starts nor ends with a hyphen (`- Topic -` gives `Topic`). |
| `TopicSuggester.CleanTopicKeeps` | content-generator/src/main.py:182 | A character that is neither whitespace nor a hyphen survives cleaning, so such a line never cleans to the empty string. |
| `TopicSuggester.SuggestTopics` | content-generator/src/main.py:156-192 | A failed call yields the five fallback topics (`FallbackTopics`, lines 186-192) for any count. A reply yields the cleaned non-blank lines of the stripped, newline-split reply (CleanLines of ReplyLines, whose contract gives at most one topic per line, each trimmed). |
| `TopicSuggester.ReplyLines` | content-generator/src/main.py:181 | `reply.strip().split('\n')`: at least one line, none containing a newline, and joined with newlines they give back the stripped reply. |
| `TopicSuggester.CleanLines` | content-generator/src/main.py:182 | The comprehension yields no more topics than lines, each trimmed. |
| `TopicSuggester.CleanLinesKeepsNonBlankInOrder` | content-generator/src/main.py:181-182 | The topics are exactly the non-blank lines, cleaned, in their original order. |
| `TopicSuggester.WellFormedLinesKeepCount` | content-generator/src/main.py:181-182 | N lines that each carry a character other than whitespace or a hyphen give exactly N non-empty topics, line by line. |
| `TopicSuggester.RuleLineBecomesEmptyTopic` | content-generator/src/main.py:182 | A line of only hyphens and spaces that contains a hyphen passes the blank-line filter and becomes the empty topic. |
| `TopicSuggester.CountFollowsReply` | content-generator/src/main.py:156-182 | The number of topics follows the reply, not the requested count: asking for 10 and receiving two lines gives those two topics, cleaned. |
| `GenerateEndpoint.GuardGenerate` | content-generator/src/main.py:336-355 | Only a dict body with a truthy `topic` reaches the pipeline, carrying that topic and `word_count` (present, even null, or 1500). A falsy body or a dict without a truthy topic gets 400 "Topic is required". An unreadable body or a truthy non-dict gets 500 "Failed to generate content". |
| `GenerateEndpoint.EmptyBodyNeedsTopic` | content-generator/src/main.py:339-340 | An empty dict or a null body is refused with 400, not a crash. |
| `GenerateEndpoint.AdmissionDependsOnTopicOnly` | content-generator/src/main.py:339-342 | For dict bodies, admission and the topic passed on depend only on the `topic` entry. |

## Left out

- The provider's network calls are not modelled. The provider is an oracle, and `ProviderFailure` covers every exception the call itself raises, including the API key missing from the environment.
- Replies with no choices, or whose message content is `None`, are not modelled: a completion always carries text. In the code such a reply fails the run at the body stage (indexing, or `content[:500]`), fails it at the outline stage when there are no choices, continues with the text `None` at the outline stage when the content is `None`, gets the fallback record at the metadata stage (the bare `except` at lines 129-136 catches the error), and gets the fallback topics in `suggest_topics`. Modelling them as `ProviderFailure` is right for the topics and for the body stage, but not for the metadata stage or for `None` outline content.
- Prompt wording is not modelled. Each request records only the values its prompt embeds (topic, outline, target length, preview, count) and its model, output cap and temperature.
- `json.loads` is not modelled beyond its outcome (syntax error or decoded value). NaN and infinite numbers are not represented.
- The `error` string `str(e)` of a failed run (lines 149-154) is not rendered: the model returns the exception itself, as a provider failure with its message, a `KeyError` with the key, or a `TypeError` with the type name.
- The `generated_at` timestamp, logging, Flask configuration, CORS, the dashboard page, `/health` and `/api/topics` (a plain wrapper around `suggest_topics(10)`) are not modelled.
- `GenerateEndpoint.GuardGenerate` passes the topic and `word_count` on as JSON values. The pipeline takes a string topic and an integer target. How a non-string topic or a non-integer target is rendered into prompt text (Python's `str()`) is not modelled. Nor is the final `jsonify` of the result modelled.
- TopicSuggester.CleanTopic: the model does not prove, for every line, that the cleaned topic is one contiguous slice of the line with only hyphens and whitespace cut from its ends. It proves this for each of the two strips separately (`Text.StripIsSlice`). It also proves that every other character survives (`CleanTopicKeeps`), and that no hyphen is left at either end when the line's only whitespace is the plain space (`CleanTopicDropsBullets`). Composing the two slices in one proof exceeds the solver's resource limit. That limit is not a property of the code.
- Flask's handling of the request's content type is folded into `Unreadable` (an exception, hence 500) or `JNull` (falsy, hence 400). Which one applies depends on the Flask version.
- The wordpress-publisher service is a stub with only a health check, and is not part of this model.
