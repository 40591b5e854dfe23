/**
 * The request guard of `POST /api/generate`: the handler reads the request
 * body as JSON, refuses a request without a usable topic, and otherwise
 * hands the topic and the requested word count (1500 when absent) to the
 * article pipeline.  Any exception raised on the way is turned into a
 * generic server error.
 */
module GenerateEndpoint {
  import opened Json

  /** The default of `data.get('word_count', 1500)`. */
  const DefaultWordCount := 1500

  const TopicRequired := "Topic is required"
  const GenerationFailed := "Failed to generate content"

  /**
   * What `request.get_json()` gives the handler: a decoded value (None
   * decodes to JNull), or an exception because the body could not be read
   * as JSON.
   */
  datatype RequestBody = Unreadable | Parsed(data: Json)

  /**
   * The decision of the guard: an error response with its status code and
   * message, or the arguments of `generate_article`.
   */
  datatype Dispatch = Reject(status: nat, error: string) | Generate(topic: Json, wordCount: Json)

  /** The body is a dict whose `topic` entry is present and truthy. */
  predicate HasTopic(data: Json) {
    data.JObject? && "topic" in data.fields && Truthy(data.fields["topic"])
  }

  /**
   * `if not data or not data.get('topic')`, then `data['topic']` and
   * `data.get('word_count', 1500)`.  A body that cannot be read, or a truthy
   * value that is not a dict (which has no `.get`), raises and becomes a
   * 500; a falsy body, or a dict without a truthy topic, is a 400; only a
   * dict with a truthy topic reaches the pipeline, with the topic itself and
   * the requested word count, including an explicit null, or 1500.
   */
  function GuardGenerate(body: RequestBody): (d: Dispatch)
    ensures d.Generate? <==> body.Parsed? && HasTopic(body.data)
    ensures d.Reject? ==> d.status in {400, 500}
    ensures d.Reject? && d.status == 400 <==> body.Parsed? && !HasTopic(body.data) && (!Truthy(body.data) || body.data.JObject?)
    ensures d.Reject? && d.status == 400 ==> d.error == TopicRequired
    ensures d.Reject? && d.status == 500 ==> d.error == GenerationFailed
    ensures d.Generate? ==> d.topic == body.data.fields["topic"] && Truthy(d.topic)
    ensures d.Generate? && "word_count" in body.data.fields ==> d.wordCount == body.data.fields["word_count"]
    ensures d.Generate? && "word_count" !in body.data.fields ==> d.wordCount == JInt(DefaultWordCount)
  {
    match body
    case Unreadable => Reject(500, GenerationFailed)
    case Parsed(data) =>
      if !Truthy(data) then Reject(400, TopicRequired)
      else if !data.JObject? then Reject(500, GenerationFailed)
      else if "topic" !in data.fields || !Truthy(data.fields["topic"]) then Reject(400, TopicRequired)
      else
        var wordCount := if "word_count" in data.fields then data.fields["word_count"] else JInt(DefaultWordCount);
        Generate(data.fields["topic"], wordCount)
  }

  /** An empty dict is falsy, so it is refused as missing its topic rather than crashing. */
  lemma EmptyBodyNeedsTopic()
    ensures GuardGenerate(Parsed(JObject(map[]))) == Reject(400, TopicRequired)
    ensures GuardGenerate(Parsed(JNull)) == Reject(400, TopicRequired)
  {
  }

  /**
   * Whether a request reaches the pipeline depends only on its topic entry:
   * two dict bodies with the same topic entry are both admitted or both
   * refused, whatever else they carry.
   */
  lemma AdmissionDependsOnTopicOnly(a: map<string, Json>, b: map<string, Json>)
    requires ("topic" in a) == ("topic" in b)
    requires "topic" in a ==> a["topic"] == b["topic"]
    ensures GuardGenerate(Parsed(JObject(a))).Generate? == GuardGenerate(Parsed(JObject(b))).Generate?
    ensures GuardGenerate(Parsed(JObject(a))).Generate? ==>
              GuardGenerate(Parsed(JObject(a))).topic == GuardGenerate(Parsed(JObject(b))).topic
  {
  }
}
