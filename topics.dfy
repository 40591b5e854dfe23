/**
 * `AIContentGenerator.suggest_topics`: one provider call for a list of topic
 * ideas.  The reply is stripped, split on newlines, the lines that are blank
 * after `strip()` are dropped, and each remaining line is cleaned with
 * `strip('- ')` followed by `strip()`.  When the call raises, a fixed list of
 * five topics is returned instead, whatever count was asked for.
 */
module TopicSuggester {
  import opened Text
  import opened Provider
  import opened Lists

  /** The characters `strip('- ')` removes: hyphen and space. */
  predicate IsBullet(c: char) {
    c == '-' || c == ' '
  }

  const FallbackTopics: seq<string> := [
    "ChatGPT vs Claude: Which AI Assistant is Right for You?",
    "5 Ways AI Can Boost Your Productivity at Work",
    "Understanding Machine Learning: A Complete Beginner's Guide",
    "AI Tools Every Small Business Should Know About",
    "The Future of AI: What to Expect in 2025"
  ]

  /** A line made only of whitespace, which the filter drops. */
  predicate IsBlank(line: string) {
    forall k :: 0 <= k < |line| ==> IsSpace(line[k])
  }

  /** The blank lines are exactly those whose `strip()` is empty, the filter's own test. */
  lemma BlankMeansEmptyStrip(line: string)
    ensures IsBlank(line) <==> Strip(line, IsSpace) == []
  {
  }

  /** Neither starts nor ends with whitespace. */
  predicate Trimmed(t: string) {
    t == [] || (!IsSpace(t[0]) && !IsSpace(t[|t| - 1]))
  }

  /**
   * `line.strip('- ').strip()`.  The result is trimmed; CleanTopicKeeps
   * states that it keeps every character that is neither whitespace nor a
   * hyphen.
   */
  function CleanTopic(line: string): (t: string)
    ensures Trimmed(t)
  {
    Strip(Strip(line, IsBullet), IsSpace)
  }

  /**
   * A character of the line that is neither whitespace nor a hyphen survives
   * the cleaning, so such a line never cleans to the empty string.
   */
  lemma CleanTopicKeeps(line: string, k: nat)
    requires k < |line| && !IsSpace(line[k]) && line[k] != '-'
    ensures line[k] in CleanTopic(line)
    ensures CleanTopic(line) != []
  {
    var m := Strip(line, IsBullet);
    StripKeeps(line, IsBullet, k);
    var j :| 0 <= j < |m| && m[j] == line[k];
    StripKeeps(m, IsSpace, j);
  }

  /**
   * On a line whose only whitespace is the plain space, the second strip
   * has nothing left to do, and the topic neither starts nor ends with a
   * hyphen: `- Topic -` becomes `Topic`.
   */
  lemma CleanTopicDropsBullets(line: string)
    requires forall k :: 0 <= k < |line| && IsSpace(line[k]) ==> line[k] == ' '
    ensures CleanTopic(line) == Strip(line, IsBullet)
    ensures CleanTopic(line) == [] || (CleanTopic(line)[0] != '-' && CleanTopic(line)[|CleanTopic(line)| - 1] != '-')
  {
    StripTwiceSettles(line, IsBullet, IsSpace);
  }

  /** The filter of the comprehension: `line.strip()` is non-empty. */
  predicate IsTextLine(line: string) {
    !IsBlank(line)
  }

  /**
   * The list comprehension: clean every non-blank line, in order.  There
   * are no more topics than lines, and every topic is trimmed;
   * CleanLinesKeepsNonBlankInOrder states which topics they are.
   */
  function CleanLines(lines: seq<string>): (r: seq<string>)
    ensures |r| <= |lines|
    ensures forall k :: 0 <= k < |r| ==> Trimmed(r[k])
  {
    FilterMapKeepsProperty(lines, IsTextLine, CleanTopic, Trimmed);
    FilterMap(lines, IsTextLine, CleanTopic)
  }

  /**
   * `reply.strip().split('\n')`: newline-free lines that, joined again with
   * newlines, give back the stripped reply.
   */
  function ReplyLines(reply: string): (lines: seq<string>)
    ensures |lines| >= 1
    ensures forall i :: 0 <= i < |lines| ==> '\n' !in lines[i]
    ensures Join(lines, '\n') == Strip(reply, IsSpace)
  {
    JoinSplit(Strip(reply, IsSpace), '\n');
    Split(Strip(reply, IsSpace), '\n')
  }

  /**
   * `suggest_topics(count)` against the provider `provider`.  A reply yields
   * its non-blank lines, cleaned (at most one topic per line, each trimmed;
   * CleanLinesKeepsNonBlankInOrder states which and in what order); a failed
   * call yields the five fallback topics for any count.
   */
  function SuggestTopics(count: int, provider: Oracle): (topics: seq<string>)
    ensures provider(TopicsRequest(count)).ProviderFailure? ==> topics == FallbackTopics && |topics| == 5
    ensures provider(TopicsRequest(count)).Completion? ==>
              topics == CleanLines(ReplyLines(provider(TopicsRequest(count)).text))
  {
    match provider(TopicsRequest(count))
    case ProviderFailure(_) => FallbackTopics
    case Completion(reply) => CleanLines(ReplyLines(reply))
  }

  // ---------------------------------------------------------------------------
  // Properties
  // ---------------------------------------------------------------------------

  /**
   * The cleaned lines are exactly the non-blank lines, cleaned, in their
   * original order: `idx` lists the positions of all non-blank lines in
   * increasing order, and the k-th topic is the cleaned line at `idx[k]`.
   */
  lemma CleanLinesKeepsNonBlankInOrder(lines: seq<string>) returns (idx: seq<nat>)
    ensures |idx| == |CleanLines(lines)| <= |lines|
    ensures forall k :: 0 <= k < |idx| ==>
              idx[k] < |lines| && !IsBlank(lines[idx[k]]) && CleanLines(lines)[k] == CleanTopic(lines[idx[k]])
    ensures forall k, l :: 0 <= k < l < |idx| ==> idx[k] < idx[l]
    ensures forall i :: 0 <= i < |lines| && !IsBlank(lines[i]) ==> i in idx
  {
    idx := FilterMapInOrder(lines, IsTextLine, CleanTopic);
  }

  /** The line holds a character that is neither whitespace nor a hyphen. */
  predicate HasTopicChar(line: string) {
    exists k :: 0 <= k < |line| && !IsSpace(line[k]) && line[k] != '-'
  }

  /**
   * A reply whose lines each carry some character other than whitespace and
   * hyphens yields one non-empty topic per line.
   */
  lemma WellFormedLinesKeepCount(lines: seq<string>)
    requires forall i :: 0 <= i < |lines| ==> HasTopicChar(lines[i])
    ensures |CleanLines(lines)| == |lines|
    ensures forall i :: 0 <= i < |lines| ==> CleanLines(lines)[i] == CleanTopic(lines[i]) && CleanLines(lines)[i] != []
  {
    forall i | 0 <= i < |lines|
      ensures IsTextLine(lines[i]) && CleanTopic(lines[i]) != []
    {
      assert HasTopicChar(lines[i]);
      var k :| 0 <= k < |lines[i]| && !IsSpace(lines[i][k]) && lines[i][k] != '-';
      CleanTopicKeeps(lines[i], k);
    }
    FilterMapKeepingAll(lines, IsTextLine, CleanTopic);
  }

  /**
   * A line made only of hyphens and spaces, such as a `---` rule, passes
   * the blank-line filter but is cleaned to the empty string.
   */
  lemma RuleLineBecomesEmptyTopic(line: string)
    requires line != []
    requires forall k :: 0 <= k < |line| ==> line[k] == '-' || line[k] == ' '
    requires exists k :: 0 <= k < |line| && line[k] == '-'
    ensures !IsBlank(line)
    ensures CleanTopic(line) == []
    ensures CleanLines([line]) == [[]]
  {
    var k :| 0 <= k < |line| && line[k] == '-';
    assert !IsSpace(line[k]);
    assert CleanLines([line]) == [CleanTopic(line)] + CleanLines([]);
  }

  /**
   * The number of topics follows the reply, not the request: asking for ten
   * and receiving two lines gives two topics.
   */
  lemma CountFollowsReply(provider: Oracle)
    requires provider(TopicsRequest(10)) == Completion("AI at work\n- AI tools")
    ensures SuggestTopics(10, provider) == ["AI at work", "AI tools"]
  {
    var reply := provider(TopicsRequest(10)).text;
    ExampleReplyLines(reply);
    ExampleCleanLines(ReplyLines(reply));
  }

  /** The example reply splits into its two lines. */
  lemma ExampleReplyLines(reply: string)
    requires reply == "AI at work\n- AI tools"
    ensures ReplyLines(reply) == ["AI at work", "- AI tools"]
  {
    StripSlice(reply, IsSpace, 0, |reply|);
    var parts := ["AI at work", "- AI tools"];
    assert reply == Join(parts, '\n') by {
      assert Join(parts, '\n') == parts[0] + ['\n'] + Join(parts[1..], '\n');
    }
    assert '\n' !in parts[0] && '\n' !in parts[1];
    SplitJoin(parts, '\n');
  }

  /** Both example lines survive and are cleaned. */
  lemma ExampleCleanLines(lines: seq<string>)
    requires |lines| == 2 && lines[0] == "AI at work" && lines[1] == "- AI tools"
    ensures CleanLines(lines) == ["AI at work", "AI tools"]
  {
    ExampleLinesHaveTopicChars(lines);
    WellFormedLinesKeepCount(lines);
    ExampleCleanPlain(lines[0]);
    ExampleCleanBullet(lines[1]);
    var r := CleanLines(lines);
    assert |r| == 2 && r[0] == "AI at work" && r[1] == "AI tools";
  }

  /** Each example line holds a character other than whitespace and hyphens. */
  lemma ExampleLinesHaveTopicChars(lines: seq<string>)
    requires |lines| == 2 && lines[0] == "AI at work" && lines[1] == "- AI tools"
    ensures forall i :: 0 <= i < |lines| ==> HasTopicChar(lines[i])
  {
    assert !IsSpace(lines[0][0]) && lines[0][0] != '-';
    assert !IsSpace(lines[1][2]) && lines[1][2] != '-';
  }

  /** A line without bullet or padding is kept as it is. */
  lemma ExampleCleanPlain(t: string)
    requires t == "AI at work"
    ensures CleanTopic(t) == "AI at work"
  {
    StripSlice(t, IsBullet, 0, |t|);
    StripSlice(t, IsSpace, 0, |t|);
  }

  /** A `- ` bullet is removed. */
  lemma ExampleCleanBullet(t: string)
    requires t == "- AI tools"
    ensures CleanTopic(t) == "AI tools"
  {
    assert t[0] == '-' && t[1] == ' ' && t[2] == 'A';
    StripSlice(t, IsBullet, 2, |t|);
    var m := t[2..];
    StripSlice(m, IsSpace, 0, |m|);
  }
}
