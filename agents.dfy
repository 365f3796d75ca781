/**
 * The four agent executors (services/agents.ts).  Each takes its task and
 * the outcome of its backend call (`callN8nBackend`) as inputs and packages
 * an `AgentResult`.  The research and copywriter agents turn a failed call
 * into `success = false`; the SEO agent lets it escape (an `Err` outcome);
 * the social agent records a failed platform as a missing post.
 * `elapsed` stands for `Date.now() - startTime`.
 */
module Agents {
  import opened Wrappers
  import opened Js
  import opened Types
  import opened N8n
  import opened SeoRanking

  const ResearchAgentName := "ResearchAnalyst"
  const CopywriterAgentName := "CopywriterAgent"
  const SeoAgentName := "SEOAgent"
  const SocialAgentName := "SocialMediaAgent"

  const ResearchTools := ["Apollo.io", "SimilarWeb", "Google Trends"]
  const CopywriterTools := ["Anthropic API", "Grammarly SDK"]
  const SeoTools := ["DataForSEO", "Google Search Console API"]
  const SocialTools := ["Mention.com", "Unsplash API", "OpenAI DALL-E"]

  /** The message of the TypeError raised by `content.trim()` on a reply that has no `content`. */
  const TrimTypeError := "Cannot read properties of undefined (reading 'trim')"
  /** The message of the TypeError raised by `keywords.data.map` on a reply that has no `data`. */
  const KeywordsTypeError := "Cannot read properties of undefined (reading 'map')"
  /** The message of the TypeError raised by `platforms.map` when `platforms` is not an array. */
  const PlatformsTypeError := "platforms.map is not a function"

  /** A call to `callN8nBackend(endpoint, data)`. */
  datatype Request = Request(endpoint: string, payload: Value)

  /** `{ key: context.key }`: an absent key stays absent (reads as `undefined`). */
  function Copied(context: map<string, Value>, key: string): map<string, Value> {
    if key in context then map[key := context[key]] else map[]
  }

  /** The packaging of a caught error: no data, the message, and only the agent and the time. */
  function Failure(agent: string, message: string, elapsed: int): AgentResult {
    AgentResult(false, None, Some(message), Metadata(agent, elapsed, None, None, None))
  }

  // ----- Research -----

  /** The research agent's backend call: the task's industry and topic. */
  function ResearchRequest(task: AgentTask): Request {
    Request("market-research", Obj(Copied(task.context, "industry") + Copied(task.context, "topic")))
  }

  /** The fixed findings the research agent reports whenever its backend call succeeds. */
  const ResearchFindings :=
    Findings(["Competitor A", "Competitor B"], ["Trend 1", "Trend 2"], 15, ["Apollo.io", "SimilarWeb"])

  /**
   * `ResearchAgent.execute`: success exactly when the backend call
   * succeeded, with the fixed findings whatever the backend returned;
   * otherwise the error message and no data.
   */
  function ResearchExecute(task: AgentTask, backend: Outcome<GenResponse>, elapsed: int): (r: AgentResult)
    ensures r.success <==> backend.Ok?
    ensures r.metadata.agent == ResearchAgentName && r.metadata.executionTime == elapsed
    ensures r.success ==> r.data == Some(ResearchFindings) && r.data.value.leadsFound == 15 && r.error.None?
    ensures r.success ==> r.metadata.toolsUsed == Some(ResearchTools) && r.metadata.modelUsed == Some("gpt-4o")
    ensures !r.success ==> r == Failure(ResearchAgentName, backend.message, elapsed)
  {
    match backend
    case Ok(_) =>
      AgentResult(true, Some(ResearchFindings), None,
                  Metadata(ResearchAgentName, elapsed, Some("gpt-4o"), Some(0.05), Some(ResearchTools)))
    case Err(message) => Failure(ResearchAgentName, message, elapsed)
  }

  /**
   * Against the simulated backend the research call (an endpoint the
   * simulator does not know) yields empty content, and the agent still
   * reports its fixed findings.
   */
  lemma ResearchAgainstSimulator(task: AgentTask, elapsed: int)
    ensures var req := ResearchRequest(task);
      var reply := GenerateContent(req.endpoint, req.payload);
      && reply == ContentReply("", "gpt-4o-mini", 0.002, FixedUsage)
      && ResearchExecute(task, Ok(reply), elapsed).success
      && ResearchExecute(task, Ok(reply), elapsed).data == Some(ResearchFindings)
  {
  }

  // ----- Copywriter -----

  /** The copywriter's backend call: task type, the whole context, the fixed analysis and the brand voice. */
  function CopyRequest(task: AgentTask): Request {
    var analysis := Obj(map["complexity" := Str("medium"), "recommendedModel" := Str("claude-sonnet-4.5")]);
    Request(CopyEndpoint,
            Obj(map["taskType" := Str(task.taskType), "context" := Obj(task.context), "analysis" := analysis]
                + Copied(task.context, "brandVoiceId")))
  }

  /**
   * `CopywriterAgent.execute`: success exactly when the backend returned a
   * text; the data is that text with leading and trailing whitespace trimmed,
   * and the model and cost are the backend's.  Any error, including the
   * TypeError of a reply without text, becomes `success = false`.
   */
  function CopywriterExecute(task: AgentTask, backend: Outcome<GenResponse>, elapsed: int): (r: AgentResult)
    ensures r.success <==> backend.Ok? && backend.value.ContentReply?
    ensures r.metadata.agent == CopywriterAgentName && r.metadata.executionTime == elapsed
    ensures r.success ==>
      && r.data.Some? && r.data.value.Copy? && r.error.None?
      && r.data.value.text == Trim(backend.value.content)
      && r.metadata.modelUsed == Some(backend.value.modelUsed)
      && r.metadata.cost == Some(backend.value.cost)
      && r.metadata.toolsUsed == Some(CopywriterTools)
    ensures backend.Err? ==> r == Failure(CopywriterAgentName, backend.message, elapsed)
    ensures backend.Ok? && backend.value.KeywordReply? ==> r == Failure(CopywriterAgentName, TrimTypeError, elapsed)
  {
    match backend
    case Err(message) => Failure(CopywriterAgentName, message, elapsed)
    case Ok(KeywordReply(_, _)) => Failure(CopywriterAgentName, TrimTypeError, elapsed)
    case Ok(ContentReply(content, model, cost, _)) =>
      AgentResult(true, Some(Copy(Trim(content))), None,
                  Metadata(CopywriterAgentName, elapsed, Some(model), Some(cost), Some(CopywriterTools)))
  }

  /** The copywriter's text has no leading or trailing whitespace and is the backend's text minus only whitespace at its ends. */
  lemma CopywriterDataIsTrimmed(task: AgentTask, backend: Outcome<GenResponse>, elapsed: int)
    requires CopywriterExecute(task, backend, elapsed).success
    ensures var text := CopywriterExecute(task, backend, elapsed).data.value.text;
      var content := backend.value.content;
      var i := TrimOffset(content);
      && (text == [] || (!IsWhitespace(text[0]) && !IsWhitespace(text[|text| - 1])))
      && i + |text| <= |content| && text == content[i..i + |text|]
      && (forall k :: 0 <= k < i ==> IsWhitespace(content[k]))
      && (forall k :: i + |text| <= k < |content| ==> IsWhitespace(content[k]))
  {
  }

  /**
   * Against the simulated backend the copywriter's request hands over the
   * task's context, so the copy mentions the task's topic (when it is
   * truthy) and its tone (or "Professional" when it has none), and the agent
   * succeeds with the simulator's model.
   */
  lemma CopywriterAgainstSimulator(task: AgentTask, elapsed: int)
    requires "topic" in task.context && Truthy(task.context["topic"])
    ensures var req := CopyRequest(task);
      var reply := GenerateContent(req.endpoint, req.payload);
      var r := CopywriterExecute(task, Ok(reply), elapsed);
      && r.success && r.metadata.modelUsed == Some("claude-sonnet-4.5")
      && Contains(reply.content, ToJsString(task.context["topic"]))
      && ("tone" in task.context && Truthy(task.context["tone"]) ==> Contains(reply.content, ToJsString(task.context["tone"])))
      && (("tone" !in task.context || !Truthy(task.context["tone"])) ==> Contains(reply.content, "Professional"))
  {
    var req := CopyRequest(task);
    assert req.endpoint == CopyEndpoint;
    assert Get(req.payload, "context") == Some(Obj(task.context));
    assert ContextOf(req.payload) == Obj(task.context);
  }

  // ----- SEO -----

  /** The SEO agent's backend call: the task's topic. */
  function SeoRequest(task: AgentTask): Request {
    Request(SeoEndpoint, Obj(Copied(task.context, "topic")))
  }

  /**
   * `SEOAgent.execute`.  A task other than `keyword_research` fails at once
   * with `executionTime` 0 and does not depend on the backend.  For keyword
   * research a backend error escapes (there is no try/catch), and otherwise
   * the data is the ranked keyword list.
   */
  function SeoExecute(task: AgentTask, backend: Outcome<GenResponse>, elapsed: int): (r: Outcome<AgentResult>)
    ensures task.taskType != "keyword_research" ==>
      r == Ok(AgentResult(false, None, None, Metadata(SeoAgentName, 0, None, None, None)))
    ensures task.taskType == "keyword_research" && backend.Err? ==> r == Err(backend.message)
    ensures task.taskType == "keyword_research" && backend.Ok? && backend.value.ContentReply? ==>
      r == Err(KeywordsTypeError)
    ensures task.taskType == "keyword_research" && backend.Ok? && backend.value.KeywordReply? ==>
      && r.Ok? && r.value.success && r.value.error.None?
      && r.value.data == Some(RankedKeywords(Rank(backend.value.data)))
      && r.value.metadata == Metadata(SeoAgentName, elapsed, Some(backend.value.modelUsed), None, Some(SeoTools))
  {
    if task.taskType == "keyword_research" then
      match backend
      case Err(message) => Err(message)
      case Ok(ContentReply(_, _, _, _)) => Err(KeywordsTypeError)
      case Ok(KeywordReply(keywords, model)) =>
        Ok(AgentResult(true, Some(RankedKeywords(Rank(keywords))), None,
                       Metadata(SeoAgentName, elapsed, Some(model), None, Some(SeoTools))))
    else
      Ok(AgentResult(false, None, None, Metadata(SeoAgentName, 0, None, None, None)))
  }

  /** Without `keyword_research` no backend call is made: the result is the same whatever the backend would answer. */
  lemma SeoOtherTaskIgnoresBackend(task: AgentTask, b1: Outcome<GenResponse>, b2: Outcome<GenResponse>, e1: int, e2: int)
    requires task.taskType != "keyword_research"
    ensures SeoExecute(task, b1, e1) == SeoExecute(task, b2, e2)
    ensures SeoExecute(task, b1, e1).Ok? && !SeoExecute(task, b1, e1).value.success
  {
  }

  /**
   * Every keyword the SEO agent returns carries its opportunity score, and the
   * list is a stable descending sort of the backend's list.
   */
  lemma SeoOutputRanked(task: AgentTask, keywords: seq<Keyword>, model: string, elapsed: int)
    requires task.taskType == "keyword_research"
    ensures var r := SeoExecute(task, Ok(KeywordReply(keywords, model)), elapsed);
      && r.Ok? && r.value.data.Some? && r.value.data.value.RankedKeywords?
      && var out := r.value.data.value.keywords;
      && |out| == |keywords|
      && SortedDesc(out)
      && multiset(out) == multiset(AnalyzeAll(keywords))
      && SameTies(out, AnalyzeAll(keywords))
  {
    RankIsStableDescendingSort(keywords);
  }

  /** The three fixture keywords, scored 770, 660 and 350. */
  const RankedFixture := [
    ScoredKeyword("generative ai for business", 65, 22000, 770.0),
    ScoredKeyword("ai marketing tools", 45, 12000, 660.0),
    ScoredKeyword("automated copywriting", 30, 5000, 350.0)
  ]

  /** The fixture keywords with their opportunity scores: 660, 350 and 770. */
  lemma FixtureScores()
    ensures AnalyzeAll(SeoFixture) == [RankedFixture[1], RankedFixture[2], RankedFixture[0]]
  {
    assert Score(SeoFixture[0]) == 660.0;
    assert Score(SeoFixture[1]) == 350.0;
    assert Score(SeoFixture[2]) == 770.0;
    assert SeoFixture[1..][1..] == [SeoFixture[2]];
  }

  /** The runs of a three-entry list, one entry at a time. */
  lemma WithScoreOfThree(x: ScoredKeyword, y: ScoredKeyword, z: ScoredKeyword, v: real)
    ensures WithScore([x, y, z], v) ==
      (if x.opportunityScore == v then [x] else []) +
      (if y.opportunityScore == v then [y] else []) +
      (if z.opportunityScore == v then [z] else [])
  {
    assert [x, y, z] == [x] + [y, z] && [y, z] == [y] + [z] && [z] == [z] + [];
    WithScoreCons(x, [y, z], v);
    WithScoreCons(y, [z], v);
    WithScoreCons(z, [], v);
  }

  /** Ranking the fixture puts 770 first, then 660, then 350. */
  lemma FixtureRank()
    ensures Rank(SeoFixture) == RankedFixture
  {
    var gen, ai, auto := RankedFixture[0], RankedFixture[1], RankedFixture[2];
    FixtureScores();
    forall v ensures WithScore(RankedFixture, v) == WithScore(AnalyzeAll(SeoFixture), v) {
      WithScoreOfThree(gen, ai, auto, v);
      WithScoreOfThree(ai, auto, gen, v);
    }
    AnyStableSortIsRank(SeoFixture, RankedFixture);
  }

  /**
   * The worked example: against the simulated keyword-research workflow the
   * SEO agent ranks "generative ai for business" (770), then "ai marketing
   * tools" (660), then "automated copywriting" (350).
   */
  lemma SeoWorkedExample(task: AgentTask, elapsed: int)
    requires task.taskType == "keyword_research"
    ensures var req := SeoRequest(task);
      var r := SeoExecute(task, Ok(GenerateContent(req.endpoint, req.payload)), elapsed);
      r.Ok? && r.value.success && r.value.data == Some(RankedKeywords(RankedFixture))
  {
    var req := SeoRequest(task);
    var reply := GenerateContent(req.endpoint, req.payload);
    assert reply.KeywordReply? && reply.data == SeoFixture;
    FixtureRank();
  }

  // ----- Social -----

  /**
   * `task.context.platforms || ['linkedin']`, or None when the value is
   * truthy but not an array, where `platforms.map` throws.
   */
  function PlatformsOf(context: map<string, Value>): (ps: Option<seq<string>>)
    ensures ("platforms" !in context || !Truthy(context["platforms"])) ==> ps == Some(["linkedin"])
    ensures "platforms" in context && context["platforms"].List? ==> ps == Some(context["platforms"].items)
    ensures "platforms" in context && Truthy(context["platforms"]) && !context["platforms"].List? ==> ps.None?
  {
    if "platforms" !in context || !Truthy(context["platforms"]) then Some(["linkedin"])
    else if context["platforms"].List? then Some(context["platforms"].items)
    else None
  }

  /** The social agent's backend call for one platform: the platform, the content and the tone. */
  function SocialRequest(task: AgentTask, platform: string): Request {
    Request(SocialEndpoint,
            Obj(map["platform" := Str(platform)] + Copied(task.context, "content") + Copied(task.context, "tone")))
  }

  /** `posts[platform]`: the reply's text, or no post when the call failed (or the reply carried no text). */
  function PostOf(reply: Outcome<GenResponse>): Option<string> {
    match reply
    case Ok(ContentReply(content, _, _, _)) => Some(content)
    case _ => None
  }

  /** The posts dictionary: one entry per distinct requested platform, holding that platform's post. */
  function PostsFor(platforms: seq<string>, reply: string -> Outcome<GenResponse>): map<string, Option<string>> {
    map p | p in platforms :: PostOf(reply(p))
  }

  /** The social agent's result around a posts dictionary. */
  function SocialResult(posts: map<string, Option<string>>, elapsed: int): AgentResult {
    AgentResult(true, Some(Posts(posts)), None, Metadata(SocialAgentName, elapsed, None, None, Some(SocialTools)))
  }

  /**
   * `SocialMediaAgent.execute`: one backend call per platform (`reply(p)` is
   * the outcome of the call for platform `p`), each result stored under its
   * platform.  Failed calls are caught one by one, so the task succeeds;
   * only a `platforms` value that is not an array makes it throw.
   */
  method SocialExecute(task: AgentTask, reply: string -> Outcome<GenResponse>, elapsed: int)
    returns (r: Outcome<AgentResult>)
    ensures PlatformsOf(task.context).None? ==> r == Err(PlatformsTypeError)
    ensures PlatformsOf(task.context).Some? ==>
      r == Ok(SocialResult(PostsFor(PlatformsOf(task.context).value, reply), elapsed))
  {
    var requested := PlatformsOf(task.context);
    if requested.None? {
      return Err(PlatformsTypeError);
    }
    var platforms := requested.value;
    var posts: map<string, Option<string>> := map[];
    var i := 0;
    while i < |platforms|
      invariant 0 <= i <= |platforms|
      invariant forall p :: p in posts <==> p in platforms[..i]
      invariant forall p :: p in posts ==> posts[p] == PostOf(reply(p))
    {
      posts := posts[platforms[i] := PostOf(reply(platforms[i]))];
      assert platforms[..i + 1] == platforms[..i] + [platforms[i]];
      i := i + 1;
    }
    assert platforms[..i] == platforms;
    assert posts == PostsFor(platforms, reply);
    return Ok(SocialResult(posts, elapsed));
  }

  /**
   * The fan-out merge: the posts have exactly one key per distinct requested
   * platform, a failed platform maps to no post, a successful one to its text.
   */
  lemma {:induction false} SocialFanOut(platforms: seq<string>, reply: string -> Outcome<GenResponse>)
    ensures PostsFor(platforms, reply).Keys == set p | p in platforms
    ensures forall p :: p in platforms && reply(p).Err? ==> PostsFor(platforms, reply)[p].None?
    ensures forall p :: p in platforms && reply(p).Ok? && reply(p).value.ContentReply? ==>
      PostsFor(platforms, reply)[p] == Some(reply(p).value.content)
    ensures |PostsFor(platforms, reply)| <= |platforms|
  {
    DistinctCount(platforms);
    assert PostsFor(platforms, reply).Keys == set p | p in platforms;
  }

  /** A list has at least as many entries as distinct values. */
  lemma {:induction false} DistinctCount(xs: seq<string>)
    ensures |set p | p in xs| <= |xs|
  {
    if xs != [] {
      DistinctCount(xs[1..]);
      assert (set p | p in xs) == (set p | p in xs[1..]) + {xs[0]};
    }
  }

  /** Three platforms of which one fails: three keys, the failed one with no post, and the task succeeds. */
  lemma SocialThreePlatformsOneFailing(a: string, b: string, c: string, reply: string -> Outcome<GenResponse>)
    requires a != b && b != c && a != c
    requires reply(a).Ok? && reply(b).Ok? && reply(c).Err?
    ensures |PostsFor([a, b, c], reply)| == 3
    ensures PostsFor([a, b, c], reply)[c].None?
    ensures SocialResult(PostsFor([a, b, c], reply), 0).success
  {
    var posts := PostsFor([a, b, c], reply);
    assert posts.Keys == {a, b, c};
  }

  /**
   * The social request carries no topic, so against the simulated backend
   * every post's hashtag is the default topic's, whatever the campaign topic.
   */
  lemma SocialHashtagIgnoresTopic(task: AgentTask, platform: string)
    ensures var req := SocialRequest(task, platform);
      var reply := GenerateContent(req.endpoint, req.payload);
      reply.ContentReply? && Contains(reply.content, "#" + Hashtag(Str("your topic")))
  {
    var req := SocialRequest(task, platform);
    assert "topic" !in req.payload.fields && "context" !in req.payload.fields;
    assert TopicOf(req.payload) == Str("your topic");
  }
}
