/**
 * The simulated n8n workflows (services/n8nService.ts).  Each response is a
 * function of the endpoint, the request payload and, where the service draws
 * a random number, of that number given as a parameter.  The timers that
 * delay the responses are not modelled.
 */
module N8n {
  import opened Wrappers
  import opened Js
  import opened Types

  const CopyEndpoint := "generate-copy"
  const SeoEndpoint := "seo-keyword-research"
  const SocialEndpoint := "generate-social-post"

  datatype Usage = Usage(inputTokens: int, outputTokens: int)

  /** What `generateContent` resolves with: a keyword list, or a generated text. */
  datatype GenResponse =
    | KeywordReply(data: seq<Keyword>, modelUsed: string)
    | ContentReply(content: string, modelUsed: string, cost: real, usage: Usage)

  datatype MarketAnalysis = MarketAnalysis(trends: seq<string>, competitors: seq<string>)

  /** What the observe workflow resolves with. */
  datatype ObserveReply = ObserveReply(
    success: bool,
    campaignId: string,
    brandVoiceId: string,
    marketAnalysis: MarketAnalysis)

  /** One check of the verify workflow. */
  datatype Verification = Verification(kind: string, score: int, issues: seq<string>)

  /** What the verify workflow resolves with. */
  datatype VerifyReply = VerifyReply(
    success: bool,
    pass: bool,
    verifications: seq<Verification>,
    variantsGenerated: int)

  const FixedUsage := Usage(500, 200)

  /** The three keyword candidates the keyword-research workflow always returns. */
  const SeoFixture: seq<Keyword> := [
    Keyword("ai marketing tools", 45, 12000),
    Keyword("automated copywriting", 30, 5000),
    Keyword("generative ai for business", 65, 22000)
  ]

  /** `data?.context || data || {}`: the record the topic and tone are read from. */
  function ContextOf(data: Value): (c: Value)
    ensures Get(data, "context").Some? && Truthy(Get(data, "context").value) ==> c == data.fields["context"]
    ensures (Get(data, "context").None? || !Truthy(Get(data, "context").value)) && Truthy(data) ==> c == data
    ensures !Truthy(data) ==> c == Obj(map[])
  {
    Or(Get(data, "context"), Or(Some(data), Obj(map[])))
  }

  /** `context.topic || 'your topic'`. */
  function TopicOf(data: Value): (v: Value)
    ensures Get(ContextOf(data), "topic").Some? && Truthy(Get(ContextOf(data), "topic").value) ==> v == ContextOf(data).fields["topic"]
    ensures !(Get(ContextOf(data), "topic").Some? && Truthy(Get(ContextOf(data), "topic").value)) ==> v == Str("your topic")
  {
    Or(Get(ContextOf(data), "topic"), Str("your topic"))
  }

  /** `context.tone || 'Professional'`. */
  function ToneOf(data: Value): (v: Value)
    ensures Get(ContextOf(data), "tone").Some? && Truthy(Get(ContextOf(data), "tone").value) ==> v == ContextOf(data).fields["tone"]
    ensures !(Get(ContextOf(data), "tone").Some? && Truthy(Get(ContextOf(data), "tone").value)) ==> v == Str("Professional")
  {
    Or(Get(ContextOf(data), "tone"), Str("Professional"))
  }

  const CopyLead := "Here is the high-converting content for "
  const CopyMiddle := ". This leverages the "
  const CopyTail := " tone perfectly."
  const SocialLead := "\U{1F680} Transform your workflow with AI! #"
  const SocialTail := " #Innovation"

  /** The hashtag body of a social post: the topic as text with every `\s` character removed. */
  function Hashtag(topic: Value): string {
    StripWhitespace(ToJsString(topic))
  }

  /** The copywriting text: a template that mentions the topic and the tone, each as text. */
  function CopyText(topic: Value, tone: Value): (r: string)
    ensures Contains(r, ToJsString(topic)) && Contains(r, ToJsString(tone))
  {
    var t, n := ToJsString(topic), ToJsString(tone);
    ContainsMiddle(CopyLead, t, CopyMiddle + n + CopyTail);
    ContainsMiddle(CopyLead + t + CopyMiddle, n, CopyTail);
    assert CopyLead + t + (CopyMiddle + n + CopyTail) == CopyLead + t + CopyMiddle + n + CopyTail;
    CopyLead + t + CopyMiddle + n + CopyTail
  }

  /** The social post text: it carries `#` followed by the whitespace-free topic. */
  function SocialText(topic: Value): (r: string)
    ensures Contains(r, "#" + Hashtag(topic))
  {
    var lead := SocialLead[..|SocialLead| - 1];
    assert SocialLead == lead + "#";
    ContainsMiddle(lead, "#" + Hashtag(topic), SocialTail);
    assert lead + ("#" + Hashtag(topic)) + SocialTail == SocialLead + Hashtag(topic) + SocialTail;
    SocialLead + Hashtag(topic) + SocialTail
  }

  /**
   * `generateContent(endpoint, data)`: dispatch on the endpoint.  The copy
   * text mentions the topic and the tone, the keyword endpoint returns the
   * fixed keyword list, a social post carries the whitespace-free topic as a
   * hashtag, and any other endpoint yields empty content from the default model.
   */
  function GenerateContent(endpoint: string, data: Value): (r: GenResponse)
    ensures r.KeywordReply? <==> endpoint == SeoEndpoint
    ensures r.KeywordReply? ==> r.data == SeoFixture && r.modelUsed == "gemini-pro"
    ensures endpoint == CopyEndpoint ==>
      && Contains(r.content, ToJsString(TopicOf(data)))
      && Contains(r.content, ToJsString(ToneOf(data)))
      && r.modelUsed == "claude-sonnet-4.5" && r.cost == 0.015
    ensures endpoint == SocialEndpoint ==>
      && Contains(r.content, "#" + Hashtag(TopicOf(data)))
      && r.modelUsed == "gpt-4o" && r.cost == 0.002
    ensures endpoint != CopyEndpoint && endpoint != SeoEndpoint && endpoint != SocialEndpoint ==>
      r == ContentReply("", "gpt-4o-mini", 0.002, FixedUsage)
  {
    var topic := TopicOf(data);
    var tone := ToneOf(data);
    if endpoint == CopyEndpoint then
      ContentReply(CopyText(topic, tone), "claude-sonnet-4.5", 0.015, FixedUsage)
    else if endpoint == SeoEndpoint then
      KeywordReply(SeoFixture, "gemini-pro")
    else if endpoint == SocialEndpoint then
      ContentReply(SocialText(topic), "gpt-4o", 0.002, FixedUsage)
    else
      ContentReply("", "gpt-4o-mini", 0.002, FixedUsage)
  }

  /** A request that carries no truthy topic or tone gets the defaults "your topic" and "Professional". */
  lemma DefaultTopicAndTone(data: Value)
    requires !(Get(ContextOf(data), "topic").Some? && Truthy(Get(ContextOf(data), "topic").value))
    requires !(Get(ContextOf(data), "tone").Some? && Truthy(Get(ContextOf(data), "tone").value))
    ensures TopicOf(data) == Str("your topic") && ToneOf(data) == Str("Professional")
  {
  }

  /**
   * The hashtag never contains whitespace, and removing whitespace is all it
   * does to a topic without any; the default topic becomes "yourtopic".
   */
  lemma HashtagHasNoWhitespace(topic: Value)
    ensures forall k :: 0 <= k < |Hashtag(topic)| ==> !IsWhitespace(Hashtag(topic)[k])
    ensures topic.Str? && (forall k :: 0 <= k < |topic.s| ==> !IsWhitespace(topic.s[k])) ==> Hashtag(topic) == topic.s
    ensures Hashtag(Str("your topic")) == "yourtopic"
  {
    DefaultHashtag();
  }

  /** The default topic's hashtag is "yourtopic". */
  lemma DefaultHashtag()
    ensures Hashtag(Str("your topic")) == "yourtopic"
  {
    var a, gap, b := "your", " ", "topic";
    assert forall k :: 0 <= k < |a| ==> !IsWhitespace(a[k]);
    assert forall k :: 0 <= k < |b| ==> !IsWhitespace(b[k]);
    assert a + gap + b == "your topic";
    assert a + b == "yourtopic";
    HashtagJoinsWords(a, gap, b);
    assert Hashtag(Str(a + gap + b)) == Hashtag(Str("your topic"));
  }

  /** Two words separated by a run of whitespace become the two words joined. */
  lemma HashtagJoinsWords(a: string, gap: string, b: string)
    requires forall k :: 0 <= k < |a| ==> !IsWhitespace(a[k])
    requires forall k :: 0 <= k < |gap| ==> IsWhitespace(gap[k])
    requires forall k :: 0 <= k < |b| ==> !IsWhitespace(b[k])
    ensures Hashtag(Str(a + gap + b)) == a + b
  {
    StripWhitespaceAppend(a + gap, b);
    StripWhitespaceAppend(a, gap);
  }

  /** `triggerObservePhase`: `draw` stands for `Math.floor(Math.random() * 10000)`. */
  function TriggerObservePhase(draw: nat): (r: ObserveReply)
    requires draw < 10000
    ensures r.success && r.brandVoiceId == "bv-123"
    ensures |r.campaignId| > 2 && r.campaignId[..2] == "c-"
    ensures forall k :: 2 <= k < |r.campaignId| ==> '0' <= r.campaignId[k] <= '9'
    ensures DigitsValue(r.campaignId[2..]) == draw
    ensures r.campaignId == "c-" + NatToString(draw)
    ensures r.marketAnalysis == MarketAnalysis(["AI Adoption", "Personalization"], ["CompA", "CompB"])
    ensures |r.marketAnalysis.competitors| == 2
  {
    var id := NatToString(draw);
    var r := ObserveReply(true, "c-" + id, "bv-123",
                          MarketAnalysis(["AI Adoption", "Personalization"], ["CompA", "CompB"]));
    assert r.campaignId[2..] == id;
    r
  }

  /** `triggerVerifyPhase`: `pass` stands for `Math.random() > 0.3`. */
  function TriggerVerifyPhase(pass: bool): (r: VerifyReply)
    ensures r.success && r.pass == pass && |r.verifications| == 3
    ensures r.verifications[0].kind == "brand_voice"
    ensures r.verifications[0].score == (if pass then 95 else 65)
    ensures |r.verifications[0].issues| == (if pass then 0 else 1)
    ensures r.variantsGenerated == (if pass then 3 else 0)
  {
    VerifyReply(
      true,
      pass,
      [ Verification("brand_voice", if pass then 95 else 65, if pass then [] else ["Tone too aggressive"]),
        Verification("seo_compliance", 88, []),
        Verification("factual_accuracy", 100, []) ],
      if pass then 3 else 0)
  }

  /**
   * A verify response passes exactly when none of its checks reports an
   * issue, and exactly when every check scores above the page's 80-point
   * "needs review" threshold.
   */
  lemma {:induction false} VerifyPassMeansClean(pass: bool)
    ensures var r := TriggerVerifyPhase(pass);
      && (r.pass <==> forall k :: 0 <= k < |r.verifications| ==> r.verifications[k].issues == [])
      && (r.pass <==> forall k :: 0 <= k < |r.verifications| ==> r.verifications[k].score > 80)
  {
    var r := TriggerVerifyPhase(pass);
    if !pass {
      assert r.verifications[0].issues != [];
      assert r.verifications[0].score <= 80;
    }
  }
}
