/**
 * The campaign page's lifecycle controller (pages/CampaignDetail.tsx): the
 * handlers `startObserve`, `startExecute`, `startVerify` and `publish` over
 * the page's state, without the rendering.
 *
 * `Page` is the state as a value and `AfterObserve`, `AfterExecute`,
 * `AfterVerify` and `AfterPublish` say what each handler leaves behind; the
 * class `CampaignDetail` holds the same state in mutable fields and its
 * methods perform the handlers step by step, each proved to end in the state
 * its function describes.  Every outside call (an agent's backend, an n8n
 * workflow) is an `Outcome` given as a parameter; a handler runs to its end
 * before the next one starts, so the busy flag is observed only at rest.
 */
module CampaignPage {
  import opened Wrappers
  import opened Js
  import opened Types
  import opened N8n
  import opened SeoRanking
  import opened Agents
  import Stepper

  /** The campaign brief form. */
  datatype Brief = Brief(name: string, objective: string, industry: string, topic: string)

  const DefaultBrief := Brief("New Campaign", "Brand Awareness", "SaaS", "AI Automation")

  /** The brief as the record handed to the agents (`{ ...brief }`). */
  function BriefRecord(b: Brief): map<string, Value> {
    map["name" := Str(b.name), "objective" := Str(b.objective), "industry" := Str(b.industry), "topic" := Str(b.topic)]
  }

  /** What the execute phase stores: each agent's data and the tools the copy and SEO agents used. */
  datatype GeneratedContent = GeneratedContent(
    copy: Option<AgentData>,
    seo: Option<AgentData>,
    social: Option<AgentData>,
    tools: seq<string>)

  /** The page's state; `None` stands for the `null` the result records start as. */
  datatype Page = Page(
    status: CampaignStatus,
    logs: seq<string>,
    brief: Brief,
    observeData: Option<map<string, Value>>,
    generatedContent: Option<GeneratedContent>,
    verifyResults: Option<VerifyReply>,
    isProcessing: bool,
    activeTools: seq<string>)

  const ObserveStartLog := "Starting OBSERVE Phase via N8N..."
  const ResearchInitLog := "Initializing Research Agent..."
  const ExecuteStartLog := "Initializing Content Agents..."
  const DispatchLog := "Agents dispatched: Copywriter, SEO, Social"
  const ExecuteDoneLog := "EXECUTE Phase Complete."
  const VerifyStartLog := "Triggering Verification Workflow..."
  const RefinementLog := "Triggering Refinement Loop automatically..."
  const PublishLog := "Campaign published to all channels via APIs."

  /** The tool badges shown while the research agent runs, and while the content agents run. */
  const ObserveTools := ["Apollo.io", "Google Trends", "SimilarWeb"]
  const ExecuteTools := ["Claude 3.5 Sonnet", "DataForSEO", "Mention", "GPT-4o"]

  const SummaryPlaceholder := "This is a placeholder for the blog summary"

  // ----- The tasks and records the handlers build -----

  function ResearchTask(b: Brief): AgentTask {
    AgentTask("market_intel", BriefRecord(b), None)
  }

  /** `{ ...brief, brandVoiceId: observeData.brandVoiceId, tone: 'Professional' }`. */
  function CopyTask(b: Brief, observeData: map<string, Value>): AgentTask {
    var context := Spread(Spread(BriefRecord(b), Copied(observeData, "brandVoiceId")), map["tone" := Str("Professional")]);
    AgentTask("blog_writing", context, None)
  }

  function SeoTask(b: Brief): AgentTask {
    AgentTask("keyword_research", map["topic" := Str(b.topic)], None)
  }

  /** `{ ...brief, content: <placeholder>, platforms: ['linkedin'], tone: 'Professional' }`. */
  function SocialTask(b: Brief): AgentTask {
    var extra := map["content" := Str(SummaryPlaceholder), "platforms" := List(["linkedin"]), "tone" := Str("Professional")];
    AgentTask("post_generation", Spread(BriefRecord(b), extra), None)
  }

  /** The same backend outcome for every platform: the page asks for LinkedIn only. */
  function ConstReply(o: Outcome<GenResponse>): string -> Outcome<GenResponse> {
    _ => o
  }

  /** The observe workflow's reply as a record. */
  function ObserveRecord(reply: ObserveReply): map<string, Value> {
    map[
      "success" := Bool(reply.success),
      "campaignId" := Str(reply.campaignId),
      "brandVoiceId" := Str(reply.brandVoiceId),
      "marketAnalysis" := Obj(map[
        "trends" := List(reply.marketAnalysis.trends),
        "competitors" := List(reply.marketAnalysis.competitors)])]
  }

  /** The research agent's data as a record; `...undefined` adds no key. */
  function FindingsRecord(d: Option<AgentData>): map<string, Value> {
    match d
    case Some(Findings(competitors, trends, leadsFound, sources)) =>
      map["competitors" := List(competitors), "trends" := List(trends), "leadsFound" := Num(leadsFound), "sources" := List(sources)]
    case _ => map[]
  }

  function CompetitorsLog(reply: ObserveReply): string {
    "Market Analysis Complete. Found " + IntToString(|reply.marketAnalysis.competitors|) + " competitors."
  }

  /** `res.metadata.toolsUsed?.join(', ')` in a template: `undefined` when there are no tools. */
  function ToolsUsedLog(res: AgentResult): string {
    "Research Agent used: " + (if res.metadata.toolsUsed.Some? then Join(res.metadata.toolsUsed.value, ", ") else "undefined")
  }

  function VerdictLog(pass: bool): string {
    "Verification Finished. Status: " + (if pass then "PASSED" else "NEEDS REVISION")
  }

  /** Whether `earlier` is an initial part of `later`: the log only grows at its end. */
  predicate Extends(later: seq<string>, earlier: seq<string>) {
    |earlier| <= |later| && later[..|earlier|] == earlier
  }

  // ----- The handlers on values -----

  /**
   * The state the page starts in: `draft` exactly when the `id` query
   * parameter is present and non-empty (JavaScript truthiness), `observe`
   * otherwise; no results, an empty log, not busy.
   */
  function Initial(idParam: Option<string>): (p: Page)
    ensures p.status == Draft <==> idParam.Some? && idParam.value != ""
    ensures p.status == Draft || p.status == Observe
    ensures p.logs == [] && p.observeData.None? && p.generatedContent.None? && p.verifyResults.None?
    ensures !p.isProcessing && p.activeTools == []
  {
    var isNew := idParam.Some? && idParam.value != "";
    Page(if isNew then Draft else Observe, [], DefaultBrief, None, None, None, false, [])
  }

  /** `startObserve` on the page state (its properties are `ObservePhase`). */
  function AfterObserve(p: Page, researchReply: Outcome<GenResponse>, observeReply: Outcome<ObserveReply>): Page {
    var res := ResearchExecute(ResearchTask(p.brief), researchReply, 0);
    ObserveSettled(ObserveStarted(p), res, observeReply)
  }

  /** The opening of `startObserve`: busy, at `observe`, two lines logged, the research badges shown. */
  function ObserveStarted(p: Page): Page {
    p.(status := Observe, logs := p.logs + [ObserveStartLog, ResearchInitLog], isProcessing := true, activeTools := ObserveTools)
  }

  /**
   * The part of `startObserve` after the research agent has answered: merge
   * its data over the workflow's reply and log both, or log the workflow's
   * error; then release the busy flag and the tool badges.
   */
  function ObserveSettled(p: Page, res: AgentResult, observeReply: Outcome<ObserveReply>): Page {
    var settled := p.(isProcessing := false, activeTools := []);
    match observeReply
    case Ok(n8nRes) =>
      settled.(observeData := Some(Spread(ObserveRecord(n8nRes), FindingsRecord(res.data))),
               logs := p.logs + [CompetitorsLog(n8nRes), ToolsUsedLog(res)])
    case Err(message) =>
      settled.(logs := p.logs + ["ERROR: Observe phase failed - " + message])
  }

  /**
   * `startObserve`: the status becomes `observe` before any call, so it is
   * `observe` whatever happens.  On success the observe data is set and four
   * lines are logged; on failure the observe data is kept and one error line
   * follows the two opening lines.  Either way the busy flag and the badges
   * are released.
   */
  lemma ObservePhase(p: Page, researchReply: Outcome<GenResponse>, observeReply: Outcome<ObserveReply>)
    ensures var r := AfterObserve(p, researchReply, observeReply);
      && r.status == Observe && !r.isProcessing && r.activeTools == []
      && r.brief == p.brief && r.generatedContent == p.generatedContent && r.verifyResults == p.verifyResults
      && Extends(r.logs, p.logs) && |r.logs| >= |p.logs| + 2
      && r.logs[|p.logs|..|p.logs| + 2] == [ObserveStartLog, ResearchInitLog]
    ensures var r := AfterObserve(p, researchReply, observeReply);
      observeReply.Err? ==>
        r.observeData == p.observeData && r.logs == p.logs + [ObserveStartLog, ResearchInitLog, "ERROR: Observe phase failed - " + observeReply.message]
    ensures var r := AfterObserve(p, researchReply, observeReply);
      observeReply.Ok? ==> |r.logs| == |p.logs| + 4 && r.observeData.Some?
  {
  }

  /** `startExecute` on the page state (its properties are `ExecutePhase`). */
  function AfterExecute(p: Page, copyReply: Outcome<GenResponse>, seoReply: Outcome<GenResponse>, socialReply: Outcome<GenResponse>): Page
  {
    if p.observeData.None? then p
    else
      var copyRes := CopywriterExecute(CopyTask(p.brief, p.observeData.value), copyReply, 0);
      var seoRes := SeoExecute(SeoTask(p.brief), seoReply, 0);
      var socialRes := SocialResult(PostsFor(["linkedin"], ConstReply(socialReply)), 0);
      ExecuteSettled(ExecuteStarted(p), copyRes, seoRes, socialRes.data)
  }

  /** The opening of `startExecute`: busy, at `execute`, two lines logged, the agents' badges shown. */
  function ExecuteStarted(p: Page): Page {
    p.(status := Execute, logs := p.logs + [ExecuteStartLog, DispatchLog], isProcessing := true, activeTools := ExecuteTools)
  }

  /**
   * The part of `startExecute` after the agents have answered: store their
   * data and move to `verify`, or log the SEO agent's error; then release
   * the busy flag and the tool badges.
   */
  function ExecuteSettled(p: Page, copyRes: AgentResult, seoRes: Outcome<AgentResult>, socialData: Option<AgentData>): Page {
    var settled := p.(isProcessing := false, activeTools := []);
    match seoRes
    case Err(message) =>
      settled.(logs := p.logs + ["ERROR: Execution failed - " + message])
    case Ok(seo) =>
      var tools := copyRes.metadata.toolsUsed.GetOr([]) + seo.metadata.toolsUsed.GetOr([]);
      settled.(status := Verify,
               generatedContent := Some(GeneratedContent(copyRes.data, seo.data, socialData, tools)),
               logs := p.logs + [ExecuteDoneLog])
  }

  /**
   * `startExecute`: nothing happens without observe data.  Otherwise the
   * status becomes `execute`; if the SEO agent throws (the only agent that
   * can), the error is logged and the status stays `execute`; otherwise the
   * three agents' data and the copy and SEO tools are stored and the status
   * moves to `verify`.  Either way the busy flag and the badges are released.
   */
  lemma ExecutePhase(p: Page, copyReply: Outcome<GenResponse>, seoReply: Outcome<GenResponse>, socialReply: Outcome<GenResponse>)
    ensures p.observeData.None? ==> AfterExecute(p, copyReply, seoReply, socialReply) == p
    ensures var r := AfterExecute(p, copyReply, seoReply, socialReply);
      p.observeData.Some? ==>
        && !r.isProcessing && r.activeTools == [] && Extends(r.logs, p.logs) && |r.logs| == |p.logs| + 3
        && r.brief == p.brief && r.observeData == p.observeData && r.verifyResults == p.verifyResults
    ensures var r := AfterExecute(p, copyReply, seoReply, socialReply);
      p.observeData.Some? && !(seoReply.Ok? && seoReply.value.KeywordReply?) ==>
        r.status == Execute && r.generatedContent == p.generatedContent
    ensures var r := AfterExecute(p, copyReply, seoReply, socialReply);
      p.observeData.Some? && seoReply.Ok? && seoReply.value.KeywordReply? ==>
        && r.status == Verify && r.generatedContent.Some?
        && r.generatedContent.value.seo == Some(RankedKeywords(Rank(seoReply.value.data)))
        && r.generatedContent.value.tools ==
             (if copyReply.Ok? && copyReply.value.ContentReply? then CopywriterTools else []) + SeoTools
  {
  }

  /**
   * `startVerify`: a passing verification moves the status to `validate`;
   * a failing one or an error leaves the status as it was.  Every reply
   * replaces the stored verification results.
   */
  function AfterVerify(p: Page, reply: Outcome<VerifyReply>): (r: Page)
    ensures !r.isProcessing && Extends(r.logs, p.logs) && |r.logs| > |p.logs|
    ensures r.brief == p.brief && r.observeData == p.observeData && r.generatedContent == p.generatedContent
    ensures r.activeTools == p.activeTools
    ensures reply.Ok? ==> r.verifyResults == Some(reply.value)
    ensures reply.Err? ==> r.verifyResults == p.verifyResults
    ensures r.status == (if reply.Ok? && reply.value.pass then Validate else p.status)
  {
    var started := p.(logs := p.logs + [VerifyStartLog], isProcessing := false);
    match reply
    case Err(message) =>
      started.(logs := started.logs + ["ERROR: Verification failed - " + message])
    case Ok(res) =>
      var judged := started.(verifyResults := Some(res), logs := started.logs + [VerdictLog(res.pass)]);
      if res.pass then judged.(status := Validate) else judged.(logs := judged.logs + [RefinementLog])
  }

  /** `publish`: the status becomes `published` whatever it was, and one line is logged. */
  function AfterPublish(p: Page): (r: Page)
    ensures r.status == Published
    ensures Extends(r.logs, p.logs) && |r.logs| == |p.logs| + 1
    ensures r.observeData == p.observeData && r.generatedContent == p.generatedContent && r.verifyResults == p.verifyResults
    ensures r.isProcessing == p.isProcessing && r.activeTools == p.activeTools && r.brief == p.brief
  {
    p.(status := Published, logs := p.logs + [PublishLog])
  }

  // ----- What the view offers -----

  /** The observe button is rendered at `draft`. */
  predicate ObserveShown(p: Page) { p.status == Draft }

  /** The execute button is rendered at `observe` once there is observe data. */
  predicate ExecuteShown(p: Page) { p.status == Observe && p.observeData.Some? }

  /** The verify button is rendered at `verify`, or at `execute` once there is content. */
  predicate VerifyShown(p: Page) { p.status == Verify || (p.status == Execute && p.generatedContent.Some?) }

  /** The publish button is rendered at `validate`. */
  predicate PublishShown(p: Page) { p.status == Validate }

  /** A click on one of the page's buttons, with the outcomes of the calls it makes. */
  datatype Action =
    | ClickObserve(researchReply: Outcome<GenResponse>, observeReply: Outcome<ObserveReply>)
    | ClickExecute(copyReply: Outcome<GenResponse>, seoReply: Outcome<GenResponse>, socialReply: Outcome<GenResponse>)
    | ClickVerify(verifyReply: Outcome<VerifyReply>)
    | ClickPublish

  /**
   * Whether the view lets the user make the click: the button is rendered
   * and, for the three phase buttons, not disabled by the busy flag (the
   * publish button has no `disabled` attribute).
   */
  predicate Offered(p: Page, a: Action) {
    match a
    case ClickObserve(_, _) => ObserveShown(p) && !p.isProcessing
    case ClickExecute(_, _, _) => ExecuteShown(p) && !p.isProcessing
    case ClickVerify(_) => VerifyShown(p) && !p.isProcessing
    case ClickPublish => PublishShown(p)
  }

  /** The handler a click runs. */
  function Apply(p: Page, a: Action): Page {
    match a
    case ClickObserve(research, observe) => AfterObserve(p, research, observe)
    case ClickExecute(copy, seo, social) => AfterExecute(p, copy, seo, social)
    case ClickVerify(verify) => AfterVerify(p, verify)
    case ClickPublish => AfterPublish(p)
  }

  /** A sequence of clicks, each handler finishing before the next click. */
  function Run(p: Page, actions: seq<Action>): Page
    decreases |actions|
  {
    if actions == [] then p else Run(Apply(p, actions[0]), actions[1..])
  }

  /** Whether every click of the sequence is offered in the state it is made in. */
  predicate AllOffered(p: Page, actions: seq<Action>)
    decreases |actions|
  {
    actions == [] || (Offered(p, actions[0]) && AllOffered(Apply(p, actions[0]), actions[1..]))
  }

  /**
   * What holds of every state the page reaches through its buttons: content
   * exists at `verify` and after; a passing verification exists at `validate`
   * and after; observe data exists from `execute` on; the page is not busy
   * between handlers and shows no tool badges.
   */
  predicate Valid(p: Page) {
    && (p.status in {Execute, Verify, Validate, Published} ==> p.observeData.Some?)
    && (p.status in {Verify, Validate, Published} ==> p.generatedContent.Some?)
    && (p.status in {Validate, Published} ==> p.verifyResults.Some? && p.verifyResults.value.pass)
    && !p.isProcessing && p.activeTools == []
  }

  // ----- Properties -----

  /**
   * On success the observe data carries every key of the workflow record and
   * of the research data, the research data winning where both have a key:
   * the research agent's fixed findings replace nothing the workflow
   * reported except on shared keys, and the brand voice and market analysis
   * come from the workflow.
   */
  lemma ObserveMergesResearchOverWorkflow(p: Page, researchReply: Outcome<GenResponse>, n8nRes: ObserveReply)
    ensures var data := AfterObserve(p, researchReply, Ok(n8nRes)).observeData.value;
      var research := FindingsRecord(ResearchExecute(ResearchTask(p.brief), researchReply, 0).data);
      && data.Keys == ObserveRecord(n8nRes).Keys + research.Keys
      && (forall k :: k in research ==> data[k] == research[k])
      && (forall k :: k in ObserveRecord(n8nRes) && k !in research ==> data[k] == ObserveRecord(n8nRes)[k])
      && data["brandVoiceId"] == Str(n8nRes.brandVoiceId)
      && data["marketAnalysis"] == ObserveRecord(n8nRes)["marketAnalysis"]
      && (researchReply.Ok? ==> data["leadsFound"] == Num(15))
      && (researchReply.Err? ==> data == ObserveRecord(n8nRes))
  {
    var research := FindingsRecord(ResearchExecute(ResearchTask(p.brief), researchReply, 0).data);
    SpreadOverrides(ObserveRecord(n8nRes), research);
  }

  /**
   * The tools stored by a successful execute phase are the copy agent's
   * followed by the SEO agent's; a failed copy agent contributes none.
   */
  lemma ExecuteToolsAreCopyThenSeo(p: Page, copyReply: Outcome<GenResponse>, keywords: seq<Keyword>, model: string, socialReply: Outcome<GenResponse>)
    requires p.observeData.Some?
    ensures var r := AfterExecute(p, copyReply, Ok(KeywordReply(keywords, model)), socialReply);
      && r.status == Verify
      && r.generatedContent.value.tools ==
           (if copyReply.Ok? && copyReply.value.ContentReply? then ["Anthropic API", "Grammarly SDK"] else [])
           + ["DataForSEO", "Google Search Console API"]
      && r.generatedContent.value.social == Some(Posts(map["linkedin" := PostOf(socialReply)]))
  {
    var posts := PostsFor(["linkedin"], ConstReply(socialReply));
    assert posts.Keys == {"linkedin"};
    assert posts == map["linkedin" := PostOf(socialReply)];
  }

  /**
   * When execute succeeds the stored copy is the copywriter's text, trimmed,
   * or nothing when the copywriter failed.
   */
  lemma ExecuteStoresCopy(p: Page, copyReply: Outcome<GenResponse>, keywords: seq<Keyword>, model: string, socialReply: Outcome<GenResponse>)
    requires p.observeData.Some?
    ensures var r := AfterExecute(p, copyReply, Ok(KeywordReply(keywords, model)), socialReply);
      r.generatedContent.Some? &&
      r.generatedContent.value.copy ==
        (if copyReply.Ok? && copyReply.value.ContentReply? then Some(Copy(Trim(copyReply.value.content))) else None)
  {
  }

  /** With the simulated keyword workflow the stored SEO data is the worked example's ranking. */
  lemma ExecuteStoresFixtureRanking(p: Page, copyReply: Outcome<GenResponse>, socialReply: Outcome<GenResponse>)
    requires p.observeData.Some?
    ensures var req := SeoRequest(SeoTask(p.brief));
      var r := AfterExecute(p, copyReply, Ok(GenerateContent(req.endpoint, req.payload)), socialReply);
      r.status == Verify && r.generatedContent.value.seo == Some(RankedKeywords(RankedFixture))
  {
    SeoWorkedExample(SeoTask(p.brief), 0);
  }

  /** At most one of the four buttons is rendered in any state. */
  lemma AtMostOneButton(p: Page)
    ensures ObserveShown(p) ==> !ExecuteShown(p) && !VerifyShown(p) && !PublishShown(p)
    ensures ExecuteShown(p) ==> !VerifyShown(p) && !PublishShown(p)
    ensures VerifyShown(p) ==> !PublishShown(p)
  {
  }

  /** While a handler is busy none of the three phase buttons can be clicked; only publish has no such guard. */
  lemma BusyBlocksPhases(p: Page, a: Action)
    requires p.isProcessing
    ensures Offered(p, a) <==> a == ClickPublish && p.status == Validate
  {
  }

  /**
   * A page opened without an `id` parameter starts at `observe` with no
   * observe data, where no button is offered at all.
   */
  lemma WithoutIdNothingIsOffered(idParam: Option<string>, a: Action)
    requires idParam.None? || idParam.value == ""
    ensures Initial(idParam).status == Observe
    ensures !Offered(Initial(idParam), a)
  {
  }

  /**
   * Following the buttons never moves the campaign backwards in the
   * progress order, so the stepper never turns a completed step back.
   */
  lemma {:induction false} OfferedNeverRegresses(p: Page, a: Action)
    requires Offered(p, a)
    ensures Stepper.Ordinal(p.status) <= Stepper.Ordinal(Apply(p, a).status)
    ensures forall id :: Stepper.Progress(Stepper.GetStepState(p.status, id)) <= Stepper.Progress(Stepper.GetStepState(Apply(p, a).status, id))
  {
    var q := Apply(p, a);
    match a
    case ClickObserve(research, observe) =>
      assert q.status == Observe;
    case ClickExecute(copy, seo, social) =>
      assert q.status == Execute || q.status == Verify;
    case ClickVerify(verify) =>
      assert q.status == p.status || q.status == Validate;
    case ClickPublish =>
      assert q.status == Published;
  }

  /** The initial state is valid, and every offered click keeps the state valid. */
  lemma {:induction false} OfferedKeepsValid(p: Page, a: Action)
    requires Valid(p) && Offered(p, a)
    ensures Valid(Apply(p, a))
  {
    match a
    case ClickObserve(research, observe) =>
    case ClickExecute(copy, seo, social) =>
    case ClickVerify(verify) =>
    case ClickPublish =>
  }

  lemma InitialIsValid(idParam: Option<string>)
    ensures Valid(Initial(idParam))
  {
  }

  /** Any sequence of offered clicks from a valid state ends in a valid state. */
  lemma {:induction false} RunKeepsValid(p: Page, actions: seq<Action>)
    requires Valid(p) && AllOffered(p, actions)
    ensures Valid(Run(p, actions))
    decreases |actions|
  {
    if actions != [] {
      OfferedKeepsValid(p, actions[0]);
      RunKeepsValid(Apply(p, actions[0]), actions[1..]);
    }
  }

  /** Any sequence of clicks, offered or not, only appends to the log. */
  lemma {:induction false} RunOnlyAppendsLogs(p: Page, actions: seq<Action>)
    ensures Extends(Run(p, actions).logs, p.logs)
    decreases |actions|
  {
    if actions != [] {
      var q := Apply(p, actions[0]);
      assert Extends(q.logs, p.logs);
      RunOnlyAppendsLogs(q, actions[1..]);
      var r := Run(q, actions[1..]);
      assert r.logs[..|p.logs|] == r.logs[..|q.logs|][..|p.logs|];
    }
  }

  /** Whether a verify reply fails to pass. */
  predicate NotPassing(reply: Outcome<VerifyReply>) {
    reply.Err? || !reply.value.pass
  }

  /**
   * Repeated verifications that do not pass never move the status, and
   * each adds to the log; there is no automatic retry.
   */
  lemma {:induction false} FailingVerifyNeverMoves(p: Page, actions: seq<Action>)
    requires forall i :: 0 <= i < |actions| ==> actions[i].ClickVerify? && NotPassing(actions[i].verifyReply)
    ensures Run(p, actions).status == p.status
    ensures |Run(p, actions).logs| >= |p.logs| + |actions|
    decreases |actions|
  {
    if actions != [] {
      FailingVerifyNeverMoves(Apply(p, actions[0]), actions[1..]);
    }
  }

  // ----- The page as an object -----

  /** The page component's state hooks, updated in place by its handlers. */
  class CampaignDetail {
    var status: CampaignStatus
    var logs: seq<string>
    var brief: Brief
    var observeData: Option<map<string, Value>>
    var generatedContent: Option<GeneratedContent>
    var verifyResults: Option<VerifyReply>
    var isProcessing: bool
    var activeTools: seq<string>

    /** The current state as a value. */
    function Snapshot(): Page
      reads this
    {
      Page(status, logs, brief, observeData, generatedContent, verifyResults, isProcessing, activeTools)
    }

    /** The state hooks' initial values for the page's `id` query parameter. */
    constructor(idParam: Option<string>)
      ensures Snapshot() == Initial(idParam)
    {
      var isNew := idParam.Some? && idParam.value != "";
      status := if isNew then Draft else Observe;
      logs := [];
      brief := DefaultBrief;
      observeData := None;
      generatedContent := None;
      verifyResults := None;
      isProcessing := false;
      activeTools := [];
    }

    /** `addLog`: appends one line and changes nothing else. */
    method AddLog(msg: string)
      modifies this`logs
      ensures logs == old(logs) + [msg]
    {
      logs := logs + [msg];
    }

    /** `startObserve`, with the outcomes of the research agent's call and of the observe workflow. */
    method StartObserve(researchReply: Outcome<GenResponse>, observeReply: Outcome<ObserveReply>)
      modifies this
      ensures Snapshot() == AfterObserve(old(Snapshot()), researchReply, observeReply)
    {
      OpenObserve();
      var res := ResearchExecute(ResearchTask(brief), researchReply, 0);
      FinishObserve(res, observeReply);
    }

    /** The opening of `startObserve`, before the research agent is called. */
    method OpenObserve()
      modifies this
      ensures Snapshot() == ObserveStarted(old(Snapshot()))
    {
      isProcessing := true;
      status := Observe;
      AddLog(ObserveStartLog);
      AddLog(ResearchInitLog);
      activeTools := ObserveTools;
    }

    /** The rest of `startObserve` once the research agent has answered. */
    method FinishObserve(res: AgentResult, observeReply: Outcome<ObserveReply>)
      modifies this
      ensures Snapshot() == ObserveSettled(old(Snapshot()), res, observeReply)
    {
      match observeReply {
        case Ok(n8nRes) =>
          observeData := Some(Spread(ObserveRecord(n8nRes), FindingsRecord(res.data)));
          AddLog(CompetitorsLog(n8nRes));
          AddLog(ToolsUsedLog(res));
        case Err(message) =>
          AddLog("ERROR: Observe phase failed - " + message);
      }
      isProcessing := false;
      activeTools := [];
    }

    /** `startExecute`, with the outcomes of the copywriter's, the SEO agent's and the LinkedIn post's calls. */
    method StartExecute(copyReply: Outcome<GenResponse>, seoReply: Outcome<GenResponse>, socialReply: Outcome<GenResponse>)
      modifies this
      ensures Snapshot() == AfterExecute(old(Snapshot()), copyReply, seoReply, socialReply)
    {
      if observeData.None? {
        return;
      }
      OpenExecute();
      var copyRes := CopywriterExecute(CopyTask(brief, observeData.value), copyReply, 0);
      var seoRes := SeoExecute(SeoTask(brief), seoReply, 0);
      var socialData := RunSocialAgent(socialReply);
      FinishExecute(copyRes, seoRes, socialData);
    }

    /** The opening of `startExecute`, before the agents are called. */
    method OpenExecute()
      modifies this
      ensures Snapshot() == ExecuteStarted(old(Snapshot()))
    {
      isProcessing := true;
      status := Execute;
      AddLog(ExecuteStartLog);
      AddLog(DispatchLog);
      activeTools := ExecuteTools;
    }

    /** The rest of `startExecute` once the three agents have answered. */
    method FinishExecute(copyRes: AgentResult, seoRes: Outcome<AgentResult>, socialData: Option<AgentData>)
      modifies this
      ensures Snapshot() == ExecuteSettled(old(Snapshot()), copyRes, seoRes, socialData)
    {
      match seoRes {
        case Err(message) =>
          AddLog("ERROR: Execution failed - " + message);
        case Ok(seo) =>
          var tools := copyRes.metadata.toolsUsed.GetOr([]) + seo.metadata.toolsUsed.GetOr([]);
          generatedContent := Some(GeneratedContent(copyRes.data, seo.data, socialData, tools));
          AddLog(ExecuteDoneLog);
          status := Verify;
      }
      isProcessing := false;
      activeTools := [];
    }

    /** The social agent run on the page's post-generation task, which asks for LinkedIn only. */
    method RunSocialAgent(socialReply: Outcome<GenResponse>) returns (data: Option<AgentData>)
      ensures data == SocialResult(PostsFor(["linkedin"], ConstReply(socialReply)), 0).data
    {
      var socialTask := SocialTask(brief);
      assert PlatformsOf(socialTask.context) == Some(["linkedin"]);
      var socialRes := SocialExecute(socialTask, ConstReply(socialReply), 0);
      data := socialRes.value.data;
    }

    /** `startVerify`, with the outcome of the verify workflow. */
    method StartVerify(verifyReply: Outcome<VerifyReply>)
      modifies this
      ensures Snapshot() == AfterVerify(old(Snapshot()), verifyReply)
    {
      isProcessing := true;
      AddLog(VerifyStartLog);
      match verifyReply {
        case Ok(res) =>
          verifyResults := Some(res);
          AddLog(VerdictLog(res.pass));
          if res.pass {
            status := Validate;
          } else {
            AddLog(RefinementLog);
          }
        case Err(message) =>
          AddLog("ERROR: Verification failed - " + message);
      }
      isProcessing := false;
    }

    /** `publish`. */
    method Publish()
      modifies this
      ensures Snapshot() == AfterPublish(old(Snapshot()))
    {
      status := Published;
      AddLog(PublishLog);
    }
  }
}
