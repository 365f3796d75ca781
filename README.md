# Marketing dashboard core, modelled in Dafny

This project models the deterministic core of a mock marketing dashboard.
The dashboard is a React/TypeScript single-page app that runs campaigns
through four phases: OBSERVE, EXECUTE, VERIFY and VALIDATE. It then
publishes them. The model covers five parts of that app.

- **The agent executors** (`services/agents.ts`). The research,
  copywriter, SEO and social agents package an outside backend call into an
  `AgentResult`. The SEO agent scores keyword candidates by opportunity and
  sorts them. It is proved to return a stable, descending permutation of
  the scored list, and that result is unique. The social agent fills a
  dictionary of posts, one entry per platform, in a loop.
- **The mock n8n backend** (`services/n8nService.ts`). These are the
  response builders of the simulated workflows: the endpoint dispatch of
  `generateContent` with its defaults, the fixed keyword list, the hashtag
  built by removing whitespace from the topic, and the observe and verify
  replies.
- **The campaign page controller** (`pages/CampaignDetail.tsx`).
  - The page's state is a class, `CampaignDetail`, whose fields are the
    React state hooks. Its methods perform `addLog`, `startObserve`,
    `startExecute`, `startVerify` and `publish` step by step.
  - Each handler is proved to end in the state given by a function on the
    value `Page`.
  - Lemmas about those functions state the lifecycle properties: no
    regression, the invariant kept by offered clicks, and append-only logs.
  - The view's button guards are predicates.
- **The progress stepper** (`components/OEVVStepper.tsx`). This is
  `getStepState` over the fixed seven-status order.
- **The integration switch** (`pages/Settings.tsx`). This is
  `toggleIntegration`.

JavaScript semantics the code relies on are written out in module `Js`:
- truthiness and `||` defaults;
- `String(v)`;
- the `\s` character class, `trim` and `replace(/\s/g, '')`;
- `join`;
- object spread.

Each outside call is a parameter of type `Outcome` (`Ok(reply)` or
`Err(message)`). So are the random draws: the observe id draw, and the
verify `pass` bit.

Files:
- `wrappers.dfy`
- `js.dfy`
- `types.dfy`
- `n8n.dfy`
- `seo_ranking.dfy`
- `agents.dfy`
- `stepper.dfy`
- `settings.dfy`
- `campaign_detail.dfy`

Behaviours of the code the model keeps:
- **The two observe calls run one after the other.** `startObserve` awaits the
  research agent, then the observe workflow (`pages/CampaignDetail.tsx:53`
  and `:59`). They are not concurrent.
- **A failed phase does not revert the status.** The status is set before
  the calls are made, and a failure leaves it at `observe` or `execute`.
- **`startVerify` has no guard of its own.** Only the view restricts when it
  can run.
- **A failing SEO call fails the execute phase.** The SEO agent has no
  try/catch, so a backend failure rejects `Promise.all` and the phase stays
  at `execute`. An individual executor failure is tolerated only for the
  copywriter and the social agent.
- **`draft` depends on the `id` query parameter.** The page starts at `draft`
  exactly when `?id=` is present and non-empty (JavaScript truthiness).
  Without it the page starts at `observe` with no observe data, and in that
  state no button is offered (`WithoutIdNothingIsOffered`).

## Model

| member | source | states |
|---|---|---|
| Js.Or | services/n8nService.ts:77-79 | `a \|\| b`: `a` when it is present and truthy, `b` otherwise |
| Js.Trim | services/agents.ts:94 | the result has no whitespace at either end and is the input with only `\s` characters removed from its two ends |
| Js.TrimKeepsTrimmed | services/agents.ts:94 | a string that neither starts nor ends with whitespace is its own trim |
| Js.TrimIsIdempotent | services/agents.ts:94 | trimming twice is trimming once |
| Js.StripWhitespace | services/n8nService.ts:95 | the result contains no `\s` character, is no longer than the input, is the input itself when the input has none and empty when the input is all whitespace; with `StripWhitespaceAppend` this fixes it as the input's non-whitespace characters in order |
| Js.StripWhitespaceAppend | services/n8nService.ts:95 | removing whitespace from a concatenation is the concatenation of the two parts with whitespace removed |
| Js.NatToString | services/n8nService.ts:57 | decimal rendering: non-empty, all digits, no leading zero (0 is exactly "0"), and its digit value is the number |
| Js.SpreadOverrides | pages/CampaignDetail.tsx:61 | `{...a, ...b}` has the keys of both records, `b`'s value on shared keys and `a`'s elsewhere |
| N8n.ContextOf | services/n8nService.ts:77 | `data.context` when truthy, else `data` when truthy, else `{}` |
| N8n.TopicOf | services/n8nService.ts:78 | `context.topic` when it is present and truthy, "your topic" otherwise |
| N8n.ToneOf | services/n8nService.ts:79 | `context.tone` when it is present and truthy, "Professional" otherwise |
| N8n.DefaultTopicAndTone | services/n8nService.ts:78-79 | with no truthy topic or tone the defaults are "your topic" and "Professional" |
| N8n.CopyText | services/n8nService.ts:82 | the copy text contains the topic and the tone, each rendered as text |
| N8n.SocialText | services/n8nService.ts:95-96 | the post contains `#` followed by the whitespace-free topic |
| N8n.GenerateContent | services/n8nService.ts:69-108 | keyword reply exactly for the SEO endpoint, with the fixed list and gemini-pro; copy text with topic and tone, claude-sonnet-4.5, cost 0.015; social hashtag, gpt-4o, cost 0.002; any other endpoint gives empty content, gpt-4o-mini, 0.002 |
| N8n.Hashtag | services/n8nService.ts:95 | the topic as text with every `\s` removed; its contract is stated by `HashtagHasNoWhitespace` and `HashtagJoinsWords` |
| N8n.HashtagHasNoWhitespace | services/n8nService.ts:95 | the hashtag never contains whitespace, a topic without whitespace is kept as it is, and the default topic gives "yourtopic" |
| N8n.HashtagJoinsWords | services/n8nService.ts:95 | two whitespace-free words separated by a whitespace run become the two words joined |
| N8n.DefaultHashtag | services/n8nService.ts:78-95 | the default topic "your topic" becomes the hashtag "yourtopic" |
| N8n.TriggerObservePhase | services/n8nService.ts:51-66 | success, brand voice bv-123, campaign id exactly "c-" followed by `String` of the draw (its decimal digits, no leading zero), and the market analysis with trends AI Adoption, Personalization and competitors CompA, CompB |
| N8n.TriggerVerifyPhase | services/n8nService.ts:111-128 | three checks; brand_voice scores 95 with no issue on pass and 65 with one issue otherwise; 3 variants exactly on pass, else 0 |
| N8n.VerifyPassMeansClean | services/n8nService.ts:115-125 | a verify reply passes iff none of its checks reports an issue, and iff every check scores above 80 |
| SeoRanking.AnalyzeAll | services/agents.ts:135-137 | every entry keeps term, difficulty and volume, in order, and carries `(searchVolume/1000)*(100-difficulty)` |
| SeoRanking.Insert | services/agents.ts:138 | insertion adds exactly the new entry (multiset) and puts it first or keeps the old head |
| SeoRanking.InsertSorted | services/agents.ts:138 | inserting into a descending list keeps it descending |
| SeoRanking.InsertTies | services/agents.ts:138 | the inserted entry goes in front of its own score's run and every other run is untouched |
| SeoRanking.SortByScore | services/agents.ts:138 | sorted non-increasing, a permutation of the input, and equal scores keep their input order |
| SeoRanking.Rank | services/agents.ts:135-138 | score then sort; stated by `RankIsStableDescendingSort` and `AnyStableSortIsRank` |
| SeoRanking.RankIsStableDescendingSort | services/agents.ts:135-138 | the SEO output has the input's length, is descending, is a permutation of the scored input and is stable |
| SeoRanking.StableSortIsUnique | services/agents.ts:138 | two descending lists with the same entries per score, in the same order, are equal |
| SeoRanking.AnyStableSortIsRank | services/agents.ts:135-138 | every stable descending sort of the scored keywords is exactly the SEO agent's output |
| Agents.ResearchExecute | services/agents.ts:37-70 | success iff the backend call succeeded; then the fixed findings with leadsFound 15, gpt-4o and the three tools; otherwise no data, the error message, agent name and time only |
| Agents.ResearchAgainstSimulator | services/agents.ts:42-45 | the research request goes to an endpoint the simulated backend does not know, which gives empty content, and the agent still succeeds with the fixed findings |
| Agents.CopywriterExecute | services/agents.ts:79-118 | success iff the backend returned text; the data is that text trimmed, with no error and the backend's model and cost; an error or a reply without text gives `success=false` with the message |
| Agents.CopywriterDataIsTrimmed | services/agents.ts:94 | the stored copy has no whitespace at its ends and is the backend text minus only leading and trailing whitespace |
| Agents.CopywriterAgainstSimulator | services/agents.ts:87-92 | the copywriter request carries the task's context, so against the simulated backend the copy mentions the task's truthy topic and its tone ("Professional" when it has none), and the agent succeeds with claude-sonnet-4.5 |
| Agents.SeoExecute | services/agents.ts:127-152 | another task type fails at once with time 0; a backend error escapes; a keyword reply gives success with the ranked list, the backend's model and the two tools |
| Agents.SeoOtherTaskIgnoresBackend | services/agents.ts:130-151 | without keyword_research the result does not depend on the backend or the clock, and is `success=false` |
| Agents.SeoOutputRanked | services/agents.ts:135-138 | the agent's data has one entry per keyword, is descending, a permutation of the scored list, and stable |
| Agents.FixtureRank | services/agents.ts:135-138 | the fixed keyword list ranks as generative ai for business (770), ai marketing tools (660), automated copywriting (350) |
| Agents.SeoWorkedExample | services/n8nService.ts:85-93 | the SEO agent run against the simulated keyword workflow returns that ranking |
| Agents.PlatformsOf | services/agents.ts:163 | platforms default to ["linkedin"] when absent or falsy; an array is used as given; any other truthy value gives no list, where `platforms.map` throws |
| Agents.SocialExecute | services/agents.ts:161-189 | after the loop over the platforms the posts are exactly one entry per requested platform with that platform's post; success; a non-array platforms value throws |
| Agents.PostsFor | services/agents.ts:164-178 | the posts dictionary built by the loop; stated by `SocialFanOut` |
| Agents.SocialFanOut | services/agents.ts:164-178 | the posts' keys are the distinct platforms; a failed call maps to no post; a text reply maps to its text; never more keys than platforms |
| Agents.SocialThreePlatformsOneFailing | services/agents.ts:164-182 | three distinct platforms with one failing give three keys, the failing one without a post, and success |
| Agents.SocialHashtagIgnoresTopic | services/agents.ts:168-172 | the social request sends no topic, so the simulated post's hashtag is always the default topic's |
| Stepper.IndexOf | components/OEVVStepper.tsx:19-20 | `indexOf`: the first position holding the value, or -1 exactly when it is absent |
| Stepper.Position | components/OEVVStepper.tsx:19-20 | `statusOrder.indexOf(status)`; stated by `PositionIsOrdinal` and `PositionIsFaithful` |
| Stepper.PositionIsOrdinal | components/OEVVStepper.tsx:18-20 | the position in the status order is each status's rank, so it is never -1 |
| Stepper.PositionIsFaithful | components/OEVVStepper.tsx:18-20 | every status has a position and distinct statuses have distinct positions |
| Stepper.GetStepState | components/OEVVStepper.tsx:17-25 | completed iff the status is past the step, current iff it is the step, upcoming iff it has not reached it |
| Stepper.StepsAreThePhases | components/OEVVStepper.tsx:9-14 | the four steps are observe, execute, verify, validate in order, labelled as such |
| Stepper.AtMostOneCurrent | components/OEVVStepper.tsx:9-24 | at most one step is current, it is the step whose id is the status, and one exists iff the status is one of the four phases |
| Stepper.EndsOfTheOrder | components/OEVVStepper.tsx:18-24 | at draft every step is upcoming; at published and completed every step is completed |
| Stepper.AdvancingIsMonotone | components/OEVVStepper.tsx:18-24 | advancing the status never moves a step back; a completed step stays completed |
| Settings.Flipped | pages/Settings.tsx:18 | connected becomes disconnected and every other status becomes connected |
| Settings.ToggleIntegration | pages/Settings.tsx:15-22 | same length and order; non-matching items unchanged; a matching item has only its status flipped |
| Settings.AbsentIdLeavesListUnchanged | pages/Settings.tsx:16-20 | toggling an id no item has leaves the list as it was |
| Settings.ToggleTwiceRestores | pages/Settings.tsx:18 | toggling twice restores the list when no matching item is in error |
| Settings.ErrorGoesToConnected | pages/Settings.tsx:18 | a matching item in error goes to connected and then disconnected, so toggling twice does not restore it |
| CampaignPage.Initial | pages/CampaignDetail.tsx:13-33 | draft iff the id parameter is present and non-empty, observe otherwise; no results, empty log, not busy, no badges |
| CampaignPage.ObservePhase | pages/CampaignDetail.tsx:42-72 | status is observe whatever happens; on error the observe data is kept and exactly the two opening lines and one error line are logged; on success four lines and observe data; busy flag and badges released |
| CampaignPage.ObserveMergesResearchOverWorkflow | pages/CampaignDetail.tsx:61 | observe data holds every key of the workflow reply and of the research data, research winning on shared keys; brand voice and market analysis come from the workflow; leadsFound is 15 when research succeeded |
| CampaignPage.ExecutePhase | pages/CampaignDetail.tsx:75-119 | a no-op without observe data; a failing SEO call leaves execute and the content unchanged; otherwise verify with the ranked keywords and tools = copy tools ++ SEO tools; busy flag and badges released |
| CampaignPage.ExecuteToolsAreCopyThenSeo | pages/CampaignDetail.tsx:104-109 | the stored tools are the copywriter's (if it succeeded) followed by the SEO agent's, and the social data is the single LinkedIn post |
| CampaignPage.ExecuteStoresCopy | pages/CampaignDetail.tsx:104-105 | when execute succeeds the stored copy is the copywriter's trimmed text, or nothing when the copywriter failed |
| CampaignPage.ExecuteStoresFixtureRanking | pages/CampaignDetail.tsx:94-97 | against the simulated keyword workflow the stored SEO data is the worked example's ranking |
| CampaignPage.AfterObserve | pages/CampaignDetail.tsx:42-72 | the state after `startObserve`; stated by `ObservePhase` and `ObserveMergesResearchOverWorkflow` |
| CampaignPage.AfterExecute | pages/CampaignDetail.tsx:75-119 | the state after `startExecute`; stated by `ExecutePhase`, `ExecuteToolsAreCopyThenSeo`, `ExecuteStoresCopy` and `ExecuteStoresFixtureRanking` |
| CampaignPage.AfterVerify | pages/CampaignDetail.tsx:122-144 | status moves to validate iff the reply passes, else stays; every reply replaces the results and an error keeps them; log only grows; not busy |
| CampaignPage.AfterPublish | pages/CampaignDetail.tsx:146-149 | status becomes published whatever it was, one line is appended, nothing else changes |
| CampaignPage.ObserveShown | pages/CampaignDetail.tsx:198-203 | the observe button is rendered at draft; see `AtMostOneButton` |
| CampaignPage.ExecuteShown | pages/CampaignDetail.tsx:204-209 | the execute button is rendered at observe once there is observe data; see `AtMostOneButton` |
| CampaignPage.VerifyShown | pages/CampaignDetail.tsx:220-225 | the verify button is rendered at verify, or at execute once there is content; see `AtMostOneButton` |
| CampaignPage.PublishShown | pages/CampaignDetail.tsx:160-164 | the publish button is rendered at validate; see `AtMostOneButton` |
| CampaignPage.Offered | pages/CampaignDetail.tsx:160-225 | a click is possible when its button is rendered and, for the three phase buttons, not disabled by the busy flag; stated by `BusyBlocksPhases`, `WithoutIdNothingIsOffered` and `OfferedKeepsValid` |
| CampaignPage.AtMostOneButton | pages/CampaignDetail.tsx:160-225 | the publish, observe, execute and verify buttons are never rendered together |
| CampaignPage.BusyBlocksPhases | pages/CampaignDetail.tsx:199-221 | while busy none of the three phase buttons can be clicked; only publish (no disabled attribute) at validate |
| CampaignPage.WithoutIdNothingIsOffered | pages/CampaignDetail.tsx:13-17 | without an id parameter the page starts at observe with no observe data and offers no button |
| CampaignPage.OfferedNeverRegresses | pages/CampaignDetail.tsx:42-149 | a click the view offers never moves the status backwards, so no stepper step moves back |
| CampaignPage.InitialIsValid | pages/CampaignDetail.tsx:17-33 | the initial state satisfies the page invariant |
| CampaignPage.OfferedKeepsValid | pages/CampaignDetail.tsx:42-149 | an offered click keeps the invariant: observe data from execute on, content from verify on, a passing verification from validate on, idle with no badges |
| CampaignPage.RunKeepsValid | pages/CampaignDetail.tsx:42-149 | any sequence of offered clicks from a valid state ends valid |
| CampaignPage.RunOnlyAppendsLogs | pages/CampaignDetail.tsx:35 | any sequence of handlers only appends to the log: earlier lines never change |
| CampaignPage.FailingVerifyNeverMoves | pages/CampaignDetail.tsx:134-138 | repeated non-passing verifications never move the status and each adds to the log |
| CampaignPage.CampaignDetail.constructor | pages/CampaignDetail.tsx:17-33 | the state hooks start as `Initial` describes |
| CampaignPage.CampaignDetail.AddLog | pages/CampaignDetail.tsx:35 | appends exactly the message to the log and changes nothing else |
| CampaignPage.CampaignDetail.StartObserve | pages/CampaignDetail.tsx:42-72 | leaves the page in the state `AfterObserve` describes |
| CampaignPage.CampaignDetail.StartExecute | pages/CampaignDetail.tsx:75-119 | leaves the page in the state `AfterExecute` describes |
| CampaignPage.CampaignDetail.StartVerify | pages/CampaignDetail.tsx:122-144 | leaves the page in the state `AfterVerify` describes |
| CampaignPage.CampaignDetail.Publish | pages/CampaignDetail.tsx:146-149 | leaves the page in the state `AfterPublish` describes |

## Left out

- Rendering, routing and styling are left out: all JSX, `App.tsx`, `components/Layout.tsx`, `pages/Dashboard.tsx` and `pages/Analytics.tsx`. They are presentation only.
- `pages/Campaigns.tsx` is left out. It only loads a list into a table and builds an id from `Date.now()`.
- `services/integrationRegistry.ts` is left out. Its only behaviour is a static table and a timer.
- `getCampaigns`, the `Campaign` and `DashboardStats` interfaces, and `handleBriefChange` are left out. They are a data load, display records, and a form update with a dynamic key.
- Timers (`setTimeout`) are left out, and so is the asynchrony of each handler. A handler runs to its end before the next starts, so `isProcessing` and the tool badges are observed only at rest. The model keeps the code's setting of them during a handler, but not the "Agents working..." view shown meanwhile.
- `Promise.all` in `startExecute` and in the social agent is not modelled as concurrency. Each sub-call's outcome is an input, and the results are merged in sequence. The social reply is a function of the platform, so duplicate platforms get the same post and completion order does not matter.
- `Math.random` (n8nService.ts:57,115) is not modelled. The id draw and the `pass` bit are parameters.
- `Date.now`, `executionTime` and log timestamps are not modelled. The agents take the elapsed time as a parameter, and the page passes 0 because it never reads it. Log lines are kept without their timestamp prefix.
- `console.log`, `console.error` and `logToBackend` are left out. They have no effect on state.
- The request the page sends to the verify workflow is not modelled. The simulated workflow ignores it.
- The cost constants and the opportunity score are modelled as exact reals, not IEEE doubles. The scores of the fixture are exact in both.
- Backend replies are typed (`KeywordReply` or `ContentReply`) rather than arbitrary objects. A reply of the wrong shape is handled as the code would fail on it, by its TypeError message.
- `null` and `undefined` posts are merged into `None`. A `brandVoiceId` read from observe data that lacks it is omitted rather than set to `undefined`.
- The automatic refinement loop is not modelled. It is only logged and never implemented.
- The scored keyword list's fields beyond term, difficulty and volume are not modelled. The backend's keywords carry only those three.
